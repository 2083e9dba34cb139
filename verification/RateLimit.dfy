// The fixed-window rate limiter: the in-memory counter, the Redis script it
// stands in for, and how many requests either lets through.

module RateLimit {
  import opened Common

  // The counter is an unsigned 32-bit integer that wraps around.
  const U32 := 0x1_0000_0000

  datatype MemCell = MemCell(count: nat, windowStart: Time)

  datatype Verdict = Accept | Reject(retryAfter: nat)

  // The script's key: its counter, and the millisecond after which the server drops it.
  datatype RedisKey = RedisKey(count: nat, expiresAt: Time)

  // A limit of `limit` requests per `window` seconds.
  datatype Rule = Rule(limit: nat, window: nat)

  predicate IsRule(rule: Rule) {
    rule.limit < U32
  }

  function Micros(seconds: nat): nat {
    seconds * SECOND
  }

  // ------------------------------------------------------------ one request

  function MemStep(rule: Rule, found: Option<MemCell>, now: Time): (MemCell, Verdict) {
    var cell := if found.None? then MemCell(0, now) else found.value;
    var current := if now - cell.windowStart >= Micros(rule.window) then MemCell(0, now) else cell;
    var counted := current.(count := (current.count + 1) % U32);
    (counted, if counted.count <= rule.limit then Accept else Reject(RetryAfter(rule, now - counted.windowStart)))
  }

  function RetryAfter(rule: Rule, elapsed: Time): nat {
    var left := rule.window - elapsed / SECOND;
    if left < 1 then 1 else left
  }

  function Millis(t: Time): int {
    t / 1_000
  }

  // INCR, EXPIRE on the first count (which drops the key at once when the
  // window is zero), then the comparison. The server keeps time in whole
  // milliseconds and still finds the key in the millisecond of its timeout.
  function RedisStep(rule: Rule, found: Option<RedisKey>, now: Time): (Option<RedisKey>, bool) {
    var live := found.Some? && Millis(now) <= found.value.expiresAt;
    var key := if live then found.value.(count := found.value.count + 1)
               else RedisKey(1, Millis(now) + 1_000 * rule.window);
    (if rule.window == 0 then None else Some(key), key.count <= rule.limit)
  }

  class MemoryLimiter {
    var cells: map<string, MemCell>

    constructor ()
      ensures cells == map[]
    {
      cells := map[];
    }

    // `now` comes from a monotone clock. Only the cell of this scope and key changes.
    method CheckMem(scope: string, key: string, rule: Rule, now: Time) returns (verdict: Verdict)
      modifies this
      ensures verdict.Reject? ==> verdict.retryAfter >= 1
      ensures cells.Keys == old(cells).Keys + {scope + ":" + key}
      ensures forall k :: k in old(cells) && k != scope + ":" + key ==> cells[k] == old(cells)[k]
      ensures cells == old(cells)[MapKey(scope, key) := MemStep(rule, Lookup(old(cells), MapKey(scope, key)), now).0]
      ensures verdict == MemStep(rule, Lookup(old(cells), MapKey(scope, key)), now).1
    {
      var mapKey := scope + ":" + key;
      if mapKey !in cells {
        cells := cells[mapKey := MemCell(0, now)];
      }
      var entry := cells[mapKey];
      if now - entry.windowStart >= rule.window * SECOND {
        entry := MemCell(0, now);
      }
      entry := entry.(count := (entry.count + 1) % U32);
      cells := cells[mapKey := entry];
      if entry.count > rule.limit {
        var elapsed := (now - entry.windowStart) / SECOND;
        return Reject(if rule.window - elapsed < 1 then 1 else rule.window - elapsed);
      }
      return Accept;
    }
  }

  function Lookup<T>(cells: map<string, T>, key: string): Option<T> {
    if key in cells then Some(cells[key]) else None
  }

  function MapKey(scope: string, key: string): string {
    scope + ":" + key
  }

  // Different scopes never share a counter, since no scope has a colon in its name.
  lemma {:induction false} MapKeysDiffer(scope: string, key: string, scope': string, key': string)
    requires ':' !in scope && ':' !in scope'
    ensures MapKey(scope, key) == MapKey(scope', key') <==> scope == scope' && key == key'
  {
    SplitAfterFirst(scope, ':', key);
    SplitAfterFirst(scope', ':', key');
    if MapKey(scope, key) == MapKey(scope', key') {
      assert SplitAt(MapKey(scope, key), ':')[0] == scope;
      assert SplitAt(MapKey(scope', key'), ':')[0] == scope';
      assert MapKey(scope, key)[|scope| + 1..] == key;
    }
  }

  // ------------------------------------------------------- runs of one key

  // The state after the requests, and the answer to each.
  function MemRun(rule: Rule, times: seq<Time>): (run: (Option<MemCell>, seq<bool>))
    ensures |run.1| == |times|
  {
    if times == [] then (None, [])
    else
      var (before, told) := MemRun(rule, times[..|times| - 1]);
      var (cell, verdict) := MemStep(rule, before, times[|times| - 1]);
      (Some(cell), told + [verdict.Accept?])
  }

  function RedisRun(rule: Rule, times: seq<Time>): (run: (Option<RedisKey>, seq<bool>))
    ensures |run.1| == |times|
  {
    if times == [] then (None, [])
    else
      var (before, told) := RedisRun(rule, times[..|times| - 1]);
      var (key, accepted) := RedisStep(rule, before, times[|times| - 1]);
      (key, told + [accepted])
  }

  datatype Server = Fallback | Script

  // Whether a window opened at one instant is over at another.
  predicate Over(server: Server, window: nat, start: Time, now: Time) {
    match server
    case Fallback => now - start >= Micros(window)
    case Script => window == 0 || Millis(now) > Millis(start) + 1_000 * window
  }

  lemma OverMeansLate(server: Server, window: nat, start: Time, now: Time)
    requires start <= now && Over(server, window, start, now)
    ensures now - start >= Micros(window)
  {
  }

  // What fixed windows mean: the first request opens a window, and so does
  // every request that finds the latest window over. This is the request that
  // opened the window of request i.
  function Opening(server: Server, window: nat, times: seq<Time>, i: nat): (opening: nat)
    requires i < |times|
    ensures opening <= i
  {
    if i == 0 then 0
    else
      var latest := Opening(server, window, times, i - 1);
      if Over(server, window, times[latest], times[i]) then i else latest
  }

  // The place of request i in its window, from 1.
  function Place(server: Server, window: nat, times: seq<Time>, i: nat): (place: nat)
    requires i < |times|
    ensures place >= 1
  {
    i - Opening(server, window, times, i) + 1
  }

  lemma {:induction false} OpeningOfPrefix(server: Server, window: nat, times: seq<Time>, n: nat, i: nat)
    requires i < n <= |times|
    ensures Opening(server, window, times[..n], i) == Opening(server, window, times, i)
  {
    if i > 0 {
      OpeningOfPrefix(server, window, times, n, i - 1);
    }
  }

  lemma WrapAddsOne(n: nat)
    ensures (n % U32 + 1) % U32 == (n + 1) % U32
  {
  }

  // The cell after a run is that of the last request's window.
  lemma {:induction false} MemState(rule: Rule, times: seq<Time>)
    requires times != []
    ensures var last := |times| - 1;
            MemRun(rule, times).0 == Some(MemCell(Place(Fallback, rule.window, times, last) % U32, times[Opening(Fallback, rule.window, times, last)]))
    decreases |times|
  {
    var last := |times| - 1;
    if last > 0 {
      MemState(rule, times[..last]);
      OpeningOfPrefix(Fallback, rule.window, times, last, last - 1);
      WrapAddsOne(Place(Fallback, rule.window, times, last - 1));
    }
  }

  lemma {:induction false} MemAnswers(rule: Rule, times: seq<Time>, i: nat)
    requires i < |times|
    ensures MemRun(rule, times).1[i] <==> Place(Fallback, rule.window, times, i) % U32 <= rule.limit
    decreases |times|
  {
    var last := |times| - 1;
    MemState(rule, times);
    if last > 0 {
      MemAnswers(rule, times[..last], if i < last then i else 0);
      OpeningOfPrefix(Fallback, rule.window, times, last, if i < last then i else 0);
    }
  }

  // The script's key after request i.
  function KeyAt(rule: Rule, times: seq<Time>, i: nat): Option<RedisKey>
    requires i < |times|
  {
    if rule.window == 0 then None
    else Some(RedisKey(Place(Script, rule.window, times, i), Millis(times[Opening(Script, rule.window, times, i)]) + 1_000 * rule.window))
  }

  lemma KeyMoves(rule: Rule, times: seq<Time>, i: nat)
    requires 0 < i < |times|
    requires times[Opening(Script, rule.window, times, i - 1)] <= times[i]
    ensures RedisStep(rule, KeyAt(rule, times, i - 1), times[i]) == (KeyAt(rule, times, i), Place(Script, rule.window, times, i) <= rule.limit)
  {
  }

  lemma KeyOfPrefix(rule: Rule, times: seq<Time>, n: nat, i: nat)
    requires i < n <= |times|
    ensures KeyAt(rule, times[..n], i) == KeyAt(rule, times, i)
  {
    OpeningOfPrefix(Script, rule.window, times, n, i);
  }

  lemma {:induction false} RedisState(rule: Rule, times: seq<Time>)
    requires times != [] && Chronological(times)
    ensures RedisRun(rule, times).0 == KeyAt(rule, times, |times| - 1)
    decreases |times|
  {
    var last := |times| - 1;
    if last > 0 {
      RedisState(rule, times[..last]);
      KeyOfPrefix(rule, times, last, last - 1);
      KeyMoves(rule, times, last);
    }
  }

  lemma LastAnswer(rule: Rule, times: seq<Time>)
    requires times != [] && Chronological(times)
    ensures RedisStep(rule, RedisRun(rule, times[..|times| - 1]).0, times[|times| - 1]).1 <==>
              Place(Script, rule.window, times, |times| - 1) <= rule.limit
  {
    var last := |times| - 1;
    if last > 0 {
      RedisState(rule, times[..last]);
      KeyOfPrefix(rule, times, last, last - 1);
      KeyMoves(rule, times, last);
    }
  }

  lemma {:induction false} RedisAnswers(rule: Rule, times: seq<Time>, i: nat)
    requires i < |times| && Chronological(times)
    ensures RedisRun(rule, times).1[i] <==> Place(Script, rule.window, times, i) <= rule.limit
    decreases |times|
  {
    var last := |times| - 1;
    LastAnswer(rule, times);
    if last > 0 {
      RedisAnswers(rule, times[..last], if i < last then i else 0);
      OpeningOfPrefix(Script, rule.window, times, last, if i < last then i else 0);
    }
  }

  // ------------------------------------------------------------- refinement

  // A request at the very end of its window: a full window has passed since
  // the opening, but the server still has the key in this millisecond.
  predicate IsTie(window: nat, times: seq<Time>, i: nat)
    requires 0 < i < |times|
  {
    var start := times[Opening(Fallback, window, times, i - 1)];
    Over(Fallback, window, start, times[i]) && !Over(Script, window, start, times[i])
  }

  predicate NoTies(window: nat, times: seq<Time>) {
    forall i :: 0 < i < |times| ==> !IsTie(window, times, i)
  }

  // Until the first tie both see the same windows.
  lemma {:induction false} SameOpenings(window: nat, times: seq<Time>, i: nat)
    requires Chronological(times) && i < |times| && forall j :: 0 < j <= i ==> !IsTie(window, times, j)
    ensures Opening(Script, window, times, i) == Opening(Fallback, window, times, i)
  {
    if i > 0 {
      SameOpenings(window, times, i - 1);
      var start := times[Opening(Fallback, window, times, i - 1)];
      assert !IsTie(window, times, i) && start <= times[i];
      if Over(Script, window, start, times[i]) {
        OverMeansLate(Script, window, start, times[i]);
      }
    }
  }

  lemma WrapMatters(place: nat, limit: nat)
    requires limit < U32
    ensures (place % U32 <= limit <==> place <= limit) <==> place < U32 || place % U32 > limit
  {
  }

  // Short of ties, the fallback and the script answer a request differently exactly
  // when the counter of its window has wrapped around to a value within the limit.
  lemma SameAnswerUnlessWrapped(rule: Rule, times: seq<Time>, i: nat)
    requires IsRule(rule) && Chronological(times) && NoTies(rule.window, times) && i < |times|
    ensures MemRun(rule, times).1[i] == RedisRun(rule, times).1[i] <==>
              Place(Fallback, rule.window, times, i) < U32 || Place(Fallback, rule.window, times, i) % U32 > rule.limit
  {
    MemAnswers(rule, times, i);
    RedisAnswers(rule, times, i);
    SameOpenings(rule.window, times, i);
    WrapMatters(Place(Fallback, rule.window, times, i), rule.limit);
  }

  // Places are counted up one by one.
  lemma {:induction false} PlacesBelow(window: nat, times: seq<Time>, i: nat, place: nat)
    requires i < |times| && 1 <= place <= Place(Fallback, window, times, i)
    ensures exists j :: 0 <= j <= i && Place(Fallback, window, times, j) == place
  {
    if place < Place(Fallback, window, times, i) {
      PlacesBelow(window, times, i - 1, place);
    }
  }

  predicate NoWrap(window: nat, times: seq<Time>) {
    forall i :: 0 <= i < |times| ==> Place(Fallback, window, times, i) < U32
  }

  // Short of ties, both give the same answers throughout exactly when no window sees 2^32 requests.
  lemma MemRefinesRedis(rule: Rule, times: seq<Time>)
    requires IsRule(rule) && Chronological(times) && NoTies(rule.window, times)
    ensures MemRun(rule, times).1 == RedisRun(rule, times).1 <==> NoWrap(rule.window, times)
  {
    if times != [] {
      MemAnswers(rule, times, 0);
      RedisAnswers(rule, times, 0);
      forall i | 0 <= i < |times| && Place(Fallback, rule.window, times, i) < U32
        ensures MemRun(rule, times).1[i] == RedisRun(rule, times).1[i]
      {
        SameAnswerUnlessWrapped(rule, times, i);
      }
      if i :| 0 <= i < |times| && Place(Fallback, rule.window, times, i) >= U32 {
        PlacesBelow(rule.window, times, i, U32);
        var j :| 0 <= j <= i && Place(Fallback, rule.window, times, j) == U32;
        SameAnswerUnlessWrapped(rule, times, j);
        assert MemRun(rule, times).1[j] != RedisRun(rule, times).1[j];
      }
    }
  }

  lemma TiePlaces(window: nat, times: seq<Time>, i: nat)
    requires Chronological(times) && 0 < i < |times| && IsTie(window, times, i) && forall j :: 0 < j < i ==> !IsTie(window, times, j)
    ensures Place(Fallback, window, times, i) == 1 && Place(Script, window, times, i) >= 2
  {
    SameOpenings(window, times, i - 1);
  }

  lemma PlacesSplitThem(window: nat, times: seq<Time>, i: nat)
    requires Chronological(times) && i < |times|
    requires Place(Fallback, window, times, i) == 1 && Place(Script, window, times, i) >= 2
    ensures MemRun(Rule(1, window), times).1 != RedisRun(Rule(1, window), times).1
  {
    MemAnswers(Rule(1, window), times, i);
    RedisAnswers(Rule(1, window), times, i);
    assert MemRun(Rule(1, window), times).1[i] != RedisRun(Rule(1, window), times).1[i];
  }

  // At the first tie the fallback opens a window where the script counts on.
  lemma {:induction false} TieSplitsThem(window: nat, times: seq<Time>, i: nat)
    requires Chronological(times) && 0 < i < |times| && IsTie(window, times, i)
    ensures MemRun(Rule(1, window), times).1 != RedisRun(Rule(1, window), times).1
  {
    if j :| 0 < j < i && IsTie(window, times, j) {
      TieSplitsThem(window, times, j);
    } else {
      TiePlaces(window, times, i);
      PlacesSplitThem(window, times, i);
    }
  }

  // On requests that wrap no counter the two agree under every limit if and
  // only if no request falls into the last millisecond of a window that is over.
  lemma AgreeUnderEveryLimitExactly(window: nat, times: seq<Time>)
    requires Chronological(times) && NoWrap(window, times)
    ensures (forall limit: nat :: limit < U32 ==> MemRun(Rule(limit, window), times).1 == RedisRun(Rule(limit, window), times).1)
            <==> NoTies(window, times)
  {
    if NoTies(window, times) {
      forall limit: nat | limit < U32
        ensures MemRun(Rule(limit, window), times).1 == RedisRun(Rule(limit, window), times).1
      {
        MemRefinesRedis(Rule(limit, window), times);
      }
    } else {
      var i :| 0 < i < |times| && IsTie(window, times, i);
      TieSplitsThem(window, times, i);
    }
  }

  // Two requests a second apart, under a limit of one per second.
  lemma SomeTie()
    ensures Chronological([0, SECOND]) && NoWrap(1, [0, SECOND]) && IsTie(1, [0, SECOND], 1)
    ensures MemRun(Rule(1, 1), [0, SECOND]).1 != RedisRun(Rule(1, 1), [0, SECOND]).1
  {
    TieSplitsThem(1, [0, SECOND], 1);
  }

  // ---------------------------------------------------------------- counting

  function Accepted(answers: seq<bool>, from: nat, to: nat): nat
    requires from <= to <= |answers|
  {
    if from == to then 0 else Accepted(answers, from, to - 1) + if answers[to - 1] then 1 else 0
  }

  // How many windows open strictly after request `from` and before request `to`.
  function Openings(server: Server, window: nat, times: seq<Time>, from: nat, to: nat): nat
    requires from < to <= |times|
  {
    if from + 1 == to then 0
    else Openings(server, window, times, from, to - 1) + if Opening(server, window, times, to - 1) == to - 1 then 1 else 0
  }

  function Min(a: nat, b: nat): nat {
    if a <= b then a else b
  }

  // Answers that accept a request only when its place is within the limit.
  predicate WithinPlaces(server: Server, rule: Rule, times: seq<Time>, answers: seq<bool>) {
    |answers| == |times| && forall i :: 0 <= i < |times| && answers[i] ==> Place(server, rule.window, times, i) <= rule.limit
  }

  lemma {:induction false} AcceptedPerOpening(server: Server, rule: Rule, times: seq<Time>, answers: seq<bool>, from: nat, to: nat)
    requires from < to <= |times| && WithinPlaces(server, rule, times, answers)
    ensures Accepted(answers, from, to) <=
              rule.limit * Openings(server, rule.window, times, from, to) + Min(rule.limit, Place(server, rule.window, times, to - 1))
  {
    if from + 1 < to {
      AcceptedPerOpening(server, rule, times, answers, from, to - 1);
      OneMore(rule.limit, Openings(server, rule.window, times, from, to - 1));
    } else {
      assert Accepted(answers, from, from) == 0;
    }
  }

  function Times(n: nat, unit: nat): nat {
    if n == 0 then 0 else Times(n - 1, unit) + unit
  }

  lemma {:induction false} TimesIsProduct(n: nat, unit: nat)
    ensures Times(n, unit) == n * unit
  {
    if n > 0 {
      TimesIsProduct(n - 1, unit);
      assert n * unit == (n - 1) * unit + unit;
    }
  }

  lemma {:induction false} OpeningsAreSpaced(server: Server, window: nat, times: seq<Time>, from: nat, to: nat)
    requires from < to <= |times| && Chronological(times)
    ensures var n := Openings(server, window, times, from, to);
            && (n == 0 ==> Opening(server, window, times, to - 1) <= from)
            && (n > 0 ==> times[Opening(server, window, times, to - 1)] - times[from] >= Times(n - 1, Micros(window)))
  {
    if from + 1 < to {
      OpeningsAreSpaced(server, window, times, from, to - 1);
      var latest := times[Opening(server, window, times, to - 2)];
      if Over(server, window, latest, times[to - 1]) {
        OverMeansLate(server, window, latest, times[to - 1]);
      }
    }
  }

  lemma OpeningsFit(server: Server, window: nat, times: seq<Time>, from: nat, to: nat, length: nat)
    requires Chronological(times) && from < to <= |times| && times[to - 1] - times[from] <= length
    ensures var n := Openings(server, window, times, from, to);
            n > 0 ==> Times(n - 1, Micros(window)) <= length
  {
    OpeningsAreSpaced(server, window, times, from, to);
    var latest := Opening(server, window, times, to - 1);
    assert times[latest] <= times[to - 1];
  }

  lemma FewOpenings(server: Server, window: nat, times: seq<Time>, from: nat, to: nat, length: nat)
    requires window > 0 && Chronological(times) && from < to <= |times| && times[to - 1] - times[from] <= length
    ensures Openings(server, window, times, from, to) <= length / Micros(window) + 1
  {
    OpeningsFit(server, window, times, from, to, length);
    var n := Openings(server, window, times, from, to);
    if n > 0 {
      FewUnits(n - 1, Micros(window), length);
    }
  }

  lemma FewUnits(n: nat, unit: nat, length: nat)
    requires unit > 0 && Times(n, unit) <= length
    ensures n <= length / unit
  {
    TimesIsProduct(n, unit);
    QuotientBound(n, unit, length);
  }

  // Requests within `length` of each other that are let through, whatever came before.
  lemma IntervalBoundOf(server: Server, rule: Rule, times: seq<Time>, answers: seq<bool>, from: nat, to: nat, length: nat)
    requires rule.window > 0 && Chronological(times) && WithinPlaces(server, rule, times, answers)
    requires from < to <= |times| && times[to - 1] - times[from] <= length
    ensures Accepted(answers, from, to) <= rule.limit * (length / Micros(rule.window) + 2)
    ensures Opening(server, rule.window, times, to - 1) <= from ==> Accepted(answers, from, to) <= rule.limit
  {
    AcceptedPerOpening(server, rule, times, answers, from, to);
    FewOpenings(server, rule.window, times, from, to, length);
    if Opening(server, rule.window, times, to - 1) <= from {
      NoOpeningInside(server, rule.window, times, from, to);
    }
    var n := Openings(server, rule.window, times, from, to);
    OneMore(rule.limit, n);
    ProductsGrow(rule.limit, n + 1, length / Micros(rule.window) + 2);
  }

  lemma OneMore(c: nat, n: nat)
    ensures c * (n + 1) == c * n + c
  {
  }

  lemma {:induction false} NoOpeningInside(server: Server, window: nat, times: seq<Time>, from: nat, to: nat)
    requires from < to <= |times| && Opening(server, window, times, to - 1) <= from
    ensures Openings(server, window, times, from, to) == 0
  {
    if from + 1 < to {
      NoOpeningInside(server, window, times, from, to - 1);
    }
  }

  lemma QuotientBound(n: nat, unit: nat, length: nat)
    requires unit > 0 && n * unit <= length
    ensures n <= length / unit
  {
    assert unit * (length / unit + 1) == unit * (length / unit) + unit > length;
    if n > length / unit {
      ProductsGrow(unit, length / unit + 1, n);
      assert false;
    }
  }

  lemma ProductsGrow(c: nat, a: nat, b: nat)
    requires a <= b
    ensures c * a <= c * b
  {
    assert c * (b - a) >= 0;
  }

  // The script lets at most `limit` requests through per window, and at most
  // limit * (floor(length / window) + 2) in any stretch of time.
  lemma RedisIntervalBound(rule: Rule, times: seq<Time>, from: nat, to: nat, length: nat)
    requires rule.window > 0 && Chronological(times) && from < to <= |times| && times[to - 1] - times[from] <= length
    ensures Accepted(RedisRun(rule, times).1, from, to) <= rule.limit * (length / Micros(rule.window) + 2)
    ensures Opening(Script, rule.window, times, to - 1) <= from ==> Accepted(RedisRun(rule, times).1, from, to) <= rule.limit
  {
    RedisAnswers(rule, times, 0);
    forall i | 0 <= i < |times| ensures RedisRun(rule, times).1[i] ==> Place(Script, rule.window, times, i) <= rule.limit {
      RedisAnswers(rule, times, i);
    }
    IntervalBoundOf(Script, rule, times, RedisRun(rule, times).1, from, to, length);
  }

  // So does the fallback, as long as no window sees 2^32 requests.
  lemma MemIntervalBound(rule: Rule, times: seq<Time>, from: nat, to: nat, length: nat)
    requires IsRule(rule) && rule.window > 0 && Chronological(times) && NoWrap(rule.window, times)
    requires from < to <= |times| && times[to - 1] - times[from] <= length
    ensures Accepted(MemRun(rule, times).1, from, to) <= rule.limit * (length / Micros(rule.window) + 2)
    ensures Opening(Fallback, rule.window, times, to - 1) <= from ==> Accepted(MemRun(rule, times).1, from, to) <= rule.limit
  {
    MemAnswers(rule, times, 0);
    forall i | 0 <= i < |times| ensures MemRun(rule, times).1[i] ==> Place(Fallback, rule.window, times, i) <= rule.limit {
      MemAnswers(rule, times, i);
    }
    IntervalBoundOf(Fallback, rule, times, MemRun(rule, times).1, from, to, length);
  }

  // -------------------------------------------------------- one whole window

  predicate OneWindow(window: nat, times: seq<Time>) {
    forall i :: 0 <= i < |times| ==> times[i] - times[0] < Micros(window)
  }

  lemma {:induction false} OneWindowPlaces(window: nat, times: seq<Time>, i: nat)
    requires OneWindow(window, times) && i < |times|
    ensures Opening(Fallback, window, times, i) == 0
  {
    if i > 0 {
      OneWindowPlaces(window, times, i - 1);
    }
  }

  lemma {:induction false} AcceptedSoFar(rule: Rule, times: seq<Time>, n: nat)
    requires IsRule(rule) && OneWindow(rule.window, times) && n <= |times|
    ensures n < U32 ==> Accepted(MemRun(rule, times).1, 0, n) == Min(rule.limit, n)
    ensures n >= U32 ==> Accepted(MemRun(rule, times).1, 0, n) > rule.limit
  {
    if times != [] {
      MemAnswers(rule, times, 0);
    }
    if n > 0 {
      AcceptedSoFar(rule, times, n - 1);
      OneWindowPlaces(rule.window, times, n - 1);
      MemAnswers(rule, times, n - 1);
    }
  }

  // The fallback keeps a window to its limit exactly when fewer than 2^32 requests arrive in it.
  lemma WindowLimitHoldsUnlessWrapped(rule: Rule, times: seq<Time>)
    requires IsRule(rule) && OneWindow(rule.window, times)
    ensures Accepted(MemRun(rule, times).1, 0, |times|) <= rule.limit <==> |times| < U32
  {
    AcceptedSoFar(rule, times, |times|);
  }

  // 2^32 requests at one instant: without a tie, the fallback lets through more than the
  // limit and answers unlike the script.
  lemma SomeWindowWraps(rule: Rule) returns (times: seq<Time>)
    requires IsRule(rule) && rule.window > 0
    ensures times == seq(U32, _ => 0) && NoTies(rule.window, times)
    ensures Accepted(MemRun(rule, times).1, 0, |times|) > rule.limit
    ensures MemRun(rule, times).1 != RedisRun(rule, times).1
  {
    times := seq(U32, _ => 0);
    WindowLimitHoldsUnlessWrapped(rule, times);
    OneWindowPlaces(rule.window, times, U32 - 1);
    MemRefinesRedis(rule, times);
    assert Place(Fallback, rule.window, times, U32 - 1) == U32;
  }

  // ------------------------------------------------------------ retry advice

  // After a rejection the advice is the least whole number of seconds after
  // which a lone retry is let through.
  lemma RetryAdviceIsExact(rule: Rule, found: Option<MemCell>, now: Time, wait: nat)
    requires IsRule(rule) && rule.limit >= 1 && rule.window >= 1
    requires found.Some? ==> found.value.windowStart <= now
    requires MemStep(rule, found, now).1.Reject?
    requires MemStep(rule, found, now).0.count + 1 < U32
    ensures var (cell, verdict) := MemStep(rule, found, now);
            MemStep(rule, Some(cell), now + Micros(wait)).1.Accept? <==> wait >= verdict.retryAfter
    ensures 1 <= MemStep(rule, found, now).1.retryAfter <= rule.window
  {
  }

  // ---------------------------------------------------------- runs of all keys

  datatype Hit = Hit(key: string, at: Time)

  function Cells(rule: string -> Rule, hits: seq<Hit>): map<string, MemCell> {
    if hits == [] then map[]
    else
      var before := Cells(rule, hits[..|hits| - 1]);
      var hit := hits[|hits| - 1];
      before[hit.key := MemStep(rule(hit.key), Lookup(before, hit.key), hit.at).0]
  }

  function TimesOf(hits: seq<Hit>, key: string): seq<Time> {
    if hits == [] then []
    else TimesOf(hits[..|hits| - 1], key) + if hits[|hits| - 1].key == key then [hits[|hits| - 1].at] else []
  }

  // Whatever the other keys do, a key's cell is that of its own requests.
  lemma {:induction false} KeysAreIndependent(rule: string -> Rule, hits: seq<Hit>, key: string)
    ensures Lookup(Cells(rule, hits), key) == MemRun(rule(key), TimesOf(hits, key)).0
    decreases |hits|
  {
    if hits != [] {
      var front := hits[..|hits| - 1];
      KeysAreIndependent(rule, front, key);
      var hit := hits[|hits| - 1];
      if hit.key == key {
        var times := TimesOf(hits, key);
        assert times[..|times| - 1] == TimesOf(front, key);
      } else {
        assert TimesOf(hits, key) == TimesOf(front, key);
      }
    }
  }
}
