// The device grant seen from the client: the token endpoint as it is polled,
// and the polling loop of the TypeScript SDK run against it.
//
// One poll reads the row and records itself as a single step.

module DevicePolling {
  import opened Common
  import opened Scopes
  import opened OAuthRuns
  import RT = RefreshTokens

  const MILLISECOND: Time := 1_000

  // What a poll at `at` finds: users may have decided since the last one.
  datatype Poll = Poll(at: Time, presenter: ClientId, status: Status)

  function Answers(row: DeviceRow, polls: seq<Poll>): (DeviceRow, seq<PollAnswer>) {
    if polls == [] then (row, [])
    else
      var (before, told) := Answers(row, polls[..|polls| - 1]);
      var p := polls[|polls| - 1];
      var found := before.(status := p.status);
      (RecordPoll(found, p.presenter, p.at), told + [AnswerPoll(found, p.presenter, p.at)])
  }

  function Instants(polls: seq<Poll>): (times: seq<Time>)
    ensures |times| == |polls| && forall i {:trigger times[i]} {:trigger polls[i]} :: 0 <= i < |polls| ==> times[i] == polls[i].at
  {
    seq(|polls|, i requires 0 <= i < |polls| => polls[i].at)
  }

  lemma {:induction false} RunShape(row: DeviceRow, polls: seq<Poll>)
    requires Chronological(Instants(polls))
    ensures (|Answers(row, polls).1|, Answers(row, polls).0.data) == (|polls|, row.data)
    ensures forall i :: 0 <= i < |polls| && Answers(row, polls).1[i].AuthorizationPending? ==>
              Answers(row, polls).0.lastPolledAt.Some? && polls[i].at <= Answers(row, polls).0.lastPolledAt.value
    decreases |polls|
  {
    if polls != [] {
      RunShape(row, polls[..|polls| - 1]);
    }
  }

  // Two answers `authorization_pending` for one device code are at least the
  // polling interval apart, whoever polls and whatever is decided meanwhile.
  lemma {:induction false} PendingAnswersAreSpaced(row: DeviceRow, polls: seq<Poll>, i: nat, j: nat)
    requires Chronological(Instants(polls)) && i < j < |polls| && |Answers(row, polls).1| == |polls|
    requires Answers(row, polls).1[i].AuthorizationPending? && Answers(row, polls).1[j].AuthorizationPending?
    ensures polls[j].at - polls[i].at >= 5 * SECOND
    decreases |polls|
  {
    var front := polls[..|polls| - 1];
    RunShape(row, front);
    if j < |front| {
      PendingAnswersAreSpaced(row, front, i, j);
    }
  }

  function PendingCount(told: seq<PollAnswer>): nat {
    if told == [] then 0
    else PendingCount(told[..|told| - 1]) + if told[|told| - 1].AuthorizationPending? then 1 else 0
  }

  // `n` polls were told to keep waiting, the last record on the row being no earlier than their spacing allows.
  predicate Paced(row: DeviceRow, start: Time, n: nat) {
    var spaced := n > 0 ==> row.lastPolledAt.Some? && start + (n - 1) * POLL_INTERVAL <= row.lastPolledAt.value;
    var paced := row.data.expiresAt == start + DEVICE_CODE_TTL && n <= 181 && spaced;
    paced
  }

  lemma PacedStep(row: DeviceRow, start: Time, n: nat, p: Poll)
    requires Paced(row, start, n) && start <= p.at
    requires n > 0 ==> row.lastPolledAt.value <= p.at
    ensures var found := row.(status := p.status);
            var pending := AnswerPoll(found, p.presenter, p.at).AuthorizationPending?;
            Paced(RecordPoll(found, p.presenter, p.at), start, if pending then n + 1 else n)
  {
  }

  lemma {:induction false} RunIsPaced(row: DeviceRow, start: Time, polls: seq<Poll>)
    requires Chronological(Instants(polls)) && row.data.expiresAt == start + DEVICE_CODE_TTL
    requires forall i :: 0 <= i < |polls| ==> start <= polls[i].at
    ensures Paced(Answers(row, polls).0, start, PendingCount(Answers(row, polls).1))
    ensures PendingCount(Answers(row, polls).1) > 0 ==> Answers(row, polls).0.lastPolledAt.value <= polls[|polls| - 1].at
    decreases |polls|
  {
    if polls != [] {
      var front := polls[..|polls| - 1];
      RunIsPaced(row, start, front);
      var (before, told) := Answers(row, front);
      var p := polls[|polls| - 1];
      PacedStep(before, start, PendingCount(told), p);
      assert (told + [AnswerPoll(before.(status := p.status), p.presenter, p.at)])[..|told|] == told;
    } else {
      assert Paced(row, start, 0);
    }
  }

  // Over the life of a device code at most 181 polls are told to keep waiting.
  lemma AtMost181PendingAnswers(row: DeviceRow, start: Time, polls: seq<Poll>)
    requires Chronological(Instants(polls)) && row.data.expiresAt == start + 900 * SECOND
    requires forall i :: 0 <= i < |polls| ==> start <= polls[i].at
    ensures PendingCount(Answers(row, polls).1) <= 181
  {
    RunIsPaced(row, start, polls);
  }

  // ------------------------------------------------------------- the endpoints

  datatype DeviceResult =
    | Tokens(req: RT.Request)
    | Refused(answer: PollAnswer)
    | UnknownCode
    | MembershipInactive
    | NoUser

  // What the approval page sends: "approve", "deny", or something it should not.
  datatype Decision = Decision(user: Id, word: string)

  datatype DecisionResult = Decided | TokenInvalid | Forbidden | BadDecision

  class DeviceAuthorizations {
    var devices: map<Id, DeviceRow>

    constructor ()
      ensures devices == map[]
    {
      devices := map[];
    }

    // For an application with an organization: the code is pending and lives for 15 minutes.
    method DeviceAuthorization(id: Id, client: ClientId, org: Option<Id>, scope: string, now: Time) returns (started: bool)
      modifies this
      ensures started <==> org.Some? && ParseScopes(if scope == "" then "openid profile email" else scope).Some?
      ensures !started ==> devices == old(devices)
      ensures started ==>
                devices == old(devices)[id := DeviceRow(DeviceData(id, client, org.value,
                             ParseScopes(if scope == "" then "openid profile email" else scope).value,
                             now + 900 * SECOND), Pending, None, None)]
    {
      if org.None? {
        return false;
      }
      var asked := scope;
      if asked == "" {
        asked := "openid profile email";
      }
      var parsed := ParseScopes(asked);
      if parsed.None? {
        return false;
      }
      devices := devices[id := DeviceRow(DeviceData(id, client, org.value, parsed.value, now + DEVICE_CODE_TTL), Pending, None, None)];
      return true;
    }

    method DeviceApprove(members: set<(Id, Id)>, id: Id, decision: Decision, now: Time) returns (result: DecisionResult)
      modifies this
      ensures result.TokenInvalid? <==>
                id !in old(devices) || old(devices)[id].status != Pending || old(devices)[id].data.expiresAt <= now
      ensures result.Forbidden? <==>
                !result.TokenInvalid? && (decision.user, old(devices)[id].data.org) !in members
      ensures result.Decided? <==>
                && id in old(devices) && old(devices)[id].status == Pending && old(devices)[id].data.expiresAt > now
                && (decision.user, old(devices)[id].data.org) in members
                && (decision.word == "approve" || decision.word == "deny")
      ensures result.Decided? ==>
                var row := old(devices)[id];
                devices == old(devices)[id := if decision.word == "approve"
                                              then DeviceRow(row.data, Approved, Some(decision.user), row.lastPolledAt)
                                              else DeviceRow(row.data, Denied, None, row.lastPolledAt)]
      ensures devices == if result.Decided? then Decide(old(devices), id, decision.user, decision.word == "approve", now).0
                         else old(devices)
    {
      if id !in devices || devices[id].status != Pending || devices[id].data.expiresAt <= now {
        return TokenInvalid;
      }
      var row := devices[id];
      if (decision.user, row.data.org) !in members {
        return Forbidden;
      }
      if decision.word != "approve" && decision.word != "deny" {
        return BadDecision;
      }
      if decision.word == "approve" {
        devices := devices[id := row.(status := Approved, user := Some(decision.user))];
      } else {
        devices := devices[id := row.(status := Denied, user := None)];
      }
      return Decided;
    }

    // Polls for tokens. An approval is consumed before anything else can fail.
    method TokenDeviceCode(members: set<(Id, Id)>, id: Id, presenter: ClientId, now: Time) returns (result: DeviceResult)
      modifies this
      ensures result == UnknownCode <==> id !in old(devices)
      // Another client learns nothing about the code, and changes nothing.
      ensures result == Refused(ForAnotherClient) <==> id in old(devices) && old(devices)[id].data.client != presenter
      ensures result == Refused(ExpiredToken) <==>
                && id in old(devices) && old(devices)[id].data.client == presenter
                && (old(devices)[id].status == Expired || old(devices)[id].data.expiresAt < now)
      ensures result == Refused(AccessDenied) <==>
                && id in old(devices) && old(devices)[id].data.client == presenter && now <= old(devices)[id].data.expiresAt
                && old(devices)[id].status == Denied
      ensures result == Refused(SlowDown) <==>
                && id in old(devices) && old(devices)[id].data.client == presenter && now <= old(devices)[id].data.expiresAt
                && old(devices)[id].status == Pending
                && old(devices)[id].lastPolledAt.Some? && now < old(devices)[id].lastPolledAt.value + 5 * SECOND
      ensures result == Refused(AuthorizationPending) <==>
                && id in old(devices) && old(devices)[id].data.client == presenter && now <= old(devices)[id].data.expiresAt
                && old(devices)[id].status == Pending
                && (old(devices)[id].lastPolledAt.None? || old(devices)[id].lastPolledAt.value + 5 * SECOND <= now)
      ensures result == Refused(SlowDown) || result == Refused(AuthorizationPending) ==>
                devices == old(devices)[id := old(devices)[id].(lastPolledAt := Some(now))]
      ensures result.Refused? && result.answer != SlowDown && result.answer != AuthorizationPending ==> devices == old(devices)
      ensures result.UnknownCode? ==> devices == old(devices)
      // Tokens for the approving user, if that is still a member, and on one poll only.
      ensures result.Tokens? <==>
                && id in old(devices) && old(devices)[id].data.client == presenter && now <= old(devices)[id].data.expiresAt
                && old(devices)[id].status == Approved && old(devices)[id].user.Some?
                && (old(devices)[id].user.value, old(devices)[id].data.org) in members
      ensures result.Tokens? ==>
                var row := old(devices)[id];
                result.req == RT.Request(presenter, Actor(User, row.user.value), row.data.org, row.data.scopes)
      ensures result.Tokens? || result.NoUser? || result.MembershipInactive? ==>
                && id in old(devices) && old(devices)[id].status == Approved
                && devices == old(devices)[id := old(devices)[id].(status := Expired)]
      ensures id in old(devices) ==>
                var answer := AnswerPoll(old(devices)[id], presenter, now);
                && (answer.Proceed? <==> result.Tokens? || result.NoUser? || result.MembershipInactive?)
                && (!answer.Proceed? ==> result == Refused(answer))
                && devices == if answer.Proceed? then ConsumeApproval(old(devices), id).0
                              else old(devices)[id := RecordPoll(old(devices)[id], presenter, now)]
    {
      if id !in devices {
        return UnknownCode;
      }
      var row := devices[id];
      if row.data.client != presenter {
        return Refused(ForAnotherClient);
      }
      if row.status == Expired || row.data.expiresAt < now {
        return Refused(ExpiredToken);
      }
      if row.status == Denied {
        return Refused(AccessDenied);
      }
      if row.status == Approved {
        devices := devices[id := row.(status := Expired)];
        if row.user.None? {
          return NoUser;
        }
        if (row.user.value, row.data.org) !in members {
          return MembershipInactive;
        }
        return Tokens(RT.Request(row.data.client, Actor(User, row.user.value), row.data.org, row.data.scopes));
      }
      var tooFast := row.lastPolledAt.Some? && now - row.lastPolledAt.value < POLL_INTERVAL;
      devices := devices[id := row.(lastPolledAt := Some(now))];
      return Refused(if tooFast then SlowDown else AuthorizationPending);
    }
  }

  // ---------------------------------------------------------------- the SDK loop

  datatype SdkResult = Done(last: DeviceResult) | TimedOut

  lemma ProductMonotone(a: nat, b: nat, c: nat)
    requires a >= b
    ensures a * c >= b * c
  {
    assert (a - b) * c >= 0;
  }

  lemma FloorBound(n: nat, interval: nat, timeout: nat)
    requires interval > 0 && n * interval <= timeout
    ensures n <= timeout / interval
  {
    var q := timeout / interval;
    assert timeout == q * interval + timeout % interval;
    assert (q + 1) * interval == q * interval + interval;
    if n >= q + 1 {
      ProductMonotone(n, q + 1, interval);
    }
  }

  // A timer of 0 ms takes 1 ms.
  function Pause(intervalMs: nat): (pause: nat)
    ensures pause > 0
  {
    if intervalMs < 1 then 1 else intervalMs
  }

  // One request to the token endpoint, as far as the loop is concerned.
  method Ask(server: DeviceAuthorizations, members: set<(Id, Id)>, id: Id, presenter: ClientId, now: Time)
    returns (answer: DeviceResult)
    modifies server
    ensures answer == Refused(SlowDown) ==>
              && id in old(server.devices) && old(server.devices)[id].lastPolledAt.Some?
              && now - old(server.devices)[id].lastPolledAt.value < POLL_INTERVAL
    ensures answer == Refused(AuthorizationPending) || answer == Refused(SlowDown) ==>
              id in server.devices && server.devices[id].lastPolledAt == Some(now)
  {
    answer := server.TokenDeviceCode(members, id, presenter, now);
  }

  // What users do while the loop sleeps leaves the record of the last poll alone.
  method LetUserDecide(server: DeviceAuthorizations, members: set<(Id, Id)>, id: Id, decision: Option<Decision>, now: Time)
    modifies server
    ensures id in server.devices ==>
              id in old(server.devices) && server.devices[id].lastPolledAt == old(server.devices)[id].lastPolledAt
  {
    if decision.Some? {
      var _ := server.DeviceApprove(members, id, decision.value, now);
    }
  }

  // `pollDeviceCode`. Between polls the loop sleeps at least `intervalMs`,
  // `oversleep(k)` longer before poll k, and the user may decide. A loop with at
  // least the server's interval that polls alone is never told to slow down.
  method PollDeviceCode(server: DeviceAuthorizations, members: set<(Id, Id)>, id: Id, presenter: ClientId,
                        intervalMs: nat, timeoutMs: nat, start: Time,
                        oversleep: nat -> nat, decides: nat -> Option<Decision>)
    returns (result: SdkResult, polls: nat, told: seq<DeviceResult>)
    modifies server
    ensures polls == |told| && 1 <= polls <= timeoutMs / Pause(intervalMs) + 2
    ensures result.Done? ==> result.last == told[polls - 1]
    ensures result.Done? ==> result.last != Refused(AuthorizationPending) && result.last != Refused(SlowDown)
    ensures forall k :: 0 <= k < polls - 1 ==> told[k] == Refused(AuthorizationPending) || told[k] == Refused(SlowDown)
    ensures intervalMs >= 5_000
            && (id in old(server.devices) && old(server.devices)[id].lastPolledAt.Some? ==>
                  start - old(server.devices)[id].lastPolledAt.value >= 5 * SECOND)
            ==> Refused(SlowDown) !in told
  {
    var pause := Pause(intervalMs);
    var slept: nat := pause * MILLISECOND;
    var started := start;
    var now := start;
    told := [];
    polls := 0;
    while true
      invariant polls == |told|
      invariant now - started >= polls * slept
      invariant polls > 0 ==> (polls - 1) * pause <= timeoutMs
      invariant forall k :: 0 <= k < polls ==> told[k] == Refused(AuthorizationPending) || told[k] == Refused(SlowDown)
      invariant polls == 0 ==> server.devices == old(server.devices)
      invariant polls > 0 && id in server.devices && server.devices[id].lastPolledAt.Some? ==>
                  now - server.devices[id].lastPolledAt.value >= slept
      invariant intervalMs * MILLISECOND >= POLL_INTERVAL
                && (id in old(server.devices) && old(server.devices)[id].lastPolledAt.Some? ==>
                      start - old(server.devices)[id].lastPolledAt.value >= POLL_INTERVAL)
                ==> Refused(SlowDown) !in told
      decreases timeoutMs * MILLISECOND - (now - started)
    {
      var answer := Ask(server, members, id, presenter, now);
      if polls > 0 {
        FloorBound(polls - 1, pause, timeoutMs);
      }
      told := told + [answer];
      polls := polls + 1;
      if answer != Refused(AuthorizationPending) && answer != Refused(SlowDown) {
        return Done(answer), polls, told;
      }
      if now - started > timeoutMs * MILLISECOND {
        return TimedOut, polls, told;
      }
      SleepBound(polls - 1, pause, timeoutMs, now - started);
      OneMoreSleep(polls - 1, slept);
      now := now + slept + oversleep(polls);
      LetUserDecide(server, members, id, decides(polls), now);
    }
  }

  lemma OneMoreSleep(n: nat, slept: nat)
    ensures (n + 1) * slept == n * slept + slept
  {
  }

  lemma SleepBound(n: nat, intervalMs: nat, timeoutMs: nat, elapsed: Time)
    requires elapsed >= n * (intervalMs * MILLISECOND) && elapsed <= timeoutMs * MILLISECOND
    ensures n * intervalMs <= timeoutMs
  {
    assert n * (intervalMs * MILLISECOND) == (n * intervalMs) * MILLISECOND;
  }
}
