// Rotating refresh tokens: families, reuse detection and revocation.
//
// A plaintext token is identified with the id of its row: tokens are fresh
// random values and only their injective hash is looked up. Every action of
// `Apply` is one SQL statement, or one transaction, of the source; a handler
// that has read a row and not yet used it holds that row in `State.held`, so
// any number of callers may act on rows that are out of date.

module RefreshTokens {
  import opened Common

  datatype Row = Row(
    id: Id,
    family: Id,
    rotatedFrom: Option<Id>,
    client: ClientId,
    actor: Actor,
    org: Id,
    scopes: seq<Scope>,
    expiresAt: Time,
    revokedAt: Option<Time>,
    reuseDetectedAt: Option<Time>)

  // What a token is about to be issued for.
  datatype Request = Request(client: ClientId, actor: Actor, org: Id, scopes: seq<Scope>)

  datatype Outcome = Rotated(token: Id) | ReuseDetected | Revoked | NotFound

  type Table = map<Id, Row>

  // ------------------------------------------------------ statements, on values

  function NewRow(id: Id, family: Id, from: Option<Id>, req: Request, expiresAt: Time): Row {
    Row(id, family, from, req.client, req.actor, req.org, req.scopes, expiresAt, None, None)
  }

  function RequestOf(row: Row): Request {
    Request(row.client, row.actor, row.org, row.scopes)
  }

  function Live(row: Row): bool {
    row.revokedAt.None?
  }

  function HasSuccessor(table: Table, id: Id): bool {
    exists other :: other in table && table[other].rotatedFrom == Some(id)
  }

  // UPDATE ... SET revoked_at = now WHERE <hit> AND revoked_at IS NULL
  function RevokeWhere(table: Table, hit: Row -> bool, now: Time): Table {
    map id | id in table ::
      if hit(table[id]) && table[id].revokedAt.None? then table[id].(revokedAt := Some(now)) else table[id]
  }

  function OfUser(user: Id, org: Option<Id>): Row -> bool {
    (row: Row) => row.actor == Actor(User, user) && (org.None? || org == Some(row.org))
  }

  function OfGrant(client: ClientId, user: Id, org: Id): Row -> bool {
    (row: Row) => row.client == client && row.actor == Actor(User, user) && row.org == org
  }

  // UPDATE ... SET revoked_at = now WHERE id = $1
  function RevokeOne(table: Table, id: Id, now: Time): Table {
    if id in table then table[id := table[id].(revokedAt := Some(now))] else table
  }

  // UPDATE ... SET revoked_at = COALESCE(revoked_at, now), reuse_detected_at = now WHERE family_id = $1
  function RevokeFamily(table: Table, family: Id, now: Time): Table {
    map id | id in table ::
      if table[id].family == family
      then table[id].(revokedAt := if table[id].revokedAt.None? then Some(now) else table[id].revokedAt,
                      reuseDetectedAt := Some(now))
      else table[id]
  }

  // The rotation transaction, run on a row `stale` read earlier.
  function Rotate(table: Table, stale: Row, newId: Id, now: Time, expiresAt: Time): (Table, Outcome) {
    if stale.id !in table then (table, NotFound)
    else if table[stale.id].revokedAt.Some? then
      if HasSuccessor(table, stale.id)
      then (RevokeFamily(table, stale.family, now), ReuseDetected)
      else (table, Revoked)
    else
      (RevokeOne(table, stale.id, now)[newId := NewRow(newId, stale.family, Some(stale.id), RequestOf(stale), expiresAt)],
       Rotated(newId))
  }

  // Deleting an application cascades to its refresh tokens.
  function DropClient(table: Table, client: ClientId): Table {
    map id | id in table && table[id].client != client :: table[id]
  }

  // ------------------------------------------------------------------- the store

  // The statements as the handlers issue them. Each method states its whole
  // effect through the function above that the run-time lemmas reason about.
  class RefreshTokenStore {
    var rows: Table

    ghost predicate Valid()
      reads this
    {
      forall id :: id in rows ==> rows[id].id == id
    }

    constructor ()
      ensures Valid() && rows == map[]
    {
      rows := map[];
    }

    // Under fresh identifiers the token is live until its lifetime is over and
    // a chain of its own; the other rows and families stay as they are.
    method IssueRefreshToken(id: Id, family: Id, req: Request, now: Time, ttl: nat)
      requires id !in rows && forall other :: other in rows ==> rows[other].family != family
      modifies this
      ensures rows == old(rows)[id := NewRow(id, family, None, req, now + ttl)]
      ensures rows.Keys == old(rows).Keys + {id} && forall other :: other in old(rows) ==> rows[other] == old(rows)[other]
      ensures rows[id].id == id && rows[id].family == family && rows[id].rotatedFrom == None
      ensures rows[id].revokedAt == None && rows[id].reuseDetectedAt == None && rows[id].expiresAt == now + ttl
      ensures rows[id].client == req.client && rows[id].actor == req.actor && rows[id].org == req.org
              && rows[id].scopes == req.scopes
      ensures Live(rows[id]) && RequestOf(rows[id]) == req && IsChain(rows, family, [id])
      ensures forall f :: Linear(old(rows), f) ==> Linear(rows, f)
    {
      ghost var before := rows;
      var expiresAt := now + ttl;
      rows := rows[id := Row(id, family, None, req.client, req.actor, req.org, req.scopes, expiresAt, None, None)];
      forall f | Linear(before, f)
        ensures Linear(rows, f)
      {
        IssueKeepsChains(before, id, rows[id], f);
      }
    }

    method FindRefreshToken(token: Id) returns (row: Option<Row>)
      ensures row == if token in rows then Some(rows[token]) else None
    {
      if token !in rows {
        return None;
      }
      return Some(rows[token]);
    }

    // One transaction on a row read earlier. A token that is not revoked is
    // exchanged for a successor with a lifetime of its own; a revoked one that
    // has a successor costs the whole family.
    method RotateRefreshToken(stale: Row, newId: Id, now: Time, ttl: nat) returns (outcome: Outcome)
      requires newId !in rows
      modifies this
      ensures outcome.NotFound? <==> stale.id !in old(rows)
      ensures outcome.Rotated? <==> stale.id in old(rows) && old(rows)[stale.id].revokedAt.None?
      ensures outcome.ReuseDetected? <==>
                && stale.id in old(rows) && old(rows)[stale.id].revokedAt.Some?
                && exists other :: other in old(rows) && old(rows)[other].rotatedFrom == Some(stale.id)
      ensures outcome.NotFound? || outcome.Revoked? ==> rows == old(rows)
      ensures outcome.Rotated? ==>
                && outcome.token == newId && rows.Keys == old(rows).Keys + {newId}
                && rows[newId].revokedAt == None && rows[newId].reuseDetectedAt == None
                && rows[newId].expiresAt == now + ttl
                && rows[newId].id == newId && rows[newId].family == stale.family && rows[newId].rotatedFrom == Some(stale.id)
                && rows[newId].client == stale.client && rows[newId].actor == stale.actor
                && rows[newId].org == stale.org && rows[newId].scopes == stale.scopes
                && rows[stale.id] == old(rows)[stale.id].(revokedAt := Some(now))
                && forall other :: other in old(rows) && other != stale.id ==> rows[other] == old(rows)[other]
      ensures outcome.ReuseDetected? ==>
                && rows.Keys == old(rows).Keys
                && forall other :: other in rows ==>
                     if old(rows)[other].family != stale.family then rows[other] == old(rows)[other]
                     else
                       && rows[other].revokedAt == (if old(rows)[other].revokedAt.Some? then old(rows)[other].revokedAt else Some(now))
                       && rows[other].reuseDetectedAt == Some(now)
                       && rows[other] == old(rows)[other].(revokedAt := rows[other].revokedAt, reuseDetectedAt := Some(now))
      ensures (rows, outcome) == Rotate(old(rows), stale, newId, now, now + ttl)
    {
      var expiresAt := now + ttl;
      if stale.id !in rows {
        return NotFound;
      }
      var revokedAt := rows[stale.id].revokedAt;
      if revokedAt.Some? {
        var wasRotated := exists other :: other in rows && rows[other].rotatedFrom == Some(stale.id);
        if wasRotated {
          rows := RevokeFamily(rows, stale.family, now);
          return ReuseDetected;
        }
        return Revoked;
      }
      rows := rows[stale.id := rows[stale.id].(revokedAt := Some(now))];
      rows := rows[newId := Row(newId, stale.family, Some(stale.id), stale.client, stale.actor, stale.org,
                                stale.scopes, expiresAt, None, None)];
      return Rotated(newId);
    }

    // Exactly the live tokens of the user, everywhere or in one organization,
    // stop being live; no other row and no other column changes.
    method RevokeUserTokens(user: Id, org: Option<Id>, now: Time)
      modifies this
      ensures rows == RevokeWhere(old(rows), OfUser(user, org), now)
      ensures rows.Keys == old(rows).Keys
      ensures forall id :: id in rows ==>
                var was := old(rows)[id];
                && (Live(rows[id]) <==> Live(was) && !(was.actor == Actor(User, user) && (org.None? || org == Some(was.org))))
                && (Live(was) && !Live(rows[id]) ==> rows[id].revokedAt == Some(now))
                && (Live(rows[id]) == Live(was) ==> rows[id] == was)
                && SameIdentity(rows[id], was) && rows[id].expiresAt == was.expiresAt
                && rows[id].reuseDetectedAt == was.reuseDetectedAt
    {
      rows := RevokeWhere(rows, OfUser(user, org), now);
    }

    // Exactly the live tokens of the grant stop being live, when its user revokes the application.
    method RevokeGrantTokens(client: ClientId, user: Id, org: Id, now: Time)
      modifies this
      ensures rows == RevokeWhere(old(rows), OfGrant(client, user, org), now)
      ensures rows.Keys == old(rows).Keys
      ensures forall id :: id in rows ==>
                var was := old(rows)[id];
                rows[id] == if was.revokedAt.None? && was.client == client && was.actor == Actor(User, user) && was.org == org
                            then was.(revokedAt := Some(now)) else was
    {
      rows := RevokeWhere(rows, OfGrant(client, user, org), now);
    }

    // The refresh-token half of the revocation endpoint, for the client that presents the token.
    method Revoke(token: Id, client: ClientId, now: Time) returns (found: bool)
      requires Valid()
      modifies this
      ensures Valid() && found == (token in old(rows)) && rows.Keys == old(rows).Keys
      ensures forall id :: id in rows && id != token ==> rows[id] == old(rows)[id]
      ensures found ==>
                rows[token] == if old(rows)[token].client == client && old(rows)[token].revokedAt.None?
                               then old(rows)[token].(revokedAt := Some(now)) else old(rows)[token]
      ensures rows == if found && old(rows)[token].client == client && Live(old(rows)[token])
                      then RevokeOne(old(rows), token, now) else old(rows)
    {
      var row := FindRefreshToken(token);
      if row.None? {
        return false;
      }
      if row.value.client == client && row.value.revokedAt.None? {
        rows := RevokeOne(rows, row.value.id, now);
      }
      return true;
    }
  }

  // ------------------------------------------------------------------ runs

  // What callers did and saw, in order, and the instant and the configured
  // lifetime of whatever issued a token. The database is never consulted to
  // write it beyond the outcome that the caller is told.
  datatype Event =
    | IssuedEvent(id: Id, at: Time, ttl: nat)
    | RotationEvent(presented: Id, family: Id, outcome: Outcome, at: Time, ttl: nat)
    | RevokedOneEvent(id: Id)
    | RevokedUserEvent(user: Id, within: Option<Id>)
    | RevokedGrantEvent(client: ClientId, user: Id, org: Id)
    | DroppedClientEvent(client: ClientId)

  datatype State = State(table: Table, held: set<Row>, used: set<Id>, now: Time, log: seq<Event>)

  datatype Action =
    | Tick(elapsed: nat)
    | Issue(id: Id, family: Id, req: Request, ttl: nat)
    | Find(token: Id)
    | RotateStale(stale: Row, newId: Id, ttl: nat)
    | RevokeStale(stale: Row, client: ClientId)
    | RevokeUser(user: Id, within: Option<Id>)
    | RevokeGrant(client: ClientId, user: Id, org: Id)
    | DeleteClient(client: ClientId)

  const Init := State(map[], {}, {}, 0, [])

  // One atomic step. An action whose guard fails changes nothing.
  function Apply(s: State, a: Action): State {
    match a
    case Tick(elapsed) => s.(now := s.now + elapsed)
    case Issue(id, family, req, ttl) =>
      if id in s.used || family in s.used || id == family then s
      else s.(table := s.table[id := NewRow(id, family, None, req, s.now + ttl)],
              used := s.used + {id, family},
              log := s.log + [IssuedEvent(id, s.now, ttl)])
    case Find(token) =>
      if token in s.table then s.(held := s.held + {s.table[token]}) else s
    case RotateStale(stale, newId, ttl) =>
      if stale !in s.held || newId in s.used then s
      else
        var (table, outcome) := Rotate(s.table, stale, newId, s.now, s.now + ttl);
        s.(table := table,
           used := s.used + {newId},
           log := s.log + [RotationEvent(stale.id, stale.family, outcome, s.now, ttl)])
    case RevokeStale(stale, client) =>
      if stale !in s.held || stale.client != client || !Live(stale) then s
      else s.(table := RevokeOne(s.table, stale.id, s.now), log := s.log + [RevokedOneEvent(stale.id)])
    case RevokeUser(user, org) =>
      s.(table := RevokeWhere(s.table, OfUser(user, org), s.now), log := s.log + [RevokedUserEvent(user, org)])
    case RevokeGrant(client, user, org) =>
      s.(table := RevokeWhere(s.table, OfGrant(client, user, org), s.now),
         log := s.log + [RevokedGrantEvent(client, user, org)])
    case DeleteClient(client) =>
      s.(table := DropClient(s.table, client), log := s.log + [DroppedClientEvent(client)])
  }

  function Exec(s: State, actions: seq<Action>): State {
    if actions == [] then s else Apply(Exec(s, actions[..|actions| - 1]), actions[|actions| - 1])
  }

  // A caller that read a token earlier revokes it if it presents it as its
  // client and found it live; it marks no other token.
  lemma RevokeStaleExactly(s: State, stale: Row, client: ClientId)
    ensures var s' := Apply(s, RevokeStale(stale, client));
            if stale in s.held && stale.client == client && stale.revokedAt.None? then
              && s'.table.Keys == s.table.Keys
              && forall id :: id in s.table ==>
                   s'.table[id] == if id == stale.id then s.table[id].(revokedAt := Some(s.now)) else s.table[id]
            else s' == s
  {
  }

  lemma DeleteClientExactly(s: State, client: ClientId)
    ensures var table' := Apply(s, DeleteClient(client)).table;
            && (forall id :: id in table' <==> id in s.table && s.table[id].client != client)
            && (forall id :: id in table' ==> table'[id] == s.table[id])
  {
  }

  // --------------------------------------------------------- reading the log

  predicate Introduces(e: Event, id: Id) {
    (e.IssuedEvent? && e.id == id) || (e.RotationEvent? && e.outcome == Rotated(id))
  }

  predicate Revokes(e: Event, row: Row) {
    match e
    case RevokedOneEvent(id) => id == row.id
    case RevokedUserEvent(user, org) => OfUser(user, org)(row)
    case RevokedGrantEvent(client, user, org) => OfGrant(client, user, org)(row)
    case RotationEvent(_, family, outcome, _, _) => outcome == ReuseDetected && family == row.family
    case _ => false
  }

  predicate Drops(e: Event, row: Row) {
    e == DroppedClientEvent(row.client)
  }

  ghost predicate Introduced(log: seq<Event>, id: Id) {
    exists i :: 0 <= i < |log| && Introduces(log[i], id)
  }

  ghost predicate WasRotated(log: seq<Event>, id: Id) {
    exists i :: 0 <= i < |log| && log[i].RotationEvent? && log[i].presented == id && log[i].outcome.Rotated?
  }

  // A call that revokes `row` came after the call that introduced it.
  ghost predicate WasRevoked(log: seq<Event>, row: Row) {
    exists i, j :: 0 <= i < j < |log| && Introduces(log[i], row.id) && Revokes(log[j], row)
  }

  ghost predicate WasDropped(log: seq<Event>, row: Row) {
    exists i, j :: 0 <= i < j < |log| && Introduces(log[i], row.id) && Drops(log[j], row)
  }

  lemma IntroductionsGrow(log: seq<Event>, e: Event, id: Id)
    ensures Introduced(log + [e], id) <==> Introduced(log, id) || Introduces(e, id)
    ensures WasRotated(log + [e], id) <==>
            WasRotated(log, id) || (e.RotationEvent? && e.presented == id && e.outcome.Rotated?)
  {
    var bigger := log + [e];
    assert bigger[|log|] == e;
    if Introduced(log, id) {
      var i :| 0 <= i < |log| && Introduces(log[i], id);
      assert Introduces(bigger[i], id);
    }
    if WasRotated(log, id) {
      var i :| 0 <= i < |log| && log[i].RotationEvent? && log[i].presented == id && log[i].outcome.Rotated?;
      assert bigger[i] == log[i];
    }
  }

  lemma RevocationsGrow(log: seq<Event>, e: Event, row: Row)
    ensures WasRevoked(log + [e], row) <==> WasRevoked(log, row) || (Introduced(log, row.id) && Revokes(e, row))
  {
    var bigger := log + [e];
    assert bigger[|log|] == e;
    if Introduced(log, row.id) && Revokes(e, row) {
      var i :| 0 <= i < |log| && Introduces(log[i], row.id);
      assert Introduces(bigger[i], row.id) && Revokes(bigger[|log|], row);
    }
    if WasRevoked(log, row) {
      var i, j :| 0 <= i < j < |log| && Introduces(log[i], row.id) && Revokes(log[j], row);
      assert Introduces(bigger[i], row.id) && Revokes(bigger[j], row);
    }
  }

  lemma DropsGrow(log: seq<Event>, e: Event, row: Row)
    ensures WasDropped(log + [e], row) <==> WasDropped(log, row) || (Introduced(log, row.id) && Drops(e, row))
  {
    var bigger := log + [e];
    assert bigger[|log|] == e;
    if Introduced(log, row.id) && Drops(e, row) {
      var i :| 0 <= i < |log| && Introduces(log[i], row.id);
      assert Introduces(bigger[i], row.id) && Drops(bigger[|log|], row);
    }
    if WasDropped(log, row) {
      var i, j :| 0 <= i < j < |log| && Introduces(log[i], row.id) && Drops(log[j], row);
      assert Introduces(bigger[i], row.id) && Drops(bigger[j], row);
    }
  }

  // How the readings above change when one event is appended.
  lemma LogGrows(log: seq<Event>, e: Event, row: Row)
    ensures var told := Introduced(log + [e], row.id) <==> Introduced(log, row.id) || Introduces(e, row.id);
            var rotated := WasRotated(log + [e], row.id) <==>
                             WasRotated(log, row.id) || (e.RotationEvent? && e.presented == row.id && e.outcome.Rotated?);
            var revoked := WasRevoked(log + [e], row) <==> WasRevoked(log, row) || (Introduced(log, row.id) && Revokes(e, row));
            var dropped := WasDropped(log + [e], row) <==> WasDropped(log, row) || (Introduced(log, row.id) && Drops(e, row));
            var all := told && rotated && revoked && dropped;
            all
  {
    IntroductionsGrow(log, e, row.id);
    RevocationsGrow(log, e, row);
    DropsGrow(log, e, row);
  }

  // ------------------------------------------------------------- invariant

  ghost predicate SameIdentity(a: Row, b: Row) {
    (a.id, a.family, a.rotatedFrom, RequestOf(a)) == (b.id, b.family, b.rotatedFrom, RequestOf(b))
  }

  // `chain` lists exactly the tokens of `family`, each rotated from the one
  // before it, all for the same grant, and all but the last revoked.
  ghost predicate IsChain(table: Table, family: Id, chain: seq<Id>) {
    && |chain| > 0
    && (forall i :: 0 <= i < |chain| ==> chain[i] in table && table[chain[i]].family == family)
    && (forall id :: id in table && table[id].family == family ==> id in chain)
    && (forall i, j :: 0 <= i < j < |chain| ==> chain[i] != chain[j])
    && table[chain[0]].rotatedFrom == None
    && (forall i :: 0 < i < |chain| ==> table[chain[i]].rotatedFrom == Some(chain[i - 1]))
    && (forall i :: 0 <= i < |chain| ==> RequestOf(table[chain[i]]) == RequestOf(table[chain[0]]))
    && (forall i :: 0 <= i < |chain| - 1 ==> !Live(table[chain[i]]))
  }

  ghost predicate Linear(table: Table, family: Id) {
    exists chain :: IsChain(table, family, chain)
  }

  ghost predicate RowKnown(s: State, id: Id)
    requires id in s.table
  {
    var row := s.table[id];
    row.id == id && id in s.used && row.family in s.used
  }

  ghost predicate ParentKnown(s: State, id: Id)
    requires id in s.table
  {
    var from := s.table[id].rotatedFrom;
    from.Some? ==> from.value in s.table && s.table[from.value].client == s.table[id].client
  }

  ghost predicate HeldKnown(s: State, row: Row) {
    && row.id in s.used && row.family in s.used && Introduced(s.log, row.id)
    && (row.id in s.table ==> SameIdentity(row, s.table[row.id]))
    && (row.id in s.table <==> !WasDropped(s.log, row))
  }

  ghost predicate RowHistory(s: State, id: Id)
    requires id in s.table
  {
    var row := s.table[id];
    var live := Live(row) <==> !WasRevoked(s.log, row) && !WasRotated(s.log, id);
    var rotated := HasSuccessor(s.table, id) <==> WasRotated(s.log, id);
    var told := Introduced(s.log, id) && !WasDropped(s.log, row) && live && rotated;
    told
  }

  ghost predicate IdKnown(s: State, id: Id) {
    Introduced(s.log, id) || WasRotated(s.log, id) ==> id in s.used
  }

  ghost predicate RowsKnown(s: State) {
    forall id {:trigger RowKnown(s, id)} :: id in s.table ==> RowKnown(s, id)
  }

  ghost predicate ParentsKnown(s: State) {
    forall id {:trigger ParentKnown(s, id)} :: id in s.table ==> ParentKnown(s, id)
  }

  ghost predicate HeldRowsKnown(s: State) {
    forall row {:trigger HeldKnown(s, row)} :: row in s.held ==> HeldKnown(s, row)
  }

  ghost predicate HistoryKnown(s: State) {
    forall id {:trigger RowHistory(s, id)} :: id in s.table ==> RowHistory(s, id)
  }

  ghost predicate LogKnown(s: State) {
    forall id {:trigger IdKnown(s, id)} :: IdKnown(s, id)
  }

  ghost predicate ChainKnown(s: State, id: Id)
    requires id in s.table
  {
    Linear(s.table, s.table[id].family)
  }

  ghost predicate Chains(s: State) {
    forall id {:trigger ChainKnown(s, id)} :: id in s.table ==> ChainKnown(s, id)
  }

  ghost predicate Inv(s: State) {
    var rows := RowsKnown(s) && ParentsKnown(s) && HeldRowsKnown(s) && Chains(s);
    var known := rows && HistoryKnown(s) && LogKnown(s);
    known
  }

  // ---------------------------------------------------- the invariant is kept

  // Histories depend on the identity of a row only.
  lemma SameHistory(log: seq<Event>, a: Row, b: Row)
    requires SameIdentity(a, b)
    ensures WasRevoked(log, a) == WasRevoked(log, b) && WasDropped(log, a) == WasDropped(log, b)
  {
    forall e: Event
      ensures Revokes(e, a) == Revokes(e, b)
    {
    }
  }

  // Statements that only revoke leave every chain in place.
  lemma RevokingKeepsChains(table: Table, table': Table, family: Id)
    requires table'.Keys == table.Keys
    requires forall id :: id in table ==> SameIdentity(table[id], table'[id]) && (Live(table'[id]) ==> Live(table[id]))
    requires Linear(table, family)
    ensures Linear(table', family)
  {
    var chain :| IsChain(table, family, chain);
    assert IsChain(table', family, chain);
  }

  lemma RotationExtendsOwnChain(table: Table, stale: Row, newId: Id, now: Time, exp: Time, chain: seq<Id>)
    requires stale.id in table && Live(table[stale.id]) && newId !in table
    requires SameIdentity(stale, table[stale.id])
    requires IsChain(table, stale.family, chain)
    ensures IsChain(Rotate(table, stale, newId, now, exp).0, stale.family, chain + [newId])
  {
    var table' := Rotate(table, stale, newId, now, exp).0;
    assert stale.id in chain;
    var k :| 0 <= k < |chain| && chain[k] == stale.id;
    assert k == |chain| - 1;
    var longer := chain + [newId];
    forall i | 0 <= i < |longer|
      ensures longer[i] in table' && table'[longer[i]].family == stale.family
      ensures RequestOf(table'[longer[i]]) == RequestOf(table[chain[0]])
      ensures i < |longer| - 1 ==> !Live(table'[longer[i]])
      ensures i > 0 ==> table'[longer[i]].rotatedFrom == Some(longer[i - 1])
    {
      if i < |chain| {
        assert longer[i] == chain[i];
      }
    }
    assert longer[|chain|] == newId;
    assert forall id :: id in chain ==> id in longer;
  }

  lemma RotationExtendsChain(table: Table, stale: Row, newId: Id, now: Time, exp: Time, near: Id)
    requires stale.id in table && Live(table[stale.id]) && newId !in table && near in table
    requires SameIdentity(stale, table[stale.id])
    requires Linear(table, table[near].family)
    ensures Linear(Rotate(table, stale, newId, now, exp).0, table[near].family)
  {
    var family := table[near].family;
    var chain :| IsChain(table, family, chain);
    if stale.family == family {
      RotationExtendsOwnChain(table, stale, newId, now, exp, chain);
    } else {
      assert stale.id !in chain && newId !in chain;
      assert IsChain(Rotate(table, stale, newId, now, exp).0, family, chain);
    }
  }

  lemma IssueKeepsChains(table: Table, id: Id, row: Row, family: Id)
    requires id !in table && row.rotatedFrom == None
    requires forall other :: other in table ==> table[other].family != row.family
    requires family != row.family ==> Linear(table, family)
    ensures Linear(table[id := row], family)
  {
    if family == row.family {
      assert IsChain(table[id := row], family, [id]);
    } else {
      var chain :| IsChain(table, family, chain);
      assert IsChain(table[id := row], family, chain);
    }
  }

  lemma DroppingKeepsChains(table: Table, client: ClientId, family: Id, id: Id)
    requires id in DropClient(table, client) && table[id].family == family
    requires Linear(table, family)
    ensures Linear(DropClient(table, client), family)
  {
    var chain :| IsChain(table, family, chain);
    var table' := DropClient(table, client);
    assert forall i :: 0 <= i < |chain| ==> RequestOf(table[chain[i]]).client == table[id].client;
    assert IsChain(table', family, chain);
  }

  // Bookkeeping common to all steps that append one event.
  lemma LogStaysKnown(s: State, s': State, e: Event)
    requires LogKnown(s) && s'.log == s.log + [e] && s.used <= s'.used
    requires forall id :: Introduces(e, id) ==> id in s'.used
    requires e.RotationEvent? ==> e.presented in s'.used
    ensures LogKnown(s')
  {
    forall id
      ensures IdKnown(s', id)
    {
      assert IdKnown(s, id);
      IntroductionsGrow(s.log, e, id);
    }
  }

  // Steps that drop no row and hold no further row.
  lemma HeldStaysKnown(s: State, s': State, e: Event)
    requires HeldRowsKnown(s) && s'.held == s.held && s'.log == s.log + [e] && s.used <= s'.used
    requires !e.DroppedClientEvent?
    requires forall id :: id in s.table ==> id in s'.table && SameIdentity(s.table[id], s'.table[id])
    requires forall id :: id in s'.table && id !in s.table ==> id !in s.used
    ensures HeldRowsKnown(s')
  {
    forall row | row in s'.held
      ensures HeldKnown(s', row)
    {
      assert HeldKnown(s, row);
      LogGrows(s.log, e, row);
    }
  }

  // A table that gains one row, `row`, and else only loses live rows.
  ghost predicate Extends(table: Table, table': Table, row: Row) {
    var same := table'.Keys == table.Keys + {row.id} && forall id :: id in table ==> SameIdentity(table[id], table'[id]);
    var extended := row.id !in table && same && table'[row.id] == row;
    extended
  }

  lemma SuccessorAfter(s: State, table': Table, row: Row, id: Id)
    requires RowsKnown(s) && ParentsKnown(s) && Extends(s.table, table', row) && id in table'
    requires row.rotatedFrom != Some(row.id)
    ensures HasSuccessor(table', id) <==> row.rotatedFrom == Some(id) || (id in s.table && HasSuccessor(s.table, id))
  {
    assert table'[row.id].rotatedFrom == row.rotatedFrom;
    if id in s.table && HasSuccessor(s.table, id) {
      var other :| other in s.table && s.table[other].rotatedFrom == Some(id);
      assert other in table' && table'[other].rotatedFrom == Some(id);
    }
    if HasSuccessor(table', id) {
      var other :| other in table' && table'[other].rotatedFrom == Some(id);
      if other != row.id {
        assert ParentKnown(s, other);
        assert s.table[other].rotatedFrom == Some(id);
      }
    }
  }

  lemma SameSuccessors(table: Table, table': Table, id: Id)
    requires table'.Keys == table.Keys
    requires forall other :: other in table ==> SameIdentity(table[other], table'[other])
    ensures HasSuccessor(table', id) == HasSuccessor(table, id)
  {
    if HasSuccessor(table, id) {
      var other :| other in table && table[other].rotatedFrom == Some(id);
      assert other in table' && table'[other].rotatedFrom == Some(id);
    }
    if HasSuccessor(table', id) {
      var other :| other in table' && table'[other].rotatedFrom == Some(id);
      assert other in table && table[other].rotatedFrom == Some(id);
    }
  }

  lemma RowsStayKnown(s: State, s': State, row: Row)
    requires RowsKnown(s) && ParentsKnown(s) && s.used <= s'.used && Extends(s.table, s'.table, row)
    requires row.id in s'.used && row.family in s'.used
    requires row.rotatedFrom.Some? ==> row.rotatedFrom.value in s.table && s.table[row.rotatedFrom.value].client == row.client
    ensures var known := RowsKnown(s') && ParentsKnown(s'); known
  {
    forall id | id in s'.table
      ensures RowKnown(s', id) && ParentKnown(s', id)
    {
      if id in s.table {
        assert RowKnown(s, id) && ParentKnown(s, id);
      }
    }
  }

  lemma UnusedIsAbsent(s: State, id: Id)
    requires RowsKnown(s) && id !in s.used
    ensures id !in s.table
  {
    assert id in s.table ==> RowKnown(s, id);
  }

  lemma IssueHistory(s: State, a: Action, id: Id)
    requires Inv(s) && a.Issue? && Apply(s, a) != s && id in Apply(s, a).table
    ensures RowHistory(Apply(s, a), id)
  {
    var s' := Apply(s, a);
    var row := s'.table[a.id];
    UnusedIsAbsent(s, a.id);
    LogGrows(s.log, IssuedEvent(a.id, s.now, a.ttl), s'.table[id]);
    SuccessorAfter(s, s'.table, row, id);
    if id == a.id {
      assert IdKnown(s, id);
      FreshHasNoPast(s.log, s'.table[id]);
    } else {
      assert RowHistory(s, id) && RowKnown(s, id);
    }
  }

  lemma FreshHasNoPast(log: seq<Event>, row: Row)
    requires !Introduced(log, row.id)
    ensures !WasRevoked(log, row) && !WasDropped(log, row)
  {
  }

  lemma IssueKeepsInv(s: State, a: Action)
    requires Inv(s) && a.Issue?
    ensures Inv(Apply(s, a))
  {
    var s' := Apply(s, a);
    if s' != s {
      var e := IssuedEvent(a.id, s.now, a.ttl);
      UnusedIsAbsent(s, a.id);
      LogStaysKnown(s, s', e);
      HeldStaysKnown(s, s', e);
      RowsStayKnown(s, s', s'.table[a.id]);
      forall id | id in s'.table
        ensures RowHistory(s', id)
      {
        IssueHistory(s, a, id);
      }
      forall id | id in s'.table
        ensures ChainKnown(s', id)
      {
        forall other | other in s.table ensures s.table[other].family != a.family {
          assert RowKnown(s, other);
        }
        assert id in s.table ==> ChainKnown(s, id);
        IssueKeepsChains(s.table, a.id, s'.table[a.id], s'.table[id].family);
      }
    }
  }

  // One UPDATE that revokes the rows the event speaks of, and touches no other column of any row.
  ghost predicate RevokesExactly(s: State, s': State, e: Event) {
    && s'.held == s.held && s'.log == s.log + [e] && s'.table.Keys == s.table.Keys && s.used <= s'.used
    && (e.RotationEvent? ==> e.presented in s'.used && !e.outcome.Rotated?)
    && !e.DroppedClientEvent? && !e.IssuedEvent?
    && (forall id :: id in s.table ==>
          && SameIdentity(s.table[id], s'.table[id])
          && (Live(s'.table[id]) <==> Live(s.table[id]) && !Revokes(e, s.table[id])))
  }

  lemma RevocationHistory(s: State, s': State, e: Event, id: Id)
    requires Inv(s) && RevokesExactly(s, s', e) && id in s.table
    ensures RowHistory(s', id)
  {
    assert RowHistory(s, id) && RowKnown(s, id);
    LogGrows(s.log, e, s.table[id]);
    SameHistory(s'.log, s.table[id], s'.table[id]);
    SameSuccessors(s.table, s'.table, id);
  }

  lemma RevocationKeepsInv(s: State, s': State, e: Event)
    requires Inv(s) && RevokesExactly(s, s', e)
    ensures Inv(s')
  {
    LogStaysKnown(s, s', e);
    HeldStaysKnown(s, s', e);
    forall id | id in s'.table
      ensures RowKnown(s', id) && ParentKnown(s', id)
    {
      assert RowKnown(s, id) && ParentKnown(s, id);
    }
    forall id | id in s'.table
      ensures RowHistory(s', id)
    {
      RevocationHistory(s, s', e, id);
    }
    forall id | id in s'.table
      ensures ChainKnown(s', id)
    {
      assert ChainKnown(s, id);
      RevokingKeepsChains(s.table, s'.table, s.table[id].family);
    }
  }

  lemma RefusalIsRevocation(s: State, a: Action)
    requires Inv(s) && a.RotateStale? && a.stale in s.held && a.newId !in s.used
    requires a.stale.id in s.table ==> !Live(s.table[a.stale.id])
    ensures RevokesExactly(s, Apply(s, a), RotationEvent(a.stale.id, a.stale.family,
                                             Rotate(s.table, a.stale, a.newId, s.now, s.now + a.ttl).1, s.now, a.ttl))
  {
    assert HeldKnown(s, a.stale);
  }

  lemma SuccessHistory(s: State, a: Action, id: Id)
    requires Inv(s) && a.RotateStale? && a.stale in s.held && a.newId !in s.used
    requires a.stale.id in s.table && Live(s.table[a.stale.id]) && id in Apply(s, a).table
    ensures RowHistory(Apply(s, a), id)
  {
    var s' := Apply(s, a);
    var e := RotationEvent(a.stale.id, a.stale.family, Rotated(a.newId), s.now, a.ttl);
    var row := s'.table[a.newId];
    SuccessExtends(s, a);
    LogGrows(s.log, e, s'.table[id]);
    SuccessorAfter(s, s'.table, row, id);
    assert IdKnown(s, a.newId);
    if id == a.newId {
      FreshHasNoPast(s.log, row);
    } else {
      assert RowHistory(s, id) && RowKnown(s, id);
      SameHistory(s.log, s.table[id], s'.table[id]);
    }
  }

  lemma SuccessExtends(s: State, a: Action)
    requires Inv(s) && a.RotateStale? && a.stale in s.held && a.newId !in s.used
    requires a.stale.id in s.table && Live(s.table[a.stale.id])
    ensures a.newId !in s.table && Extends(s.table, Apply(s, a).table, Apply(s, a).table[a.newId])
    ensures SameIdentity(a.stale, s.table[a.stale.id])
  {
    assert HeldKnown(s, a.stale);
    UnusedIsAbsent(s, a.newId);
  }

  lemma SuccessKeepsInv(s: State, a: Action)
    requires Inv(s) && a.RotateStale? && a.stale in s.held && a.newId !in s.used
    requires a.stale.id in s.table && Live(s.table[a.stale.id])
    ensures Inv(Apply(s, a))
  {
    var s' := Apply(s, a);
    var e := RotationEvent(a.stale.id, a.stale.family, Rotated(a.newId), s.now, a.ttl);
    SuccessExtends(s, a);
    assert HeldKnown(s, a.stale);
    LogStaysKnown(s, s', e);
    HeldStaysKnown(s, s', e);
    RowsStayKnown(s, s', s'.table[a.newId]);
    forall id | id in s'.table
      ensures RowHistory(s', id)
    {
      SuccessHistory(s, a, id);
    }
    SuccessChains(s, a);
  }

  lemma SuccessChains(s: State, a: Action)
    requires Inv(s) && a.RotateStale? && a.stale in s.held && a.newId !in s.used
    requires a.stale.id in s.table && Live(s.table[a.stale.id])
    ensures Chains(Apply(s, a))
  {
    var s' := Apply(s, a);
    SuccessExtends(s, a);
    forall id | id in s'.table
      ensures ChainKnown(s', id)
    {
      SuccessChain(s, a, id);
    }
  }

  lemma SuccessChain(s: State, a: Action, id: Id)
    requires Chains(s) && a.RotateStale? && a.stale in s.held && a.newId !in s.used
    requires a.stale.id in s.table && Live(s.table[a.stale.id]) && a.newId !in s.table
    requires SameIdentity(a.stale, s.table[a.stale.id])
    requires id in Apply(s, a).table
    ensures ChainKnown(Apply(s, a), id)
  {
    var near := if id == a.newId then a.stale.id else id;
    assert ChainKnown(s, near);
    RotationExtendsChain(s.table, a.stale, a.newId, s.now, s.now + a.ttl, near);
  }

  lemma DroppingHistory(s: State, a: Action, id: Id)
    requires Inv(s) && a.DeleteClient? && id in Apply(s, a).table
    ensures RowHistory(Apply(s, a), id)
  {
    var s' := Apply(s, a);
    assert RowHistory(s, id) && RowKnown(s, id);
    LogGrows(s.log, DroppedClientEvent(a.client), s'.table[id]);
    if HasSuccessor(s.table, id) {
      var other :| other in s.table && s.table[other].rotatedFrom == Some(id);
      assert ParentKnown(s, other);
      assert other in s'.table && s'.table[other].rotatedFrom == Some(id);
    }
  }

  lemma DroppingKeepsInv(s: State, a: Action)
    requires Inv(s) && a.DeleteClient?
    ensures Inv(Apply(s, a))
  {
    var s' := Apply(s, a);
    var e := DroppedClientEvent(a.client);
    LogStaysKnown(s, s', e);
    forall row | row in s'.held
      ensures HeldKnown(s', row)
    {
      assert HeldKnown(s, row);
      LogGrows(s.log, e, row);
    }
    forall id | id in s'.table
      ensures RowKnown(s', id) && ParentKnown(s', id)
    {
      assert RowKnown(s, id) && ParentKnown(s, id);
    }
    forall id | id in s'.table
      ensures RowHistory(s', id)
    {
      DroppingHistory(s, a, id);
    }
    forall id | id in s'.table
      ensures ChainKnown(s', id)
    {
      assert ChainKnown(s, id);
      DroppingKeepsChains(s.table, a.client, s.table[id].family, id);
    }
  }

  lemma FindKeepsInv(s: State, a: Action)
    requires Inv(s) && (a.Find? || a.Tick?)
    ensures Inv(Apply(s, a))
  {
    var s' := Apply(s, a);
    forall row | row in s'.held
      ensures HeldKnown(s', row)
    {
      if row in s.held {
        assert HeldKnown(s, row);
      } else {
        assert RowKnown(s, a.token) && RowHistory(s, a.token);
      }
    }
    forall id | id in s'.table
      ensures RowKnown(s', id) && ParentKnown(s', id) && RowHistory(s', id) && ChainKnown(s', id)
    {
      assert RowKnown(s, id) && ParentKnown(s, id) && RowHistory(s, id) && ChainKnown(s, id);
    }
    forall id
      ensures IdKnown(s', id)
    {
      assert IdKnown(s, id);
    }
  }

  lemma RevokeStaleIsRevocation(s: State, a: Action)
    requires Inv(s) && a.RevokeStale? && Apply(s, a) != s
    ensures RevokesExactly(s, Apply(s, a), RevokedOneEvent(a.stale.id))
  {
    forall id | id in s.table ensures s.table[id].id == id {
      assert RowKnown(s, id);
    }
  }

  lemma RevocationStepKeepsInv(s: State, a: Action)
    requires Inv(s) && (a.RevokeStale? || a.RevokeUser? || a.RevokeGrant?)
    ensures Inv(Apply(s, a))
  {
    var s' := Apply(s, a);
    if s' != s {
      match a
      case RevokeStale(stale, _) =>
        RevokeStaleIsRevocation(s, a);
        RevocationKeepsInv(s, s', RevokedOneEvent(stale.id));
      case RevokeUser(user, within) =>
        RevocationKeepsInv(s, s', RevokedUserEvent(user, within));
      case RevokeGrant(client, user, org) =>
        RevocationKeepsInv(s, s', RevokedGrantEvent(client, user, org));
    }
  }

  lemma RotationKeepsInv(s: State, a: Action)
    requires Inv(s) && a.RotateStale?
    ensures Inv(Apply(s, a))
  {
    if a.stale in s.held && a.newId !in s.used {
      if a.stale.id in s.table && Live(s.table[a.stale.id]) {
        SuccessKeepsInv(s, a);
      } else {
        RefusalIsRevocation(s, a);
        RevocationKeepsInv(s, Apply(s, a), RotationEvent(a.stale.id, a.stale.family,
                                             Rotate(s.table, a.stale, a.newId, s.now, s.now + a.ttl).1, s.now, a.ttl));
      }
    }
  }

  // Every atomic step keeps the invariant.
  lemma ApplyKeepsInv(s: State, a: Action)
    requires Inv(s)
    ensures Inv(Apply(s, a))
  {
    match a
    case Tick(_) => FindKeepsInv(s, a);
    case Find(_) => if Apply(s, a) != s { FindKeepsInv(s, a); }
    case Issue(_, _, _, _) => IssueKeepsInv(s, a);
    case RotateStale(_, _, _) => RotationKeepsInv(s, a);
    case DeleteClient(_) => DroppingKeepsInv(s, a);
    case _ => RevocationStepKeepsInv(s, a);
  }

  lemma {:induction false} ExecKeepsInv(s: State, actions: seq<Action>)
    requires Inv(s)
    ensures Inv(Exec(s, actions))
    decreases |actions|
  {
    if actions != [] {
      ExecKeepsInv(s, actions[..|actions| - 1]);
      ApplyKeepsInv(Exec(s, actions[..|actions| - 1]), actions[|actions| - 1]);
    }
  }

  lemma InitInv()
    ensures Inv(Init)
  {
  }

  // The states that some run from the empty table reaches.
  ghost predicate Reachable(s: State) {
    exists actions :: s == Exec(Init, actions)
  }

  lemma ReachableInv(s: State)
    requires Reachable(s)
    ensures Inv(s)
  {
    var actions :| s == Exec(Init, actions);
    InitInv();
    ExecKeepsInv(Init, actions);
  }

  // ---------------------------------------------------------- main results

  ghost predicate ExpiresAsIntroduced(s: State, id: Id)
    requires id in s.table
  {
    forall e {:trigger Introduces(e, id)} :: e in s.log && Introduces(e, id) ==> s.table[id].expiresAt == e.at + e.ttl
  }

  ghost predicate ExpiriesKnown(s: State) {
    forall id {:trigger ExpiresAsIntroduced(s, id)} :: id in s.table ==> ExpiresAsIntroduced(s, id)
  }

  lemma ApplyKeepsExpiry(s: State, a: Action, id: Id)
    requires Inv(s) && ExpiriesKnown(s) && id in Apply(s, a).table
    ensures ExpiresAsIntroduced(Apply(s, a), id)
  {
    var s' := Apply(s, a);
    forall e | e in s'.log && Introduces(e, id)
      ensures s'.table[id].expiresAt == e.at + e.ttl
    {
      assert IdKnown(s, id);
      if e in s.log {
        var i :| 0 <= i < |s.log| && s.log[i] == e;
        assert Introduced(s.log, id);
      }
      if id in s.table {
        assert ExpiresAsIntroduced(s, id) && RowKnown(s, id) && RowHistory(s, id);
      }
    }
  }

  lemma {:induction false} ExecKeepsExpiry(actions: seq<Action>)
    ensures ExpiriesKnown(Exec(Init, actions))
    decreases |actions|
  {
    if actions != [] {
      var front := actions[..|actions| - 1];
      var s, a := Exec(Init, front), actions[|actions| - 1];
      ExecKeepsExpiry(front);
      assert Reachable(s);
      ReachableInv(s);
      forall id | id in Apply(s, a).table
        ensures ExpiresAsIntroduced(Apply(s, a), id)
      {
        ApplyKeepsExpiry(s, a, id);
      }
    }
  }

  // Every stored token expires when the lifetime is over that it was given when
  // it was issued, or when it came out of a rotation: rotating extends the session.
  lemma ExpiryIsAsIntroduced(s: State, id: Id)
    requires Reachable(s) && id in s.table
    ensures exists e :: e in s.log && Introduces(e, id)
    ensures forall e :: e in s.log && Introduces(e, id) ==> s.table[id].expiresAt == e.at + e.ttl && e.at <= s.now
  {
    var actions :| s == Exec(Init, actions);
    ExecKeepsExpiry(actions);
    ReachableInv(s);
    assert ExpiresAsIntroduced(s, id) && RowHistory(s, id);
    var i :| 0 <= i < |s.log| && Introduces(s.log[i], id);
    assert s.log[i] in s.log;
    PastIsPast(actions);
  }

  lemma {:induction false} PastIsPast(actions: seq<Action>)
    ensures forall e :: e in Exec(Init, actions).log && (e.IssuedEvent? || e.RotationEvent?) ==> e.at <= Exec(Init, actions).now
    decreases |actions|
  {
    if actions != [] {
      PastIsPast(actions[..|actions| - 1]);
    }
  }

  // In every reachable state each family is one linear chain.
  lemma FamiliesAreLinear(s: State, id: Id)
    requires Reachable(s) && id in s.table
    ensures Linear(s.table, s.table[id].family)
  {
    ReachableInv(s);
    assert ChainKnown(s, id);
  }

  // What a chain means for any two of its tokens.
  lemma ChainConsequences(table: Table, family: Id, a: Id, b: Id)
    requires Linear(table, family)
    requires a in table && table[a].family == family && b in table && table[b].family == family
    ensures RequestOf(table[a]) == RequestOf(table[b])
    ensures Live(table[a]) && Live(table[b]) ==> a == b
    ensures table[a].rotatedFrom == table[b].rotatedFrom ==> a == b
    ensures table[b].rotatedFrom == Some(a) ==> !Live(table[a])
  {
    var chain :| IsChain(table, family, chain);
    assert a in chain && b in chain;
    var i :| 0 <= i < |chain| && chain[i] == a;
    var j :| 0 <= j < |chain| && chain[j] == b;
    assert i > 0 ==> table[chain[i]].rotatedFrom == Some(chain[i - 1]);
    assert j > 0 ==> table[chain[j]].rotatedFrom == Some(chain[j - 1]);
    if i > 0 && j > 0 && table[a].rotatedFrom == table[b].rotatedFrom {
      assert chain[i - 1] == chain[j - 1];
      assert i - 1 == j - 1;
    }
    if j > 0 && table[b].rotatedFrom == Some(a) {
      assert chain[j - 1] == chain[i];
      assert j - 1 == i;
    }
  }

  // The outcome of a rotation is a function of what callers did before, even
  // for a caller whose copy of the row is out of date.
  lemma OutcomeDecidedByHistory(s: State, stale: Row, newId: Id, exp: Time)
    requires Reachable(s) && stale in s.held
    ensures var outcome := Rotate(s.table, stale, newId, s.now, exp).1;
            && (outcome.NotFound? <==> WasDropped(s.log, stale))
            && (outcome == Rotated(newId) <==>
                  !WasDropped(s.log, stale) && !WasRotated(s.log, stale.id) && !WasRevoked(s.log, stale))
            && (outcome.ReuseDetected? <==> !WasDropped(s.log, stale) && WasRotated(s.log, stale.id))
            && (outcome.Revoked? <==>
                  !WasDropped(s.log, stale) && !WasRotated(s.log, stale.id) && WasRevoked(s.log, stale))
  {
    ReachableInv(s);
    assert HeldKnown(s, stale);
    if stale.id in s.table {
      assert RowHistory(s, stale.id);
      SameHistory(s.log, stale, s.table[stale.id]);
    }
  }

  // Over a whole run a token is exchanged for a successor at most once.
  lemma {:induction false} RotatedAtMostOnce(actions: seq<Action>, i: nat, j: nat)
    requires i < j < |Exec(Init, actions).log|
    requires Exec(Init, actions).log[i].RotationEvent? && Exec(Init, actions).log[i].outcome.Rotated?
    requires Exec(Init, actions).log[j].RotationEvent? && Exec(Init, actions).log[j].outcome.Rotated?
    ensures Exec(Init, actions).log[i].presented != Exec(Init, actions).log[j].presented
    decreases |actions|
  {
    var s := Exec(Init, actions);
    if actions != [] {
      var before, a := Exec(Init, actions[..|actions| - 1]), actions[|actions| - 1];
      assert before.log <= s.log && |s.log| <= |before.log| + 1;
      if j < |before.log| {
        RotatedAtMostOnce(actions[..|actions| - 1], i, j);
      } else {
        assert Reachable(before);
        OutcomeDecidedByHistory(before, a.stale, a.newId, before.now + a.ttl);
        assert before.log[i] == s.log[i];
      }
    }
  }

  ghost predicate Dead(table: Table, family: Id) {
    forall id :: id in table && table[id].family == family ==> !Live(table[id])
  }

  lemma ApplyKeepsDead(s: State, a: Action, family: Id)
    requires Inv(s) && family in s.used && Dead(s.table, family)
    ensures family in Apply(s, a).used && Dead(Apply(s, a).table, family)
  {
    if a.RotateStale? && a.stale in s.held {
      assert HeldKnown(s, a.stale);
    }
  }

  lemma {:induction false} ExecKeepsDead(s: State, actions: seq<Action>, family: Id)
    requires Inv(s) && family in s.used && Dead(s.table, family)
    ensures var dead := family in Exec(s, actions).used && Dead(Exec(s, actions).table, family); dead
    decreases |actions|
  {
    if actions != [] {
      var front := actions[..|actions| - 1];
      ExecKeepsDead(s, front, family);
      ExecKeepsInv(s, front);
      ApplyKeepsDead(Exec(s, front), actions[|actions| - 1], family);
    }
  }

  // A step is fatal to the family of `id` when it detects reuse in it, or
  // takes the live token away without putting a successor in its place.
  ghost predicate Fatal(s: State, a: Action, id: Id)
    requires id in s.table
  {
    var s' := Apply(s, a);
    var family := s.table[id].family;
    || (a.RotateStale? && s'.log == s.log + [RotationEvent(id, family, ReuseDetected, s.now, a.ttl)])
    || (Live(s.table[id]) && (id !in s'.table || !Live(s'.table[id])) && !HasSuccessor(s'.table, id))
  }

  lemma FatalStepKills(s: State, a: Action, id: Id)
    requires Inv(s) && id in s.table && Fatal(s, a, id)
    ensures Dead(Apply(s, a).table, s.table[id].family)
  {
    var s' := Apply(s, a);
    var family := s.table[id].family;
    if a.RotateStale? && s'.log == s.log + [RotationEvent(id, family, ReuseDetected, s.now, a.ttl)] {
      assert s'.log[|s.log|] == RotationEvent(id, family, ReuseDetected, s.now, a.ttl);
      assert HeldKnown(s, a.stale);
    } else {
      forall other | other in s'.table && s'.table[other].family == family
        ensures !Live(s'.table[other])
      {
        FatalStepKillsOther(s, a, id, other);
      }
    }
  }

  lemma FatalStepKillsOther(s: State, a: Action, id: Id, other: Id)
    requires Inv(s) && id in s.table && other in Apply(s, a).table
    requires Live(s.table[id]) && (id !in Apply(s, a).table || !Live(Apply(s, a).table[id]))
    requires !HasSuccessor(Apply(s, a).table, id)
    requires Apply(s, a).table[other].family == s.table[id].family
    ensures !Live(Apply(s, a).table[other])
  {
    var s' := Apply(s, a);
    assert ChainKnown(s, id) && RowKnown(s, id);
    if other in s.table {
      assert s.table[other].family == s.table[id].family;
      ChainConsequences(s.table, s.table[id].family, id, other);
    }
  }

  // Once fatal, always dead: in every later state no token of the family is
  // live and no caller gets a successor out of any copy of its rows.
  lemma FamilyDeathIsAbsorbing(s: State, a: Action, later: seq<Action>, id: Id, stale: Row, newId: Id, exp: Time)
    requires Reachable(s) && id in s.table && Fatal(s, a, id)
    ensures var s' := Exec(Apply(s, a), later);
            && Dead(s'.table, s.table[id].family)
            && (stale in s'.held && stale.family == s.table[id].family ==>
                  !Rotate(s'.table, stale, newId, s'.now, exp).1.Rotated?)
  {
    ReachableInv(s);
    assert RowKnown(s, id);
    FatalStepKills(s, a, id);
    ApplyKeepsInv(s, a);
    ExecKeepsDead(Apply(s, a), later, s.table[id].family);
    ExecKeepsInv(Apply(s, a), later);
    var s' := Exec(Apply(s, a), later);
    assert stale in s'.held ==> HeldKnown(s', stale);
  }
}
