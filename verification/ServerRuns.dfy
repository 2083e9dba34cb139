// The two transition systems run as one server: handlers decide what to mint,
// and the tokens they record are the ones later validated.

module ServerRuns {
  import opened Common
  import opened Scopes
  import Provenance
  import R = OAuthRuns
  import RT = RefreshTokens
  import T = AccessTokens

  datatype State = State(oauth: R.State, tokens: T.State)

  const Init := State(R.Init, T.Init)

  // A token is recorded by the handler whose request it was signed for, or by a
  // service account's or device's own request.
  datatype Action =
    | OnOAuth(a: R.Action)
    | OnTokens(b: T.Action)
    | Record(pid: Id)
    | RecordMachine(pid: Id)

  function TokenRequest(req: RT.Request): T.Request {
    T.Request(req.actor, Some(req.org), req.client, req.scopes)
  }

  predicate MayRecord(s: State, pid: Id) {
    && pid in s.tokens.mints && s.tokens.mints[pid].SignedToken?
    && pid in s.oauth.procs && s.oauth.procs[pid].Minting?
    && s.tokens.mints[pid].req == TokenRequest(s.oauth.procs[pid].req)
  }

  predicate MayRecordMachine(s: State, pid: Id) {
    && pid in s.tokens.mints && s.tokens.mints[pid].SignedToken?
    && !s.tokens.mints[pid].req.actor.kind.User? && s.tokens.mints[pid].req.org.Some?
    && s.tokens.mints[pid].req.scopes == ["openid"]
  }

  function MachineMint(req: T.Request): R.Action
    requires req.org.Some?
  {
    R.MintMachine(req.actor, req.client, req.org.value)
  }

  // One atomic step. An action whose guard fails changes nothing.
  function Apply(s256: string -> string, cfg: T.Config, s: State, a: Action): State {
    match a
    case OnOAuth(a) => if a.MintAccess? || a.MintMachine? then s else s.(oauth := R.Apply(s256, s.oauth, a))
    case OnTokens(b) => if b.RecordToken? then s else s.(tokens := T.Apply(cfg, s.tokens, b))
    case Record(pid) =>
      if MayRecord(s, pid)
      then State(R.Apply(s256, s.oauth, R.MintAccess(pid)), T.Apply(cfg, s.tokens, T.RecordToken(pid))) else s
    case RecordMachine(pid) =>
      if MayRecordMachine(s, pid)
      then State(R.Apply(s256, s.oauth, MachineMint(s.tokens.mints[pid].req)), T.Apply(cfg, s.tokens, T.RecordToken(pid))) else s
  }

  function Exec(s256: string -> string, cfg: T.Config, s: State, actions: seq<Action>): State {
    if actions == [] then s
    else Apply(s256, cfg, Exec(s256, cfg, s, actions[..|actions| - 1]), actions[|actions| - 1])
  }

  ghost predicate Reachable(s256: string -> string, cfg: T.Config, s: State) {
    exists actions :: s == Exec(s256, cfg, Init, actions)
  }

  // --------------------------------------------------------------- the link

  ghost predicate Minted(log: seq<R.Event>, req: T.Request) {
    exists source, r :: R.AccessMinted(source, r) in log && req == TokenRequest(r)
  }

  // Every recorded token was minted on some right.
  ghost predicate Linked(s: State) {
    forall e :: e in s.tokens.log && e.Issued? ==> Minted(s.oauth.log, e.req)
  }

  lemma LogGrows(s256: string -> string, s: R.State, a: R.Action)
    ensures s.log <= R.Apply(s256, s, a).log
  {
    if R.IsCodeAction(a) {
      assert s.log <= R.ApplyCodeAction(s256, s, a).log;
    } else if R.IsTokenAction(a) {
      assert s.log <= R.ApplyTokenAction(s, a).log;
    } else if R.IsDeviceAction(a) {
      assert s.log <= R.ApplyDeviceAction(s, a).log;
    } else {
      assert R.ApplyTableAction(s, a).log == s.log;
    }
  }

  lemma MintedGrows(log: seq<R.Event>, log': seq<R.Event>, req: T.Request)
    requires log <= log' && Minted(log, req)
    ensures Minted(log', req)
  {
    var source, r :| R.AccessMinted(source, r) in log && req == TokenRequest(r);
    assert R.AccessMinted(source, r) in log';
  }

  // Statements that record no token.
  lemma OtherTokenSteps(cfg: T.Config, s: T.State, b: T.Action)
    requires !b.RecordToken?
    ensures forall e :: e in T.Apply(cfg, s, b).log && e.Issued? ==> e in s.log
  {
  }

  lemma RecordingIsMinted(s256: string -> string, s: State, pid: Id)
    requires MayRecord(s, pid)
    ensures Minted(R.Apply(s256, s.oauth, R.MintAccess(pid)).log, s.tokens.mints[pid].req)
  {
    var p := s.oauth.procs[pid];
    assert R.Apply(s256, s.oauth, R.MintAccess(pid)) == R.ApplyMintAccess(s.oauth, R.MintAccess(pid));
    assert R.ApplyMintAccess(s.oauth, R.MintAccess(pid)).log[|s.oauth.log|] == R.AccessMinted(p.source, p.req);
  }

  lemma MachineRecordingIsMinted(s256: string -> string, s: State, pid: Id)
    requires MayRecordMachine(s, pid)
    ensures Minted(R.Apply(s256, s.oauth, MachineMint(s.tokens.mints[pid].req)).log, s.tokens.mints[pid].req)
  {
    var req := s.tokens.mints[pid].req;
    var a := MachineMint(req);
    assert R.Apply(s256, s.oauth, a) == R.ApplyMintMachine(s.oauth, a);
    assert R.ApplyMintMachine(s.oauth, a).log[|s.oauth.log|]
        == R.AccessMinted(R.FromMachine, RT.Request(req.client, req.actor, req.org.value, ["openid"]));
  }

  lemma RecordedEvents(cfg: T.Config, s: T.State, pid: Id)
    requires pid in s.mints && s.mints[pid].SignedToken?
    ensures forall e :: e in T.Apply(cfg, s, T.RecordToken(pid)).log && e.Issued? ==> e in s.log || e.req == s.mints[pid].req
  {
  }

  lemma LinkStays(s: State, t: State)
    requires Linked(s) && s.oauth.log <= t.oauth.log
    requires forall e :: e in t.tokens.log && e.Issued? ==> e in s.tokens.log || Minted(t.oauth.log, e.req)
    ensures Linked(t)
  {
    forall e | e in t.tokens.log && e.Issued?
      ensures Minted(t.oauth.log, e.req)
    {
      if e in s.tokens.log {
        MintedGrows(s.oauth.log, t.oauth.log, e.req);
      }
    }
  }

  lemma ApplyKeepsLink(s256: string -> string, cfg: T.Config, s: State, a: Action)
    requires Linked(s)
    ensures Linked(Apply(s256, cfg, s, a))
  {
    var t := Apply(s256, cfg, s, a);
    match a
    case OnOAuth(a) =>
      LogGrows(s256, s.oauth, a);
      LinkStays(s, t);
    case OnTokens(b) =>
      if !b.RecordToken? { OtherTokenSteps(cfg, s.tokens, b); }
      LinkStays(s, t);
    case Record(pid) =>
      if MayRecord(s, pid) {
        LogGrows(s256, s.oauth, R.MintAccess(pid));
        RecordingIsMinted(s256, s, pid);
        RecordedEvents(cfg, s.tokens, pid);
        LinkStays(s, t);
      }
    case RecordMachine(pid) =>
      if MayRecordMachine(s, pid) {
        LogGrows(s256, s.oauth, MachineMint(s.tokens.mints[pid].req));
        MachineRecordingIsMinted(s256, s, pid);
        RecordedEvents(cfg, s.tokens, pid);
        LinkStays(s, t);
      }
  }

  lemma ApplyProjects(s256: string -> string, cfg: T.Config, s: State, a: Action)
    requires R.Reachable(s256, s.oauth) && T.Reachable(cfg, s.tokens)
    ensures R.Reachable(s256, Apply(s256, cfg, s, a).oauth) && T.Reachable(cfg, Apply(s256, cfg, s, a).tokens)
  {
    match a
    case OnOAuth(a) => R.ReachableStep(s256, s.oauth, a);
    case OnTokens(b) => T.ReachableStep(cfg, s.tokens, b);
    case Record(pid) =>
      R.ReachableStep(s256, s.oauth, R.MintAccess(pid));
      T.ReachableStep(cfg, s.tokens, T.RecordToken(pid));
    case RecordMachine(pid) =>
      if MayRecordMachine(s, pid) {
        R.ReachableStep(s256, s.oauth, MachineMint(s.tokens.mints[pid].req));
      }
      T.ReachableStep(cfg, s.tokens, T.RecordToken(pid));
  }

  // Every run of the server is a run of either part, and keeps them linked.
  lemma {:induction false} RunsProject(s256: string -> string, cfg: T.Config, actions: seq<Action>)
    ensures var s := Exec(s256, cfg, Init, actions);
            R.Reachable(s256, s.oauth) && T.Reachable(cfg, s.tokens) && Linked(s)
    decreases |actions|
  {
    if actions == [] {
      assert R.Exec(s256, R.Init, []) == R.Init && T.Exec(cfg, T.Init, []) == T.Init;
    } else {
      var front, a := actions[..|actions| - 1], actions[|actions| - 1];
      RunsProject(s256, cfg, front);
      ApplyProjects(s256, cfg, Exec(s256, cfg, Init, front), a);
      ApplyKeepsLink(s256, cfg, Exec(s256, cfg, Init, front), a);
    }
  }

  // ------------------------------------------------------------- the result

  // The scopes of every accepted token are those it was minted with, in order,
  // and a user's token carries no scope that the user did not approve for that
  // client and organization.
  lemma AcceptedScopesWereApproved(s256: string -> string, cfg: T.Config, s: State, jwt: T.Jwt, audience: Option<ClientId>)
    requires Reachable(s256, cfg, s) && T.Validate(cfg, s.tokens, jwt, audience).Some?
    ensures var v := T.Validate(cfg, s.tokens, jwt, audience).value;
            && (exists source, r :: R.AccessMinted(source, r) in s.oauth.log && r == RT.Request(v.client, v.actor, v.org, v.scopes))
            && AreScopes(v.scopes)
            && (v.actor.kind.User? ==>
                  forall scope :: scope in v.scopes ==> Provenance.ApprovedScope(s.oauth.log, v.actor.id, v.client, v.org, scope))
  {
    var actions :| s == Exec(s256, cfg, Init, actions);
    RunsProject(s256, cfg, actions);
    var v := T.Validate(cfg, s.tokens, jwt, audience).value;
    T.AcceptedIsAsMinted(cfg, s.tokens, jwt, audience);
    var req, selectedAt, signedAt :|
      && T.Issued(jwt, req, selectedAt, signedAt) in s.tokens.log
      && v.actor == req.actor && Some(v.org) == req.org && v.client == req.client
      && (req.scopes != [] && (forall scope :: scope in req.scopes ==> IsWord(scope)) ==> v.scopes == req.scopes);
    var source, r :| R.AccessMinted(source, r) in s.oauth.log && req == TokenRequest(r);
    Provenance.ScopesNeverOutgrowApproval(s256, s.oauth);
    assert Provenance.Covered(s.oauth.log, R.AccessMinted(source, r).req);
    forall scope | scope in r.scopes ensures IsWord(scope) { SupportedAreWords(scope); }
    assert v.scopes == r.scopes && r == RT.Request(v.client, v.actor, v.org, v.scopes);
  }
}
