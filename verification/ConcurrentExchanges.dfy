// Exchanges of one user's codes side by side, as concrete runs.

module ConcurrentExchanges {
  import opened Common
  import opened Scopes
  import opened OAuthRuns
  import Provenance
  import RT = RefreshTokens

  const APP: ClientId := "app"

  const KEY: GrantKey := GrantKey(APP, 1, 1)

  // A reachable state with an enabled application of organization 1 and its member 1.
  ghost predicate Ready(s256: string -> string, s: State) {
    var enabled := APP in s.clients && s.clients[APP] == Client(Some(1), true, {"redirect"});
    var ready := Reachable(s256, s) && enabled && (1, 1) in s.members;
    ready
  }

  function CodeFor(s256: string -> string, s: State, id: Id, scopes: seq<Scope>): CodeData {
    CodeData(id, APP, 1, 1, scopes, s256("verifier"), "redirect", Now(s))
  }

  lemma SomeReadyState(s256: string -> string) returns (s: State)
    ensures Ready(s256, s) && s == Init.(clients := s.clients, members := s.members)
  {
    assert Exec(s256, Init, []) == Init;
    var client := SetClient(APP, Client(Some(1), true, {"redirect"}));
    ReachableStep(s256, Init, client);
    var s1 := Apply(s256, Init, client);
    assert s1 == ApplyTableAction(Init, client);
    var member := SetMember(1, 1, true);
    ReachableStep(s256, s1, member);
    s := Apply(s256, s1, member);
    assert s == ApplyTableAction(s1, member);
  }

  // The user approves some scopes and gets a code.
  lemma ApprovedCode(s256: string -> string, s: State, id: Id, scopes: seq<Scope>) returns (t: State)
    requires Ready(s256, s) && id !in s.used
    requires scopes != [] && forall x :: x in scopes ==> x in SUPPORTED_SCOPES
    ensures Ready(s256, t)
    ensures t == s.(codes := s.codes[id := CodeRow(CodeFor(s256, s, id, scopes), false)], used := s.used + {id}, log := t.log)
  {
    var a := Consent(1, APP, JoinScopes(scopes), s256("verifier"), "redirect", id, 0);
    ParseUndoesJoin(scopes);
    ReachableStep(s256, s, a);
    t := Apply(s256, s, a);
    assert t == ApplyConsent(s, a);
  }

  lemma LoadedCode(s256: string -> string, s: State, pid: Id, id: Id, scopes: seq<Scope>) returns (t: State)
    requires Ready(s256, s) && pid !in s.procs
    requires id in s.codes && s.codes[id] == CodeRow(CodeFor(s256, s, id, scopes), false)
    ensures Reachable(s256, t)
    ensures t == s.(procs := s.procs[pid := CodeLoaded(CodeFor(s256, s, id, scopes), APP, "verifier")])
  {
    var a := LoadCode(pid, id, APP, "verifier", None);
    ReachableStep(s256, s, a);
    t := Apply(s256, s, a);
    assert t == ApplyLoadCode(s256, s, a);
  }

  // An exchange that has read the stored grant and not yet written it.
  lemma ReadingExchange(s256: string -> string, s: State, pid: Id, id: Id, scopes: seq<Scope>) returns (t: State)
    requires Ready(s256, s) && id !in s.used && pid !in s.procs
    requires scopes != [] && forall x :: x in scopes ==> x in SUPPORTED_SCOPES
    ensures Ready(s256, t)
    ensures var read := GrantRead(CodeFor(s256, s, id, scopes), APP, "verifier", StoredScopes(s.grants, KEY));
            var moved := t.grants == s.grants && t.used == s.used + {id} && t.procs == s.procs[pid := read];
            moved
  {
    var s1 := ApprovedCode(s256, s, id, scopes);
    var s2 := LoadedCode(s256, s1, pid, id, scopes);
    t := ConsumedAndRead(s256, s2, pid);
  }

  lemma ConsumedAndRead(s256: string -> string, s: State, pid: Id) returns (t: State)
    requires Reachable(s256, s) && pid in s.procs && s.procs[pid].CodeLoaded?
    requires s.procs[pid].data.id in s.codes && !s.codes[s.procs[pid].data.id].used
    ensures var p := s.procs[pid];
            Reachable(s256, t) && t == s.(codes := t.codes, procs := s.procs[pid :=
              GrantRead(p.data, p.presenter, p.verifier, StoredScopes(s.grants, KeyOfCode(p.data, p.presenter)))])
  {
    ReachableStep(s256, s, UseCode(pid));
    var consumed := Apply(s256, s, UseCode(pid));
    assert consumed == ApplyUseCode(s, UseCode(pid));
    ReachableStep(s256, consumed, ReadGrant(pid));
    t := Apply(s256, consumed, ReadGrant(pid));
    assert t == ApplyReadGrant(consumed, ReadGrant(pid));
  }

  lemma WritingExchange(s256: string -> string, s: State, pid: Id)
    requires Ready(s256, s) && pid in s.procs && s.procs[pid].GrantRead?
    requires KeyOfCode(s.procs[pid].data, s.procs[pid].presenter) == KEY
    ensures Ready(s256, ApplyStoreGrant(s, StoreGrant(pid)))
  {
    ReachableStep(s256, s, StoreGrant(pid));
    assert Apply(s256, s, StoreGrant(pid)) == ApplyStoreGrant(s, StoreGrant(pid));
  }

  // A stored grant of two scopes.
  lemma FirstGrant(s256: string -> string) returns (s: State)
    ensures Ready(s256, s)
    ensures var stored := s.used == {10} && s.procs.Keys == {0} && s.grants == map[KEY := Grant(["openid", "profile"], false)];
            stored
  {
    var ready := SomeReadyState(s256);
    var reading := ReadingExchange(s256, ready, 0, 10, ["openid", "profile"]);
    WritingExchange(s256, reading, 0);
    s := ApplyStoreGrant(reading, StoreGrant(0));
    assert Merge(["openid", "profile"], []) == ["openid", "profile"];
  }

  ghost predicate Loses(s256: string -> string, s: State, a: Action, scope: Scope) {
    var t := Apply(s256, s, a);
    var lost := KEY in s.grants && KEY in t.grants && scope in s.grants[KEY].scopes && scope !in t.grants[KEY].scopes;
    lost
  }

  lemma SecondWriteLoses(s256: string -> string, s: State)
    requires 2 in s.procs && s.procs[2].GrantRead? && s.procs[2].existing == Some(["openid", "profile"])
    requires KeyOfCode(s.procs[2].data, s.procs[2].presenter) == KEY && s.procs[2].data.scopes == ["openid", "email"]
    requires KEY in s.grants && "offline_access" in s.grants[KEY].scopes
    ensures Loses(s256, s, StoreGrant(2), "offline_access")
  {
    ScopeNamesDiffer();
    assert Apply(s256, s, StoreGrant(2)) == ApplyStoreGrant(s, StoreGrant(2));
    Provenance.StoredScopeSurvives(s, StoreGrant(2), "offline_access");
    assert "profile" in ["openid", "profile"];
  }

  // Two exchanges read the same grant; the later write undoes the earlier one.
  lemma SomeApprovedScopeIsLost(s256: string -> string)
    ensures exists s: State, a: Action :: Reachable(s256, s) && a.StoreGrant? && Loses(s256, s, a, "offline_access")
  {
    var first := FirstGrant(s256);
    var one := ReadingExchange(s256, first, 1, 11, ["openid", "offline_access"]);
    var two := ReadingExchange(s256, one, 2, 12, ["openid", "email"]);
    assert two.procs[1].existing == two.procs[2].existing == Some(["openid", "profile"]);
    var s := ApplyStoreGrant(two, StoreGrant(1));
    WritingExchange(s256, two, 1);
    ScopeNamesDiffer();
    Provenance.MergeIsUnion(["openid", "offline_access"], ["openid", "profile"]);
    assert "offline_access" in s.grants[KEY].scopes;
    SecondWriteLoses(s256, s);
  }

  lemma ScopeNamesDiffer()
    ensures "profile" !in ["openid", "offline_access"] && "profile" !in ["openid", "email"]
    ensures "offline_access" !in ["openid", "email"] && "offline_access" !in ["openid", "profile"]
  {
    assert |"openid"| == 6 && |"profile"| == 7 && |"email"| == 5 && |"offline_access"| == 14;
  }
}
