/** What every run of spawns, kills, window closes and late exits keeps of the per-spawn tokens. */
module TokenRuns {
  import opened Options
  import opened Tokens

  // ---------------------------------------------------------------- who holds a token

  predicate HookHeld(s: State, t: Token) {
    exists id :: id in s.sessions && s.sessions[id].hook == Some(t)
  }

  predicate OtelHeld(s: State, t: Token) {
    exists id :: id in s.sessions && s.sessions[id].otel == Some(t)
  }

  predicate ProxyHeld(s: State, t: Token) {
    exists a :: a in s.proxy && s.proxy[a] == t
  }

  predicate HasItsTokens(s: State, id: PtyId)
    requires id in s.sessions
  {
    var p := s.sessions[id];
    && (p.hook.Some? <==> p.agent.Some?)
    && (p.hook.Some? ==> p.hook.value in s.hooks.holder && s.hooks.holder[p.hook.value] == p.agent.value)
    && (p.otel.Some? ==> p.agent.Some? && p.otel.value in s.otel.holder && s.otel.holder[p.otel.value] == p.agent.value)
    && p.serial < |s.spawned| && s.spawned[p.serial] == id
  }

  predicate SharesNothing(s: State, i: PtyId, j: PtyId)
    requires i in s.sessions && j in s.sessions
  {
    && (s.sessions[i].hook.Some? ==> s.sessions[i].hook != s.sessions[j].hook)
    && (s.sessions[i].otel.Some? ==> s.sessions[i].otel != s.sessions[j].otel)
  }

  predicate ProxyHasItsToken(s: State, a: Id)
    requires a in s.proxy
  {
    && s.proxy[a] in s.hooks.holder && s.hooks.holder[s.proxy[a]] == a
    && !HookHeld(s, s.proxy[a])
  }

  /** A server knows a token exactly while a terminal or a proxy entry holds it, and under that holder's name. */
  predicate Accounted(s: State) {
    && (forall id :: id in s.sessions ==> HasItsTokens(s, id))
    && (forall i, j :: i in s.sessions && j in s.sessions && i != j ==> SharesNothing(s, i, j))
    && (forall a :: a in s.proxy ==> ProxyHasItsToken(s, a))
    && (forall t :: t in s.hooks.holder ==> t < s.hooks.next && (HookHeld(s, t) || ProxyHeld(s, t)))
    && (forall t :: t in s.otel.holder ==> t < s.otel.next && OtelHeld(s, t))
  }

  predicate ChildHasItsToken(s: State, a: Id)
    requires a in s.children
  {
    var k := s.children[a];
    && k < |s.sidecars| && s.sidecars[k].agent == a && a in s.proxy && s.proxy[a] == s.sidecars[k].token
  }

  predicate EntryIsOfChild(s: State, k: nat)
    requires k < |s.sidecars|
  {
    var c := s.sidecars[k];
    && c.token < s.hooks.next
    && (c.agent in s.proxy && s.proxy[c.agent] == c.token ==> c.agent in s.children && s.children[c.agent] == k)
  }

  /** A tracked sidecar carries the token registered for its agent, and an older one no registered token. */
  predicate Bridged(s: State) {
    && (forall a :: a in s.children ==> ChildHasItsToken(s, a))
    && (forall k :: 0 <= k < |s.sidecars| ==> EntryIsOfChild(s, k))
  }

  // ---------------------------------------------------------------- each change keeps the account

  lemma {:induction false} DroppedKeeps(s: State, id: PtyId)
    requires id in s.sessions && Accounted(s)
    ensures Accounted(Dropped(s, id))
  {
    var s' := Dropped(s, id);
    forall i | i in s'.sessions ensures HasItsTokens(s', i) {
      assert HasItsTokens(s, i) && SharesNothing(s, i, id);
    }
    forall i, j | i in s'.sessions && j in s'.sessions && i != j ensures SharesNothing(s', i, j) {
      assert SharesNothing(s, i, j);
    }
    forall a | a in s'.proxy ensures ProxyHasItsToken(s', a) {
      assert ProxyHasItsToken(s, a);
      var t := s.proxy[a];
      assert s.sessions[id].hook == Some(t) ==> HookHeld(s, t);
      assert HookHeld(s', t) ==> HookHeld(s, t);
    }
    forall t | t in s'.hooks.holder ensures HookHeld(s', t) || ProxyHeld(s', t) {
      if HookHeld(s, t) {
        var i :| i in s.sessions && s.sessions[i].hook == Some(t);
        assert i in s'.sessions && s'.sessions[i].hook == Some(t);
      } else {
        var a :| a in s.proxy && s.proxy[a] == t;
        assert a in s'.proxy && s'.proxy[a] == t;
      }
    }
    forall t | t in s'.otel.holder ensures OtelHeld(s', t) {
      var i :| i in s.sessions && s.sessions[i].otel == Some(t);
      assert i in s'.sessions && s'.sessions[i].otel == Some(t);
    }
  }

  /** A terminal that could not be started leaves no token behind. */
  lemma {:induction false} BrokenSpawnLeavesNothing(s: State, id: PtyId, agent: Option<Id>, owner: Owner, telemetry: bool)
    requires Accounted(s)
    ensures var s' := SpawnedBy(s, id, agent, owner, telemetry, Broken);
      s' == s.(hooks := s.hooks.(next := s'.hooks.next), otel := s.otel.(next := s'.otel.next))
      && s.hooks.next <= s'.hooks.next && s.otel.next <= s'.otel.next
  {
    assert s.hooks.next !in s.hooks.holder && s.otel.next !in s.otel.holder;
    if agent.Some? {
      MintAndRevoke(s.hooks, agent.value);
      if telemetry { MintAndRevoke(s.otel, agent.value); }
    }
  }

  lemma {:induction false} MintAndRevoke(sv: Server, agent: Id)
    requires sv.next !in sv.holder
    ensures Revoked(Minted(sv, agent), sv.next) == sv.(next := sv.next + 1)
  {
    assert Revoked(Minted(sv, agent), sv.next).holder == sv.holder;
  }

  lemma {:induction false} CountersMayGrow(s: State, s': State)
    requires Accounted(s) && s.hooks.next <= s'.hooks.next && s.otel.next <= s'.otel.next
    requires s' == s.(hooks := s.hooks.(next := s'.hooks.next), otel := s.otel.(next := s'.otel.next))
    ensures Accounted(s')
  {
    forall id | id in s'.sessions ensures HasItsTokens(s', id) { assert HasItsTokens(s, id); }
    forall i, j | i in s'.sessions && j in s'.sessions && i != j ensures SharesNothing(s', i, j) { assert SharesNothing(s, i, j); }
    forall t | HookHeld(s', t) ensures HookHeld(s, t) {}
    forall a | a in s'.proxy ensures ProxyHasItsToken(s', a) { assert ProxyHasItsToken(s, a); }
    forall t | t in s'.hooks.holder ensures HookHeld(s', t) || ProxyHeld(s', t) {
      if HookHeld(s, t) {
        var i :| i in s.sessions && s.sessions[i].hook == Some(t);
        assert i in s'.sessions;
      } else {
        var a :| a in s.proxy && s.proxy[a] == t;
        assert a in s'.proxy;
      }
    }
    forall t | t in s'.otel.holder ensures OtelHeld(s', t) {
      var i :| i in s.sessions && s.sessions[i].otel == Some(t);
      assert i in s'.sessions;
    }
  }

  lemma {:induction false} RunningSpawnKeepsSessions(s: State, id: PtyId, agent: Option<Id>, owner: Owner, telemetry: bool)
    requires id !in s.sessions && Accounted(s)
    ensures var s' := SpawnedBy(s, id, agent, owner, telemetry, Running);
      (forall i :: i in s'.sessions ==> HasItsTokens(s', i))
      && (forall i, j :: i in s'.sessions && j in s'.sessions && i != j ==> SharesNothing(s', i, j))
  {
    var s' := SpawnedBy(s, id, agent, owner, telemetry, Running);
    forall i | i in s'.sessions ensures HasItsTokens(s', i) {
      if i != id { assert HasItsTokens(s, i); }
    }
    forall i, j | i in s'.sessions && j in s'.sessions && i != j ensures SharesNothing(s', i, j) {
      if i != id { assert HasItsTokens(s, i); }
      if j != id { assert HasItsTokens(s, j); }
      if i != id && j != id { assert SharesNothing(s, i, j); }
    }
  }

  lemma {:induction false} RunningSpawnKeepsHolders(s: State, id: PtyId, agent: Option<Id>, owner: Owner, telemetry: bool)
    requires id !in s.sessions && Accounted(s)
    ensures var s' := SpawnedBy(s, id, agent, owner, telemetry, Running);
      (forall t :: t in s'.hooks.holder ==> t < s'.hooks.next && (HookHeld(s', t) || ProxyHeld(s', t)))
      && (forall t :: t in s'.otel.holder ==> t < s'.otel.next && OtelHeld(s', t))
  {
    var s' := SpawnedBy(s, id, agent, owner, telemetry, Running);
    assert id in s'.sessions;
    forall t | t in s'.hooks.holder ensures HookHeld(s', t) || ProxyHeld(s', t) {
      if t in s.hooks.holder && HookHeld(s, t) {
        var i :| i in s.sessions && s.sessions[i].hook == Some(t);
        assert i in s'.sessions && s'.sessions[i].hook == Some(t);
      } else if t in s.hooks.holder {
        var a :| a in s.proxy && s.proxy[a] == t;
        assert a in s'.proxy && s'.proxy[a] == t;
      } else {
        assert s'.sessions[id].hook == Some(t);
      }
    }
    forall t | t in s'.otel.holder ensures OtelHeld(s', t) {
      if t in s.otel.holder {
        var i :| i in s.sessions && s.sessions[i].otel == Some(t);
        assert i in s'.sessions && s'.sessions[i].otel == Some(t);
      } else {
        assert s'.sessions[id].otel == Some(t);
      }
    }
  }

  lemma {:induction false} RunningSpawnKeeps(s: State, id: PtyId, agent: Option<Id>, owner: Owner, telemetry: bool)
    requires id !in s.sessions && Accounted(s)
    ensures Accounted(SpawnedBy(s, id, agent, owner, telemetry, Running))
  {
    var s' := SpawnedBy(s, id, agent, owner, telemetry, Running);
    RunningSpawnKeepsSessions(s, id, agent, owner, telemetry);
    RunningSpawnKeepsHolders(s, id, agent, owner, telemetry);
    forall a | a in s'.proxy ensures ProxyHasItsToken(s', a) { RunningSpawnKeepsProxy(s, id, agent, owner, telemetry, a); }
  }

  lemma {:induction false} RunningSpawnKeepsProxy(s: State, id: PtyId, agent: Option<Id>, owner: Owner, telemetry: bool, a: Id)
    requires id !in s.sessions && Accounted(s) && a in s.proxy
    ensures var s' := SpawnedBy(s, id, agent, owner, telemetry, Running); a in s'.proxy && ProxyHasItsToken(s', a)
  {
    var s' := SpawnedBy(s, id, agent, owner, telemetry, Running);
    assert ProxyHasItsToken(s, a);
    assert forall i :: i in s'.sessions && i != id ==> s'.sessions[i] == s.sessions[i];
    var t := s.proxy[a];
    assert s'.sessions[id].hook != Some(t);
    assert HookHeld(s', t) ==> HookHeld(s, t);
  }

  lemma {:induction false} SpawnKeeps(s: State, id: PtyId, agent: Option<Id>, owner: Owner, telemetry: bool, start: Start)
    requires Accounted(s)
    ensures Accounted(SpawnedBy(s, id, agent, owner, telemetry, start))
  {
    if id in s.sessions || start == Unready {
    } else if start == Broken {
      BrokenSpawnLeavesNothing(s, id, agent, owner, telemetry);
      CountersMayGrow(s, SpawnedBy(s, id, agent, owner, telemetry, start));
    } else {
      RunningSpawnKeeps(s, id, agent, owner, telemetry);
    }
  }

  lemma {:induction false} ClosedButKeeps(s: State, owner: Owner, left: set<PtyId>)
    requires Accounted(s) && left <= s.sessions.Keys
    ensures Accounted(ClosedBut(s, owner, left))
    decreases s.sessions.Keys - left
  {
    if s.sessions.Keys <= left {
      NoneClosed(s, owner);
      assert left == s.sessions.Keys;
    } else {
      var id :| id in s.sessions.Keys && id !in left;
      var more := left + {id};
      ClosedButKeeps(s, owner, more);
      OneMoreClosed(s, owner, more, id);
      assert more - {id} == left;
      if s.sessions[id].owner == owner { DroppedKeeps(ClosedBut(s, owner, more), id); }
    }
  }

  lemma {:induction false} ProxyRevokedKeeps(s: State, a: Id)
    requires Accounted(s)
    ensures Accounted(ProxyRevoked(s, a))
  {
    var s' := ProxyRevoked(s, a);
    if a in s.proxy {
      assert ProxyHasItsToken(s, a);
      forall i | i in s'.sessions ensures HasItsTokens(s', i) {
        assert HasItsTokens(s, i);
        var t := s.proxy[a];
        assert s.sessions[i].hook == Some(t) ==> HookHeld(s, t);
      }
      forall i, j | i in s'.sessions && j in s'.sessions && i != j ensures SharesNothing(s', i, j) { assert SharesNothing(s, i, j); }
      forall b | b in s'.proxy ensures ProxyHasItsToken(s', b) {
        assert ProxyHasItsToken(s, b);
        assert HookHeld(s', s.proxy[b]) == HookHeld(s, s.proxy[b]);
      }
      forall t | t in s'.hooks.holder ensures HookHeld(s', t) || ProxyHeld(s', t) {
        if HookHeld(s, t) {
          var i :| i in s.sessions && s.sessions[i].hook == Some(t);
          assert i in s'.sessions && s'.sessions[i].hook == Some(t);
        } else {
          var b :| b in s.proxy && s.proxy[b] == t;
          assert b in s'.proxy && s'.proxy[b] == t;
        }
      }
      forall t | t in s'.otel.holder ensures OtelHeld(s', t) {
        var i :| i in s.sessions && s.sessions[i].otel == Some(t);
        assert i in s'.sessions && s'.sessions[i].otel == Some(t);
      }
    }
  }

  lemma {:induction false} MintedHolders(s: State, a: Id)
    requires Accounted(s) && a !in s.proxy
    ensures var s' := s.(hooks := Minted(s.hooks, a), proxy := s.proxy[a := s.hooks.next]);
      forall t :: t in s'.hooks.holder ==> t < s'.hooks.next && (HookHeld(s', t) || ProxyHeld(s', t))
  {
    var s' := s.(hooks := Minted(s.hooks, a), proxy := s.proxy[a := s.hooks.next]);
    forall t | t in s'.hooks.holder ensures HookHeld(s', t) || ProxyHeld(s', t) {
      if t == s.hooks.next {
        assert a in s'.proxy && s'.proxy[a] == t;
      } else if HookHeld(s, t) {
        var i :| i in s.sessions && s.sessions[i].hook == Some(t);
        assert i in s'.sessions && s'.sessions[i].hook == Some(t);
      } else {
        var b :| b in s.proxy && s.proxy[b] == t;
        assert b in s'.proxy && s'.proxy[b] == t;
      }
    }
  }

  lemma {:induction false} MintedEntries(s: State, a: Id)
    requires Accounted(s) && a !in s.proxy
    ensures var s' := s.(hooks := Minted(s.hooks, a), proxy := s.proxy[a := s.hooks.next]);
      forall b :: b in s'.proxy ==> ProxyHasItsToken(s', b)
  {
    var s' := s.(hooks := Minted(s.hooks, a), proxy := s.proxy[a := s.hooks.next]);
    assert forall i :: i in s.sessions ==> HasItsTokens(s, i) && s.sessions[i].hook != Some(s.hooks.next);
    forall b | b in s'.proxy ensures ProxyHasItsToken(s', b) {
      assert b != a ==> ProxyHasItsToken(s, b);
      assert HookHeld(s', s'.proxy[b]) == HookHeld(s, s'.proxy[b]);
    }
  }

  lemma {:induction false} ProxyMintedKeeps(s: State, a: Id)
    requires Accounted(s)
    ensures Accounted(ProxyMinted(s, a))
  {
    var s1, s' := ProxyRevoked(s, a), ProxyMinted(s, a);
    ProxyRevokedKeeps(s, a);
    MintedHolders(s1, a);
    MintedEntries(s1, a);
    forall i | i in s'.sessions ensures HasItsTokens(s', i) { assert HasItsTokens(s1, i); }
    forall i, j | i in s'.sessions && j in s'.sessions && i != j ensures SharesNothing(s', i, j) { assert SharesNothing(s1, i, j); }
    forall t | t in s'.otel.holder ensures OtelHeld(s', t) {
      var i :| i in s1.sessions && s1.sessions[i].otel == Some(t);
      assert i in s'.sessions && s'.sessions[i].otel == Some(t);
    }
  }

  /** The account does not depend on which sidecars run. */
  lemma {:induction false} AccountIgnoresSidecars(s: State, children: map<Id, nat>, sidecars: seq<Sidecar>)
    requires Accounted(s)
    ensures Accounted(s.(children := children, sidecars := sidecars))
  {
    CountersMayGrowBeside(s, s.(children := children, sidecars := sidecars));
  }

  lemma {:induction false} CountersMayGrowBeside(s: State, s': State)
    requires Accounted(s) && s' == s.(children := s'.children, sidecars := s'.sidecars)
    ensures Accounted(s')
  {
    forall id | id in s'.sessions ensures HasItsTokens(s', id) { assert HasItsTokens(s, id); }
    forall i, j | i in s'.sessions && j in s'.sessions && i != j ensures SharesNothing(s', i, j) { assert SharesNothing(s, i, j); }
    forall t ensures HookHeld(s', t) == HookHeld(s, t) && ProxyHeld(s', t) == ProxyHeld(s, t) && OtelHeld(s', t) == OtelHeld(s, t) {}
    forall a | a in s'.proxy ensures ProxyHasItsToken(s', a) { assert ProxyHasItsToken(s, a); }
  }

  lemma {:induction false} AccountIgnoresTheGone(s: State, gone: set<nat>)
    requires Accounted(s)
    ensures Accounted(s.(gone := gone))
  {
    var s' := s.(gone := gone);
    forall id | id in s'.sessions ensures HasItsTokens(s', id) { assert HasItsTokens(s, id); }
    forall i, j | i in s'.sessions && j in s'.sessions && i != j ensures SharesNothing(s', i, j) { assert SharesNothing(s, i, j); }
    forall t ensures HookHeld(s', t) == HookHeld(s, t) && ProxyHeld(s', t) == ProxyHeld(s, t) && OtelHeld(s', t) == OtelHeld(s, t) {}
    forall a | a in s'.proxy ensures ProxyHasItsToken(s', a) { assert ProxyHasItsToken(s, a); }
  }

  lemma {:induction false} StepKeepsAccount(s: State, op: Op)
    requires Accounted(s)
    ensures Accounted(Step(s, op))
  {
    match op
    case Spawn(id, agent, owner, telemetry, start) => SpawnKeeps(s, id, agent, owner, telemetry, start);
    case Kill(id, died) => if id in s.sessions { DroppedKeeps(s, id); }
    case CloseOwner(owner) => ClosedButKeeps(s, owner, {});
    case Exit(k) => if k < |s.spawned| && IsCurrent(s, k) { DroppedKeeps(s, s.spawned[k]); }
    case StartBridge(a, script, starts) =>
      StoppedKeepsAccount(s, a);
      var s1 := BridgeStopped(s, a);
      ProxyMintedKeeps(s1, a);
      var s2 := ProxyMinted(s1, a);
      AccountIgnoresSidecars(s2, s2.children[a := |s.sidecars|], s.sidecars + [Sidecar(a, s1.hooks.next)]);
    case StopBridge(a) => StoppedKeepsAccount(s, a);
    case SidecarFails(k) => AccountIgnoresTheGone(s, s.gone + {k});
    case SidecarExit(k) =>
      if k < |s.sidecars| {
        ExitKeepsAccount(s, k);
        AccountIgnoresTheGone(SidecarExited(s, k), s.gone + {k});
      }
  }

  lemma {:induction false} ExitKeepsAccount(s: State, k: nat)
    requires Accounted(s) && k < |s.sidecars|
    ensures Accounted(SidecarExited(s, k))
  {
    var a := s.sidecars[k].agent;
    AccountIgnoresSidecars(s, s.children - {a}, s.sidecars);
    ProxyRevokedKeeps(s, a);
    ProxyRevokedKeeps(s.(children := s.children - {a}, sidecars := s.sidecars), a);
  }

  lemma {:induction false} StoppedKeepsAccount(s: State, a: Id)
    requires Accounted(s)
    ensures Accounted(BridgeStopped(s, a))
  {
    AccountIgnoresSidecars(s, s.children - {a}, s.sidecars);
    ProxyRevokedKeeps(s.(children := s.children - {a}, sidecars := s.sidecars), a);
  }

  // ---------------------------------------------------------------- each change keeps the sidecars

  /** The entry of an agent without a sidecar is made anew. */
  lemma {:induction false} MintedBridged(s: State, a: Id)
    requires Bridged(s) && a !in s.children
    ensures Bridged(ProxyMinted(s, a))
  {
    var s' := ProxyMinted(s, a);
    forall b | b in s'.children ensures ChildHasItsToken(s', b) { assert ChildHasItsToken(s, b); }
    forall k | 0 <= k < |s'.sidecars| ensures EntryIsOfChild(s', k) { assert EntryIsOfChild(s, k); }
  }

  lemma {:induction false} TrackedBridged(s: State, a: Id, token: Token)
    requires Bridged(s) && a !in s.children && a in s.proxy && s.proxy[a] == token && token < s.hooks.next
    requires forall k :: 0 <= k < |s.sidecars| ==> s.sidecars[k].token != token
    ensures Bridged(s.(children := s.children[a := |s.sidecars|], sidecars := s.sidecars + [Sidecar(a, token)]))
  {
    var s' := s.(children := s.children[a := |s.sidecars|], sidecars := s.sidecars + [Sidecar(a, token)]);
    forall b | b in s'.children ensures ChildHasItsToken(s', b) { if b != a { assert ChildHasItsToken(s, b); } }
    forall k | 0 <= k < |s'.sidecars| ensures EntryIsOfChild(s', k) { if k < |s.sidecars| { assert EntryIsOfChild(s, k); } }
  }

  lemma {:induction false} BridgeStartKeeps(s: State, a: Id, script: bool, starts: bool)
    requires Bridged(s)
    ensures Bridged(BridgeStarted(s, a, script, starts))
  {
    var s1 := BridgeStopped(s, a);
    BridgeStopKeeps(s, a);
    MintedBridged(s1, a);
    var s2 := ProxyMinted(s1, a);
    forall k | 0 <= k < |s2.sidecars| ensures s2.sidecars[k].token != s1.hooks.next { assert EntryIsOfChild(s1, k); }
    TrackedBridged(s2, a, s1.hooks.next);
  }

  lemma {:induction false} BridgeStopKeeps(s: State, a: Id)
    requires Bridged(s)
    ensures Bridged(BridgeStopped(s, a)) && a !in BridgeStopped(s, a).children
  {
    var s' := BridgeStopped(s, a);
    forall b | b in s'.children ensures ChildHasItsToken(s', b) { assert ChildHasItsToken(s, b); }
    forall k | 0 <= k < |s'.sidecars| ensures EntryIsOfChild(s', k) {
      assert EntryIsOfChild(s, k);
    }
  }

  lemma {:induction false} SidecarExitKeeps(s: State, k: nat)
    requires k < |s.sidecars| && Bridged(s)
    ensures Bridged(SidecarExited(s, k))
  {
    var s' := SidecarExited(s, k);
    assert EntryIsOfChild(s, k);
    forall b | b in s'.children ensures ChildHasItsToken(s', b) { assert ChildHasItsToken(s, b); }
    forall i | 0 <= i < |s'.sidecars| ensures EntryIsOfChild(s', i) {
      assert EntryIsOfChild(s, i);
      if s.sidecars[k].agent in s.children { assert ChildHasItsToken(s, s.sidecars[k].agent); }
    }
  }

  lemma {:induction false} BridgesIgnorePtys(s: State, s': State)
    requires Bridged(s) && s'.proxy == s.proxy && s'.children == s.children && s'.sidecars == s.sidecars && s.hooks.next <= s'.hooks.next
    ensures Bridged(s')
  {
    forall a | a in s'.children ensures ChildHasItsToken(s', a) { assert ChildHasItsToken(s, a); }
    forall k | 0 <= k < |s'.sidecars| ensures EntryIsOfChild(s', k) { assert EntryIsOfChild(s, k); }
  }

  lemma {:induction false} StepKeepsBridges(s: State, op: Op)
    requires Bridged(s)
    ensures Bridged(Step(s, op))
  {
    match op
    case StartBridge(a, script, starts) => BridgeStartKeeps(s, a, script, starts);
    case StopBridge(a) => BridgeStopKeeps(s, a);
    case SidecarExit(k) =>
      if k < |s.sidecars| {
        SidecarExitKeeps(s, k);
        BridgesIgnorePtys(SidecarExited(s, k), Step(s, op));
      }
    case _ => BridgesIgnorePtys(s, Step(s, op));
  }

  lemma {:induction false} RunKeeps(ops: seq<Op>)
    ensures Accounted(After(ops)) && Bridged(After(ops))
  {
    if ops != [] {
      var before := ops[..|ops| - 1];
      RunKeeps(before);
      StepKeepsAccount(After(before), ops[|ops| - 1]);
      StepKeepsBridges(After(before), ops[|ops| - 1]);
    }
  }

  // ---------------------------------------------------------------- the theorems

  /**
   After any run, the hook tokens the server knows are exactly those of the sessions in the map and of
   the proxy entries, never both, and each names the agent it was made for; the telemetry tokens are
   exactly the sessions'.
   */
  lemma {:induction false} TokensAreTheSessions(ops: seq<Op>, t: Token)
    ensures var s := After(ops);
      t in s.hooks.holder <==> (HookHeld(s, t) || ProxyHeld(s, t))
    ensures var s := After(ops); !(HookHeld(s, t) && ProxyHeld(s, t))
    ensures var s := After(ops); t in s.otel.holder <==> OtelHeld(s, t)
    ensures var s := After(ops);
      forall id :: id in s.sessions && s.sessions[id].hook == Some(t) ==>
        s.sessions[id].agent.Some? && t in s.hooks.holder && s.hooks.holder[t] == s.sessions[id].agent.value
    ensures var s := After(ops);
      forall i, j :: i in s.sessions && j in s.sessions && s.sessions[i].hook == s.sessions[j].hook == Some(t) ==> i == j
  {
    RunKeeps(ops);
    AccountedExactly(After(ops), t);
    AccountedOnce(After(ops), t);
  }

  lemma {:induction false} AccountedExactly(s: State, t: Token)
    requires Accounted(s)
    ensures t in s.hooks.holder <==> (HookHeld(s, t) || ProxyHeld(s, t))
    ensures t in s.otel.holder <==> OtelHeld(s, t)
    ensures !(HookHeld(s, t) && ProxyHeld(s, t))
  {
    if HookHeld(s, t) {
      var id :| id in s.sessions && s.sessions[id].hook == Some(t);
      assert HasItsTokens(s, id);
    }
    if ProxyHeld(s, t) {
      var a :| a in s.proxy && s.proxy[a] == t;
      assert ProxyHasItsToken(s, a);
    }
    if OtelHeld(s, t) {
      var id :| id in s.sessions && s.sessions[id].otel == Some(t);
      assert HasItsTokens(s, id);
    }
  }

  lemma {:induction false} AccountedOnce(s: State, t: Token)
    requires Accounted(s)
    ensures forall id :: id in s.sessions && s.sessions[id].hook == Some(t) ==>
      s.sessions[id].agent.Some? && t in s.hooks.holder && s.hooks.holder[t] == s.sessions[id].agent.value
    ensures forall i, j :: i in s.sessions && j in s.sessions && s.sessions[i].hook == s.sessions[j].hook == Some(t) ==> i == j
  {
    forall id | id in s.sessions && s.sessions[id].hook == Some(t)
      ensures s.sessions[id].agent.Some? && t in s.hooks.holder && s.hooks.holder[t] == s.sessions[id].agent.value
    {
      assert HasItsTokens(s, id);
    }
    assert forall i, j :: i in s.sessions && j in s.sessions && i != j ==> SharesNothing(s, i, j);
  }

  /** A tracked sidecar's token is valid, for its own agent, whatever exits arrived before. */
  lemma {:induction false} LiveSidecarHasItsToken(ops: seq<Op>, a: Id)
    requires a in After(ops).children
    ensures var s := After(ops); var k := s.children[a];
      k < |s.sidecars| && s.sidecars[k].agent == a && s.sidecars[k].token in s.hooks.holder && s.hooks.holder[s.sidecars[k].token] == a
  {
    RunKeeps(ops);
    var s := After(ops);
    assert ChildHasItsToken(s, a) && ProxyHasItsToken(s, a);
  }

  /** What the program keeps, which does not include whether a process still runs. */
  function Kept(s: State): State {
    s.(gone := {})
  }

  /** The exit of a process that is no longer the current one changes nothing; that of the current one does. */
  lemma {:induction false} LateExitsAreHarmless(ops: seq<Op>, k: nat)
    ensures var s := After(ops);
      k < |s.spawned| ==> (Step(s, Exit(k)) == s <==> !IsCurrent(s, k))
    ensures var s := After(ops);
      k < |s.sidecars| ==> (Kept(Step(s, SidecarExit(k))) == Kept(s) <==> !(s.sidecars[k].agent in s.children && s.children[s.sidecars[k].agent] == k))
  {
    RunKeeps(ops);
    var s := After(ops);
    if k < |s.spawned| && IsCurrent(s, k) {
      assert s.spawned[k] in s.sessions && s.spawned[k] !in Step(s, Exit(k)).sessions;
    }
    if k < |s.sidecars| {
      assert EntryIsOfChild(s, k);
      var a := s.sidecars[k].agent;
      if a in s.children && s.children[a] == k { assert a !in Step(s, SidecarExit(k)).children; }
    }
  }

  lemma {:induction false} ProxyRevokedOnlyDrops(s: State, a: Id)
    ensures ProxyRevoked(s, a).hooks.next == s.hooks.next
    ensures forall t :: t in ProxyRevoked(s, a).hooks.holder ==> t in s.hooks.holder
  {
  }

  lemma {:induction false} StepRevivesNothing(s: State, op: Op, t: Token)
    requires t < s.hooks.next && t !in s.hooks.holder
    ensures t < Step(s, op).hooks.next && t !in Step(s, op).hooks.holder
  {
    match op
    case StartBridge(a, script, starts) =>
      var s1 := BridgeStopped(s, a);
      assert t < s1.hooks.next && t !in s1.hooks.holder;
      ProxyRevokedOnlyDrops(s1, a);
    case StopBridge(a) => ProxyRevokedOnlyDrops(s.(children := s.children - {a}), a);
    case _ =>
  }

  /** A token given up is never valid again. */
  lemma {:induction false} GoneTokensStayGone(ops: seq<Op>, more: seq<Op>, t: Token)
    requires t < After(ops).hooks.next && t !in After(ops).hooks.holder
    ensures t !in After(ops + more).hooks.holder && t < After(ops + more).hooks.next
  {
    if more == [] {
      assert ops + more == ops;
    } else {
      var n := |more| - 1;
      GoneTokensStayGone(ops, more[..n], t);
      assert (ops + more)[..|ops + more| - 1] == ops + more[..n];
      StepRevivesNothing(After(ops + more[..n]), more[n], t);
    }
  }

  // ---------------------------------------------------------------- the token a failed start leaves

  /** A registered token that no running sidecar was given. */
  predicate Stranded(s: State, a: Id) {
    a in s.proxy && forall k :: 0 <= k < |s.sidecars| && s.sidecars[k] == Sidecar(a, s.proxy[a]) ==> k in s.gone
  }

  predicate IsChild(s: State, a: Id, k: nat) {
    a in s.children && s.children[a] == k
  }

  /** The last start that got as far as the process threw. */
  function LastStartThrew(ops: seq<Op>, a: Id): bool {
    if ops == [] then false
    else
      var op := ops[|ops| - 1];
      if op.StartBridge? && op.bridge == a && op.script then !op.starts else LastStartThrew(ops[..|ops| - 1], a)
  }

  /** The sidecar now tracked failed after its start had returned: no start, stop or exit of it has come since. */
  function TrackedOneFailed(ops: seq<Op>, a: Id): bool {
    if ops == [] then false
    else
      var before := ops[..|ops| - 1];
      match ops[|ops| - 1]
      case StartBridge(b, _, _) => if b == a then false else TrackedOneFailed(before, a)
      case StopBridge(b) => if b == a then false else TrackedOneFailed(before, a)
      case SidecarExit(k) => if IsChild(After(before), a, k) then false else TrackedOneFailed(before, a)
      case SidecarFails(k) => if IsChild(After(before), a, k) then true else TrackedOneFailed(before, a)
      case _ => TrackedOneFailed(before, a)
  }

  /** Registered, and no sidecar tracked. */
  predicate Untracked(s: State, a: Id) {
    a in s.proxy && a !in s.children
  }

  predicate TrackedIsGone(s: State, a: Id) {
    a in s.children && s.children[a] in s.gone
  }

  predicate GoneWereStarted(s: State) {
    forall k :: k in s.gone ==> k < |s.sidecars|
  }

  lemma {:induction false} StrandedCases(s: State, a: Id)
    requires Bridged(s)
    ensures Stranded(s, a) <==> Untracked(s, a) || TrackedIsGone(s, a)
  {
    forall k | 0 <= k < |s.sidecars| && a in s.proxy && s.sidecars[k] == Sidecar(a, s.proxy[a]) ensures IsChild(s, a, k) {
      assert EntryIsOfChild(s, k);
    }
    if a in s.children { assert ChildHasItsToken(s, a); }
  }

  lemma {:induction false} UntrackedStep(s: State, op: Op, a: Id)
    requires Bridged(s)
    ensures Untracked(Step(s, op), a) <==>
      if op.StartBridge? && op.bridge == a && op.script then !op.starts else Untracked(s, a)
  {
    match op
    case StartBridge(b, script, starts) =>
      if b in s.children { assert ChildHasItsToken(s, b); }
    case StopBridge(b) =>
      if b in s.children { assert ChildHasItsToken(s, b); }
    case SidecarExit(k) =>
      if k < |s.sidecars| {
        assert EntryIsOfChild(s, k);
        if s.sidecars[k].agent in s.children { assert ChildHasItsToken(s, s.sidecars[k].agent); }
      }
    case _ =>
  }

  lemma {:induction false} BridgesTrackedIsGone(s: State, b: Id, script: bool, starts: bool, a: Id)
    requires Bridged(s) && GoneWereStarted(s)
    ensures var s' := BridgeStarted(s, b, script, starts);
      GoneWereStarted(s') && (TrackedIsGone(s', a) <==> b != a && TrackedIsGone(s, a))
    ensures var s' := BridgeStopped(s, b);
      GoneWereStarted(s') && (TrackedIsGone(s', a) <==> b != a && TrackedIsGone(s, a))
  {
  }

  lemma {:induction false} ExitTrackedIsGone(s: State, k: nat, a: Id)
    requires Bridged(s) && GoneWereStarted(s) && k < |s.sidecars|
    ensures var s' := SidecarExited(s, k).(gone := s.gone + {k});
      GoneWereStarted(s') && (TrackedIsGone(s', a) <==> !IsChild(s, a, k) && TrackedIsGone(s, a))
  {
    if a in s.children { assert ChildHasItsToken(s, a); }
    assert EntryIsOfChild(s, k);
  }

  lemma {:induction false} TrackedIsGoneStep(s: State, op: Op, a: Id)
    requires Bridged(s) && GoneWereStarted(s)
    ensures GoneWereStarted(Step(s, op))
    ensures TrackedIsGone(Step(s, op), a) <==>
      match op
      case StartBridge(b, _, _) => b != a && TrackedIsGone(s, a)
      case StopBridge(b) => b != a && TrackedIsGone(s, a)
      case SidecarExit(k) => !IsChild(s, a, k) && TrackedIsGone(s, a)
      case SidecarFails(k) => IsChild(s, a, k) || TrackedIsGone(s, a)
      case _ => TrackedIsGone(s, a)
  {
    if a in s.children { assert ChildHasItsToken(s, a); }
    match op
    case StartBridge(b, script, starts) => BridgesTrackedIsGone(s, b, script, starts, a);
    case StopBridge(b) => BridgesTrackedIsGone(s, b, false, false, a);
    case SidecarExit(k) => if k < |s.sidecars| { ExitTrackedIsGone(s, k, a); }
    case _ =>
  }

  lemma {:induction false} FaultsAreKept(ops: seq<Op>, a: Id)
    ensures GoneWereStarted(After(ops))
    ensures Untracked(After(ops), a) <==> LastStartThrew(ops, a)
    ensures TrackedIsGone(After(ops), a) <==> TrackedOneFailed(ops, a)
  {
    if ops != [] {
      var before := ops[..|ops| - 1];
      FaultsAreKept(before, a);
      RunKeeps(before);
      UntrackedStep(After(before), ops[|ops| - 1], a);
      TrackedIsGoneStep(After(before), ops[|ops| - 1], a);
    }
  }

  /**
   A proxy token is registered with no process to present it exactly when the latest start of that agent's
   sidecar that got as far as the process threw, or the sidecar it started failed afterwards and nobody has
   started, stopped or seen the exit of it since.
   */
  lemma {:induction false} StrandedExactlyAfterAFailedStart(ops: seq<Op>, a: Id)
    ensures Stranded(After(ops), a) <==> LastStartThrew(ops, a) || TrackedOneFailed(ops, a)
  {
    FaultsAreKept(ops, a);
    RunKeeps(ops);
    StrandedCases(After(ops), a);
  }
}
