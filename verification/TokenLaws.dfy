/** What each step does to terminals, sidecars and their tokens, told in their fields. */
module TokenLaws {
  import opened Options
  import opened Tokens

  /** A token that lets nobody in before lets this agent in now. */
  predicate NewFor(before: Server, after: Server, t: Token, agent: Id) {
    before.next <= t < after.next && t in after.holder && after.holder[t] == agent
  }

  /** All tokens there were still say the same. */
  predicate KeepsAll(before: Server, after: Server) {
    forall t :: t in before.holder && t < before.next ==> t in after.holder && after.holder[t] == before.holder[t]
  }

  predicate AddsNone(before: Server, after: Server) {
    forall t :: t in after.holder && t < before.next ==> t in before.holder
  }

  /** A terminal that starts carries new tokens for its agent, a telemetry one if asked for, and nobody else loses any. */
  lemma {:induction false} SpawnInFields(s: State, id: PtyId, agent: Option<Id>, owner: Owner, telemetry: bool)
    requires id !in s.sessions
    ensures var s' := Step(s, Spawn(id, agent, owner, telemetry, Running));
      && s'.sessions.Keys == s.sessions.Keys + {id} && (forall other :: other in s.sessions ==> s'.sessions[other] == s.sessions[other])
      && s'.spawned == s.spawned + [id] && s'.sessions[id].serial == |s.spawned|
      && s'.sessions[id].agent == agent && s'.sessions[id].owner == owner
      && (s'.sessions[id].hook.Some? <==> agent.Some?) && (s'.sessions[id].otel.Some? <==> agent.Some? && telemetry)
      && (agent.Some? ==> NewFor(s.hooks, s'.hooks, s'.sessions[id].hook.value, agent.value))
      && (agent.Some? && telemetry ==> NewFor(s.otel, s'.otel, s'.sessions[id].otel.value, agent.value))
      && KeepsAll(s.hooks, s'.hooks) && KeepsAll(s.otel, s'.otel) && AddsNone(s.hooks, s'.hooks) && AddsNone(s.otel, s'.otel)
      && s'.proxy == s.proxy && s'.children == s.children && s'.sidecars == s.sidecars && s'.gone == s.gone
  {
  }

  /** One that does not leaves terminals and tokens as they were. */
  lemma {:induction false} FailedSpawnInFields(s: State, id: PtyId, agent: Option<Id>, owner: Owner, telemetry: bool, start: Start)
    requires (id in s.sessions || start != Running) && s.hooks.next !in s.hooks.holder && s.otel.next !in s.otel.holder
    ensures var s' := Step(s, Spawn(id, agent, owner, telemetry, start));
      && s'.sessions == s.sessions && s'.spawned == s.spawned && s'.hooks.holder == s.hooks.holder && s'.otel.holder == s.otel.holder
      && s'.proxy == s.proxy && s'.children == s.children && s'.sidecars == s.sidecars && s'.gone == s.gone
  {
  }

  /** A terminal is gone with its tokens; everything else is as it was. */
  predicate OnlyGoes(s: State, s': State, id: PtyId)
    requires id in s.sessions
  {
    && s'.sessions == s.sessions - {id}
    && s'.hooks.holder == (if s.sessions[id].hook.Some? then s.hooks.holder - {s.sessions[id].hook.value} else s.hooks.holder)
    && s'.otel.holder == (if s.sessions[id].otel.Some? then s.otel.holder - {s.sessions[id].otel.value} else s.otel.holder)
    && s'.hooks.next == s.hooks.next && s'.otel.next == s.otel.next && s'.spawned == s.spawned
    && s'.proxy == s.proxy && s'.children == s.children && s'.sidecars == s.sidecars && s'.gone == s.gone
  }

  /** A kill takes its terminal exactly if the process died; an exit exactly if its process is the one running under the id. */
  lemma {:induction false} KillAndExitInFields(s: State, id: PtyId, died: bool, k: nat)
    ensures id in s.sessions && died ==> OnlyGoes(s, Step(s, Kill(id, died)), id)
    ensures !(id in s.sessions && died) ==> Step(s, Kill(id, died)) == s
    ensures k < |s.spawned| && s.spawned[k] in s.sessions && s.sessions[s.spawned[k]].serial == k ==>
      OnlyGoes(s, Step(s, Exit(k)), s.spawned[k])
    ensures !(k < |s.spawned| && s.spawned[k] in s.sessions && s.sessions[s.spawned[k]].serial == k) ==> Step(s, Exit(k)) == s
  {
  }

  predicate Carries(s: State, id: PtyId, t: Token, telemetry: bool)
    requires id in s.sessions
  {
    if telemetry then s.sessions[id].otel == Some(t) else s.sessions[id].hook == Some(t)
  }

  /** A closed window takes its own terminals and their tokens, and no other. */
  lemma {:induction false} CloseInFields(s: State, owner: Owner, t: Token)
    ensures var s' := Step(s, CloseOwner(owner));
      && (forall id :: id in s'.sessions <==> id in s.sessions && s.sessions[id].owner != owner)
      && (forall id :: id in s'.sessions ==> s'.sessions[id] == s.sessions[id])
      && (t in s'.hooks.holder <==> t in s.hooks.holder && !exists id :: id in s.sessions && s.sessions[id].owner == owner && Carries(s, id, t, false))
      && (t in s'.otel.holder <==> t in s.otel.holder && !exists id :: id in s.sessions && s.sessions[id].owner == owner && Carries(s, id, t, true))
      && (t in s'.hooks.holder ==> s'.hooks.holder[t] == s.hooks.holder[t]) && (t in s'.otel.holder ==> s'.otel.holder[t] == s.otel.holder[t])
      && s'.spawned == s.spawned && s'.proxy == s.proxy && s'.children == s.children && s'.sidecars == s.sidecars && s'.gone == s.gone
  {
    var none: set<PtyId> := {};
    assert HookOfOwner(s, owner, none, t) <==> exists id :: id in s.sessions && s.sessions[id].owner == owner && Carries(s, id, t, false);
    assert OtelOfOwner(s, owner, none, t) <==> exists id :: id in s.sessions && s.sessions[id].owner == owner && Carries(s, id, t, true);
  }

  /** Of all agents but one, everything about sidecars is as it was; and terminals are. */
  ghost predicate OnlyAbout(s: State, s': State, agent: Id) {
    && (forall a :: a != agent ==> (a in s'.proxy <==> a in s.proxy) && (a in s'.children <==> a in s.children))
    && (forall a :: a != agent && a in s.proxy ==> s'.proxy[a] == s.proxy[a])
    && (forall a :: a != agent && a in s.children ==> s'.children[a] == s.children[a])
    && s'.sessions == s.sessions && s'.spawned == s.spawned && s'.otel == s.otel
  }

  /** Stopping drops the tracked sidecar with its token, and does nothing when none is tracked. */
  lemma {:induction false} StopInFields(s: State, agent: Id)
    ensures var s' := Step(s, StopBridge(agent));
      if agent in s.children then
        && agent !in s'.children && agent !in s'.proxy && OnlyAbout(s, s', agent) && s'.sidecars == s.sidecars
        && s'.hooks.holder == if agent in s.proxy then s.hooks.holder - {s.proxy[agent]} else s.hooks.holder
      else s' == s
  {
  }

  /** Registering a sidecar's token replaces the agent's old one, which lets nobody in any more. */
  lemma {:induction false} MintInFields(s: State, agent: Id)
    ensures var s' := ProxyMinted(s, agent);
      && OnlyAbout(s, s', agent) && s'.gone == s.gone && s'.children == s.children && s'.sidecars == s.sidecars
      && agent in s'.proxy && s'.proxy[agent] == s.hooks.next && NewFor(s.hooks, s'.hooks, s'.proxy[agent], agent)
      && (agent in s.proxy && s.proxy[agent] < s.hooks.next ==> s.proxy[agent] !in s'.hooks.holder)
      && forall t :: t in s'.hooks.holder && t < s.hooks.next ==> t in s.hooks.holder
  {
  }

  /** Starting stops what was there; with a script it registers a new token, and tracks the sidecar that started with it. */
  lemma {:induction false} StartInFields(s: State, agent: Id, script: bool, starts: bool)
    ensures var s' := Step(s, StartBridge(agent, script, starts));
      && OnlyAbout(s, s', agent) && s'.gone == s.gone
      && (!script ==> s' == Step(s, StopBridge(agent)))
      && (script ==> agent in s'.proxy && NewFor(s.hooks, s'.hooks, s'.proxy[agent], agent))
      && (script && agent in s.proxy && s.proxy[agent] < s.hooks.next ==> s.proxy[agent] !in s'.hooks.holder)
      && (script && starts ==> s'.sidecars == s.sidecars + [Sidecar(agent, s'.proxy[agent])] && s'.children == s.children[agent := |s.sidecars|])
      && (script && !starts ==> s'.sidecars == s.sidecars && s'.children == s.children - {agent})
  {
    var s1 := BridgeStopped(s, agent);
    StoppedFacts(s, agent);
    MintInFields(s1, agent);
    OnlyAboutThrough(s, s1, ProxyMinted(s1, agent), agent);
  }

  lemma {:induction false} StoppedFacts(s: State, agent: Id)
    ensures var s1 := BridgeStopped(s, agent);
      && OnlyAbout(s, s1, agent) && s1.hooks.next == s.hooks.next && s1.gone == s.gone && s1.sidecars == s.sidecars
      && s1.children == s.children - {agent}
      && (agent in s.proxy ==> if agent in s1.proxy then s1.proxy == s.proxy else s.proxy[agent] !in s1.hooks.holder)
  {
    StopInFields(s, agent);
  }

  lemma {:induction false} OnlyAboutThrough(s: State, s1: State, s2: State, agent: Id)
    requires OnlyAbout(s, s1, agent) && OnlyAbout(s1, s2, agent)
    ensures OnlyAbout(s, s2, agent)
  {
  }

  /** An exit untracks its own process and takes its own token, each only while it is the current one. */
  lemma {:induction false} SidecarExitInFields(s: State, k: nat)
    requires k < |s.sidecars|
    ensures var s' := Step(s, SidecarExit(k)); var agent, t := s.sidecars[k].agent, s.sidecars[k].token;
      && OnlyAbout(s, s', agent) && s'.sidecars == s.sidecars && s'.gone == s.gone + {k}
      && s'.children == (if agent in s.children && s.children[agent] == k then s.children - {agent} else s.children)
      && s'.proxy == (if agent in s.proxy && s.proxy[agent] == t then s.proxy - {agent} else s.proxy)
      && s'.hooks.holder == if agent in s.proxy && s.proxy[agent] == t then s.hooks.holder - {t} else s.hooks.holder
  {
  }
}
