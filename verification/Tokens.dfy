/**
 The per-spawn tokens: the servers that hold them, the terminals and the proxy sidecars that carry
 them, and the exit callbacks that may fire long after their process was replaced.

 Tokens are numbered in the order they are made, so none is made twice. A process is named by its
 place in the list of everything ever started, which is what its exit callback has captured.
 */
module Tokens {
  import opened Options

  type Id = string
  type PtyId = string
  type Owner = string
  type Token = nat

  // ---------------------------------------------------------------- a token server

  datatype Server = Server(next: Token, holder: map<Token, Id>)

  function Minted(sv: Server, agent: Id): Server {
    Server(sv.next + 1, sv.holder[sv.next := agent])
  }

  function Revoked(sv: Server, t: Token): Server {
    sv.(holder := sv.holder - {t})
  }

  class TokenServer {
    var next: Token
    var tokens: map<Token, Id>

    ghost function Model(): Server
      reads this
    {
      Server(next, tokens)
    }

    constructor ()
      ensures Model() == Server(0, map[])
    {
      next, tokens := 0, map[];
    }

    method MintToken(agent: Id) returns (t: Token)
      modifies this
      ensures t == old(next) && Model() == Minted(old(Model()), agent)
    {
      t := next;
      tokens := tokens[t := agent];
      next := next + 1;
    }

    method RevokeToken(t: Token)
      modifies this`tokens
      ensures Model() == Revoked(old(Model()), t)
    {
      tokens := tokens - {t};
    }

    /** Who sent a payload: whoever its token was made for. */
    method Authorized(provided: Option<Token>) returns (agent: Option<Id>)
      ensures agent == match provided {
          case Some(t) => if t in tokens && tokens[t] != "" then Some(tokens[t]) else None
          case None => None
        }
    {
      if provided.Some? && provided.value in tokens && tokens[provided.value] != "" {
        return Some(tokens[provided.value]);
      }
      agent := None;
    }
  }

  // ---------------------------------------------------------------- terminals and sidecars

  datatype Session = Session(serial: nat, agent: Option<Id>, hook: Option<Token>, otel: Option<Token>, owner: Owner)

  /** What the exit callback of a sidecar has captured. */
  datatype Sidecar = Sidecar(agent: Id, token: Token)

  /** `gone` is what only the operating system knows: the sidecar processes that have ended or never began. */
  datatype State = State(
    hooks: Server, otel: Server,
    sessions: map<PtyId, Session>, spawned: seq<PtyId>,
    proxy: map<Id, Token>, children: map<Id, nat>, sidecars: seq<Sidecar>, gone: set<nat>)

  const START := State(Server(0, map[]), Server(0, map[]), map[], [], map[], map[], [], {})

  /** `Unready`: the directory is missing. `Broken`: the terminal could not be started. */
  datatype Start = Unready | Broken | Running

  function SpawnedBy(s: State, id: PtyId, agent: Option<Id>, owner: Owner, telemetry: bool, start: Start): State {
    if id in s.sessions || start == Unready then s
    else
      var hook := if agent.Some? then Some(s.hooks.next) else None;
      var otel := if agent.Some? && telemetry then Some(s.otel.next) else None;
      var s1 := s.(hooks := if hook.Some? then Minted(s.hooks, agent.value) else s.hooks,
                   otel := if otel.Some? then Minted(s.otel, agent.value) else s.otel);
      if start == Broken then Released(s1, hook, otel)
      else s1.(sessions := s.sessions[id := Session(|s.spawned|, agent, hook, otel, owner)], spawned := s.spawned + [id])
  }

  function Released(s: State, hook: Option<Token>, otel: Option<Token>): State {
    s.(hooks := if hook.Some? then Revoked(s.hooks, hook.value) else s.hooks,
       otel := if otel.Some? then Revoked(s.otel, otel.value) else s.otel)
  }

  function Dropped(s: State, id: PtyId): State
    requires id in s.sessions
  {
    Released(s.(sessions := s.sessions - {id}), s.sessions[id].hook, s.sessions[id].otel)
  }

  function Killed(s: State, id: PtyId, died: bool): State {
    if id in s.sessions && died then Dropped(s, id) else s
  }

  /** A terminal of this window other than those `left` holds this token. */
  predicate HookOfOwner(s: State, owner: Owner, left: set<PtyId>, t: Token) {
    exists id :: id in s.sessions && id !in left && s.sessions[id].owner == owner && s.sessions[id].hook == Some(t)
  }

  predicate OtelOfOwner(s: State, owner: Owner, left: set<PtyId>, t: Token) {
    exists id :: id in s.sessions && id !in left && s.sessions[id].owner == owner && s.sessions[id].otel == Some(t)
  }

  /** The terminals of a window have gone, but for those still `left` to close. */
  function ClosedBut(s: State, owner: Owner, left: set<PtyId>): State {
    s.(sessions := map id | id in s.sessions && (s.sessions[id].owner != owner || id in left) :: s.sessions[id],
       hooks := s.hooks.(holder := map t | t in s.hooks.holder && !HookOfOwner(s, owner, left, t) :: s.hooks.holder[t]),
       otel := s.otel.(holder := map t | t in s.otel.holder && !OtelOfOwner(s, owner, left, t) :: s.otel.holder[t]))
  }

  /** A window has closed: its terminals go, whether or not the process could still be killed. */
  function OwnerClosed(s: State, owner: Owner): State {
    ClosedBut(s, owner, {})
  }

  lemma {:induction false} NoneClosed(s: State, owner: Owner)
    ensures ClosedBut(s, owner, s.sessions.Keys) == s
  {
    var c := ClosedBut(s, owner, s.sessions.Keys);
    assert c.sessions == s.sessions && c.hooks.holder == s.hooks.holder && c.otel.holder == s.otel.holder;
  }

  lemma {:induction false} HookOfOneMore(s: State, owner: Owner, left: set<PtyId>, id: PtyId, t: Token)
    requires id in left && id in s.sessions
    ensures HookOfOwner(s, owner, left - {id}, t)
      <==> HookOfOwner(s, owner, left, t) || (s.sessions[id].owner == owner && s.sessions[id].hook == Some(t))
    ensures OtelOfOwner(s, owner, left - {id}, t)
      <==> OtelOfOwner(s, owner, left, t) || (s.sessions[id].owner == owner && s.sessions[id].otel == Some(t))
  {
    assert forall other :: other in s.sessions ==> (other !in left - {id} <==> other !in left || other == id);
  }

  lemma {:induction false} OneMoreHolder(s: State, owner: Owner, left: set<PtyId>, id: PtyId)
    requires id in left && id in s.sessions
    ensures var c, d, ss := ClosedBut(s, owner, left), ClosedBut(s, owner, left - {id}), s.sessions[id];
      && d.hooks.holder == (if ss.owner == owner && ss.hook.Some? then c.hooks.holder - {ss.hook.value} else c.hooks.holder)
      && d.otel.holder == (if ss.owner == owner && ss.otel.Some? then c.otel.holder - {ss.otel.value} else c.otel.holder)
  {
    var ss := s.sessions[id];
    forall t: Token
      ensures HookOfOwner(s, owner, left - {id}, t) <==> HookOfOwner(s, owner, left, t) || (ss.owner == owner && ss.hook == Some(t))
      ensures OtelOfOwner(s, owner, left - {id}, t) <==> OtelOfOwner(s, owner, left, t) || (ss.owner == owner && ss.otel == Some(t))
    {
      HookOfOneMore(s, owner, left, id, t);
    }
  }

  lemma {:induction false} OneMoreClosed(s: State, owner: Owner, left: set<PtyId>, id: PtyId)
    requires id in left && id in s.sessions
    ensures var c := ClosedBut(s, owner, left);
      ClosedBut(s, owner, left - {id}) ==
        if s.sessions[id].owner != owner then c
        else Released(c.(sessions := c.sessions - {id}), s.sessions[id].hook, s.sessions[id].otel)
  {
    var c, d := ClosedBut(s, owner, left), ClosedBut(s, owner, left - {id});
    OneMoreHolder(s, owner, left, id);
    assert d.sessions == if s.sessions[id].owner != owner then c.sessions else c.sessions - {id};
  }

  /** The session a terminal process was started for is still the one under its id. */
  predicate IsCurrent(s: State, serial: nat)
    requires serial < |s.spawned|
  {
    s.spawned[serial] in s.sessions && s.sessions[s.spawned[serial]].serial == serial
  }

  function Exited(s: State, serial: nat): State
    requires serial < |s.spawned|
  {
    if IsCurrent(s, serial) then Dropped(s, s.spawned[serial]) else s
  }

  function ProxyRevoked(s: State, agent: Id): State {
    if agent !in s.proxy then s
    else s.(proxy := s.proxy - {agent}, hooks := Revoked(s.hooks, s.proxy[agent]))
  }

  function ProxyMinted(s: State, agent: Id): State {
    var s1 := ProxyRevoked(s, agent);
    s1.(hooks := Minted(s1.hooks, agent), proxy := s1.proxy[agent := s1.hooks.next])
  }

  function BridgeStopped(s: State, agent: Id): State {
    if agent !in s.children then s else ProxyRevoked(s.(children := s.children - {agent}), agent)
  }

  function BridgeStarted(s: State, agent: Id, script: bool, starts: bool): State {
    var s1 := BridgeStopped(s, agent);
    if !script then s1
    else
      var s2 := ProxyMinted(s1, agent);
      if !starts then s2
      else s2.(children := s2.children[agent := |s.sidecars|], sidecars := s.sidecars + [Sidecar(agent, s1.hooks.next)])
  }

  function SidecarExited(s: State, k: nat): State
    requires k < |s.sidecars|
  {
    var c := s.sidecars[k];
    var s1 := if c.agent in s.children && s.children[c.agent] == k then s.(children := s.children - {c.agent}) else s;
    if c.agent in s.proxy && s.proxy[c.agent] == c.token then ProxyRevoked(s1, c.agent) else s1
  }

  // ---------------------------------------------------------------- steps

  /**
   `SidecarFails` is the process that turns out not to have started after the call that was to start it returned:
   all that hears of it is the start still waiting for a port.
   */
  datatype Op =
    | Spawn(id: PtyId, agent: Option<Id>, owner: Owner, telemetry: bool, start: Start)
    | Kill(id: PtyId, died: bool)
    | CloseOwner(owner: Owner)
    | Exit(serial: nat)
    | StartBridge(bridge: Id, script: bool, starts: bool)
    | StopBridge(bridge: Id)
    | SidecarExit(serial: nat)
    | SidecarFails(serial: nat)

  function Step(s: State, op: Op): State {
    match op
    case Spawn(id, agent, owner, telemetry, start) => SpawnedBy(s, id, agent, owner, telemetry, start)
    case Kill(id, died) => Killed(s, id, died)
    case CloseOwner(owner) => OwnerClosed(s, owner)
    case Exit(k) => if k < |s.spawned| then Exited(s, k) else s
    case StartBridge(a, script, starts) => BridgeStarted(s, a, script, starts)
    case StopBridge(a) => BridgeStopped(s, a)
    case SidecarExit(k) => if k < |s.sidecars| then SidecarExited(s, k).(gone := s.gone + {k}) else s
    case SidecarFails(k) => if k < |s.sidecars| then s.(gone := s.gone + {k}) else s
  }

  function After(ops: seq<Op>): State {
    if ops == [] then START else Step(After(ops[..|ops| - 1]), ops[|ops| - 1])
  }

  // ---------------------------------------------------------------- the objects

  class PtyManager {
    const hooks: TokenServer
    const otel: TokenServer
    var sessions: map<PtyId, Session>
    var spawned: seq<PtyId>

    constructor (hooks: TokenServer, otel: TokenServer)
      ensures this.hooks == hooks && this.otel == otel && sessions == map[] && spawned == []
    {
      this.hooks, this.otel := hooks, otel;
      sessions, spawned := map[], [];
    }

    /** The manager and its two servers beside a given set of sidecars. */
    ghost function Model(proxy: map<Id, Token>, children: map<Id, nat>, sidecars: seq<Sidecar>): State
      reads this, hooks, otel
    {
      State(hooks.Model(), otel.Model(), sessions, spawned, proxy, children, sidecars, {})
    }

    ghost function Own(): State
      reads this, hooks, otel
    {
      Model(map[], map[], [])
    }

    method ReleaseHookToken(hook: Option<Token>, o: Option<Token>)
      requires hooks != otel
      modifies hooks, otel
      ensures Own() == Released(old(Own()), hook, o)
    {
      if o.Some? { otel.RevokeToken(o.value); }
      if hook.Some? { hooks.RevokeToken(hook.value); }
    }

    method Spawn(id: PtyId, agent: Option<Id>, owner: Owner, telemetry: bool, start: Start) returns (ok: bool)
      requires hooks != otel
      modifies this, hooks, otel
      ensures Own() == SpawnedBy(old(Own()), id, agent, owner, telemetry, start)
      ensures ok <==> id !in old(sessions) && start == Running
    {
      if id in sessions || start == Unready { return false; }
      var hook: Option<Token> := None;
      var o: Option<Token> := None;
      if agent.Some? {
        var t := hooks.MintToken(agent.value);
        hook := Some(t);
        if telemetry {
          t := otel.MintToken(agent.value);
          o := Some(t);
        }
      }
      if start == Broken {
        ReleaseHookToken(hook, o);
        return false;
      }
      sessions := sessions[id := Session(|spawned|, agent, hook, o, owner)];
      spawned := spawned + [id];
      ok := true;
    }

    method KillPty(id: PtyId, died: bool) returns (ok: bool)
      requires hooks != otel
      modifies this, hooks, otel
      ensures Own() == Killed(old(Own()), id, died) && ok == (id in old(sessions) && died)
    {
      if id !in sessions { return false; }
      var s := sessions[id];
      if !died { return false; }
      sessions := sessions - {id};
      ReleaseHookToken(s.hook, s.otel);
      ok := true;
    }

    method OnExit(serial: nat)
      requires hooks != otel && serial < |spawned|
      modifies this, hooks, otel
      ensures Own() == Exited(old(Own()), serial)
    {
      var id := spawned[serial];
      if id !in sessions || sessions[id].serial != serial { return; }
      var s := sessions[id];
      sessions := sessions - {id};
      ReleaseHookToken(s.hook, s.otel);
    }

    method KillByOwner(owner: Owner)
      requires hooks != otel
      modifies this, hooks, otel
      ensures Own() == OwnerClosed(old(Own()), owner)
    {
      ghost var s0 := Own();
      var snapshot := sessions;
      var todo := snapshot.Keys;
      NoneClosed(s0, owner);
      while todo != {}
        invariant todo <= snapshot.Keys && snapshot == s0.sessions
        invariant Own() == ClosedBut(s0, owner, todo)
        decreases todo
      {
        var id :| id in todo;
        OneMoreClosed(s0, owner, todo, id);
        todo := todo - {id};
        if snapshot[id].owner == owner {
          sessions := sessions - {id};
          ReleaseHookToken(snapshot[id].hook, snapshot[id].otel);
        }
      }
    }
  }

  class ProxyBridges {
    const hooks: TokenServer
    var proxyTokens: map<Id, Token>
    var proxyChildren: map<Id, nat>
    var sidecars: seq<Sidecar>

    constructor (hooks: TokenServer)
      ensures this.hooks == hooks && proxyTokens == map[] && proxyChildren == map[] && sidecars == []
    {
      this.hooks := hooks;
      proxyTokens, proxyChildren, sidecars := map[], map[], [];
    }

    /** The sidecars and the hook server, beside no terminals. */
    ghost function Own(): State
      reads this, hooks
    {
      State(hooks.Model(), Server(0, map[]), map[], [], proxyTokens, proxyChildren, sidecars, {})
    }

    method RevokeProxyToken(agent: Id)
      modifies this`proxyTokens, hooks
      ensures Own() == ProxyRevoked(old(Own()), agent)
    {
      if agent !in proxyTokens { return; }
      var t := proxyTokens[agent];
      proxyTokens := proxyTokens - {agent};
      hooks.RevokeToken(t);
    }

    method MintProxyToken(agent: Id) returns (t: Token)
      modifies this`proxyTokens, hooks
      ensures Own() == ProxyMinted(old(Own()), agent) && t == old(hooks.next)
    {
      RevokeProxyToken(agent);
      t := hooks.MintToken(agent);
      proxyTokens := proxyTokens[agent := t];
    }

    method StopProxyBridge(agent: Id)
      modifies this, hooks
      ensures Own() == BridgeStopped(old(Own()), agent)
    {
      if agent !in proxyChildren { return; }
      proxyChildren := proxyChildren - {agent};
      RevokeProxyToken(agent);
    }

    method StartProxyBridge(agent: Id, script: bool, starts: bool)
      modifies this, hooks
      ensures Own() == BridgeStarted(old(Own()), agent, script, starts)
    {
      StopProxyBridge(agent);
      if !script { return; }
      var t := MintProxyToken(agent);
      if !starts { return; }
      proxyChildren := proxyChildren[agent := |sidecars|];
      sidecars := sidecars + [Sidecar(agent, t)];
    }

    method OnSidecarExit(k: nat)
      requires k < |sidecars|
      modifies this, hooks
      ensures Own() == SidecarExited(old(Own()), k)
    {
      var c := sidecars[k];
      if c.agent in proxyChildren && proxyChildren[c.agent] == k { proxyChildren := proxyChildren - {c.agent}; }
      if c.agent in proxyTokens && proxyTokens[c.agent] == c.token { RevokeProxyToken(c.agent); }
    }
  }
}
