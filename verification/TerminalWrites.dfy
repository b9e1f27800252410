/**
 Typing into terminals: `submit` with its per-terminal promise chain, and the account failover that
 respawns an agent, tells it to continue and presses Enter past the chain.  Each step is the synchronous
 stretch between two awaits.
 */
module TerminalWrites {
  import opened Options

  type Pty = string
  type Agent = string

  // ---------------------------------------------------------------- the write chains

  /** Where one `submit` stands: behind its predecessor, between payload and Enter, or resolved or rejected. */
  datatype Phase = Waiting | Typed | Resolved | Rejected

  predicate Settled(p: Phase) {
    p == Resolved || p == Rejected
  }

  /** One `submit` and the agent it is for; its number is its position in call order. */
  datatype Op = Op(pty: Pty, agent: Agent, previous: Option<nat>, phase: Phase)

  /** An attempted write. */
  datatype Entry =
    | Payload(op: nat, ok: bool)
    | Enter(op: nat, ok: bool)
    | DirectEnter(ok: bool)

  /** Every `submit` so far, the newest of each terminal's chain, and what each terminal has been sent since it last started. */
  datatype Lines = Lines(ops: seq<Op>, chains: map<Pty, nat>, log: map<Pty, seq<Entry>>)

  function LogOf(l: Lines, p: Pty): seq<Entry> {
    if p in l.log then l.log[p] else []
  }

  function Wrote(l: Lines, p: Pty, e: Entry): Lines {
    l.(log := l.log[p := LogOf(l, p) + [e]])
  }

  function Submitted(l: Lines, p: Pty, agent: Agent): Lines {
    l.(ops := l.ops + [Op(p, agent, if p in l.chains then Some(l.chains[p]) else None, Waiting)],
       chains := l.chains[p := |l.ops|])
  }

  predicate CanStart(l: Lines, k: nat) {
    && k < |l.ops| && l.ops[k].phase == Waiting
    && (l.ops[k].previous.Some? ==> l.ops[k].previous.value < |l.ops| && Settled(l.ops[l.ops[k].previous.value].phase))
  }

  function SetPhase(l: Lines, k: nat, phase: Phase): Lines
    requires k < |l.ops|
  {
    l.(ops := l.ops[k := l.ops[k].(phase := phase)])
  }

  /** The predecessor is settled: wait for the terminal, then type the payload. */
  function Started(l: Lines, k: nat, ready: bool, ok: bool): Lines {
    if !CanStart(l, k) then l
    else if !ready then SetPhase(l, k, Rejected)
    else SetPhase(Wrote(l, l.ops[k].pty, Payload(k, ok)), k, if ok then Typed else Rejected)
  }

  /** The gap is over: press Enter. */
  function Entered(l: Lines, k: nat, ok: bool): Lines {
    if !(k < |l.ops| && l.ops[k].phase == Typed) then l
    else SetPhase(Wrote(l, l.ops[k].pty, Enter(k, ok)), k, if ok then Resolved else Rejected)
  }

  function Opened(l: Lines, p: Pty): Lines {
    l.(log := l.log[p := []])
  }

  function Forgot(l: Lines, p: Pty): Lines {
    l.(chains := l.chains - {p})
  }

  // ---------------------------------------------------------------- live terminals and failovers

  const RESUME_ENTER_RETRIES := 4

  /** A running terminal and the agent it belongs to. */
  datatype Live = Live(pty: Pty, agent: Agent)

  /** The terminal an agent is found at: the first of its running ones, in the order they were started. */
  function LiveOf(floor: seq<Live>, agent: Agent): Option<Pty> {
    if floor == [] then None
    else if floor[0].agent == agent then Some(floor[0].pty)
    else LiveOf(floor[1..], agent)
  }

  predicate Runs(floor: seq<Live>, p: Pty) {
    exists i :: 0 <= i < |floor| && floor[i].pty == p
  }

  function WithoutPty(floor: seq<Live>, p: Pty): seq<Live> {
    if floor == [] then []
    else if floor[0].pty == p then WithoutPty(floor[1..], p)
    else [floor[0]] + WithoutPty(floor[1..], p)
  }

  /** Where a failover waits: for a respawn that is refused or under way, for its "continue", or before the n-th press. */
  datatype Stage = Refused | Respawning | Continuing(op: nat) | Pressing(op: nat, presses: nat) | Over

  datatype Failover = Failover(agent: Agent, stage: Stage)

  /** `guard` is the set of agents being switched; `tasks` are the failovers ever asked for. */
  datatype State = State(lines: Lines, floor: seq<Live>, guard: set<Agent>, tasks: seq<Failover>)

  const START := State(Lines([], map[], map[]), [], {}, [])

  /** A terminal starts with nothing typed into it, unless one of that name is running. */
  function Spawned(s: State, p: Pty, agent: Agent): State {
    if Runs(s.floor, p) then s else s.(floor := s.floor + [Live(p, agent)], lines := Opened(s.lines, p))
  }

  /** A terminal is torn down and forgotten. */
  function Gone(s: State, p: Pty): State {
    s.(floor := WithoutPty(s.floor, p), lines := Forgot(s.lines, p))
  }

  /** A tick job for an agent with a live terminal; none starts for an agent mid-failover. */
  function TickJob(s: State, agent: Agent): State {
    if agent in s.guard then s
    else
      match LiveOf(s.floor, agent)
      case None => s
      case Some(p) => s.(lines := Submitted(s.lines, p, agent))
  }

  /** A failover is asked for: nothing while the guard is held; otherwise the agent's terminal is killed, unless there is none or it cannot be rebuilt. */
  function Switched(s: State, agent: Agent, recipe: bool): State {
    if agent in s.guard then s.(tasks := s.tasks + [Failover(agent, Over)])
    else
      var s1 := s.(guard := s.guard + {agent});
      match LiveOf(s.floor, agent)
      case None => s1.(tasks := s.tasks + [Failover(agent, Refused)])
      case Some(p) =>
        if !recipe then s1.(tasks := s.tasks + [Failover(agent, Refused)])
        else Gone(s1, p).(tasks := s.tasks + [Failover(agent, Respawning)])
  }

  function Moved(s: State, i: nat, stage: Stage): State
    requires i < |s.tasks|
  {
    s.(tasks := s.tasks[i := s.tasks[i].(stage := stage)])
  }

  /** Every way out of a failover goes through here. */
  function Finished(s: State, i: nat): State
    requires i < |s.tasks|
  {
    Moved(s, i, Over).(guard := s.guard - {s.tasks[i].agent})
  }

  /** The respawn came back: not ok, ok with no live terminal, or ok with one to type "continue" into. */
  function RespawnEnded(s: State, i: nat, ok: bool): State {
    if i >= |s.tasks| then s
    else if s.tasks[i].stage == Refused then Finished(s, i)
    else if s.tasks[i].stage != Respawning then s
    else
      var live := LiveOf(s.floor, s.tasks[i].agent);
      if !ok || live == None then Finished(s, i)
      else Moved(s.(lines := Submitted(s.lines, live.value, s.tasks[i].agent)), i, Continuing(|s.lines.ops|))
  }

  /** The "continue" settled: rejected ends the failover, resolved goes on to the presses. */
  function ContinueEnded(s: State, i: nat): State {
    if !(i < |s.tasks| && s.tasks[i].stage.Continuing? && s.tasks[i].stage.op < |s.lines.ops|) then s
    else
      match s.lines.ops[s.tasks[i].stage.op].phase
      case Rejected => Finished(s, i)
      case Resolved => Moved(s, i, Pressing(s.tasks[i].stage.op, 0))
      case _ => s
  }

  /** One round of re-pressing, on whatever terminal the agent has by now; `awake` when it is no longer idle. */
  function Pressed(s: State, i: nat, awake: bool, ok: bool): State {
    if !(i < |s.tasks| && s.tasks[i].stage.Pressing?) then s
    else
      var live := LiveOf(s.floor, s.tasks[i].agent);
      if live == None || awake then Finished(s, i)
      else
        var s1 := s.(lines := Wrote(s.lines, live.value, DirectEnter(ok)));
        var n := s.tasks[i].stage.presses + 1;
        if !ok || n >= RESUME_ENTER_RETRIES then Finished(s1, i) else Moved(s1, i, Pressing(s.tasks[i].stage.op, n))
  }

  datatype Event =
    | Spawn(pty: Pty, agent: Agent)
    | Exit(pty: Pty)
    | Job(agent: Agent)
    | Begin(op: nat, ready: bool, ok: bool)
    | End(op: nat, ok: bool)
    | Switch(agent: Agent, recipe: bool)
    | RespawnEnds(task: nat, ok: bool)
    | ContinueEnds(task: nat)
    | Press(task: nat, awake: bool, ok: bool)

  function Step(s: State, e: Event): State {
    match e
    case Spawn(p, agent) => Spawned(s, p, agent)
    case Exit(p) => Gone(s, p)
    case Job(agent) => TickJob(s, agent)
    case Begin(k, ready, ok) => s.(lines := Started(s.lines, k, ready, ok))
    case End(k, ok) => s.(lines := Entered(s.lines, k, ok))
    case Switch(agent, recipe) => Switched(s, agent, recipe)
    case RespawnEnds(i, ok) => RespawnEnded(s, i, ok)
    case ContinueEnds(i) => ContinueEnded(s, i)
    case Press(i, awake, ok) => Pressed(s, i, awake, ok)
  }

  // ---------------------------------------------------------------- the service

  class Typist {
    /** Every `submit` so far; a promise is its position here. */
    var ops: seq<Op>
    var writeChains: map<Pty, nat>
    /** What each terminal has been sent. */
    var log: map<Pty, seq<Entry>>
    var floor: seq<Live>
    var switching: set<Agent>
    /** The failovers, each with its program counter. */
    var tasks: seq<Failover>

    ghost function Model(): State
      reads this
    {
      State(Lines(ops, writeChains, log), floor, switching, tasks)
    }

    constructor ()
      ensures Model() == START
    {
      ops, writeChains, log, floor, switching, tasks := [], map[], map[], [], {}, [];
    }

    method Write(p: Pty, e: Entry)
      modifies this`log
      ensures Model() == old(Model()).(lines := Wrote(old(Model()).lines, p, e))
    {
      var sofar := if p in log then log[p] else [];
      log := log[p := sofar + [e]];
    }

    method Submit(p: Pty, agent: Agent) returns (next: nat)
      modifies this`ops, this`writeChains
      ensures Model() == old(Model()).(lines := Submitted(old(Model()).lines, p, agent)) && next == |old(ops)|
    {
      var prev := if p in writeChains then Some(writeChains[p]) else None;
      next := |ops|;
      ops := ops + [Op(p, agent, prev, Waiting)];
      writeChains := writeChains[p := next];
    }

    method RunTickJob(agent: Agent)
      modifies this
      ensures Model() == TickJob(old(Model()), agent)
    {
      if agent in switching { return; }
      var live := LiveOf(floor, agent);
      if live.None? { return; }
      var _ := Submit(live.value, agent);
    }

    method BeginWrite(k: nat, ready: bool, ok: bool)
      modifies this
      ensures Model() == old(Model()).(lines := Started(old(Model()).lines, k, ready, ok))
    {
      if !(k < |ops| && ops[k].phase == Waiting) { return; }
      if ops[k].previous.Some? {
        var j := ops[k].previous.value;
        if j >= |ops| || (ops[j].phase != Resolved && ops[j].phase != Rejected) { return; }
      }
      if !ready {
        ops := ops[k := ops[k].(phase := Rejected)];
        return;
      }
      Write(ops[k].pty, Payload(k, ok));
      ops := ops[k := ops[k].(phase := if ok then Typed else Rejected)];
    }

    method EndWrite(k: nat, ok: bool)
      modifies this
      ensures Model() == old(Model()).(lines := Entered(old(Model()).lines, k, ok))
    {
      if !(k < |ops| && ops[k].phase == Typed) { return; }
      Write(ops[k].pty, Enter(k, ok));
      ops := ops[k := ops[k].(phase := if ok then Resolved else Rejected)];
    }

    method ForgetPty(p: Pty)
      modifies this`writeChains
      ensures Model() == old(Model()).(lines := Forgot(old(Model()).lines, p))
    {
      writeChains := writeChains - {p};
    }

    method TeardownPty(p: Pty)
      modifies this`floor, this`writeChains
      ensures Model() == Gone(old(Model()), p)
    {
      floor := WithoutPty(floor, p);
      ForgetPty(p);
    }

    method SwitchAccount(agent: Agent, recipe: bool)
      modifies this
      ensures Model() == Switched(old(Model()), agent, recipe)
    {
      if agent in switching {
        tasks := tasks + [Failover(agent, Over)];
        return;
      }
      switching := switching + {agent};
      var live := LiveOf(floor, agent);
      if live.None? || !recipe {
        tasks := tasks + [Failover(agent, Refused)];
        return;
      }
      TeardownPty(live.value);
      tasks := tasks + [Failover(agent, Respawning)];
    }

    /** The `finally` of a failover. */
    method Finish(i: nat)
      requires i < |tasks|
      modifies this`tasks, this`switching
      ensures Model() == Finished(old(Model()), i)
    {
      switching := switching - {tasks[i].agent};
      tasks := tasks[i := tasks[i].(stage := Over)];
    }

    method OnRespawned(i: nat, ok: bool)
      modifies this
      ensures Model() == RespawnEnded(old(Model()), i, ok)
    {
      if i >= |tasks| { return; }
      if tasks[i].stage == Refused { Finish(i); return; }
      if tasks[i].stage != Respawning { return; }
      var agent := tasks[i].agent;
      var live := LiveOf(floor, agent);
      if !ok || live.None? { Finish(i); return; }
      var k := Submit(live.value, agent);
      tasks := tasks[i := tasks[i].(stage := Continuing(k))];
    }

    method OnContinued(i: nat)
      modifies this
      ensures Model() == ContinueEnded(old(Model()), i)
    {
      if i >= |tasks| || !tasks[i].stage.Continuing? { return; }
      var k := tasks[i].stage.op;
      if k >= |ops| { return; }
      if ops[k].phase == Rejected {
        Finish(i);
      } else if ops[k].phase == Resolved {
        tasks := tasks[i := tasks[i].(stage := Pressing(k, 0))];
      }
    }

    method PressEnterWhileParked(i: nat, awake: bool, ok: bool)
      modifies this
      ensures Model() == Pressed(old(Model()), i, awake, ok)
    {
      if i >= |tasks| || !tasks[i].stage.Pressing? { return; }
      var live := LiveOf(floor, tasks[i].agent);
      if live.None? || awake { Finish(i); return; }
      Write(live.value, DirectEnter(ok));
      if !ok { Finish(i); return; }
      var n := tasks[i].stage.presses + 1;
      if n >= RESUME_ENTER_RETRIES { Finish(i); return; }
      tasks := tasks[i := tasks[i].(stage := tasks[i].stage.(presses := n))];
    }
  }
}
