/**
 What typing promises over every interleaving: unbroken pairs, no Enter of a failover inside one, and a
 guard that is held exactly while its failover runs.
 */
module TerminalRuns {
  import opened Options
  import opened TerminalWrites
  import opened WriteChains

  function Run(s: State, es: seq<Event>): State {
    if es == [] then s else Step(Run(s, es[..|es| - 1]), es[|es| - 1])
  }

  // ---------------------------------------------------------------- the guard and its failover

  predicate Unfinished(s: State, i: nat) {
    i < |s.tasks| && s.tasks[i].stage != Over
  }

  /** A failover of the agent is under way. */
  ghost predicate UnderWay(s: State, agent: Agent) {
    exists i: nat :: Unfinished(s, i) && s.tasks[i].agent == agent
  }

  /** At most one failover per agent is under way, and the guard holds exactly the agents that have one. */
  ghost predicate Guarded(s: State) {
    && (forall i: nat, j: nat :: Unfinished(s, i) && Unfinished(s, j) && s.tasks[i].agent == s.tasks[j].agent ==> i == j)
    && (forall a :: a in s.guard <==> UnderWay(s, a))
  }

  lemma {:induction false} SameTasksGuarded(s: State, s': State)
    requires Guarded(s) && s'.tasks == s.tasks && s'.guard == s.guard
    ensures Guarded(s')
  {
    forall i: nat ensures Unfinished(s', i) == Unfinished(s, i) {}
    forall a ensures UnderWay(s', a) == UnderWay(s, a) {
      if UnderWay(s, a) { var i: nat :| Unfinished(s, i) && s.tasks[i].agent == a; assert Unfinished(s', i); }
      if UnderWay(s', a) { var i: nat :| Unfinished(s', i) && s'.tasks[i].agent == a; assert Unfinished(s, i); }
    }
  }

  lemma {:induction false} MovedGuarded(s: State, i: nat, stage: Stage)
    requires Guarded(s) && Unfinished(s, i) && stage != Over
    ensures Guarded(Moved(s, i, stage))
  {
    var s' := Moved(s, i, stage);
    forall j: nat ensures Unfinished(s', j) == Unfinished(s, j) && (j < |s.tasks| ==> s'.tasks[j].agent == s.tasks[j].agent) {}
    forall a ensures UnderWay(s', a) == UnderWay(s, a) {
      if UnderWay(s, a) { var j: nat :| Unfinished(s, j) && s.tasks[j].agent == a; assert Unfinished(s', j); }
      if UnderWay(s', a) { var j: nat :| Unfinished(s', j) && s'.tasks[j].agent == a; assert Unfinished(s, j); }
    }
  }

  lemma {:induction false} FinishedGuarded(s: State, i: nat)
    requires Guarded(s) && Unfinished(s, i)
    ensures Guarded(Finished(s, i))
  {
    var s', b := Finished(s, i), s.tasks[i].agent;
    forall j: nat ensures Unfinished(s', j) == (Unfinished(s, j) && j != i) && (j < |s.tasks| ==> s'.tasks[j].agent == s.tasks[j].agent) {}
    forall a ensures UnderWay(s', a) == (UnderWay(s, a) && a != b) {
      if UnderWay(s, a) && a != b { var j: nat :| Unfinished(s, j) && s.tasks[j].agent == a; assert Unfinished(s', j); }
      if UnderWay(s', a) { var j: nat :| Unfinished(s', j) && s'.tasks[j].agent == a; assert Unfinished(s, j); }
    }
  }

  lemma {:induction false} NewTaskGuarded(s: State, agent: Agent, stage: Stage)
    requires Guarded(s) && (agent in s.guard <==> stage == Over)
    ensures Guarded(s.(guard := s.guard + {agent}, tasks := s.tasks + [Failover(agent, stage)]))
  {
    var s', n := s.(guard := s.guard + {agent}, tasks := s.tasks + [Failover(agent, stage)]), |s.tasks|;
    forall j: nat ensures Unfinished(s', j) == (Unfinished(s, j) || (j == n && stage != Over)) && (j < n ==> s'.tasks[j] == s.tasks[j]) {}
    forall j: nat | Unfinished(s, j) && stage != Over ensures s.tasks[j].agent != agent { assert UnderWay(s, s.tasks[j].agent); }
    forall a ensures a in s'.guard <==> UnderWay(s', a) {
      if UnderWay(s, a) { var j: nat :| Unfinished(s, j) && s.tasks[j].agent == a; assert Unfinished(s', j); }
      if UnderWay(s', a) { var j: nat :| Unfinished(s', j) && s'.tasks[j].agent == a; assert j < n ==> Unfinished(s, j); }
      if a == agent && stage != Over { assert Unfinished(s', n); }
    }
  }

  lemma {:induction false} SwitchGuarded(s: State, agent: Agent, recipe: bool)
    requires Guarded(s)
    ensures Guarded(Switched(s, agent, recipe))
  {
    NewTaskGuarded(s, agent, if agent in s.guard then Over else if LiveOf(s.floor, agent) == None || !recipe then Refused else Respawning);
    if agent in s.guard {
      assert s.guard + {agent} == s.guard;
    } else {
      match LiveOf(s.floor, agent)
      case None =>
      case Some(p) =>
        if recipe {
          SameTasksGuarded(s.(guard := s.guard + {agent}, tasks := s.tasks + [Failover(agent, Respawning)]), Switched(s, agent, recipe));
        }
    }
  }

  lemma {:induction false} StepGuarded(s: State, e: Event)
    requires Guarded(s)
    ensures Guarded(Step(s, e))
  {
    match e
    case Switch(agent, recipe) => SwitchGuarded(s, agent, recipe);
    case RespawnEnds(i, ok) => RespawnGuarded(s, i, ok);
    case ContinueEnds(i) =>
      if i < |s.tasks| && s.tasks[i].stage.Continuing? {
        FinishedGuarded(s, i);
        MovedGuarded(s, i, Pressing(s.tasks[i].stage.op, 0));
      }
    case Press(i, awake, ok) => PressGuarded(s, i, awake, ok);
    case _ => SameTasksGuarded(s, Step(s, e));
  }

  lemma {:induction false} RespawnGuarded(s: State, i: nat, ok: bool)
    requires Guarded(s)
    ensures Guarded(RespawnEnded(s, i, ok))
  {
    if i < |s.tasks| && (s.tasks[i].stage == Refused || s.tasks[i].stage == Respawning) {
      FinishedGuarded(s, i);
      var live := LiveOf(s.floor, s.tasks[i].agent);
      if live.Some? {
        var s1 := s.(lines := Submitted(s.lines, live.value, s.tasks[i].agent));
        SameTasksGuarded(s, s1);
        MovedGuarded(s1, i, Continuing(|s.lines.ops|));
      }
    }
  }

  lemma {:induction false} PressGuarded(s: State, i: nat, awake: bool, ok: bool)
    requires Guarded(s)
    ensures Guarded(Pressed(s, i, awake, ok))
  {
    if i < |s.tasks| && s.tasks[i].stage.Pressing? {
      FinishedGuarded(s, i);
      var live := LiveOf(s.floor, s.tasks[i].agent);
      if live.Some? {
        var s1 := s.(lines := Wrote(s.lines, live.value, DirectEnter(ok)));
        SameTasksGuarded(s, s1);
        FinishedGuarded(s1, i);
        MovedGuarded(s1, i, Pressing(s.tasks[i].stage.op, s.tasks[i].stage.presses + 1));
      }
    }
  }

  lemma {:induction false} RunGuarded(es: seq<Event>)
    ensures Guarded(Run(START, es))
  {
    if es != [] {
      RunGuarded(es[..|es| - 1]);
      StepGuarded(Run(START, es[..|es| - 1]), es[|es| - 1]);
    }
  }

  /** Over every run, an agent is guarded exactly while one failover of it is under way, and never two. */
  lemma {:induction false} GuardIsTheFailover(es: seq<Event>, agent: Agent)
    ensures var s := Run(START, es);
      agent in s.guard <==> exists i: nat :: Unfinished(s, i) && s.tasks[i].agent == agent
    ensures var s := Run(START, es);
      forall i: nat, j: nat :: Unfinished(s, i) && Unfinished(s, j) && s.tasks[i].agent == agent == s.tasks[j].agent ==> i == j
  {
    RunGuarded(es);
    assert UnderWay(Run(START, es), agent) <==> agent in Run(START, es).guard;
  }

  /** The step that ends a failover, whichever it is, frees the guard. */
  lemma {:induction false} EndingFreesTheGuard(es: seq<Event>, e: Event, i: nat)
    requires Unfinished(Run(START, es), i) && !Unfinished(Run(START, es + [e]), i)
    ensures Run(START, es).tasks[i].agent !in Run(START, es + [e]).guard
  {
    var s, s' := Run(START, es), Run(START, es + [e]);
    assert (es + [e])[..|es|] == es;
    RunGuarded(es);
    RunGuarded(es + [e]);
    var a := s.tasks[i].agent;
    TasksStay(s, e, i);
    assert UnderWay(s, a);
    forall j: nat | Unfinished(s', j) ensures s'.tasks[j].agent != a {
      if j < |s.tasks| { TasksStay(s, e, j); }
    }
    assert !UnderWay(s', a);
  }

  /** Failovers keep their agent and their place, and one that is over stays over. */
  lemma {:induction false} TasksStay(s: State, e: Event, i: nat)
    requires i < |s.tasks|
    ensures var s' := Step(s, e);
      |s.tasks| <= |s'.tasks| <= |s.tasks| + 1 && s'.tasks[i].agent == s.tasks[i].agent && (Unfinished(s', i) ==> Unfinished(s, i))
    ensures |Step(s, e).tasks| > |s.tasks| ==>
      e.Switch? && Step(s, e).tasks[|s.tasks|].agent == e.agent && (Unfinished(Step(s, e), |s.tasks|) ==> e.agent !in s.guard)
  {
  }

  // ---------------------------------------------------------------- nothing else is typed

  /** The `submit` by which the failover tells its agent to continue. */
  predicate IsItsContinue(f: Failover, k: nat) {
    (f.stage.Continuing? || f.stage.Pressing?) && f.stage.op == k
  }

  /** Whatever was submitted for the failover's agent from number `since` on is its own "continue". */
  predicate OnlyContinues(s: State, i: nat, since: nat)
    requires i < |s.tasks|
  {
    && since <= |s.lines.ops|
    && forall k :: since <= k < |s.lines.ops| && s.lines.ops[k].agent == s.tasks[i].agent ==> IsItsContinue(s.tasks[i], k)
  }

  /** A step submits at most once: a job for an agent that is not guarded, or a failover's "continue". */
  lemma {:induction false} NewSubmits(s: State, e: Event)
    ensures var n, ops := |s.lines.ops|, Step(s, e).lines.ops;
      && n <= |ops| <= n + 1
      && (forall k :: 0 <= k < n ==> ops[k].agent == s.lines.ops[k].agent)
      && (|ops| > n ==>
            || (e.Job? && ops[n].agent == e.agent && e.agent !in s.guard)
            || (e.RespawnEnds? && Unfinished(s, e.task) && ops[n].agent == s.tasks[e.task].agent
                && e.task < |Step(s, e).tasks| && IsItsContinue(Step(s, e).tasks[e.task], n)))
  {
  }

  lemma {:induction false} ContinueStays(s: State, e: Event, i: nat, k: nat)
    requires Unfinished(s, i) && Unfinished(Step(s, e), i) && IsItsContinue(s.tasks[i], k)
    ensures IsItsContinue(Step(s, e).tasks[i], k)
  {
  }

  lemma {:induction false} OnlyContinueStep(s: State, e: Event, i: nat, since: nat)
    requires Guarded(s) && Unfinished(s, i) && Unfinished(Step(s, e), i) && OnlyContinues(s, i, since)
    ensures OnlyContinues(Step(s, e), i, since)
  {
    var s', n := Step(s, e), |s.lines.ops|;
    assert UnderWay(s, s.tasks[i].agent);
    NewSubmits(s, e);
    TasksStay(s, e, i);
    forall k | since <= k < |s'.lines.ops| && s'.lines.ops[k].agent == s'.tasks[i].agent ensures IsItsContinue(s'.tasks[i], k) {
      if k < n { ContinueStays(s, e, i, k); }
    }
  }

  lemma {:induction false} TasksLast(s: State, fs: seq<Event>, i: nat)
    requires i < |s.tasks|
    ensures i < |Run(s, fs).tasks|
  {
    if fs != [] {
      TasksLast(s, fs[..|fs| - 1], i);
      TasksStay(Run(s, fs[..|fs| - 1]), fs[|fs| - 1], i);
    }
  }

  lemma {:induction false} OnlyContinuesFrom(s: State, fs: seq<Event>, i: nat)
    requires Guarded(s) && Unfinished(s, i) && Unfinished(Run(s, fs), i)
    ensures var t := Run(s, fs); Guarded(t) && t.tasks[i].agent == s.tasks[i].agent && OnlyContinues(t, i, |s.lines.ops|)
  {
    if fs != [] {
      var before, e := fs[..|fs| - 1], fs[|fs| - 1];
      TasksLast(s, before, i);
      TasksStay(Run(s, before), e, i);
      OnlyContinuesFrom(s, before, i);
      StepGuarded(Run(s, before), e);
      OnlyContinueStep(Run(s, before), e, i, |s.lines.ops|);
    }
  }

  /**
   While a failover runs, the only thing submitted for its agent is its own "continue": no job of any tick,
   and nothing of another failover.
   */
  lemma {:induction false} OnlyItsContinue(es: seq<Event>, fs: seq<Event>, i: nat)
    requires Unfinished(Run(START, es), i) && Unfinished(Run(Run(START, es), fs), i)
    ensures var s := Run(START, es); var t := Run(s, fs);
      t.tasks[i].agent == s.tasks[i].agent && OnlyContinues(t, i, |s.lines.ops|)
  {
    RunGuarded(es);
    OnlyContinuesFrom(Run(START, es), fs, i);
  }

  // ---------------------------------------------------------------- failovers end

  /** How many more steps of its own a failover can take. */
  function StepsLeft(f: Stage): nat {
    match f
    case Refused => 1
    case Respawning => RESUME_ENTER_RETRIES + 2
    case Continuing(_) => RESUME_ENTER_RETRIES + 1
    case Pressing(_, n) => if n < RESUME_ENTER_RETRIES then RESUME_ENTER_RETRIES - n else 1
    case Over => 0
  }

  /** The step is the failover's own, and what it waited for has come. */
  predicate Own(s: State, e: Event, i: nat) {
    i < |s.tasks| && match e
      case RespawnEnds(t, _) => t == i && (s.tasks[i].stage == Refused || s.tasks[i].stage == Respawning)
      case ContinueEnds(t) =>
        t == i && s.tasks[i].stage.Continuing? && s.tasks[i].stage.op < |s.lines.ops| && Settled(s.lines.ops[s.tasks[i].stage.op].phase)
      case Press(t, _, _) => t == i && s.tasks[i].stage.Pressing?
      case _ => false
  }

  function OwnSteps(es: seq<Event>, i: nat): nat {
    if es == [] then 0
    else OwnSteps(es[..|es| - 1], i) + if Own(Run(START, es[..|es| - 1]), es[|es| - 1], i) then 1 else 0
  }

  lemma {:induction false} OwnStepCounts(s: State, e: Event, i: nat)
    requires i < |s.tasks|
    ensures var s' := Step(s, e);
      i < |s'.tasks| && if Own(s, e, i) then StepsLeft(s'.tasks[i].stage) < StepsLeft(s.tasks[i].stage)
                        else s'.tasks[i].stage == s.tasks[i].stage
  {
  }

  lemma {:induction false} NoStepsBefore(es: seq<Event>, i: nat)
    requires i >= |Run(START, es).tasks|
    ensures OwnSteps(es, i) == 0
  {
    if es != [] {
      var s := Run(START, es[..|es| - 1]);
      if i < |s.tasks| { TasksStay(s, es[|es| - 1], i); }
      NoStepsBefore(es[..|es| - 1], i);
    }
  }

  /**
   Every failover comes to its end: each step of its own uses up one of a bounded number, whatever the
   respawn, the "continue" and the presses answer; having taken that many it is over.
   */
  lemma {:induction false} FailoversEnd(es: seq<Event>, i: nat)
    requires i < |Run(START, es).tasks|
    ensures OwnSteps(es, i) + StepsLeft(Run(START, es).tasks[i].stage) <= RESUME_ENTER_RETRIES + 2
    ensures OwnSteps(es, i) == RESUME_ENTER_RETRIES + 2 ==> !Unfinished(Run(START, es), i)
  {
    var before, e := es[..|es| - 1], es[|es| - 1];
    var s := Run(START, before);
    if i < |s.tasks| {
      FailoversEnd(before, i);
      OwnStepCounts(s, e, i);
    } else {
      NoStepsBefore(before, i);
    }
  }

  // ---------------------------------------------------------------- what is pending where

  /** No terminal is forgotten with a `submit` pending on it. */
  predicate Orderly(s: State, e: Event) {
    match e
    case Exit(p) => Quiet(s.lines, p)
    case Switch(agent, recipe) =>
      agent !in s.guard && recipe && LiveOf(s.floor, agent).Some? ==> Quiet(s.lines, LiveOf(s.floor, agent).value)
    case _ => true
  }

  ghost predicate OrderlyFrom(s: State, es: seq<Event>) {
    forall past :: past < es ==> Orderly(Run(s, past), es[|past|])
  }

  ghost predicate OrderlyRun(es: seq<Event>) {
    OrderlyFrom(START, es)
  }

  /** A running terminal has one agent. */
  predicate FloorOk(floor: seq<Live>) {
    forall i, j :: 0 <= i < j < |floor| ==> floor[i].pty != floor[j].pty
  }

  /** What is pending is pending where its agent is found. */
  predicate Homed(s: State, k: nat)
    requires k < |s.lines.ops|
  {
    !Settled(s.lines.ops[k].phase) ==> LiveOf(s.floor, s.lines.ops[k].agent) == Some(s.lines.ops[k].pty)
  }

  /** Nothing of the agent's is pending, but perhaps one `submit`. */
  predicate SettledBut(l: Lines, agent: Agent, but: Option<nat>) {
    forall k :: 0 <= k < |l.ops| && l.ops[k].agent == agent && Some(k) != but ==> Settled(l.ops[k].phase)
  }

  predicate TaskOk(s: State, f: Failover) {
    match f.stage
    case Respawning => SettledBut(s.lines, f.agent, None)
    case Continuing(k) => k < |s.lines.ops| && s.lines.ops[k].agent == f.agent && SettledBut(s.lines, f.agent, Some(k))
    case Pressing(_, n) => n < RESUME_ENTER_RETRIES && SettledBut(s.lines, f.agent, None)
    case _ => true
  }

  ghost predicate Inv(s: State) {
    && LinesOk(s.lines) && Guarded(s) && FloorOk(s.floor)
    && (forall k :: 0 <= k < |s.lines.ops| ==> Homed(s, k))
    && (forall i :: 0 <= i < |s.tasks| ==> TaskOk(s, s.tasks[i]))
  }

  lemma {:induction false} LiveRuns(floor: seq<Live>, agent: Agent)
    ensures var l := LiveOf(floor, agent);
      l.Some? ==> exists i :: 0 <= i < |floor| && floor[i] == Live(l.value, agent)
  {
    if floor != [] && floor[0].agent != agent {
      LiveRuns(floor[1..], agent);
      var l := LiveOf(floor[1..], agent);
      if l.Some? {
        var i :| 0 <= i < |floor[1..]| && floor[1..][i] == Live(l.value, agent);
        assert floor[i + 1] == Live(l.value, agent);
      }
    }
  }

  /** Two agents are not found at one terminal. */
  lemma {:induction false} OneAgentPerTerminal(floor: seq<Live>, a: Agent, b: Agent)
    requires FloorOk(floor) && LiveOf(floor, a).Some? && LiveOf(floor, a) == LiveOf(floor, b)
    ensures a == b
  {
    LiveRuns(floor, a);
    LiveRuns(floor, b);
  }

  lemma {:induction false} LiveAfterSpawn(floor: seq<Live>, l: Live, agent: Agent)
    ensures LiveOf(floor, agent).Some? ==> LiveOf(floor + [l], agent) == LiveOf(floor, agent)
  {
    if floor != [] {
      LiveAfterSpawn(floor[1..], l, agent);
      assert (floor + [l])[1..] == floor[1..] + [l];
    }
  }

  lemma {:induction false} LiveAfterExit(floor: seq<Live>, p: Pty, agent: Agent)
    ensures LiveOf(floor, agent).Some? && LiveOf(floor, agent) != Some(p) ==> LiveOf(WithoutPty(floor, p), agent) == LiveOf(floor, agent)
    ensures forall l :: l in WithoutPty(floor, p) ==> l in floor && l.pty != p
  {
    if floor != [] { LiveAfterExit(floor[1..], p, agent); }
  }

  lemma {:induction false} FloorAfterExit(floor: seq<Live>, p: Pty)
    requires FloorOk(floor)
    ensures FloorOk(WithoutPty(floor, p))
  {
    if floor != [] {
      assert FloorOk(floor[1..]) by { assert forall i :: 0 <= i < |floor[1..]| ==> floor[1..][i] == floor[i + 1]; }
      FloorAfterExit(floor[1..], p);
      var w := WithoutPty(floor[1..], p);
      LiveAfterExit(floor[1..], p, "");
      forall j | 0 <= j < |w| ensures w[j].pty != floor[0].pty {
        var i :| 0 <= i < |floor[1..]| && floor[1..][i] == w[j];
        assert floor[i + 1] == w[j];
      }
    }
  }

  /** Where a failover presses Enter nothing is pending, whichever terminal the agent has by then. */
  lemma {:induction false} PressedTerminalIsQuiet(s: State, i: nat)
    requires Inv(s) && i < |s.tasks| && s.tasks[i].stage.Pressing? && LiveOf(s.floor, s.tasks[i].agent).Some?
    ensures Quiet(s.lines, LiveOf(s.floor, s.tasks[i].agent).value)
  {
    assert TaskOk(s, s.tasks[i]);
    var a := s.tasks[i].agent;
    var p := LiveOf(s.floor, a).value;
    forall k | 0 <= k < |s.lines.ops| && s.lines.ops[k].pty == p ensures Settled(s.lines.ops[k].phase) {
      assert Homed(s, k);
      if LiveOf(s.floor, s.lines.ops[k].agent) == Some(p) { OneAgentPerTerminal(s.floor, s.lines.ops[k].agent, a); }
    }
  }

  // ---------------------------------------------------------------- each step keeps it

  /** Steps that touch neither the pending nor the failovers. */
  lemma {:induction false} PendingKept(s: State, s': State)
    requires Inv(s) && Guarded(s') && LinesOk(s'.lines) && s'.lines.ops == s.lines.ops && s'.floor == s.floor
    requires forall i :: 0 <= i < |s'.tasks| ==> (i < |s.tasks| && s'.tasks[i] == s.tasks[i]) || TaskOk(s', s'.tasks[i])
    ensures Inv(s')
  {
    forall k | 0 <= k < |s'.lines.ops| ensures Homed(s', k) { assert Homed(s, k); }
    forall i | 0 <= i < |s'.tasks| ensures TaskOk(s', s'.tasks[i]) {
      if i < |s.tasks| && s'.tasks[i] == s.tasks[i] {
        assert TaskOk(s, s.tasks[i]);
        SameSettled(s.lines, s'.lines, s.tasks[i]);
      }
    }
  }

  lemma {:induction false} SameSettled(l: Lines, l': Lines, f: Failover)
    requires l'.ops == l.ops
    ensures forall but :: SettledBut(l', f.agent, but) == SettledBut(l, f.agent, but)
  {
  }

  /** Nothing is pending under the name of a terminal that does not run. */
  lemma {:induction false} StoppedIsQuiet(s: State, p: Pty)
    requires Inv(s) && !Runs(s.floor, p)
    ensures Quiet(s.lines, p)
  {
    forall k | 0 <= k < |s.lines.ops| && s.lines.ops[k].pty == p ensures Settled(s.lines.ops[k].phase) {
      assert Homed(s, k);
      LiveRuns(s.floor, s.lines.ops[k].agent);
    }
  }

  lemma {:induction false} SpawnKeeps(s: State, p: Pty, agent: Agent)
    requires Inv(s)
    ensures Inv(Spawned(s, p, agent))
  {
    var s' := Spawned(s, p, agent);
    if !Runs(s.floor, p) {
      StoppedIsQuiet(s, p);
      OpenKeeps(s.lines, p);
    }
    SameTasksGuarded(s, s');
    forall k | 0 <= k < |s'.lines.ops| ensures Homed(s', k) {
      assert Homed(s, k);
      LiveAfterSpawn(s.floor, Live(p, agent), s.lines.ops[k].agent);
    }
    forall i | 0 <= i < |s'.tasks| ensures TaskOk(s', s'.tasks[i]) { assert TaskOk(s, s.tasks[i]); }
  }

  lemma {:induction false} GoneKeeps(s: State, p: Pty)
    requires Inv(s) && Quiet(s.lines, p)
    ensures Inv(Gone(s, p))
  {
    var s' := Gone(s, p);
    ForgetKeeps(s.lines, p);
    SameTasksGuarded(s, s');
    FloorAfterExit(s.floor, p);
    forall k | 0 <= k < |s'.lines.ops| ensures Homed(s', k) {
      assert Homed(s, k);
      LiveAfterExit(s.floor, p, s.lines.ops[k].agent);
    }
    forall i | 0 <= i < |s'.tasks| ensures TaskOk(s', s'.tasks[i]) {
      assert TaskOk(s, s.tasks[i]);
      SameSettled(s.lines, s'.lines, s.tasks[i]);
    }
  }

  lemma {:induction false} SubmitHomed(s: State, agent: Agent, p: Pty)
    requires Inv(s) && LiveOf(s.floor, agent) == Some(p)
    ensures var s' := s.(lines := Submitted(s.lines, p, agent));
      LinesOk(s'.lines) && forall k :: 0 <= k < |s'.lines.ops| ==> Homed(s', k)
  {
    WriteChains.SubmitKeeps(s.lines, p, agent);
    var s' := s.(lines := Submitted(s.lines, p, agent));
    forall k | 0 <= k < |s'.lines.ops| ensures Homed(s', k) {
      if k < |s.lines.ops| { assert Homed(s, k); }
    }
  }

  /** One more operation leaves the failovers of other agents as they are. */
  lemma {:induction false} OtherTasksKept(s: State, p: Pty, agent: Agent, f: Failover)
    requires TaskOk(s, f) && (f.agent != agent || f.stage in {Refused, Over})
    ensures TaskOk(s.(lines := Submitted(s.lines, p, agent)), f)
  {
    var ops := Submitted(s.lines, p, agent).ops;
    assert forall k :: 0 <= k < |s.lines.ops| ==> ops[k] == s.lines.ops[k];
  }

  lemma {:induction false} JobKeeps(s: State, agent: Agent)
    requires Inv(s)
    ensures Inv(TickJob(s, agent))
  {
    if agent !in s.guard && LiveOf(s.floor, agent).Some? {
      var p := LiveOf(s.floor, agent).value;
      var s' := TickJob(s, agent);
      SubmitHomed(s, agent, p);
      SameTasksGuarded(s, s');
      forall i: nat | i < |s'.tasks| ensures TaskOk(s', s'.tasks[i]) {
        assert TaskOk(s, s.tasks[i]);
        assert Unfinished(s, i) ==> UnderWay(s, s.tasks[i].agent);
        if s.tasks[i].stage != Over { assert Unfinished(s, i); }
        OtherTasksKept(s, p, agent, s.tasks[i]);
      }
    }
  }

  /** One operation moves on: it stays where it is, and what was settled stays settled. */
  lemma {:induction false} PhaseKeeps(s: State, l: Lines)
    requires Inv(s) && LinesOk(l) && |l.ops| == |s.lines.ops|
    requires forall k :: 0 <= k < |l.ops| ==>
      l.ops[k].pty == s.lines.ops[k].pty && l.ops[k].agent == s.lines.ops[k].agent && (Settled(s.lines.ops[k].phase) ==> Settled(l.ops[k].phase))
    ensures Inv(s.(lines := l))
  {
    var s' := s.(lines := l);
    SameTasksGuarded(s, s');
    forall k | 0 <= k < |s'.lines.ops| ensures Homed(s', k) { assert Homed(s, k); }
    forall i | 0 <= i < |s'.tasks| ensures TaskOk(s', s'.tasks[i]) { assert TaskOk(s, s.tasks[i]); }
  }

  lemma {:induction false} BeginKeeps(s: State, k: nat, ready: bool, ok: bool)
    requires Inv(s)
    ensures Inv(s.(lines := Started(s.lines, k, ready, ok)))
  {
    StartKeeps(s.lines, k, ready, ok);
    PhaseKeeps(s, Started(s.lines, k, ready, ok));
  }

  lemma {:induction false} EndKeeps(s: State, k: nat, ok: bool)
    requires Inv(s)
    ensures Inv(s.(lines := Entered(s.lines, k, ok)))
  {
    EnterKeeps(s.lines, k, ok);
    PhaseKeeps(s, Entered(s.lines, k, ok));
  }

  lemma {:induction false} FinishKeeps(s: State, i: nat)
    requires Inv(s) && Unfinished(s, i)
    ensures Inv(Finished(s, i))
  {
    FinishedGuarded(s, i);
    PendingKept(s, Finished(s, i));
  }

  lemma {:induction false} MoveKeeps(s: State, i: nat, stage: Stage)
    requires Inv(s) && Unfinished(s, i) && stage != Over && TaskOk(s, Failover(s.tasks[i].agent, stage))
    ensures Inv(Moved(s, i, stage))
  {
    MovedGuarded(s, i, stage);
    var s' := Moved(s, i, stage);
    SameSettled(s.lines, s'.lines, s'.tasks[i]);
    PendingKept(s, s');
  }

  /** A killed terminal had nothing pending, so nothing of its agent's is. */
  lemma {:induction false} NothingPending(s: State, agent: Agent, p: Pty)
    requires Inv(s) && LiveOf(s.floor, agent) == Some(p) && Quiet(s.lines, p)
    ensures SettledBut(s.lines, agent, None)
  {
    forall k | 0 <= k < |s.lines.ops| && s.lines.ops[k].agent == agent ensures Settled(s.lines.ops[k].phase) { assert Homed(s, k); }
  }

  lemma {:induction false} SwitchKeeps(s: State, agent: Agent, recipe: bool)
    requires Inv(s) && Orderly(s, Switch(agent, recipe))
    ensures Inv(Switched(s, agent, recipe))
  {
    SwitchGuarded(s, agent, recipe);
    var s' := Switched(s, agent, recipe);
    var live := LiveOf(s.floor, agent);
    if agent !in s.guard && recipe && live.Some? {
      NothingPending(s, agent, live.value);
      GoneKeeps(s, live.value);
      var g := Gone(s, live.value);
      SameSettled(s.lines, s'.lines, Failover(agent, Respawning));
      PendingKept(g, s');
    } else {
      PendingKept(s, s');
    }
  }

  lemma {:induction false} RespawnKeeps(s: State, i: nat, ok: bool)
    requires Inv(s)
    ensures Inv(RespawnEnded(s, i, ok))
  {
    if i < |s.tasks| && s.tasks[i].stage in {Refused, Respawning} {
      var a := s.tasks[i].agent;
      var live := LiveOf(s.floor, a);
      if s.tasks[i].stage == Refused || !ok || live == None {
        FinishKeeps(s, i);
      } else {
        ContinueKeeps(s, i, live.value);
      }
    }
  }

  lemma {:induction false} ContinueKeeps(s: State, i: nat, p: Pty)
    requires Inv(s) && i < |s.tasks| && s.tasks[i].stage == Respawning && LiveOf(s.floor, s.tasks[i].agent) == Some(p)
    ensures Inv(Moved(s.(lines := Submitted(s.lines, p, s.tasks[i].agent)), i, Continuing(|s.lines.ops|)))
  {
    var a, n := s.tasks[i].agent, |s.lines.ops|;
    var s1 := s.(lines := Submitted(s.lines, p, a));
    var s' := Moved(s1, i, Continuing(n));
    SubmitHomed(s, a, p);
    SameTasksGuarded(s, s1);
    MovedGuarded(s1, i, Continuing(n));
    assert forall k :: 0 <= k < n ==> s1.lines.ops[k] == s.lines.ops[k];
    assert TaskOk(s, s.tasks[i]);
    forall k | 0 <= k < |s'.lines.ops| ensures Homed(s', k) { assert Homed(s1, k); }
    forall j: nat | j < |s'.tasks| ensures TaskOk(s', s'.tasks[j]) {
      if j != i {
        assert TaskOk(s, s.tasks[j]);
        if s.tasks[j].stage != Over { assert Unfinished(s, i) && Unfinished(s, j); }
        OtherTasksKept(s, p, a, s.tasks[j]);
      }
    }
  }

  lemma {:induction false} ContinuedKeeps(s: State, i: nat)
    requires Inv(s)
    ensures Inv(ContinueEnded(s, i))
  {
    if i < |s.tasks| && s.tasks[i].stage.Continuing? {
      var k := s.tasks[i].stage.op;
      assert TaskOk(s, s.tasks[i]);
      if s.lines.ops[k].phase == Rejected { FinishKeeps(s, i); }
      if s.lines.ops[k].phase == Resolved { MoveKeeps(s, i, Pressing(k, 0)); }
    }
  }

  lemma {:induction false} PressWritten(s: State, i: nat, ok: bool)
    requires Inv(s) && i < |s.tasks| && s.tasks[i].stage.Pressing? && LiveOf(s.floor, s.tasks[i].agent).Some?
    ensures Inv(s.(lines := Wrote(s.lines, LiveOf(s.floor, s.tasks[i].agent).value, DirectEnter(ok))))
  {
    var p := LiveOf(s.floor, s.tasks[i].agent).value;
    PressedTerminalIsQuiet(s, i);
    DirectKeeps(s.lines, p, ok);
    PhaseKeeps(s, Wrote(s.lines, p, DirectEnter(ok)));
  }

  lemma {:induction false} NextPressKeeps(s: State, i: nat, n: nat)
    requires Inv(s) && i < |s.tasks| && s.tasks[i].stage.Pressing? && n < RESUME_ENTER_RETRIES
    ensures Inv(Moved(s, i, Pressing(s.tasks[i].stage.op, n)))
  {
    assert TaskOk(s, s.tasks[i]);
    MoveKeeps(s, i, Pressing(s.tasks[i].stage.op, n));
  }

  lemma {:induction false} PressKeeps(s: State, i: nat, awake: bool, ok: bool)
    requires Inv(s)
    ensures Inv(Pressed(s, i, awake, ok))
  {
    if i < |s.tasks| && s.tasks[i].stage.Pressing? {
      var live := LiveOf(s.floor, s.tasks[i].agent);
      if live == None || awake {
        FinishKeeps(s, i);
      } else {
        PressWritten(s, i, ok);
        var s1 := s.(lines := Wrote(s.lines, live.value, DirectEnter(ok)));
        var n := s.tasks[i].stage.presses + 1;
        if !ok || n >= RESUME_ENTER_RETRIES { FinishKeeps(s1, i); } else { NextPressKeeps(s1, i, n); }
      }
    }
  }

  lemma {:induction false} StepKeeps(s: State, e: Event)
    requires Inv(s) && Orderly(s, e)
    ensures Inv(Step(s, e))
  {
    match e
    case Spawn(p, agent) => SpawnKeeps(s, p, agent);
    case Exit(p) => GoneKeeps(s, p);
    case Job(agent) => JobKeeps(s, agent);
    case Begin(k, ready, ok) => BeginKeeps(s, k, ready, ok);
    case End(k, ok) => EndKeeps(s, k, ok);
    case Switch(agent, recipe) => SwitchKeeps(s, agent, recipe);
    case RespawnEnds(i, ok) => RespawnKeeps(s, i, ok);
    case ContinueEnds(i) => ContinuedKeeps(s, i);
    case Press(i, awake, ok) => PressKeeps(s, i, awake, ok);
  }

  lemma {:induction false} RunFromKeeps(s: State, es: seq<Event>)
    requires Inv(s) && OrderlyFrom(s, es)
    ensures Inv(Run(s, es))
  {
    if es != [] {
      var before := es[..|es| - 1];
      forall past | past < before ensures Orderly(Run(s, past), before[|past|]) {
        assert past < es && es[|past|] == before[|past|];
      }
      RunFromKeeps(s, before);
      assert before < es;
      StepKeeps(Run(s, before), es[|es| - 1]);
    }
  }

  lemma {:induction false} RunKeeps(es: seq<Event>)
    requires OrderlyRun(es)
    ensures Inv(Run(START, es))
  {
    RunFromKeeps(START, es);
  }

  // ---------------------------------------------------------------- the theorems on typing

  /**
   Each landed payload is directly followed by its own Enter, unless its `submit` is still in the gap;
   each Enter of a `submit` directly follows its own landed payload; and payloads appear in call order.
   */
  predicate Unbroken(l: Lines, log: seq<Entry>) {
    && (forall i :: 0 <= i < |log| && log[i].Payload? && log[i].ok ==>
          if i + 1 < |log| then log[i + 1].Enter? && log[i + 1].op == log[i].op
          else log[i].op < |l.ops| && l.ops[log[i].op].phase == Typed)
    && (forall i :: 0 <= i < |log| && log[i].Enter? ==> i > 0 && log[i - 1] == Payload(log[i].op, true))
    && (forall i, j :: 0 <= i < j < |log| && log[i].Payload? && log[j].Payload? ==> log[i].op < log[j].op)
  }

  lemma {:induction false} PairsOf(l: Lines, p: Pty)
    requires LinesOk(l)
    ensures Unbroken(l, LogOf(l, p))
  {
    var log := LogOf(l, p);
    assert LogOk(l, p, log);
    assert log != [] ==> EntryOk(l, p, log[|log| - 1]);
  }

  /** On every terminal, after any run that forgets none with a `submit` pending, the pairs are unbroken. */
  lemma {:induction false} PairsAreUnbroken(es: seq<Event>, p: Pty)
    requires OrderlyRun(es)
    ensures Unbroken(Run(START, es).lines, LogOf(Run(START, es).lines, p))
  {
    RunKeeps(es);
    PairsOf(Run(START, es).lines, p);
  }

  /**
   When a failover presses Enter, on whichever terminal its agent has at that moment, no pair is open on
   that terminal and no `submit` is pending there.
   */
  lemma {:induction false} NoStrayEnter(es: seq<Event>, i: nat)
    requires OrderlyRun(es) && i < |Run(START, es).tasks| && Run(START, es).tasks[i].stage.Pressing?
    requires LiveOf(Run(START, es).floor, Run(START, es).tasks[i].agent).Some?
    ensures var s := Run(START, es); var p := LiveOf(s.floor, s.tasks[i].agent).value;
      Quiet(s.lines, p) && !Open(LogOf(s.lines, p))
  {
    RunKeeps(es);
    PressedTerminalIsQuiet(Run(START, es), i);
    var s := Run(START, es);
    DirectKeeps(s.lines, LiveOf(s.floor, s.tasks[i].agent).value, true);
  }

  // ---------------------------------------------------------------- forgetting with something pending

  lemma {:induction false} OneMore(s: State, es: seq<Event>, e: Event)
    ensures Run(s, es + [e]) == Step(Run(s, es), e)
  {
    assert (es + [e])[..|es|] == es;
  }

  /** The earliest `submit` pending on a terminal. */
  lemma {:induction false} FirstPending(l: Lines, p: Pty, n: nat) returns (k: nat)
    requires n < |l.ops| && l.ops[n].pty == p && !Settled(l.ops[n].phase)
    ensures k < |l.ops| && l.ops[k].pty == p && !Settled(l.ops[k].phase) && EarlierSettled(l, k)
  {
    if EarlierSettled(l, n) {
      k := n;
    } else {
      var j :| 0 <= j < n && l.ops[j].pty == l.ops[n].pty && !Settled(l.ops[j].phase);
      k := FirstPending(l, p, j);
    }
  }

  /** What jams a terminal that was forgotten with this operation pending: a second payload, or its Enter after another's payload. */
  function Jam(s: State, p: Pty, k: nat, agent: Agent): seq<Event>
    requires k < |s.lines.ops|
  {
    [Spawn(p, agent), Job(agent)] + Clash(s.lines, k)
  }

  /** The newest operation types its payload, and the pending one goes on. */
  function Clash(l: Lines, k: nat): seq<Event>
    requires k < |l.ops|
  {
    [Begin(|l.ops|, true, true), if l.ops[k].phase == Waiting then Begin(k, true, true) else End(k, true)]
  }

  lemma {:induction false} JamIsOrderly(s: State, g: State, p: Pty, k: nat, agent: Agent)
    requires k < |s.lines.ops|
    ensures OrderlyFrom(g, Jam(s, p, k, agent))
  {
  }

  lemma {:induction false} LiveAtLast(floor: seq<Live>, p: Pty, agent: Agent)
    requires LiveOf(floor, agent) == None
    ensures LiveOf(floor + [Live(p, agent)], agent) == Some(p)
  {
    if floor == [] {
      assert (floor + [Live(p, agent)])[0] == Live(p, agent);
    } else {
      LiveAtLast(floor[1..], p, agent);
      assert (floor + [Live(p, agent)])[1..] == floor[1..] + [Live(p, agent)];
    }
  }

  /** The terminal comes back with its agent, and the payload of one more job lands. */
  lemma {:induction false} BackWithAJob(s: State, p: Pty, agent: Agent)
    requires agent !in s.guard && LiveOf(WithoutPty(s.floor, p), agent) == None
    ensures Run(Gone(s, p), [Spawn(p, agent), Job(agent)]).lines == Submitted(Opened(Forgot(s.lines, p), p), p, agent)
  {
    var g := Gone(s, p);
    LiveAfterExit(s.floor, p, agent);
    LiveAtLast(g.floor, p, agent);
    OneMore(g, [], Spawn(p, agent));
    OneMore(g, [Spawn(p, agent)], Job(agent));
    assert [] + [Spawn(p, agent)] == [Spawn(p, agent)] && [Spawn(p, agent)] + [Job(agent)] == [Spawn(p, agent), Job(agent)];
  }

  lemma {:induction false} TwoMore(s: State, es: seq<Event>, e: Event, f: Event)
    ensures Run(s, es + [e]) == Step(Run(s, es), e) && Run(s, es + [e, f]) == Step(Run(s, es + [e]), f)
  {
    OneMore(s, es, e);
    assert (es + [e, f])[..|es| + 1] == es + [e];
  }

  function Jammed(l: Lines, p: Pty, k: nat, agent: Agent): Lines
    requires k < |l.ops|
  {
    var m := Started(Submitted(Opened(Forgot(l, p), p), p, agent), |l.ops|, true, true);
    if l.ops[k].phase == Waiting then Started(m, k, true, true) else Entered(m, k, true)
  }

  lemma {:induction false} JamGivesJammed(s: State, p: Pty, k: nat, agent: Agent)
    requires k < |s.lines.ops| && agent !in s.guard && LiveOf(WithoutPty(s.floor, p), agent) == None
    ensures Run(Gone(s, p), Jam(s, p, k, agent)).lines == Jammed(s.lines, p, k, agent)
  {
    BackWithAJob(s, p, agent);
    TwoMore(Gone(s, p), [Spawn(p, agent), Job(agent)], Begin(|s.lines.ops|, true, true),
            if s.lines.ops[k].phase == Waiting then Begin(k, true, true) else End(k, true));
  }

  lemma {:induction false} ForgettingJams(s: State, p: Pty, k: nat, agent: Agent)
    requires Inv(s) && k < |s.lines.ops| && s.lines.ops[k].pty == p && !Settled(s.lines.ops[k].phase) && EarlierSettled(s.lines, k)
    requires agent !in s.guard && LiveOf(WithoutPty(s.floor, p), agent) == None
    ensures !Paired(LogOf(Run(Gone(s, p), Jam(s, p, k, agent)).lines, p))
  {
    JamGivesJammed(s, p, k, agent);
    JammedLines(s.lines, p, k, agent);
  }

  /** With the chain gone the new operation need not wait for the pending one. */
  lemma {:induction false} JammedLines(l: Lines, p: Pty, k: nat, agent: Agent)
    requires LinesOk(l) && k < |l.ops| && l.ops[k].pty == p && !Settled(l.ops[k].phase) && EarlierSettled(l, k)
    ensures !Paired(LogOf(Jammed(l, p, k, agent), p))
  {
    var n := |l.ops|;
    var m := Started(Submitted(Opened(Forgot(l, p), p), p, agent), n, true, true);
    assert LogOf(m, p) == [Payload(n, true)] && m.ops[k] == l.ops[k];
    if l.ops[k].phase == Waiting {
      FirstCanStart(l, k);
      assert CanStart(m, k);
      var log := LogOf(Jammed(l, p, k, agent), p);
      assert log[0] == Payload(n, true) && log[1] == Payload(k, true);
    } else {
      var log := LogOf(Jammed(l, p, k, agent), p);
      assert log[0] == Payload(n, true) && log[1] == Enter(k, true);
    }
  }

  lemma {:induction false} FirstCanStart(l: Lines, k: nat)
    requires ChainsOk(l) && k < |l.ops| && l.ops[k].phase == Waiting && EarlierSettled(l, k)
    ensures CanStart(l, k)
  {
    assert LinkOk(l, k);
  }

  /**
   The hypothesis, exactly: after any run that kept to it, a terminal may be forgotten without harm if and
   only if nothing is pending on it. Otherwise some continuation that keeps to it, in which a terminal of the
   same name starts for an agent, breaks a pair there.
   */
  lemma {:induction false} ForgettingIsSafeExactlyWhenQuiet(es: seq<Event>, p: Pty, agent: Agent)
    requires OrderlyRun(es) && agent !in Run(START, es).guard && LiveOf(WithoutPty(Run(START, es).floor, p), agent) == None
    ensures var s := Run(START, es);
      Quiet(s.lines, p) <==> forall fs :: OrderlyFrom(Gone(s, p), fs) ==> Paired(LogOf(Run(Gone(s, p), fs).lines, p))
  {
    RunKeeps(es);
    var s := Run(START, es);
    if Quiet(s.lines, p) {
      GoneKeeps(s, p);
      forall fs | OrderlyFrom(Gone(s, p), fs) ensures Paired(LogOf(Run(Gone(s, p), fs).lines, p)) {
        RunFromKeeps(Gone(s, p), fs);
        assert LogOk(Run(Gone(s, p), fs).lines, p, LogOf(Run(Gone(s, p), fs).lines, p));
      }
    } else {
      var n :| 0 <= n < |s.lines.ops| && s.lines.ops[n].pty == p && !Settled(s.lines.ops[n].phase);
      var k := FirstPending(s.lines, p, n);
      JamIsOrderly(s, Gone(s, p), p, k, agent);
      ForgettingJams(s, p, k, agent);
    }
  }

  // ---------------------------------------------------------------- the failover's own teardown

  /** What jams a terminal a failover killed with this operation pending: its own "continue". */
  function SwitchJam(s: State, p: Pty, k: nat, a: Agent): seq<Event>
    requires k < |s.lines.ops|
  {
    [Spawn(p, a), RespawnEnds(|s.tasks|, true)] + Clash(s.lines, k)
  }

  /** The agent comes back under the same name, and its "continue" is submitted. */
  lemma {:induction false} BackWithContinue(s: State, p: Pty, a: Agent)
    requires a !in s.guard && LiveOf(s.floor, a) == Some(p) && LiveOf(WithoutPty(s.floor, p), a) == None
    ensures Run(Switched(s, a, true), [Spawn(p, a), RespawnEnds(|s.tasks|, true)]).lines
      == Submitted(Opened(Forgot(s.lines, p), p), p, a)
  {
    var g := Switched(s, a, true);
    LiveAfterExit(s.floor, p, a);
    LiveAtLast(g.floor, p, a);
    NotRunning(s.floor, p);
    TwoMore(g, [], Spawn(p, a), RespawnEnds(|s.tasks|, true));
    assert [] + [Spawn(p, a)] == [Spawn(p, a)];
    assert [] + [Spawn(p, a), RespawnEnds(|s.tasks|, true)] == [Spawn(p, a), RespawnEnds(|s.tasks|, true)];
    assert g.tasks[|s.tasks|] == Failover(a, Respawning);
  }

  lemma {:induction false} NotRunning(floor: seq<Live>, p: Pty)
    ensures !Runs(WithoutPty(floor, p), p)
  {
    LiveAfterExit(floor, p, "");
  }

  lemma {:induction false} SwitchJamGivesJammed(s: State, p: Pty, k: nat, a: Agent)
    requires k < |s.lines.ops| && a !in s.guard && LiveOf(s.floor, a) == Some(p) && LiveOf(WithoutPty(s.floor, p), a) == None
    ensures Run(Switched(s, a, true), SwitchJam(s, p, k, a)).lines == Jammed(s.lines, p, k, a)
  {
    BackWithContinue(s, p, a);
    TwoMore(Switched(s, a, true), [Spawn(p, a), RespawnEnds(|s.tasks|, true)], Clash(s.lines, k)[0], Clash(s.lines, k)[1]);
    assert Clash(s.lines, k) == [Clash(s.lines, k)[0], Clash(s.lines, k)[1]];
  }

  lemma {:induction false} SwitchJamIsOrderly(s: State, p: Pty, k: nat, a: Agent)
    requires k < |s.lines.ops|
    ensures OrderlyFrom(Switched(s, a, true), SwitchJam(s, p, k, a))
  {
  }

  /**
   The same of a failover's own teardown, for an agent with one terminal: after any run that kept to the
   hypothesis it is safe if and only if nothing is pending on that terminal. Otherwise the agent's own "continue",
   typed into the terminal it comes back at, breaks a pair.
   */
  lemma {:induction false} FailoverIsSafeExactlyWhenQuiet(es: seq<Event>, p: Pty, a: Agent)
    requires OrderlyRun(es) && a !in Run(START, es).guard
    requires LiveOf(Run(START, es).floor, a) == Some(p) && LiveOf(WithoutPty(Run(START, es).floor, p), a) == None
    ensures var s := Run(START, es); var g := Switched(s, a, true);
      Quiet(s.lines, p) <==> forall fs :: OrderlyFrom(g, fs) ==> Paired(LogOf(Run(g, fs).lines, p))
  {
    RunKeeps(es);
    var s := Run(START, es);
    var g := Switched(s, a, true);
    if Quiet(s.lines, p) {
      SwitchKeeps(s, a, true);
      forall fs | OrderlyFrom(g, fs) ensures Paired(LogOf(Run(g, fs).lines, p)) {
        RunFromKeeps(g, fs);
        assert LogOk(Run(g, fs).lines, p, LogOf(Run(g, fs).lines, p));
      }
    } else {
      var n :| 0 <= n < |s.lines.ops| && s.lines.ops[n].pty == p && !Settled(s.lines.ops[n].phase);
      var k := FirstPending(s.lines, p, n);
      SwitchJamIsOrderly(s, p, k, a);
      SwitchJamGivesJammed(s, p, k, a);
      JammedLines(s.lines, p, k, a);
    }
  }

  /**
   And it does happen: a job is waiting for its terminal when a failover kills it. Once the successor is ready
   the job's payload and the "continue" are typed one after the other, and the job's Enter sends both.
   */
  lemma {:induction false} FailoverCanJam(p: Pty, a: Agent)
    ensures LogOf(Run(START, [Spawn(p, a), Job(a), Switch(a, true), Spawn(p, a), RespawnEnds(0, true)]
                             + [Begin(0, true, true), Begin(1, true, true)] + [End(0, true), End(1, true)]).lines, p)
      == [Payload(0, true), Payload(1, true), Enter(0, true), Enter(1, true)]
  {
    var e5 := [Spawn(p, a), Job(a), Switch(a, true), Spawn(p, a), RespawnEnds(0, true)];
    TwoWaiting(p, a);
    TwoMore(START, e5, Begin(0, true, true), Begin(1, true, true));
    TwoMore(START, e5 + [Begin(0, true, true), Begin(1, true, true)], End(0, true), End(1, true));
    BothGoOn(Run(START, e5).lines, p, a);
  }

  lemma {:induction false} JobWaits(p: Pty, a: Agent)
    ensures var s := Run(START, [Spawn(p, a), Job(a)]);
      s.lines.ops == [Op(p, a, None, Waiting)] && s.floor == [Live(p, a)] && s.guard == {} && s.tasks == []
  {
    TwoMore(START, [], Spawn(p, a), Job(a));
    assert [] + [Spawn(p, a)] == [Spawn(p, a)] && [] + [Spawn(p, a), Job(a)] == [Spawn(p, a), Job(a)];
  }

  lemma {:induction false} TwoWaiting(p: Pty, a: Agent)
    ensures var l := Run(START, [Spawn(p, a), Job(a), Switch(a, true), Spawn(p, a), RespawnEnds(0, true)]).lines;
      l.ops == [Op(p, a, None, Waiting), Op(p, a, None, Waiting)] && LogOf(l, p) == []
  {
    var e2, back := [Spawn(p, a), Job(a)], [Spawn(p, a), RespawnEnds(0, true)];
    var s := Run(START, e2);
    JobWaits(p, a);
    assert s.floor[1..] == [] && WithoutPty(s.floor, p) == [];
    BackWithContinue(s, p, a);
    OneMore(START, e2, Switch(a, true));
    RunInTwo(START, e2 + [Switch(a, true)], back);
    assert e2 + [Switch(a, true)] + back == [Spawn(p, a), Job(a), Switch(a, true), Spawn(p, a), RespawnEnds(0, true)];
  }

  lemma {:induction false} RunInTwo(s: State, es: seq<Event>, fs: seq<Event>)
    ensures Run(s, es + fs) == Run(Run(s, es), fs)
  {
    if fs == [] {
      assert es + fs == es;
    } else {
      RunInTwo(s, es, fs[..|fs| - 1]);
      assert (es + fs)[..|es + fs| - 1] == es + fs[..|fs| - 1];
    }
  }

  lemma {:induction false} BothGoOn(l: Lines, p: Pty, a: Agent)
    requires l.ops == [Op(p, a, None, Waiting), Op(p, a, None, Waiting)] && LogOf(l, p) == []
    ensures LogOf(Entered(Entered(Started(Started(l, 0, true, true), 1, true, true), 0, true), 1, true), p)
      == [Payload(0, true), Payload(1, true), Enter(0, true), Enter(1, true)]
  {
    var l1 := Started(l, 0, true, true);
    assert LogOf(l1, p) == [Payload(0, true)];
    var l2 := Started(l1, 1, true, true);
    assert LogOf(l2, p) == [Payload(0, true), Payload(1, true)];
    var l3 := Entered(l2, 0, true);
    assert LogOf(l3, p) == [Payload(0, true), Payload(1, true), Enter(0, true)];
  }
}
