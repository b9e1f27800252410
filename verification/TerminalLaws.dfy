/** Which terminal each step types into and what it leaves there, told in the fields. */
module TerminalLaws {
  import opened Options
  import opened TerminalWrites

  /** The agent's first terminal on the floor. */
  predicate FoundAt(floor: seq<Live>, agent: Agent, i: nat) {
    i < |floor| && floor[i].agent == agent && forall j :: 0 <= j < i ==> floor[j].agent != agent
  }

  predicate Homeless(floor: seq<Live>, agent: Agent) {
    forall i :: 0 <= i < |floor| ==> floor[i].agent != agent
  }

  lemma {:induction false} FoundThere(floor: seq<Live>, agent: Agent, i: nat)
    requires FoundAt(floor, agent, i)
    ensures LiveOf(floor, agent) == Some(floor[i].pty)
  {
    if i > 0 { FoundThere(floor[1..], agent, i - 1); }
  }

  lemma {:induction false} NotFound(floor: seq<Live>, agent: Agent)
    requires Homeless(floor, agent)
    ensures LiveOf(floor, agent) == None
  {
    if floor != [] { NotFound(floor[1..], agent); }
  }

  /** The steps that move a failover touch no other, and no `submit` there was. */
  predicate OnlyTask(s: State, s': State, i: nat) {
    && i < |s.tasks| == |s'.tasks| && s'.tasks[i].agent == s.tasks[i].agent
    && (forall j :: 0 <= j < |s.tasks| && j != i ==> s'.tasks[j] == s.tasks[j])
    && s.lines.ops <= s'.lines.ops && s'.floor == s.floor
  }

  predicate SameLog(l: Lines, l': Lines, p: Pty) {
    LogOf(l', p) == LogOf(l, p)
  }

  /** A new `submit` for the agent at this terminal, behind the newest in the chain, of which it becomes the end. */
  predicate Joins(l: Lines, l': Lines, p: Pty, agent: Agent) {
    && l'.ops == l.ops + [Op(p, agent, if p in l.chains then Some(l.chains[p]) else None, Waiting)]
    && l'.chains == l.chains[p := |l.ops|] && l'.log == l.log
  }

  /** A job goes to the agent's first terminal, unless a failover of it is under way or it has none. */
  lemma {:induction false} JobInFields(s: State, agent: Agent, i: nat)
    ensures FoundAt(s.floor, agent, i) && agent !in s.guard ==> Joins(s.lines, Step(s, Job(agent)).lines, s.floor[i].pty, agent)
    ensures Homeless(s.floor, agent) || agent in s.guard ==> Step(s, Job(agent)) == s
    ensures var s' := Step(s, Job(agent)); s'.floor == s.floor && s'.guard == s.guard && s'.tasks == s.tasks
  {
    if FoundAt(s.floor, agent, i) { FoundThere(s.floor, agent, i); }
    if Homeless(s.floor, agent) { NotFound(s.floor, agent); }
  }

  /** Nothing but this `submit` changes, and its phase alone. */
  predicate OnlyPhase(l: Lines, l': Lines, k: nat, phase: Phase)
    requires k < |l.ops|
  {
    && |l'.ops| == |l.ops| && l'.ops[k] == Op(l.ops[k].pty, l.ops[k].agent, l.ops[k].previous, phase)
    && (forall j :: 0 <= j < |l.ops| && j != k ==> l'.ops[j] == l.ops[j]) && l'.chains == l.chains
  }

  predicate Due(l: Lines, k: nat) {
    && k < |l.ops| && l.ops[k].phase == Waiting
    && match l.ops[k].previous
       case None => true
       case Some(j) => j < |l.ops| && (l.ops[j].phase == Resolved || l.ops[j].phase == Rejected)
  }

  /** A `submit` types its payload into its own terminal once the one before it is settled, unless the terminal is not ready. */
  lemma {:induction false} BeginInFields(s: State, k: nat, ready: bool, ok: bool, other: Pty)
    ensures !Due(s.lines, k) ==> Step(s, Begin(k, ready, ok)) == s
    ensures Due(s.lines, k) ==>
      var l, l' := s.lines, Step(s, Begin(k, ready, ok)).lines; var p := l.ops[k].pty;
      && (ready ==> LogOf(l', p) == LogOf(l, p) + [Payload(k, ok)] && OnlyPhase(l, l', k, if ok then Typed else Rejected))
      && (!ready ==> SameLog(l, l', p) && OnlyPhase(l, l', k, Rejected))
      && (other != p ==> SameLog(l, l', other))
  {
  }

  /** And its Enter into the same one, only after its payload. */
  lemma {:induction false} EndInFields(s: State, k: nat, ok: bool, other: Pty)
    ensures !(k < |s.lines.ops| && s.lines.ops[k].phase == Typed) ==> Step(s, End(k, ok)) == s
    ensures k < |s.lines.ops| && s.lines.ops[k].phase == Typed ==>
      var l, l' := s.lines, Step(s, End(k, ok)).lines; var p := l.ops[k].pty;
      && LogOf(l', p) == LogOf(l, p) + [Enter(k, ok)] && OnlyPhase(l, l', k, if ok then Resolved else Rejected)
      && (other != p ==> SameLog(l, l', other))
  {
  }

  lemma {:induction false} WithoutExactly(floor: seq<Live>, p: Pty, l: Live)
    ensures l in WithoutPty(floor, p) <==> l in floor && l.pty != p
  {
    if floor != [] { WithoutExactly(floor[1..], p, l); }
  }

  predicate Precedes(floor: seq<Live>, a: Live, b: Live) {
    exists i, j :: 0 <= i < j < |floor| && floor[i] == a && floor[j] == b
  }

  lemma {:induction false} WithoutKeepsOrder(floor: seq<Live>, p: Pty, i: nat, j: nat)
    requires i < j < |WithoutPty(floor, p)|
    ensures Precedes(floor, WithoutPty(floor, p)[i], WithoutPty(floor, p)[j])
  {
    var a, b := WithoutPty(floor, p)[i], WithoutPty(floor, p)[j];
    var rest := floor[1..];
    var k: nat := if floor[0].pty == p then 0 else 1;
    if i >= k {
      WithoutKeepsOrder(rest, p, i - k, j - k);
      var x, y :| 0 <= x < y < |rest| && rest[x] == a && rest[y] == b;
      assert floor[x + 1] == a && floor[y + 1] == b;
    } else {
      WithoutExactly(rest, p, b);
      var y :| 0 <= y < |rest| && rest[y] == b;
      assert floor[0] == a && floor[y + 1] == b;
    }
  }

  /** A terminal comes on the floor last, with nothing typed into it; one that goes takes its chain along, and nothing else goes. */
  lemma {:induction false} FloorInFields(s: State, p: Pty, agent: Agent, l: Live)
    ensures (forall i :: 0 <= i < |s.floor| ==> s.floor[i].pty != p) ==>
      var s' := Step(s, Spawn(p, agent));
      && s'.floor == s.floor + [Live(p, agent)] && LogOf(s'.lines, p) == [] && s'.lines.ops == s.lines.ops && s'.lines.chains == s.lines.chains
      && forall q :: q != p ==> SameLog(s.lines, s'.lines, q)
    ensures (exists i :: 0 <= i < |s.floor| && s.floor[i].pty == p) ==> Step(s, Spawn(p, agent)) == s
    ensures var s' := Step(s, Exit(p));
      && (l in s'.floor <==> l in s.floor && l.pty != p) && s'.lines.ops == s.lines.ops && s'.lines.log == s.lines.log
      && s'.lines.chains == s.lines.chains - {p} && s'.guard == s.guard && s'.tasks == s.tasks
    ensures forall i, j :: 0 <= i < j < |Step(s, Exit(p)).floor| ==> Precedes(s.floor, Step(s, Exit(p)).floor[i], Step(s, Exit(p)).floor[j])
  {
    WithoutExactly(s.floor, p, l);
    forall i, j | 0 <= i < j < |Step(s, Exit(p)).floor| ensures Precedes(s.floor, Step(s, Exit(p)).floor[i], Step(s, Exit(p)).floor[j]) {
      WithoutKeepsOrder(s.floor, p, i, j);
    }
  }

  /** A failover is over at once while another holds the guard, waits refused without a terminal or a way to rebuild it, and otherwise kills the agent's own. */
  lemma {:induction false} SwitchInFields(s: State, agent: Agent, recipe: bool, i: nat)
    ensures agent in s.guard ==> Step(s, Switch(agent, recipe)) == s.(tasks := s.tasks + [Failover(agent, Over)])
    ensures agent !in s.guard ==>
      var s' := Step(s, Switch(agent, recipe));
      && s'.guard == s.guard + {agent}
      && (Homeless(s.floor, agent) || !recipe ==> s'.tasks == s.tasks + [Failover(agent, Refused)] && s'.lines == s.lines && s'.floor == s.floor)
      && (FoundAt(s.floor, agent, i) && recipe ==>
            && s'.tasks == s.tasks + [Failover(agent, Respawning)] && s'.lines.ops == s.lines.ops && s'.lines.log == s.lines.log
            && s'.lines.chains == s.lines.chains - {s.floor[i].pty}
            && forall l :: l in s'.floor <==> l in s.floor && l.pty != s.floor[i].pty)
  {
    if Homeless(s.floor, agent) { NotFound(s.floor, agent); }
    if FoundAt(s.floor, agent, i) {
      FoundThere(s.floor, agent, i);
      forall l ensures l in WithoutPty(s.floor, s.floor[i].pty) <==> l in s.floor && l.pty != s.floor[i].pty { WithoutExactly(s.floor, s.floor[i].pty, l); }
    }
  }

  predicate EndsHere(s: State, s': State, i: nat) {
    OnlyTask(s, s', i) && s'.tasks[i].stage == Over && s'.guard == s.guard - {s.tasks[i].agent}
  }

  /** When the respawn came back, "continue" goes to the terminal the agent has by then. */
  lemma {:induction false} RespawnInFields(s: State, i: nat, ok: bool, at: nat)
    requires i < |s.tasks|
    ensures var s' := Step(s, RespawnEnds(i, ok)); var agent := s.tasks[i].agent;
      && (s.tasks[i].stage == Refused ==> EndsHere(s, s', i) && s'.lines == s.lines)
      && (s.tasks[i].stage == Respawning && (!ok || Homeless(s.floor, agent)) ==> EndsHere(s, s', i) && s'.lines == s.lines)
      && (s.tasks[i].stage == Respawning && ok && FoundAt(s.floor, agent, at) ==>
            && OnlyTask(s, s', i) && s'.guard == s.guard && s'.tasks[i].stage == Continuing(|s.lines.ops|)
            && Joins(s.lines, s'.lines, s.floor[at].pty, agent))
      && (s.tasks[i].stage != Refused && s.tasks[i].stage != Respawning ==> s' == s)
  {
    if Homeless(s.floor, s.tasks[i].agent) { NotFound(s.floor, s.tasks[i].agent); }
    if FoundAt(s.floor, s.tasks[i].agent, at) { FoundThere(s.floor, s.tasks[i].agent, at); }
  }

  /** A rejected "continue" ends the failover; a resolved one is followed by presses, none so far. */
  lemma {:induction false} ContinueInFields(s: State, i: nat)
    requires i < |s.tasks| && s.tasks[i].stage.Continuing? && s.tasks[i].stage.op < |s.lines.ops|
    ensures var s', phase := Step(s, ContinueEnds(i)), s.lines.ops[s.tasks[i].stage.op].phase;
      && s'.lines == s.lines
      && (phase == Rejected ==> EndsHere(s, s', i))
      && (phase == Resolved ==> OnlyTask(s, s', i) && s'.tasks[i].stage == Pressing(s.tasks[i].stage.op, 0) && s'.guard == s.guard)
      && (phase != Rejected && phase != Resolved ==> s' == s)
  {
  }

  /** Enter is pressed at the agent's terminal while it sleeps; a failed press, an awake agent or the fourth press is the last. */
  lemma {:induction false} PressInFields(s: State, i: nat, awake: bool, ok: bool, at: nat, other: Pty)
    requires i < |s.tasks| && s.tasks[i].stage.Pressing?
    ensures var s', agent, n := Step(s, Press(i, awake, ok)), s.tasks[i].agent, s.tasks[i].stage.presses;
      && OnlyTask(s, s', i) && s'.lines.ops == s.lines.ops && s'.lines.chains == s.lines.chains
      && (awake || Homeless(s.floor, agent) ==> EndsHere(s, s', i) && s'.lines == s.lines)
      && (!awake && FoundAt(s.floor, agent, at) ==>
            && LogOf(s'.lines, s.floor[at].pty) == LogOf(s.lines, s.floor[at].pty) + [DirectEnter(ok)]
            && (other != s.floor[at].pty ==> SameLog(s.lines, s'.lines, other))
            && (!ok || n >= 3 ==> EndsHere(s, s', i))
            && (ok && n < 3 ==> s'.tasks[i].stage == Pressing(s.tasks[i].stage.op, n + 1) && s'.guard == s.guard))
  {
    if Homeless(s.floor, s.tasks[i].agent) { NotFound(s.floor, s.tasks[i].agent); }
    if FoundAt(s.floor, s.tasks[i].agent, at) { FoundThere(s.floor, s.tasks[i].agent, at); }
  }
}
