/** Each step of the shutdown, in the registry's fields and the counts that are shown. */
module ClosingLaws {
  import opened Options
  import opened ClosingTime
  import opened ClosingRuns

  /** What is shown: the phase, how many acknowledged and how many are waited for. */
  function Shown(phase: Phase, acked: set<Id>, workers: set<Id>): Event {
    Event(phase, |acked|, |workers|)
  }

  /** Pressing while it runs only waits on; without a running manager it refuses; otherwise everybody waited for gets the brief. */
  lemma {:induction false} PressInFields(s: State, w: World)
    ensures var s', g := StartedBy(s, w), ManagerOf(w);
      if s.active then
        s' == s.(timeout := true, told := s.told + [Shown(Progress, s.acked, s.workers)])
      else if g !in w.registry.agents || g !in w.live then
        s' == s.(godId := g)
      else
        && s'.active && s'.godId == g && s'.acked == {} && (forall id: Id :: id in s'.workers <==> WaitedFor(w, id))
        && s'.teardown == s.teardown && s'.concluded == s.concluded
        && (if w.mailed then
              s'.mail == s.mail + [Brief(s'.workers)] && s'.timeout && s'.told == s.told + [Event(Started, 0, |s'.workers|)]
            else s'.mail == s.mail && s'.timeout == s.timeout && s'.told == s.told)
  {
  }

  /** This worker still owes an acknowledgement and could give one. */
  predicate Owes(s: State, w: World, id: Id) {
    id in s.workers && id !in s.acked && id in w.live && !(id in w.registry.agents && w.registry.agents[id].archived)
  }

  /** A worker's acknowledgement that reached the manager is counted once. */
  lemma {:induction false} AckInFields(s: State, m: Message, targets: seq<Id>, w: World)
    requires s.active && m.saysAck && m.from in s.workers && s.godId in targets
    ensures RoutedBy(s, m, targets, w) ==
      if m.from in s.acked then s
      else s.(acked := s.acked + {m.from}, told := s.told + [Shown(Progress, s.acked + {m.from}, s.workers)])
  {
  }

  /** The manager's conclusion: turned down with the names of those who owe, or taken, which arms the teardown. */
  lemma {:induction false} ConclusionInFields(s: State, m: Message, targets: seq<Id>, w: World)
    requires s.active && m.saysComplete && m.from == s.godId && !(m.saysAck && m.from in s.workers && s.godId in targets)
    ensures var s' := RoutedBy(s, m, targets, w);
      if exists id :: id in s.workers && Owes(s, w, id) then
        if w.mailed then
          && s'.told == s.told + [Shown(Progress, s.acked, s.workers)] && s' == s.(told := s'.told, mail := s'.mail)
          && |s'.mail| == |s.mail| + 1 && s'.mail[..|s.mail|] == s.mail && s'.mail[|s.mail|].Rejection?
          && forall id: Id :: id in s'.mail[|s.mail|].missing <==> Owes(s, w, id)
        else s' == s
      else s' == s.(timeout := false, teardown := true, told := s.told + [Shown(Complete, s.acked, s.workers)])
  {
    if id :| id in s.workers && Owes(s, w, id) { assert id in Missing(s, w); }
    if Missing(s, w) != {} {
      var id :| id in Missing(s, w);
      assert Owes(s, w, id);
    }
  }

  /** Nothing else that is routed is heard, and nothing at all while no shutdown runs. */
  lemma {:induction false} OthersAreNotHeard(s: State, m: Message, targets: seq<Id>, w: World)
    requires !s.active || !((m.saysAck && m.from in s.workers && s.godId in targets) || (m.saysComplete && m.from == s.godId))
    ensures RoutedBy(s, m, targets, w) == s
  {
  }

  /** A cancel disarms both timers and calls the shutdown off; the timers do what they were armed for. */
  lemma {:induction false} EndingsInFields(s: State, mailed: bool)
    ensures CancelledBy(s, mailed) ==
      if !s.active then s
      else s.(active := false, timeout := false, teardown := false, told := s.told + [Shown(Cancelled, s.acked, s.workers)],
              mail := if mailed then s.mail + [CallOff] else s.mail)
    ensures TimeoutFired(s) ==
      if !s.timeout then s
      else s.(timeout := false, told := if s.active then s.told + [Shown(TimedOut, s.acked, s.workers)] else s.told)
    ensures TeardownFired(s) == if !s.teardown then s else s.(teardown := false, active := false, concluded := s.concluded + 1)
  {
  }

  /** A press that finds no manager registered and live. */
  predicate InVain(op: Op) {
    op.Press? && var r := op.world.registry; var god := (match r.godId case Some(g) => g case None => "god");
      god !in r.agents || god !in op.world.live
  }

  /** Until a press finds a manager nothing is armed, said or concluded, whatever else happens. */
  lemma {:induction false} QuietUntilStarted(ops: seq<Op>)
    requires forall i :: 0 <= i < |ops| ==> ops[i].Press? ==> InVain(ops[i])
    ensures var s := After(ops); !s.active && !s.timeout && !s.teardown && s.told == [] && s.mail == [] && s.concluded == 0
    ensures ops == [] ==> After(ops).godId == "god"
  {
    if ops != [] { QuietUntilStarted(ops[..|ops| - 1]); }
  }
}
