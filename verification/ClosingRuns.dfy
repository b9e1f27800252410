/** What every run of the shutdown protocol keeps: when the floor closes, and why it was allowed to. */
module ClosingRuns {
  import opened Options
  import opened ClosingTime

  // ---------------------------------------------------------------- the moments of a run

  predicate StartsAt(ops: seq<Op>, i: nat)
    requires i < |ops|
  {
    ops[i].Press? && !After(ops[..i]).active
    && ManagerOf(ops[i].world) in ops[i].world.registry.agents && ManagerOf(ops[i].world) in ops[i].world.live
  }

  predicate CancelsAt(ops: seq<Op>, i: nat)
    requires i < |ops|
  {
    ops[i].Cancel? && After(ops[..i]).active
  }

  predicate ClosesAt(ops: seq<Op>, i: nat)
    requires i < |ops|
  {
    ops[i].TeardownDue? && After(ops[..i]).teardown
  }

  predicate AcksAt(ops: seq<Op>, i: nat, worker: Id, god: Id)
    requires i < |ops|
  {
    ops[i].Route? && ops[i].message.saysAck && ops[i].message.from == worker && god in ops[i].targets
  }

  /** The manager concludes, and everyone on the roster has acknowledged since the start, or is not live, or is archived. */
  predicate EarnedAt(ops: seq<Op>, start: nat, i: nat)
    requires start < i < |ops|
  {
    var god, roster := GodOfStart(ops, start), RosterOfStart(ops, start);
    && ConcludesAt(ops, i, god)
    && forall w :: w in roster ==> AckedBetween(ops, start, i, w, god) || Excused(ops[i], w)
  }

  predicate ConcludesAt(ops: seq<Op>, i: nat, god: Id)
    requires i < |ops|
  {
    ops[i].Route? && ops[i].message.saysComplete && ops[i].message.from == god
  }

  /** Nothing can be waited for from this agent any more: it does not run, or it is archived. */
  predicate Excused(op: Op, id: Id) {
    op.Route? && (id !in op.world.live || (id in op.world.registry.agents && op.world.registry.agents[id].archived))
  }

  predicate AckedBetween(ops: seq<Op>, start: nat, end: nat, worker: Id, god: Id)
    requires end <= |ops|
  {
    exists i :: start < i < end && AcksAt(ops, i, worker, god)
  }

  function GodOfStart(ops: seq<Op>, start: nat): Id
    requires start < |ops|
  {
    if ops[start].Press? then ManagerOf(ops[start].world) else ""
  }

  /** The manager's id, `god` itself where the registry names none. */
  function ManagerOf(w: World): Id {
    match w.registry.godId
    case Some(g) => g
    case None => "god"
  }

  /** An agent the shutdown waits for: it runs, the registry knows it, and it is not the manager by id or by flag. */
  predicate WaitedFor(w: World, id: Id) {
    id in w.live && id in w.registry.agents && id != ManagerOf(w) && !w.registry.agents[id].isGod
  }

  function RosterOfStart(ops: seq<Op>, start: nat): set<Id>
    requires start < |ops|
  {
    if ops[start].Press? then set id | id in ops[start].world.live && WaitedFor(ops[start].world, id) else {}
  }

  /** No start, cancel or closing strictly between two moments. */
  predicate Undisturbed(ops: seq<Op>, from: nat, to: nat)
    requires to <= |ops|
  {
    forall i :: from < i < to ==> !StartsAt(ops, i) && !CancelsAt(ops, i) && !ClosesAt(ops, i)
  }

  // ---------------------------------------------------------------- an open protocol and where it began

  /** A protocol under way began at `start`, and what it knows is what happened since. */
  predicate OpenSince(ops: seq<Op>, start: nat) {
    var s := After(ops);
    && start < |ops| && StartsAt(ops, start) && Undisturbed(ops, start, |ops|)
    && s.active && s.godId == GodOfStart(ops, start) && s.workers == RosterOfStart(ops, start)
    && forall w :: w in s.acked ==> AckedBetween(ops, start, |ops|, w, s.godId)
  }

  predicate EarnedSince(ops: seq<Op>, start: nat) {
    exists i :: start < i < |ops| && EarnedAt(ops, start, i)
  }

  ghost predicate Told(ops: seq<Op>) {
    var s := After(ops);
    && (s.teardown ==> s.active)
    && (s.active ==> exists start :: OpenSince(ops, start) && (s.teardown ==> EarnedSince(ops, start)))
  }

  lemma {:induction false} MomentsStay(ops: seq<Op>, op: Op, i: nat)
    requires i < |ops|
    ensures StartsAt(ops + [op], i) == StartsAt(ops, i) && CancelsAt(ops + [op], i) == CancelsAt(ops, i)
    ensures ClosesAt(ops + [op], i) == ClosesAt(ops, i) && (ops + [op])[i] == ops[i]
  {
    assert (ops + [op])[..i] == ops[..i];
  }

  lemma {:induction false} AcksStay(ops: seq<Op>, op: Op, start: nat, end: nat, w: Id, god: Id)
    requires end <= |ops| && AckedBetween(ops, start, end, w, god)
    ensures AckedBetween(ops + [op], start, end, w, god)
  {
    var i :| start < i < end && AcksAt(ops, i, w, god);
    assert AcksAt(ops + [op], i, w, god);
  }

  lemma {:induction false} AcksWiden(ops: seq<Op>, start: nat, end: nat, wider: nat, w: Id, god: Id)
    requires end <= wider <= |ops| && AckedBetween(ops, start, end, w, god)
    ensures AckedBetween(ops, start, wider, w, god)
  {
    var i :| start < i < end && AcksAt(ops, i, w, god);
    assert start < i < wider;
  }

  lemma {:induction false} EarnedStays(ops: seq<Op>, op: Op, start: nat)
    requires EarnedSince(ops, start)
    ensures EarnedSince(ops + [op], start)
  {
    var longer := ops + [op];
    var i :| start < i < |ops| && EarnedAt(ops, start, i);
    var god := GodOfStart(ops, start);
    forall w | w in RosterOfStart(ops, start) && AckedBetween(ops, start, i, w, god)
      ensures AckedBetween(longer, start, i, w, god)
    {
      AcksStay(ops, op, start, i, w, god);
    }
    assert longer[i] == ops[i] && longer[start] == ops[start];
    assert EarnedAt(longer, start, i);
  }

  predicate Ends(s: State, op: Op) {
    op.Cancel? || (op.TeardownDue? && s.teardown)
  }

  lemma {:induction false} RosterStays(s: State, op: Op)
    requires s.active && !Ends(s, op)
    ensures var s' := Step(s, op); s'.active && s'.godId == s.godId && s'.workers == s.workers
    ensures forall w :: w in Step(s, op).acked && w !in s.acked ==>
      op.Route? && op.message.saysAck && op.message.from == w && s.godId in op.targets
  {
  }

  lemma {:induction false} UndisturbedGrows(ops: seq<Op>, op: Op, start: nat)
    requires Undisturbed(ops, start, |ops|) && After(ops).active && !Ends(After(ops), op)
    ensures Undisturbed(ops + [op], start, |ops| + 1)
  {
    var longer := ops + [op];
    assert longer[..|ops|] == ops;
    forall i | start < i < |longer| ensures !StartsAt(longer, i) && !CancelsAt(longer, i) && !ClosesAt(longer, i) {
      if i < |ops| { MomentsStay(ops, op, i); }
    }
  }

  /** A step that neither cancels nor closes keeps the protocol open since the same start. */
  lemma {:induction false} StaysOpen(ops: seq<Op>, op: Op, start: nat)
    requires OpenSince(ops, start) && !Ends(After(ops), op)
    ensures OpenSince(ops + [op], start)
  {
    var longer := ops + [op];
    var s, s' := After(ops), After(longer);
    assert longer[..|ops|] == ops;
    assert s' == Step(s, op);
    RosterStays(s, op);
    UndisturbedGrows(ops, op, start);
    MomentsStay(ops, op, start);
    forall w | w in s'.acked ensures AckedBetween(longer, start, |longer|, w, s'.godId) {
      if w in s.acked {
        AcksStay(ops, op, start, |ops|, w, s.godId);
        AcksWiden(longer, start, |ops|, |longer|, w, s.godId);
      } else {
        assert AcksAt(longer, |ops|, w, s.godId);
      }
    }
  }

  /** A conclusion that arms the teardown has been earned. */
  lemma {:induction false} ArmingIsEarned(ops: seq<Op>, op: Op, start: nat)
    requires OpenSince(ops, start) && op.Route?
    requires IsConclusion(After(ops), op.message, op.targets) && Missing(After(ops), op.world) == {}
    ensures EarnedSince(ops + [op], start)
  {
    var longer := ops + [op];
    var s := After(ops);
    assert longer[..|ops|] == ops && longer[start] == ops[start];
    forall w | w in s.workers
      ensures || AckedBetween(longer, start, |ops|, w, s.godId)
              || w !in op.world.live
              || (w in op.world.registry.agents && op.world.registry.agents[w].archived)
    {
      if w in s.acked {
        AcksStay(ops, op, start, |ops|, w, s.godId);
      } else {
        assert w !in Missing(s, op.world);
      }
    }
    assert EarnedAt(longer, start, |ops|);
  }

  lemma {:induction false} OpensAtStart(ops: seq<Op>, op: Op)
    requires op.Press? && !After(ops).active && CanStart(op.world)
    ensures OpenSince(ops + [op], |ops|)
  {
    assert (ops + [op])[..|ops|] == ops;
    assert StartsAt(ops + [op], |ops|);
  }

  lemma {:induction false} RunIsTold(ops: seq<Op>)
    ensures Told(ops)
  {
    if ops != [] {
      var before, op := ops[..|ops| - 1], ops[|ops| - 1];
      RunIsTold(before);
      assert ops == before + [op];
      var s, s' := After(before), After(ops);
      if !s.active {
        if s'.active { OpensAtStart(before, op); }
      } else if s'.active {
        var start :| OpenSince(before, start) && (s.teardown ==> EarnedSince(before, start));
        StaysOpen(before, op, start);
        if s.teardown {
          EarnedStays(before, op, start);
        } else if s'.teardown {
          ArmingIsEarned(before, op, start);
        }
      }
    }
  }

  // ---------------------------------------------------------------- the theorems

  /** What held up to a moment of a run held in the run. */
  lemma {:induction false} EarnedInTheRun(ops: seq<Op>, i: nat, start: nat, end: nat)
    requires i <= |ops| && OpenSince(ops[..i], start) && start < end < i && EarnedAt(ops[..i], start, end)
    ensures StartsAt(ops, start) && Undisturbed(ops, start, i) && EarnedAt(ops, start, end)
  {
    var before := ops[..i];
    forall k: nat | k < i ensures ops[..k] == before[..k] && ops[k] == before[k] {
      assert ops[..i][..k] == ops[..k];
    }
    forall k | start < k < i ensures !StartsAt(ops, k) && !CancelsAt(ops, k) && !ClosesAt(ops, k) {
      assert !StartsAt(before, k) && !CancelsAt(before, k) && !ClosesAt(before, k);
    }
    var god := GodOfStart(ops, start);
    forall w | AckedBetween(before, start, end, w, god) ensures AckedBetween(ops, start, end, w, god) {
      var k :| start < k < end && AcksAt(before, k, w, god);
      assert AcksAt(ops, k, w, god);
    }
  }

  /**
   The floor closes only for a reason: some start precedes it, with no later start, no cancel and no
   other closing in between, and since then the manager concluded at a moment when every agent that ran and was
   registered at that start, but for the manager, had acknowledged to the manager, was not live or was archived.
   */
  lemma {:induction false} ClosingIsEarned(ops: seq<Op>, i: nat)
    requires i < |ops| && ClosesAt(ops, i)
    ensures exists start: nat, end: nat ::
      (start < end < i && StartsAt(ops, start) && Undisturbed(ops, start, i) && ConcludesAt(ops, end, ManagerOf(ops[start].world))
       && forall id: Id :: id in ops[start].world.live && id in ops[start].world.registry.agents
            && id != ManagerOf(ops[start].world) && !ops[start].world.registry.agents[id].isGod
            ==> AckedBetween(ops, start, end, id, ManagerOf(ops[start].world)) || Excused(ops[end], id))
  {
    RunIsTold(ops[..i]);
    var start: nat :| OpenSince(ops[..i], start) && EarnedSince(ops[..i], start);
    var end: nat :| start < end < i && EarnedAt(ops[..i], start, end);
    EarnedInTheRun(ops, i, start, end);
    forall id: Id | WaitedFor(ops[start].world, id) ensures id in RosterOfStart(ops, start) {}
  }

  function Starts(ops: seq<Op>): nat {
    if ops == [] then 0
    else Starts(ops[..|ops| - 1]) + if StartsAt(ops, |ops| - 1) then 1 else 0
  }

  lemma {:induction false} StepBalance(s: State, op: Op)
    requires s.teardown ==> s.active
    ensures var s' := Step(s, op);
      s'.concluded + (if s'.active then 1 else 0)
        <= s.concluded + (if s.active then 1 else 0) + (if op.Press? && !s.active && CanStart(op.world) then 1 else 0)
  {
  }

  /** Closings never outnumber starts, and a protocol under way still has its start to spend. */
  lemma {:induction false} OneClosingPerStart(ops: seq<Op>)
    ensures var s := After(ops); s.concluded + (if s.active then 1 else 0) <= Starts(ops)
  {
    if ops != [] {
      var before := ops[..|ops| - 1];
      OneClosingPerStart(before);
      RunIsTold(before);
      StepBalance(After(before), ops[|ops| - 1]);
    }
  }

  /** Once earned, only a cancel stops the closing: pressing again, late acknowledgements and rejected conclusions do not. */
  lemma {:induction false} EarnedIsKept(ops: seq<Op>, more: seq<Op>)
    requires After(ops).teardown
    requires forall i :: 0 <= i < |more| ==> !more[i].Cancel? && !more[i].TeardownDue?
    ensures After(ops + more).teardown && After(ops + more).active
    ensures After(ops + more + [TeardownDue]).concluded == After(ops).concluded + 1 && !After(ops + more + [TeardownDue]).active
    ensures !After(ops + more + [Cancel(true)]).teardown && !After(ops + more + [Cancel(true)]).active
  {
    Kept(ops, more);
    OneOpMore(ops + more, TeardownDue);
    OneOpMore(ops + more, Cancel(true));
  }

  lemma {:induction false} OneOpMore(ops: seq<Op>, op: Op)
    ensures After(ops + [op]) == Step(After(ops), op)
  {
    assert (ops + [op])[..|ops|] == ops;
  }

  predicate StillEarned(s: State, concluded: nat) {
    s.teardown && s.active && s.concluded == concluded
  }

  lemma {:induction false} StepKeepsEarned(s: State, op: Op, concluded: nat)
    requires StillEarned(s, concluded) && !op.Cancel? && !op.TeardownDue?
    ensures StillEarned(Step(s, op), concluded)
  {
  }

  lemma {:induction false} Kept(ops: seq<Op>, more: seq<Op>)
    requires After(ops).teardown
    requires forall i :: 0 <= i < |more| ==> !more[i].Cancel? && !more[i].TeardownDue?
    ensures StillEarned(After(ops + more), After(ops).concluded)
  {
    if more == [] {
      assert ops + more == ops;
      RunIsTold(ops);
    } else {
      var n := |more| - 1;
      Kept(ops, more[..n]);
      assert ops + more == ops + more[..n] + [more[n]];
      OneOpMore(ops + more[..n], more[n]);
      StepKeepsEarned(After(ops + more[..n]), more[n], After(ops).concluded);
    }
  }

  /** While anyone who can still answer has not, the manager's conclusion only names them. */
  lemma {:induction false} PrematureConclusionOnlyNames(s: State, m: Message, targets: seq<Id>, w: World, late: Id)
    requires IsConclusion(s, m, targets)
    requires late in s.workers && late !in s.acked && late in w.live && !(late in w.registry.agents && w.registry.agents[late].archived)
    ensures var s' := RoutedBy(s, m, targets, w);
      s'.(told := s.told, mail := s.mail) == s
      && (w.mailed ==> exists missing :: s'.mail == s.mail + [Rejection(missing)] && late in missing && missing <= s.workers - s.acked)
  {
    assert late in Missing(s, w);
  }
}
