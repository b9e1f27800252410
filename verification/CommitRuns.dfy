/** What every run of the committer keeps, however its waits interleave with messages and timers. */
module CommitRuns {
  import opened Options
  import opened Text
  import opened Committer

  // ---------------------------------------------------------------- invariants

  predicate Running(s: State, i: nat) {
    i < |s.flushes| && s.flushes[i] != Done
  }

  /** At most one flush is past the guard, and the guard says whether one is. */
  ghost predicate Guarded(s: State) {
    && (forall i: nat, j: nat :: Running(s, i) && Running(s, j) ==> i == j)
    && (s.committing <==> exists i: nat :: Running(s, i))
  }

  predicate Waits(s: State) {
    s.timer || exists i :: 0 <= i < |s.flushes| && s.flushes[i] == Untracking
  }

  function AllOf(batches: seq<Batch>): seq<string> {
    if batches == [] then [] else AllOf(batches[..|batches| - 1]) + batches[|batches| - 1].messages
  }

  /** The batches taken so far and what still waits are everything ever sent, in order. */
  predicate Conserved(s: State) {
    && AllOf(s.batches) + s.pending == s.sent
    && (s.pending != [] ==> Waits(s))
  }

  predicate SafeCommit(calls: seq<Call>, i: nat)
    requires i < |calls|
  {
    calls[i].Commit? ==> i >= 2 && calls[i - 1] == Scrub(true) && calls[i - 2] == Add
  }

  predicate AllSafe(calls: seq<Call>) {
    forall i :: 0 <= i < |calls| ==> SafeCommit(calls, i)
  }

  /** A flush that has staged and not yet committed is the last to have called git. */
  predicate Staged(s: State, i: nat)
    requires i < |s.flushes|
  {
    && (s.flushes[i].Adding? || s.flushes[i].Scrubbing? ==> s.calls != [] && s.calls[|s.calls| - 1] == Add)
    && (s.flushes[i].Adding? || s.flushes[i].Scrubbing? || s.flushes[i].Committing? || s.flushes[i].Waiting? ==>
          s.batches != [] && s.flushes[i].attempt < GIT_ATTEMPTS)
  }

  predicate InOrder(s: State) {
    AllSafe(s.calls) && forall i :: 0 <= i < |s.flushes| ==> Staged(s, i)
  }

  /** How many of the first `n` calls stage. */
  function Adds(calls: seq<Call>, n: nat): nat
    requires n <= |calls|
  {
    if n == 0 then 0 else Adds(calls, n - 1) + if calls[n - 1].Add? then 1 else 0
  }

  function AllAdds(calls: seq<Call>): nat {
    Adds(calls, |calls|)
  }

  /** How many times a flush may still stage. */
  function Left(p: Phase): nat {
    match p
    case Untracking | Done => 0
    case Adding(k) => if k < GIT_ATTEMPTS then GIT_ATTEMPTS - 1 - k else 0
    case Scrubbing(k, _) => if k < GIT_ATTEMPTS then GIT_ATTEMPTS - 1 - k else 0
    case Committing(k, _) => if k < GIT_ATTEMPTS then GIT_ATTEMPTS - 1 - k else 0
    case Waiting(k) => if k < GIT_ATTEMPTS then GIT_ATTEMPTS - 1 - k else 0
  }

  // ---------------------------------------------------------------- one step

  lemma {:induction false} MovedGuarded(s: State, i: nat, p: Phase)
    requires Guarded(s) && i < |s.flushes| && s.flushes[i] != Done
    ensures Guarded(Moved(s, i, p))
  {
    var s' := Moved(s, i, p);
    assert Running(s, i);
    forall j | Running(s', j) ensures j == i { assert j != i ==> Running(s, j); }
    if p != Done { assert Running(s', i); }
  }

  lemma {:induction false} TimerGuarded(s: State)
    requires Guarded(s)
    ensures Guarded(TimerFired(s))
  {
    var s', n := TimerFired(s), |s.flushes|;
    forall j: nat | j < n ensures Running(s', j) == Running(s, j) {}
    if s.timer && s.committing {
      var i :| Running(s, i);
      assert Running(s', i) && !Running(s', n);
    } else if s.timer {
      assert Running(s', n);
      assert forall j: nat :: j < n ==> !Running(s, j);
    } else {
      assert s' == s;
    }
  }

  lemma {:induction false} SameFlushesGuarded(s: State, s': State)
    requires Guarded(s) && s'.flushes == s.flushes && s'.committing == s.committing
    ensures Guarded(s')
  {
    forall j ensures Running(s', j) == Running(s, j) {}
    if s.committing { var i :| Running(s, i); assert Running(s', i); }
  }

  lemma {:induction false} StepGuarded(s: State, op: Op)
    requires Guarded(s)
    ensures Guarded(Step(s, op))
  {
    match op
    case Message(text, ready) => SameFlushesGuarded(s, Step(s, op));
    case TimerDue => TimerGuarded(s);
    case UntrackEnds(i) =>
      var s1 := s.(batches := s.batches + [Folded(s.pending)], pending := [], calls := s.calls + [Add]);
      SameFlushesGuarded(s, s1);
      if i < |s.flushes| && s.flushes[i] == Untracking { MovedGuarded(s1, i, Adding(0)); }
    case AddEnds(i, ok) =>
      if i < |s.flushes| && s.flushes[i].Adding? { MovedGuarded(s, i, Scrubbing(s.flushes[i].attempt, ok)); }
    case ScrubEnds(i, clear) => ScrubGuarded(s, i, clear);
    case CommitEnds(i, o) =>
      if i < |s.flushes| && s.flushes[i].Committing? {
        MovedGuarded(s, i, Done);
        MovedGuarded(s, i, Waiting(s.flushes[i].attempt));
      }
    case BackoffEnds(i) =>
      if i < |s.flushes| && s.flushes[i].Waiting? {
        var s1 := s.(calls := s.calls + [Add]);
        SameFlushesGuarded(s, s1);
        MovedGuarded(s1, i, Adding(s.flushes[i].attempt + 1));
        MovedGuarded(s, i, Done);
      }
  }

  lemma {:induction false} ScrubGuarded(s: State, i: nat, clear: bool)
    requires Guarded(s)
    ensures Guarded(Step(s, ScrubEnds(i, clear)))
  {
    if i < |s.flushes| && s.flushes[i].Scrubbing? && s.batches != [] {
      var b := s.batches[|s.batches| - 1];
      var s1 := s.(calls := s.calls + [Scrub(false)]);
      var s2 := s.(calls := s.calls + [Scrub(true), Commit(b.subject, b.body)]);
      SameFlushesGuarded(s, s1);
      SameFlushesGuarded(s, s2);
      MovedGuarded(s1, i, Done);
      MovedGuarded(s2, i, Committing(s.flushes[i].attempt, s.flushes[i].added));
    }
  }

  lemma {:induction false} MovedWaits(s: State, i: nat, p: Phase)
    requires i < |s.flushes| && s.flushes[i] != Untracking && Waits(s)
    ensures Waits(Moved(s, i, p))
  {
    if !s.timer {
      var j :| 0 <= j < |s.flushes| && s.flushes[j] == Untracking;
      assert Moved(s, i, p).flushes[j] == Untracking;
    }
  }

  lemma {:induction false} MovedConserved(s: State, i: nat, p: Phase)
    requires Conserved(s) && i < |s.flushes| && s.flushes[i] != Untracking
    ensures Conserved(Moved(s, i, p))
  {
    if s.pending != [] { MovedWaits(s, i, p); }
  }

  lemma {:induction false} CallsConserved(s: State, calls: seq<Call>)
    requires Conserved(s)
    ensures Conserved(s.(calls := calls))
  {
    var s' := s.(calls := calls);
    assert s'.flushes == s.flushes;
    if s.pending != [] && !s.timer {
      var j :| 0 <= j < |s.flushes| && s.flushes[j] == Untracking;
      assert s'.flushes[j] == Untracking;
    }
  }

  lemma {:induction false} TimerConserved(s: State)
    requires Conserved(s)
    ensures Conserved(TimerFired(s))
  {
    var s' := TimerFired(s);
    if s.timer && !s.committing {
      assert s'.flushes[|s.flushes|] == Untracking;
    }
  }

  lemma {:induction false} StepConserved(s: State, op: Op)
    requires Conserved(s)
    ensures Conserved(Step(s, op))
  {
    match op
    case Message(text, ready) =>
      assert AllOf(s.batches) + (s.pending + [text]) == s.sent + [text];
    case TimerDue => TimerConserved(s);
    case UntrackEnds(i) =>
      var b := s.batches + [Folded(s.pending)];
      assert b[..|s.batches|] == s.batches;
      assert AllOf(b) + [] == AllOf(s.batches) + s.pending;
    case AddEnds(i, ok) =>
      if i < |s.flushes| && s.flushes[i].Adding? { MovedConserved(s, i, Scrubbing(s.flushes[i].attempt, ok)); }
    case ScrubEnds(i, clear) => ScrubConserved(s, i, clear);
    case CommitEnds(i, o) =>
      if i < |s.flushes| && s.flushes[i].Committing? {
        MovedConserved(s, i, Done);
        MovedConserved(s, i, Waiting(s.flushes[i].attempt));
      }
    case BackoffEnds(i) =>
      if i < |s.flushes| && s.flushes[i].Waiting? {
        CallsConserved(s, s.calls + [Add]);
        MovedConserved(s.(calls := s.calls + [Add]), i, Adding(s.flushes[i].attempt + 1));
        MovedConserved(s, i, Done);
      }
  }

  lemma {:induction false} ScrubConserved(s: State, i: nat, clear: bool)
    requires Conserved(s)
    ensures Conserved(Step(s, ScrubEnds(i, clear)))
  {
    if i < |s.flushes| && s.flushes[i].Scrubbing? && s.batches != [] {
      var b := s.batches[|s.batches| - 1];
      var c1, c2 := s.calls + [Scrub(false)], s.calls + [Scrub(true), Commit(b.subject, b.body)];
      CallsConserved(s, c1);
      CallsConserved(s, c2);
      MovedConserved(s.(calls := c1), i, Done);
      MovedConserved(s.(calls := c2), i, Committing(s.flushes[i].attempt, s.flushes[i].added));
    }
  }

  /** The one running flush may move on and call git; nobody else relied on the last call. */
  lemma {:induction false} MovedInOrder(s: State, i: nat, p: Phase, calls: seq<Call>)
    requires Guarded(s) && InOrder(s) && Running(s, i) && AllSafe(calls)
    requires Staged(Moved(s.(calls := calls), i, p), i)
    ensures InOrder(Moved(s.(calls := calls), i, p))
  {
    var s' := Moved(s.(calls := calls), i, p);
    forall j | 0 <= j < |s'.flushes| ensures Staged(s', j) {
      if j != i { assert !Running(s, j); }
    }
  }

  lemma {:induction false} AddIsSafe(calls: seq<Call>, c: Call)
    requires AllSafe(calls) && !c.Commit?
    ensures AllSafe(calls + [c])
  {
    forall k | 0 <= k < |calls + [c]| ensures SafeCommit(calls + [c], k) {
      if k < |calls| { assert SafeCommit(calls, k); }
    }
  }

  lemma {:induction false} CommitIsSafe(calls: seq<Call>, c: Call)
    requires AllSafe(calls) && calls != [] && calls[|calls| - 1] == Add
    ensures AllSafe(calls + [Scrub(true), c])
  {
    var longer := calls + [Scrub(true), c];
    forall k | 0 <= k < |longer| ensures SafeCommit(longer, k) {
      if k < |calls| { assert SafeCommit(calls, k); }
    }
  }

  lemma {:induction false} BatchesInOrder(s: State, b: Batch)
    requires InOrder(s)
    ensures InOrder(s.(batches := s.batches + [b], pending := []))
  {
    var s' := s.(batches := s.batches + [b], pending := []);
    forall j | 0 <= j < |s'.flushes| ensures Staged(s', j) { assert Staged(s, j); }
  }

  lemma {:induction false} StepInOrder(s: State, op: Op)
    requires Guarded(s) && InOrder(s)
    ensures InOrder(Step(s, op))
  {
    match op
    case Message(text, ready) =>
      forall j | 0 <= j < |s.flushes| ensures Staged(Step(s, op), j) { assert Staged(s, j); }
    case TimerDue =>
      forall j | 0 <= j < |Step(s, op).flushes| ensures Staged(Step(s, op), j) {
        if j < |s.flushes| { assert Staged(s, j); }
      }
    case UntrackEnds(i) =>
      if i < |s.flushes| && s.flushes[i] == Untracking {
        assert Running(s, i);
        AddIsSafe(s.calls, Add);
        BatchesInOrder(s, Folded(s.pending));
        var s1 := s.(batches := s.batches + [Folded(s.pending)], pending := []);
        SameFlushesGuarded(s, s1);
        assert Running(s1, i);
        MovedInOrder(s1, i, Adding(0), s.calls + [Add]);
      }
    case AddEnds(i, ok) =>
      if i < |s.flushes| && s.flushes[i].Adding? {
        assert Running(s, i) && Staged(s, i);
        MovedInOrder(s, i, Scrubbing(s.flushes[i].attempt, ok), s.calls);
        assert s.(calls := s.calls) == s;
      }
    case ScrubEnds(i, clear) => ScrubInOrder(s, i, clear);
    case CommitEnds(i, o) =>
      if i < |s.flushes| && s.flushes[i].Committing? {
        assert Running(s, i) && Staged(s, i);
        MovedInOrder(s, i, Done, s.calls);
        MovedInOrder(s, i, Waiting(s.flushes[i].attempt), s.calls);
        assert s.(calls := s.calls) == s;
      }
    case BackoffEnds(i) =>
      if i < |s.flushes| && s.flushes[i].Waiting? {
        assert Running(s, i) && Staged(s, i);
        AddIsSafe(s.calls, Add);
        MovedInOrder(s, i, Done, s.calls);
        assert s.(calls := s.calls) == s;
        if s.flushes[i].attempt + 1 < GIT_ATTEMPTS { MovedInOrder(s, i, Adding(s.flushes[i].attempt + 1), s.calls + [Add]); }
      }
  }

  lemma {:induction false} ScrubInOrder(s: State, i: nat, clear: bool)
    requires Guarded(s) && InOrder(s)
    ensures InOrder(Step(s, ScrubEnds(i, clear)))
  {
    if i < |s.flushes| && s.flushes[i].Scrubbing? {
      assert Running(s, i) && Staged(s, i);
      var b := s.batches[|s.batches| - 1];
      AddIsSafe(s.calls, Scrub(false));
      CommitIsSafe(s.calls, Commit(b.subject, b.body));
      MovedInOrder(s, i, Done, s.calls + [Scrub(false)]);
      MovedInOrder(s, i, Committing(s.flushes[i].attempt, s.flushes[i].added), s.calls + [Scrub(true), Commit(b.subject, b.body)]);
    }
  }

  // ---------------------------------------------------------------- every run

  lemma {:induction false} RunKeeps(ops: seq<Op>)
    ensures Guarded(After(ops)) && Conserved(After(ops)) && InOrder(After(ops))
  {
    if ops != [] {
      var before, op := ops[..|ops| - 1], ops[|ops| - 1];
      RunKeeps(before);
      StepGuarded(After(before), op);
      StepConserved(After(before), op);
      StepInOrder(After(before), op);
    }
  }

  /** At most one flush is past the guard, at every moment of every run. */
  lemma {:induction false} OneFlushAtATime(ops: seq<Op>, i: nat, j: nat)
    requires Running(After(ops), i) && Running(After(ops), j)
    ensures i == j && After(ops).committing
  {
    RunKeeps(ops);
  }

  /** Every commit, on a retry too, comes directly after a scrub that let it through, itself directly after staging. */
  lemma {:induction false} CommitsAreScrubbed(ops: seq<Op>, i: nat)
    requires i < |After(ops).calls| && After(ops).calls[i].Commit?
    ensures i >= 2 && After(ops).calls[i - 1] == Scrub(true) && After(ops).calls[i - 2] == Add
  {
    RunKeeps(ops);
    assert SafeCommit(After(ops).calls, i);
  }

  /**
   Every message is in exactly one place: the batches drained so far and the messages waiting are all
   that was sent, in order, and while any wait the timer is armed or a flush is about to drain them.
   */
  lemma {:induction false} MessagesAreConserved(ops: seq<Op>)
    ensures var s := After(ops); AllOf(s.batches) + s.pending == s.sent && (s.pending != [] ==> Waits(s))
  {
    RunKeeps(ops);
  }

  // ---------------------------------------------------------------- how often a flush stages

  /** How often the first `n` flushes may still stage. */
  function Spare(flushes: seq<Phase>, n: nat): nat
    requires n <= |flushes|
  {
    if n == 0 then 0 else Spare(flushes, n - 1) + Left(flushes[n - 1])
  }

  lemma {:induction false} SpareOfPrefix(flushes: seq<Phase>, longer: seq<Phase>, n: nat)
    requires n <= |flushes| && n <= |longer| && forall k :: 0 <= k < n ==> flushes[k] == longer[k]
    ensures Spare(flushes, n) == Spare(longer, n)
  {
    if n > 0 { SpareOfPrefix(flushes, longer, n - 1); }
  }

  lemma {:induction false} SpareOfUpdate(flushes: seq<Phase>, i: nat, p: Phase, n: nat)
    requires i < n <= |flushes|
    ensures Spare(flushes[i := p], n) + Left(flushes[i]) == Spare(flushes, n) + Left(p)
  {
    if i < n - 1 { SpareOfUpdate(flushes, i, p, n - 1); } else { SpareOfPrefix(flushes, flushes[i := p], n - 1); }
  }

  lemma {:induction false} AddsOfPrefix(calls: seq<Call>, more: seq<Call>, n: nat)
    requires n <= |calls|
    ensures Adds(calls + more, n) == Adds(calls, n)
  {
    if n > 0 { AddsOfPrefix(calls, more, n - 1); }
  }

  lemma {:induction false} AddsOfMore(calls: seq<Call>, c: Call)
    ensures AllAdds(calls + [c]) == AllAdds(calls) + if c.Add? then 1 else 0
  {
    AddsOfPrefix(calls, [c], |calls|);
  }

  /** Every batch was good for two stagings, some of them still to come. */
  predicate Bounded(s: State) {
    Within(s.calls, s.flushes, GIT_ATTEMPTS * |s.batches|)
  }

  predicate Within(calls: seq<Call>, flushes: seq<Phase>, allowed: nat) {
    AllAdds(calls) + Spare(flushes, |flushes|) <= allowed
  }

  /** One flush moves on, having staged no more often than it still might. */
  lemma {:induction false} WithinMoved(calls: seq<Call>, flushes: seq<Phase>, allowed: nat, i: nat, p: Phase, more: seq<Call>)
    requires Within(calls, flushes, allowed) && i < |flushes| && AllAdds(more) + Left(p) <= AllAdds(calls) + Left(flushes[i])
    ensures Within(more, flushes[i := p], allowed)
  {
    SpareOfUpdate(flushes, i, p, |flushes|);
  }

  lemma {:induction false} MovedBounded(s: State, i: nat, p: Phase, calls: seq<Call>)
    requires Bounded(s) && i < |s.flushes| && AllAdds(calls) + Left(p) <= AllAdds(s.calls) + Left(s.flushes[i])
    ensures Bounded(Moved(s.(calls := calls), i, p))
  {
    WithinMoved(s.calls, s.flushes, GIT_ATTEMPTS * |s.batches|, i, p, calls);
  }

  lemma {:induction false} StepBounded(s: State, op: Op)
    requires Bounded(s) && InOrder(s)
    ensures Bounded(Step(s, op))
  {
    match op
    case Message(text, ready) =>
    case TimerDue => TimerBounded(s);
    case UntrackEnds(i) =>
      if i < |s.flushes| && s.flushes[i] == Untracking { UntrackBounded(s, i); }
    case AddEnds(i, ok) =>
      if i < |s.flushes| && s.flushes[i].Adding? {
        assert s.(calls := s.calls) == s;
        MovedBounded(s, i, Scrubbing(s.flushes[i].attempt, ok), s.calls);
      }
    case ScrubEnds(i, clear) => ScrubBounded(s, i, clear);
    case CommitEnds(i, o) =>
      if i < |s.flushes| && s.flushes[i].Committing? {
        assert s.(calls := s.calls) == s;
        MovedBounded(s, i, Done, s.calls);
        MovedBounded(s, i, Waiting(s.flushes[i].attempt), s.calls);
      }
    case BackoffEnds(i) =>
      if i < |s.flushes| && s.flushes[i].Waiting? { BackoffBounded(s, i); }
  }

  /** One more staging is one that was still left. */
  lemma {:induction false} StagingIsLeft(s: State, i: nat, k: nat)
    requires i < |s.flushes| && s.flushes[i] == Waiting(k) && k + 1 < GIT_ATTEMPTS
    ensures AllAdds(s.calls + [Add]) + Left(Adding(k + 1)) <= AllAdds(s.calls) + Left(s.flushes[i])
  {
    AddsOfMore(s.calls, Add);
  }

  lemma {:induction false} EndBounded(s: State, i: nat)
    requires Bounded(s) && i < |s.flushes|
    ensures Bounded(Moved(s, i, Done))
  {
    assert s.(calls := s.calls) == s;
    MovedBounded(s, i, Done, s.calls);
  }

  lemma {:induction false} BackoffBounded(s: State, i: nat)
    requires Bounded(s) && i < |s.flushes| && s.flushes[i].Waiting?
    ensures Bounded(Waited(s, i))
  {
    var k := s.flushes[i].attempt;
    if k + 1 < GIT_ATTEMPTS {
      StagingIsLeft(s, i, k);
      MovedBounded(s, i, Adding(k + 1), s.calls + [Add]);
    } else {
      EndBounded(s, i);
    }
  }

  lemma {:induction false} TimerBounded(s: State)
    requires Bounded(s)
    ensures Bounded(TimerFired(s))
  {
    SpareOfPrefix(s.flushes, s.flushes + [Done], |s.flushes|);
    SpareOfPrefix(s.flushes, s.flushes + [Untracking], |s.flushes|);
  }

  lemma {:induction false} UntrackBounded(s: State, i: nat)
    requires Bounded(s) && i < |s.flushes| && s.flushes[i] == Untracking
    ensures Bounded(Untracked(s, i))
  {
    SpareOfUpdate(s.flushes, i, Adding(0), |s.flushes|);
    AddsOfMore(s.calls, Add);
  }

  lemma {:induction false} ScrubAddsNothing(calls: seq<Call>, c: Call)
    requires c.Commit?
    ensures AllAdds(calls + [Scrub(false)]) == AllAdds(calls) && AllAdds(calls + [Scrub(true), c]) == AllAdds(calls)
  {
    AddsOfMore(calls, Scrub(false));
    AddsOfMore(calls, Scrub(true));
    AddsOfMore(calls + [Scrub(true)], c);
    assert calls + [Scrub(true), c] == calls + [Scrub(true)] + [c];
  }

  lemma {:induction false} ScrubBounded(s: State, i: nat, clear: bool)
    requires Bounded(s)
    ensures Bounded(Step(s, ScrubEnds(i, clear)))
  {
    if i < |s.flushes| && s.flushes[i].Scrubbing? && s.batches != [] {
      var b := s.batches[|s.batches| - 1];
      ScrubAddsNothing(s.calls, Commit(b.subject, b.body));
      if clear {
        MovedBounded(s, i, Committing(s.flushes[i].attempt, s.flushes[i].added), s.calls + [Scrub(true), Commit(b.subject, b.body)]);
      } else {
        MovedBounded(s, i, Done, s.calls + [Scrub(false)]);
      }
    }
  }

  /** Git is asked to stage at most twice per drained batch. */
  lemma {:induction false} RetriesAreBounded(ops: seq<Op>)
    ensures Bounded(After(ops)) && AllAdds(After(ops).calls) <= GIT_ATTEMPTS * |After(ops).batches|
  {
    if ops != [] {
      var before := ops[..|ops| - 1];
      RetriesAreBounded(before);
      RunKeeps(before);
      StepBounded(After(before), ops[|ops| - 1]);
    }
  }

  // ---------------------------------------------------------------- what a folded commit says

  ghost predicate LineOf(m: string, text: string) {
    exists before, after :: IsLineBetween(m, text, before, after)
  }

  predicate IsLineBetween(m: string, text: string, before: string, after: string) {
    && text == before + m + after
    && (before == "" || before[|before| - 1] == '\n') && (after == "" || after[0] == '\n')
  }

  lemma {:induction false} EachIsALine(messages: seq<string>, k: nat)
    requires k < |messages|
    ensures LineOf(messages[k], Unlines(messages))
  {
    var text := Unlines(messages);
    if |messages| == 1 {
      assert IsLineBetween(messages[0], text, "", "");
    } else if k == 0 {
      assert IsLineBetween(messages[0], text, "", "\n" + Unlines(messages[1..]));
    } else {
      EachIsALine(messages[1..], k - 1);
      var before, after :| IsLineBetween(messages[k], Unlines(messages[1..]), before, after);
      assert IsLineBetween(messages[k], text, messages[0] + "\n" + before, after);
    }
  }

  /** No message is lost in the folding: a lone one is the subject, and each of several is a line of the body. */
  lemma {:induction false} FoldingNamesEveryMessage(messages: seq<string>, m: string)
    requires m in messages
    ensures Folded(messages).subject == m || LineOf(m, Folded(messages).body)
  {
    var u := Distinct(messages);
    var k :| 0 <= k < |u| && u[k] == m;
    if |u| > 1 { EachIsALine(u, k); }
  }
}
