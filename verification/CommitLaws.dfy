/** What a commit says and how a flush goes on, told in their parts. */
module CommitLaws {
  import opened Options
  import opened Text
  import opened Committer

  predicate AllDifferent(u: seq<string>) {
    forall i, j :: 0 <= i < j < |u| ==> u[i] != u[j]
  }

  /** Message `a` is sent before `b` first is. */
  predicate SentBefore(messages: seq<string>, a: string, b: string) {
    exists p :: 0 <= p < |messages| && messages[p] == a && b !in messages[..p]
  }

  lemma {:induction false} DistinctDiffer(messages: seq<string>)
    ensures AllDifferent(Distinct(messages))
  {
    if messages != [] { DistinctDiffer(messages[..|messages| - 1]); }
  }

  lemma {:induction false} DistinctInOrder(messages: seq<string>, i: nat, j: nat)
    requires i < j < |Distinct(messages)|
    ensures SentBefore(messages, Distinct(messages)[i], Distinct(messages)[j])
  {
    var n := |messages| - 1;
    var front := messages[..n];
    assert messages == front + [messages[n]];
    var a, b := Distinct(messages)[i], Distinct(messages)[j];
    if j < |Distinct(front)| {
      DistinctInOrder(front, i, j);
      var p :| 0 <= p < |front| && front[p] == a && b !in front[..p];
      assert messages[p] == a && messages[..p] == front[..p];
    } else {
      assert a in Distinct(front) && a in front;
      var p :| 0 <= p < |front| && front[p] == a;
      assert messages[p] == a && b !in front && forall x :: x in messages[..p] ==> x in front;
    }
  }

  /** What a batch says of its messages, each once and in the order they first came. */
  lemma {:induction false} FoldingInWords(messages: seq<string>) returns (u: seq<string>)
    ensures AllDifferent(u) && forall m :: m in u <==> m in messages
    ensures forall i, j :: 0 <= i < j < |u| ==> SentBefore(messages, u[i], u[j])
    ensures Folded(messages).messages == messages
    ensures |u| == 0 ==> Folded(messages).subject == "hive: update" && Folded(messages).body == ""
    ensures |u| == 1 ==> Folded(messages).subject == u[0] && Folded(messages).body == ""
    ensures |u| >= 2 ==> Folded(messages).subject == u[0] + " (+" + Decimal(|u| - 1) + " more)" && Folded(messages).body == Joined(u, "\n")
  {
    u := Distinct(messages);
    DistinctDiffer(messages);
    forall i, j | 0 <= i < j < |u| ensures SentBefore(messages, u[i], u[j]) { DistinctInOrder(messages, i, j); }
  }

  /** Nothing about the other flushes changes. */
  predicate OnlyFlush(s: State, s': State, i: nat) {
    i < |s.flushes| == |s'.flushes| && forall j :: 0 <= j < |s.flushes| && j != i ==> s'.flushes[j] == s.flushes[j]
  }

  predicate Ends(s: State, s': State, i: nat) {
    OnlyFlush(s, s', i) && s'.flushes[i] == Done && !s'.committing
  }

  predicate GoesOn(s: State, s': State, i: nat, to: Phase) {
    OnlyFlush(s, s', i) && s'.flushes[i] == to && s'.committing == s.committing
  }

  /** A message waits behind the others with the timer running; a hive that is no repository hears none. */
  lemma {:induction false} MessageInFields(s: State, text: string, ready: bool)
    ensures var s' := Step(s, Message(text, ready));
      && s'.pending == (if ready then s.pending + [text] else s.pending) && s'.sent == (if ready then s.sent + [text] else s.sent)
      && s'.timer == (ready || s.timer)
      && s'.committing == s.committing && s'.flushes == s.flushes && s'.batches == s.batches && s'.calls == s.calls
  {
  }

  /** The timer starts a flush, or waits for the one that is running. */
  lemma {:induction false} TimerInFields(s: State)
    requires s.timer
    ensures var s' := Step(s, TimerDue);
      && s'.committing && s'.timer == s.committing
      && s'.flushes == s.flushes + [if s.committing then Done else Untracking]
      && s'.pending == s.pending && s'.batches == s.batches && s'.calls == s.calls && s'.sent == s.sent
  {
  }

  /** A flush takes all messages there are by then, and stages. */
  lemma {:induction false} UntrackInFields(s: State, i: nat)
    requires i < |s.flushes| && s.flushes[i] == Untracking
    ensures var s' := Step(s, UntrackEnds(i));
      && GoesOn(s, s', i, Adding(0)) && s'.pending == [] && s'.calls == s.calls + [Add]
      && |s'.batches| == |s.batches| + 1 && s'.batches[..|s.batches|] == s.batches && s'.batches[|s.batches|].messages == s.pending
  {
  }

  /** Whatever became of the staging the scrub is next; only a scrub that lets it through is followed by a commit, of the newest batch. */
  lemma {:induction false} ScrubInFields(s: State, i: nat, ok: bool, clear: bool)
    requires i < |s.flushes|
    ensures s.flushes[i].Adding? ==>
      GoesOn(s, Step(s, AddEnds(i, ok)), i, Scrubbing(s.flushes[i].attempt, ok)) && Step(s, AddEnds(i, ok)).calls == s.calls
    ensures s.flushes[i].Scrubbing? && s.batches != [] && clear ==>
      var s', b := Step(s, ScrubEnds(i, true)), s.batches[|s.batches| - 1];
      && GoesOn(s, s', i, Committing(s.flushes[i].attempt, s.flushes[i].added))
      && s'.calls == s.calls + [Scrub(true), Commit(b.subject, b.body)]
    ensures s.flushes[i].Scrubbing? && s.batches != [] && !clear ==>
      Ends(s, Step(s, ScrubEnds(i, false)), i) && Step(s, ScrubEnds(i, false)).calls == s.calls + [Scrub(false)]
  {
  }

  /** A commit is tried again exactly after a lock, or a refusal when staging had failed; and that is so once. */
  lemma {:induction false} CommitInFields(s: State, i: nat, outcome: Outcome)
    requires i < |s.flushes|
    ensures s.flushes[i].Committing? && (outcome == Locked || (outcome == Refused && !s.flushes[i].added)) ==>
      GoesOn(s, Step(s, CommitEnds(i, outcome)), i, Waiting(s.flushes[i].attempt))
    ensures s.flushes[i].Committing? && !(outcome == Locked || (outcome == Refused && !s.flushes[i].added)) ==>
      Ends(s, Step(s, CommitEnds(i, outcome)), i)
    ensures s.flushes[i] == Waiting(0) ==>
      GoesOn(s, Step(s, BackoffEnds(i)), i, Adding(1)) && Step(s, BackoffEnds(i)).calls == s.calls + [Add]
    ensures s.flushes[i].Waiting? && s.flushes[i].attempt >= 1 ==>
      Ends(s, Step(s, BackoffEnds(i)), i) && Step(s, BackoffEnds(i)).calls == s.calls
  {
  }

  /** The commit calls that a run has made so far name the batches: each is of some batch drained before it. */
  predicate OfABatch(s: State, c: Call) {
    exists k :: 0 <= k < |s.batches| && c == Commit(s.batches[k].subject, s.batches[k].body) && s.batches[k] == Folded(s.batches[k].messages)
  }

  predicate Named(s: State) {
    && (forall k :: 0 <= k < |s.batches| ==> s.batches[k] == Folded(s.batches[k].messages))
    && forall i :: 0 <= i < |s.calls| && s.calls[i].Commit? ==> OfABatch(s, s.calls[i])
  }

  lemma {:induction false} BatchStays(s: State, s': State, c: Call)
    requires OfABatch(s, c) && s.batches <= s'.batches
    ensures OfABatch(s', c)
  {
    var k :| 0 <= k < |s.batches| && c == Commit(s.batches[k].subject, s.batches[k].body) && s.batches[k] == Folded(s.batches[k].messages);
    assert s'.batches[k] == s.batches[k];
  }

  lemma {:induction false} NamedGrows(s: State, s': State, more: seq<Call>)
    requires Named(s) && s.batches <= s'.batches && s'.calls == s.calls + more
    requires forall k :: |s.batches| <= k < |s'.batches| ==> s'.batches[k] == Folded(s'.batches[k].messages)
    requires forall c :: c in more && c.Commit? ==> OfABatch(s', c)
    ensures Named(s')
  {
    forall i | 0 <= i < |s'.calls| && s'.calls[i].Commit? ensures OfABatch(s', s'.calls[i]) {
      if i < |s.calls| { BatchStays(s, s', s.calls[i]); } else { assert s'.calls[i] in more; }
    }
  }

  lemma {:induction false} StepNames(s: State, op: Op)
    requires Named(s)
    ensures Named(Step(s, op))
  {
    var s' := Step(s, op);
    if op.ScrubEnds? && op.flush < |s.flushes| && s.flushes[op.flush].Scrubbing? && s.batches != [] {
      var b := s.batches[|s.batches| - 1];
      if op.clear {
        assert OfABatch(s', Commit(b.subject, b.body));
        NamedGrows(s, s', [Scrub(true), Commit(b.subject, b.body)]);
      } else {
        NamedGrows(s, s', [Scrub(false)]);
      }
    } else if s'.calls != s.calls {
      NamedGrows(s, s', [Add]);
    } else {
      assert s.calls + [] == s.calls;
      NamedGrows(s, s', []);
    }
  }

  /** Over any run, whatever is committed says what some drained batch of messages folds to. */
  lemma {:induction false} CommitsNameBatches(ops: seq<Op>)
    ensures Named(After(ops))
  {
    if ops != [] {
      CommitsNameBatches(ops[..|ops| - 1]);
      StepNames(After(ops[..|ops| - 1]), ops[|ops| - 1]);
    }
  }
}
