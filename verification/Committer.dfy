/**
 The single git committer: messages wait behind a debounce timer, a flush takes them all, and each of
 its attempts stages, scrubs and commits. A flush is a program counter that moves at each `await`.
 */
module Committer {
  import opened Options
  import opened Text

  const GIT_ATTEMPTS: nat := 2

  /** Where a flush is waiting, and which attempt it is on. */
  datatype Phase = Untracking | Adding(attempt: nat) | Scrubbing(attempt: nat, added: bool) | Committing(attempt: nat, added: bool) | Waiting(attempt: nat) | Done

  datatype Call = Add | Scrub(clear: bool) | Commit(subject: string, body: string)

  /** How `git commit` ended. */
  datatype Outcome = Committed | NothingToCommit | Locked | Refused

  datatype Batch = Batch(subject: string, body: string, messages: seq<string>)

  datatype State = State(
    pending: seq<string>, timer: bool, committing: bool, flushes: seq<Phase>,
    batches: seq<Batch>, calls: seq<Call>, sent: seq<string>)

  const START := State([], false, false, [], [], [], [])

  // ---------------------------------------------------------------- folding messages into one commit

  /** Each message once, where it first occurs. */
  function Distinct(messages: seq<string>): (r: seq<string>)
    ensures forall m :: m in r <==> m in messages
  {
    if messages == [] then []
    else
      var front, m := messages[..|messages| - 1], messages[|messages| - 1];
      assert messages == front + [m];
      if m in front then Distinct(front) else Distinct(front) + [m]
  }

  function Folded(messages: seq<string>): Batch {
    var u := Distinct(messages);
    if u == [] then Batch("hive: update", "", messages)
    else if |u| == 1 then Batch(u[0], "", messages)
    else Batch(u[0] + " (+" + Decimal(|u| - 1) + " more)", Unlines(u), messages)
  }

  // ---------------------------------------------------------------- steps

  function Queued(s: State, message: string, ready: bool): State {
    if !ready then s else s.(pending := s.pending + [message], timer := true, sent := s.sent + [message])
  }

  function TimerFired(s: State): State {
    if !s.timer then s
    else if s.committing then s.(flushes := s.flushes + [Done])
    else s.(timer := false, committing := true, flushes := s.flushes + [Untracking])
  }

  function Moved(s: State, i: nat, p: Phase): State
    requires i < |s.flushes|
  {
    s.(flushes := s.flushes[i := p], committing := if p == Done then false else s.committing)
  }

  function Untracked(s: State, i: nat): State
    requires i < |s.flushes|
  {
    if s.flushes[i] != Untracking then s
    else Moved(s.(batches := s.batches + [Folded(s.pending)], pending := [], calls := s.calls + [Add]), i, Adding(0))
  }

  function Added(s: State, i: nat, ok: bool): State
    requires i < |s.flushes|
  {
    if !s.flushes[i].Adding? then s else Moved(s, i, Scrubbing(s.flushes[i].attempt, ok))
  }

  function Scrubbed(s: State, i: nat, clear: bool): State
    requires i < |s.flushes|
  {
    if !s.flushes[i].Scrubbing? || s.batches == [] then s
    else if !clear then Moved(s.(calls := s.calls + [Scrub(false)]), i, Done)
    else
      var b := s.batches[|s.batches| - 1];
      Moved(s.(calls := s.calls + [Scrub(true), Commit(b.subject, b.body)]), i, Committing(s.flushes[i].attempt, s.flushes[i].added))
  }

  function Answered(s: State, i: nat, o: Outcome): State
    requires i < |s.flushes|
  {
    if !s.flushes[i].Committing? then s
    else if o.Committed? || o.NothingToCommit? then Moved(s, i, Done)
    else if !s.flushes[i].added || o.Locked? then Moved(s, i, Waiting(s.flushes[i].attempt))
    else Moved(s, i, Done)
  }

  function Waited(s: State, i: nat): State
    requires i < |s.flushes|
  {
    if !s.flushes[i].Waiting? then s
    else if s.flushes[i].attempt + 1 < GIT_ATTEMPTS then Moved(s.(calls := s.calls + [Add]), i, Adding(s.flushes[i].attempt + 1))
    else Moved(s, i, Done)
  }

  datatype Op =
    | Message(text: string, ready: bool)
    | TimerDue
    | UntrackEnds(flush: nat)
    | AddEnds(flush: nat, ok: bool)
    | ScrubEnds(flush: nat, clear: bool)
    | CommitEnds(flush: nat, outcome: Outcome)
    | BackoffEnds(flush: nat)

  function Step(s: State, op: Op): State {
    match op
    case Message(text, ready) => Queued(s, text, ready)
    case TimerDue => TimerFired(s)
    case UntrackEnds(i) => if i < |s.flushes| then Untracked(s, i) else s
    case AddEnds(i, ok) => if i < |s.flushes| then Added(s, i, ok) else s
    case ScrubEnds(i, clear) => if i < |s.flushes| then Scrubbed(s, i, clear) else s
    case CommitEnds(i, o) => if i < |s.flushes| then Answered(s, i, o) else s
    case BackoffEnds(i) => if i < |s.flushes| then Waited(s, i) else s
  }

  function After(ops: seq<Op>): State {
    if ops == [] then START else Step(After(ops[..|ops| - 1]), ops[|ops| - 1])
  }

  // ---------------------------------------------------------------- the object

  class GitCommitter {
    var pendingCommits: seq<string>
    var commitTimer: bool
    var committing: bool
    var flushes: seq<Phase>
    var batches: seq<Batch>
    var calls: seq<Call>
    var sent: seq<string>

    ghost function Model(): State
      reads this
    {
      State(pendingCommits, commitTimer, committing, flushes, batches, calls, sent)
    }

    constructor ()
      ensures Model() == START
    {
      pendingCommits, commitTimer, committing := [], false, false;
      flushes, batches, calls, sent := [], [], [], [];
    }

    /** `ready`: the hive has a root, and it is a repository. */
    method CommitLater(message: string, ready: bool)
      modifies this
      ensures Model() == Queued(old(Model()), message, ready)
    {
      if !ready { return; }
      pendingCommits := pendingCommits + [message];
      sent := sent + [message];
      ScheduleCommit();
    }

    method ScheduleCommit()
      modifies this`commitTimer
      ensures commitTimer
    {
      if commitTimer { return; }
      commitTimer := true;
    }

    method DrainCommitMessages() returns (b: Batch)
      modifies this`pendingCommits
      ensures pendingCommits == [] && b == Folded(old(pendingCommits))
    {
      var messages := pendingCommits;
      pendingCommits := [];
      var uniq: seq<string> := [];
      for i := 0 to |messages|
        invariant uniq == Distinct(messages[..i])
      {
        assert messages[..i + 1][..i] == messages[..i];
        if messages[i] !in uniq { uniq := uniq + [messages[i]]; }
      }
      assert messages[..|messages|] == messages;
      if |uniq| <= 1 {
        b := Batch(if uniq == [] then "hive: update" else uniq[0], "", messages);
      } else {
        b := Batch(uniq[0] + " (+" + Decimal(|uniq| - 1) + " more)", Unlines(uniq), messages);
      }
    }

    /** The timer fires, and the flush it starts runs to its first wait. */
    method FlushCommit()
      modifies this
      ensures Model() == TimerFired(old(Model()))
    {
      if !commitTimer { return; }
      commitTimer := false;
      if committing {
        ScheduleCommit();
        flushes := flushes + [Done];
        return;
      }
      committing := true;
      flushes := flushes + [Untracking];
    }

    method MoveTo(i: nat, p: Phase)
      requires i < |flushes|
      modifies this`flushes, this`committing
      ensures Model() == Moved(old(Model()), i, p)
    {
      flushes := flushes[i := p];
      if p == Done { committing := false; }
    }

    method AfterUntrack(i: nat)
      requires i < |flushes|
      modifies this
      ensures Model() == Untracked(old(Model()), i)
    {
      if flushes[i] != Untracking { return; }
      var b := DrainCommitMessages();
      batches := batches + [b];
      calls := calls + [Add];
      MoveTo(i, Adding(0));
    }

    method AfterAdd(i: nat, ok: bool)
      requires i < |flushes|
      modifies this
      ensures Model() == Added(old(Model()), i, ok)
    {
      if !flushes[i].Adding? { return; }
      MoveTo(i, Scrubbing(flushes[i].attempt, ok));
    }

    method AfterScrub(i: nat, clear: bool)
      requires i < |flushes|
      modifies this
      ensures Model() == Scrubbed(old(Model()), i, clear)
    {
      if !flushes[i].Scrubbing? || batches == [] { return; }
      if !clear {
        calls := calls + [Scrub(false)];
        MoveTo(i, Done);
        return;
      }
      var b := batches[|batches| - 1];
      calls := calls + [Scrub(true), Commit(b.subject, b.body)];
      MoveTo(i, Committing(flushes[i].attempt, flushes[i].added));
    }

    method AfterCommit(i: nat, o: Outcome)
      requires i < |flushes|
      modifies this
      ensures Model() == Answered(old(Model()), i, o)
    {
      if !flushes[i].Committing? { return; }
      if o.Committed? || o.NothingToCommit? { MoveTo(i, Done); return; }
      if !flushes[i].added || o.Locked? { MoveTo(i, Waiting(flushes[i].attempt)); return; }
      MoveTo(i, Done);
    }

    method AfterBackoff(i: nat)
      requires i < |flushes|
      modifies this
      ensures Model() == Waited(old(Model()), i)
    {
      if !flushes[i].Waiting? { return; }
      var attempt := flushes[i].attempt + 1;
      if attempt < GIT_ATTEMPTS {
        calls := calls + [Add];
        MoveTo(i, Adding(attempt));
      } else {
        MoveTo(i, Done);
      }
    }
  }
}
