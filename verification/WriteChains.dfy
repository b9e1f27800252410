/**
 The write chains: whatever interleaves, a terminal's payloads and Enters form unbroken pairs in call
 order, as long as no terminal is forgotten with a `submit` pending on it.
 */
module WriteChains {
  import opened Options
  import opened TerminalWrites

  predicate Quiet(s: Lines, p: Pty) {
    forall k :: 0 <= k < |s.ops| && s.ops[k].pty == p ==> Settled(s.ops[k].phase)
  }

  // ---------------------------------------------------------------- the chains

  /** `k` is the newest operation on its terminal. */
  predicate Newest(s: Lines, k: nat) {
    k < |s.ops| && forall j :: k < j < |s.ops| ==> s.ops[j].pty != s.ops[k].pty
  }

  predicate EarlierSettled(s: Lines, k: nat)
    requires k < |s.ops|
  {
    forall j :: 0 <= j < k && s.ops[j].pty == s.ops[k].pty ==> Settled(s.ops[j].phase)
  }

  /** The predecessor is the operation just before on the same terminal; without one everything before is settled. */
  predicate LinkOk(s: Lines, k: nat)
    requires k < |s.ops|
  {
    match s.ops[k].previous
    case None => EarlierSettled(s, k)
    case Some(p) => p < k && s.ops[p].pty == s.ops[k].pty && forall j :: p < j < k ==> s.ops[j].pty != s.ops[k].pty
  }

  ghost predicate ChainsOk(s: Lines) {
    && (forall p :: p in s.chains ==> Newest(s, s.chains[p]) && s.ops[s.chains[p]].pty == p)
    && (forall k :: 0 <= k < |s.ops| && s.ops[k].pty !in s.chains ==> Settled(s.ops[k].phase))
    && (forall k :: 0 <= k < |s.ops| ==> LinkOk(s, k) && (s.ops[k].phase != Waiting ==> EarlierSettled(s, k)))
  }

  // ---------------------------------------------------------------- the log of one terminal

  /** Each landed payload is followed by its own Enter, and each Enter preceded by its own landed payload. */
  predicate Paired(log: seq<Entry>) {
    && (forall i :: 0 <= i < |log| - 1 && log[i].Payload? && log[i].ok ==> log[i + 1].Enter? && log[i + 1].op == log[i].op)
    && (forall i :: 0 <= i < |log| && log[i].Enter? ==> i > 0 && log[i - 1] == Payload(log[i].op, true))
  }

  predicate InCallOrder(log: seq<Entry>) {
    forall i, j :: 0 <= i < j < |log| && log[i].Payload? && log[j].Payload? ==> log[i].op < log[j].op
  }

  /** The terminal is between a payload and its Enter. */
  predicate Open(log: seq<Entry>) {
    log != [] && log[|log| - 1].Payload? && log[|log| - 1].ok
  }

  predicate EntryOk(s: Lines, p: Pty, e: Entry) {
    e.Payload? ==> e.op < |s.ops| && s.ops[e.op].pty == p && s.ops[e.op].phase != Waiting
  }

  predicate LogOk(s: Lines, p: Pty, log: seq<Entry>) {
    && Paired(log) && InCallOrder(log)
    && (forall i :: 0 <= i < |log| ==> EntryOk(s, p, log[i]))
    && (Open(log) ==> s.ops[log[|log| - 1].op].phase == Typed)
    && (forall k :: 0 <= k < |s.ops| && s.ops[k].pty == p && s.ops[k].phase == Typed ==> Open(log) && log[|log| - 1].op == k)
  }

  ghost predicate LogsOk(s: Lines) {
    forall p :: LogOk(s, p, LogOf(s, p))
  }

  ghost predicate LinesOk(s: Lines) {
    ChainsOk(s) && LogsOk(s)
  }

  // ---------------------------------------------------------------- each step

  lemma {:induction false} SubmitKeeps(s: Lines, p: Pty, agent: Agent)
    requires LinesOk(s)
    ensures LinesOk(Submitted(s, p, agent))
  {
    var s' := Submitted(s, p, agent);
    var n := |s.ops|;
    assert forall k :: 0 <= k < n ==> s'.ops[k] == s.ops[k];
    forall k | 0 <= k < |s'.ops| ensures LinkOk(s', k) && (s'.ops[k].phase != Waiting ==> EarlierSettled(s', k)) {
      if k < n {
        assert LinkOk(s, k);
        assert s.ops[k].phase != Waiting ==> EarlierSettled(s, k);
      } else if p in s.chains {
        assert Newest(s, s.chains[p]);
      }
    }
    forall q | q in s'.chains ensures Newest(s', s'.chains[q]) && s'.ops[s'.chains[q]].pty == q {
      if q != p { assert Newest(s, s.chains[q]); }
    }
    forall q ensures LogOk(s', q, LogOf(s', q)) {
      assert LogOk(s, q, LogOf(s, q));
      assert LogOf(s', q) == LogOf(s, q);
    }
  }

  /** A terminal that starts with nothing pending under its name. */
  lemma {:induction false} OpenKeeps(s: Lines, p: Pty)
    requires LinesOk(s) && Quiet(s, p)
    ensures LinesOk(Opened(s, p))
  {
    var s' := Opened(s, p);
    forall k | 0 <= k < |s'.ops| ensures LinkOk(s', k) && (s'.ops[k].phase != Waiting ==> EarlierSettled(s', k)) {
      assert LinkOk(s, k) && (s.ops[k].phase != Waiting ==> EarlierSettled(s, k));
    }
    forall q | q in s'.chains ensures Newest(s', s'.chains[q]) && s'.ops[s'.chains[q]].pty == q {
      assert Newest(s, s.chains[q]);
    }
    forall q ensures LogOk(s', q, LogOf(s', q)) {
      assert LogOk(s, q, LogOf(s, q));
      if q != p { assert LogOf(s', q) == LogOf(s, q); }
    }
  }

  /** When an operation may start, everything before it on its terminal is settled and everything after it waits. */
  lemma {:induction false} StartIsAlone(s: Lines, k: nat)
    requires ChainsOk(s) && CanStart(s, k)
    ensures EarlierSettled(s, k)
    ensures forall j :: k < j < |s.ops| && s.ops[j].pty == s.ops[k].pty ==> s.ops[j].phase == Waiting
  {
    assert LinkOk(s, k);
    if s.ops[k].previous.Some? {
      var p := s.ops[k].previous.value;
      assert LinkOk(s, p) && EarlierSettled(s, p);
    }
    forall j | k < j < |s.ops| && s.ops[j].pty == s.ops[k].pty ensures s.ops[j].phase == Waiting {
      assert LinkOk(s, j) && (s.ops[j].phase != Waiting ==> EarlierSettled(s, j));
    }
  }

  lemma {:induction false} PhaseKeepsLink(s: Lines, k: nat, phase: Phase, j: nat)
    requires k < |s.ops| && !Settled(s.ops[k].phase) && phase != Waiting && EarlierSettled(s, k) && j < |s.ops|
    requires LinkOk(s, j) && (s.ops[j].phase != Waiting ==> EarlierSettled(s, j))
    ensures var s' := SetPhase(s, k, phase);
      LinkOk(s', j) && (s'.ops[j].phase != Waiting ==> EarlierSettled(s', j))
  {
    var s' := SetPhase(s, k, phase);
    assert forall i :: 0 <= i < |s.ops| ==> s'.ops[i].pty == s.ops[i].pty && s'.ops[i].previous == s.ops[i].previous;
    assert forall i :: 0 <= i < |s.ops| && i != k ==> s'.ops[i] == s.ops[i];
  }

  /** Moving one operation forward, with everything before it settled. */
  lemma {:induction false} PhaseKeepsChains(s: Lines, k: nat, phase: Phase)
    requires ChainsOk(s) && k < |s.ops| && !Settled(s.ops[k].phase) && phase != Waiting && EarlierSettled(s, k)
    ensures ChainsOk(SetPhase(s, k, phase))
  {
    var s' := SetPhase(s, k, phase);
    forall j | 0 <= j < |s'.ops| ensures LinkOk(s', j) && (s'.ops[j].phase != Waiting ==> EarlierSettled(s', j)) {
      PhaseKeepsLink(s, k, phase, j);
    }
    forall q | q in s'.chains ensures Newest(s', s'.chains[q]) && s'.ops[s'.chains[q]].pty == q {
      assert Newest(s, s.chains[q]);
    }
  }

  lemma {:induction false} RejectKeepsLogs(s: Lines, k: nat)
    requires LogsOk(s) && k < |s.ops| && s.ops[k].phase == Waiting
    ensures LogsOk(SetPhase(s, k, Rejected))
  {
    var s' := SetPhase(s, k, Rejected);
    forall q ensures LogOk(s', q, LogOf(s', q)) {
      var log := LogOf(s, q);
      assert LogOk(s, q, log);
      forall i | 0 <= i < |log| ensures EntryOk(s', q, log[i]) { assert EntryOk(s, q, log[i]); }
      if Open(log) { assert EntryOk(s, q, log[|log| - 1]); }
    }
  }

  /** A log grows by a payload or a direct Enter where no pair is open, and by an Enter that closes the open pair. */
  lemma {:induction false} PairedGrows(log: seq<Entry>, e: Entry)
    requires Paired(log) && InCallOrder(log)
    requires if e.Enter? then Open(log) && log[|log| - 1].op == e.op else !Open(log)
    requires e.Payload? ==> forall i :: 0 <= i < |log| && log[i].Payload? ==> log[i].op < e.op
    ensures Paired(log + [e]) && InCallOrder(log + [e])
    ensures Open(log + [e]) <==> e.Payload? && e.ok
  {
    var grown := log + [e];
    assert forall i :: 0 <= i < |log| ==> grown[i] == log[i];
    assert grown[|log|] == e;
  }

  /** Where everything on a terminal is settled or still waits, no pair is open on it. */
  lemma {:induction false} NothingTyped(s: Lines, p: Pty)
    requires LogsOk(s) && forall k :: 0 <= k < |s.ops| && s.ops[k].pty == p ==> s.ops[k].phase != Typed
    ensures !Open(LogOf(s, p))
  {
    var log := LogOf(s, p);
    assert LogOk(s, p, log);
    assert log != [] ==> EntryOk(s, p, log[|log| - 1]);
  }

  lemma {:induction false} OtherLogKept(s: Lines, s': Lines, k: nat, q: Pty)
    requires LogOk(s, q, LogOf(s, q)) && LogOf(s', q) == LogOf(s, q)
    requires k < |s.ops| == |s'.ops| && s'.ops == s.ops[k := s'.ops[k]] && s.ops[k].pty == s'.ops[k].pty != q
    ensures LogOk(s', q, LogOf(s', q))
  {
    var log := LogOf(s, q);
    forall i | 0 <= i < |log| ensures EntryOk(s', q, log[i]) { assert EntryOk(s, q, log[i]); }
    assert log != [] ==> EntryOk(s, q, log[|log| - 1]);
  }

  /** The payload of an operation that may start goes after a finished pair. */
  lemma {:induction false} PayloadKeepsLogs(s: Lines, k: nat, ok: bool)
    requires ChainsOk(s) && LogsOk(s) && CanStart(s, k)
    ensures LogsOk(SetPhase(Wrote(s, s.ops[k].pty, Payload(k, ok)), k, if ok then Typed else Rejected))
  {
    var p := s.ops[k].pty;
    var s' := SetPhase(Wrote(s, p, Payload(k, ok)), k, if ok then Typed else Rejected);
    NoneTyped(s, k);
    NothingTyped(s, p);
    assert LogOk(s, p, LogOf(s, p));
    PayloadKeepsLog(s, s', k, ok);
    forall q | q != p ensures LogOk(s', q, LogOf(s', q)) {
      assert LogOk(s, q, LogOf(s, q));
      OtherLogKept(s, s', k, q);
    }
  }

  lemma {:induction false} NoneTyped(s: Lines, k: nat)
    requires ChainsOk(s) && CanStart(s, k)
    ensures forall j :: k < j < |s.ops| && s.ops[j].pty == s.ops[k].pty ==> s.ops[j].phase == Waiting
    ensures forall j :: 0 <= j < |s.ops| && s.ops[j].pty == s.ops[k].pty ==> s.ops[j].phase != Typed
  {
    StartIsAlone(s, k);
  }

  lemma {:induction false} PayloadKeepsLog(s: Lines, s': Lines, k: nat, ok: bool)
    requires k < |s.ops| && s.ops[k].phase == Waiting
    requires s' == SetPhase(Wrote(s, s.ops[k].pty, Payload(k, ok)), k, if ok then Typed else Rejected)
    requires forall j :: k < j < |s.ops| && s.ops[j].pty == s.ops[k].pty ==> s.ops[j].phase == Waiting
    requires forall j :: 0 <= j < |s.ops| && s.ops[j].pty == s.ops[k].pty ==> s.ops[j].phase != Typed
    requires LogOk(s, s.ops[k].pty, LogOf(s, s.ops[k].pty)) && !Open(LogOf(s, s.ops[k].pty))
    ensures LogOk(s', s.ops[k].pty, LogOf(s', s.ops[k].pty))
  {
    var p := s.ops[k].pty;
    var log, grown := LogOf(s, p), LogOf(s', p);
    assert grown == log + [Payload(k, ok)];
    forall i | 0 <= i < |log| && log[i].Payload? ensures log[i].op < k { assert EntryOk(s, p, log[i]); }
    PairedGrows(log, Payload(k, ok));
    forall i | 0 <= i < |grown| ensures EntryOk(s', p, grown[i]) {
      if i < |log| { assert EntryOk(s, p, log[i]); }
    }
    assert forall j :: 0 <= j < |s.ops| && j != k ==> s'.ops[j] == s.ops[j];
  }

  lemma {:induction false} EnterKeepsLogs(s: Lines, k: nat, ok: bool)
    requires LogsOk(s) && k < |s.ops| && s.ops[k].phase == Typed
    ensures LogsOk(Entered(s, k, ok))
  {
    var p := s.ops[k].pty;
    var s' := Entered(s, k, ok);
    forall q ensures LogOk(s', q, LogOf(s', q)) {
      assert LogOk(s, q, LogOf(s, q));
      if q != p { OtherLogKept(s, s', k, q); } else { EnterKeepsLog(s, s', k, ok); }
    }
  }

  lemma {:induction false} EnterKeepsLog(s: Lines, s': Lines, k: nat, ok: bool)
    requires k < |s.ops| && s.ops[k].phase == Typed && s' == Entered(s, k, ok)
    requires LogOk(s, s.ops[k].pty, LogOf(s, s.ops[k].pty))
    ensures LogOk(s', s.ops[k].pty, LogOf(s', s.ops[k].pty))
  {
    var p := s.ops[k].pty;
    var log, grown := LogOf(s, p), LogOf(s', p);
    assert grown == log + [Enter(k, ok)];
    PairedGrows(log, Enter(k, ok));
    forall i | 0 <= i < |grown| ensures EntryOk(s', p, grown[i]) {
      if i < |log| { assert EntryOk(s, p, log[i]); }
    }
    assert forall j :: 0 <= j < |s.ops| && j != k ==> s'.ops[j] == s.ops[j];
  }

  /** A direct Enter on a terminal where nothing is pending falls outside every pair. */
  lemma {:induction false} DirectKeepsLogs(s: Lines, p: Pty, ok: bool)
    requires LogsOk(s) && Quiet(s, p)
    ensures LogsOk(Wrote(s, p, DirectEnter(ok))) && !Open(LogOf(s, p))
  {
    var s' := Wrote(s, p, DirectEnter(ok));
    NothingTyped(s, p);
    forall q ensures LogOk(s', q, LogOf(s', q)) {
      var log, grown := LogOf(s, q), LogOf(s', q);
      assert LogOk(s, q, log);
      if q == p {
        assert grown == log + [DirectEnter(ok)];
        PairedGrows(log, DirectEnter(ok));
      }
      forall i | 0 <= i < |grown| ensures EntryOk(s', q, grown[i]) {
        if i < |log| { assert EntryOk(s, q, log[i]); }
      }
    }
  }

  lemma {:induction false} WritingKeepsChains(s: Lines, p: Pty, e: Entry)
    requires ChainsOk(s)
    ensures ChainsOk(Wrote(s, p, e))
    ensures forall k :: 0 <= k < |s.ops| ==> (EarlierSettled(Wrote(s, p, e), k) <==> EarlierSettled(s, k))
  {
    var s' := Wrote(s, p, e);
    forall k | 0 <= k < |s'.ops| ensures LinkOk(s', k) && (s'.ops[k].phase != Waiting ==> EarlierSettled(s', k)) {
      assert LinkOk(s, k) && (s.ops[k].phase != Waiting ==> EarlierSettled(s, k));
      if s.ops[k].previous == None { assert EarlierSettled(s, k); }
    }
    forall q | q in s'.chains ensures Newest(s', s'.chains[q]) { assert Newest(s, s.chains[q]); }
  }

  lemma {:induction false} StartKeeps(s: Lines, k: nat, ready: bool, ok: bool)
    requires LinesOk(s)
    ensures LinesOk(Started(s, k, ready, ok))
  {
    if CanStart(s, k) {
      StartIsAlone(s, k);
      if ready {
        var s1 := Wrote(s, s.ops[k].pty, Payload(k, ok));
        WritingKeepsChains(s, s.ops[k].pty, Payload(k, ok));
        PhaseKeepsChains(s1, k, if ok then Typed else Rejected);
        PayloadKeepsLogs(s, k, ok);
      } else {
        PhaseKeepsChains(s, k, Rejected);
        RejectKeepsLogs(s, k);
      }
    }
  }

  lemma {:induction false} EnterKeeps(s: Lines, k: nat, ok: bool)
    requires LinesOk(s)
    ensures LinesOk(Entered(s, k, ok))
  {
    if k < |s.ops| && s.ops[k].phase == Typed {
      var s1 := Wrote(s, s.ops[k].pty, Enter(k, ok));
      assert LinkOk(s, k) && EarlierSettled(s, k);
      WritingKeepsChains(s, s.ops[k].pty, Enter(k, ok));
      PhaseKeepsChains(s1, k, if ok then Resolved else Rejected);
      EnterKeepsLogs(s, k, ok);
    }
  }

  lemma {:induction false} ForgetKeeps(s: Lines, p: Pty)
    requires LinesOk(s) && Quiet(s, p)
    ensures LinesOk(Forgot(s, p))
  {
    var s' := Forgot(s, p);
    forall k | 0 <= k < |s'.ops| ensures LinkOk(s', k) && (s'.ops[k].phase != Waiting ==> EarlierSettled(s', k)) {
      assert LinkOk(s, k) && (s.ops[k].phase != Waiting ==> EarlierSettled(s, k));
      if s.ops[k].previous == None { assert EarlierSettled(s, k); }
    }
    forall q | q in s'.chains ensures Newest(s', s'.chains[q]) { assert Newest(s, s.chains[q]); }
    forall q ensures LogOk(s', q, LogOf(s', q)) {
      assert LogOk(s, q, LogOf(s, q));
      forall i | 0 <= i < |LogOf(s, q)| ensures EntryOk(s', q, LogOf(s, q)[i]) { assert EntryOk(s, q, LogOf(s, q)[i]); }
    }
  }

  /** An Enter past the chain, on a terminal with nothing pending, falls outside every pair. */
  lemma {:induction false} DirectKeeps(s: Lines, p: Pty, ok: bool)
    requires LinesOk(s) && Quiet(s, p)
    ensures LinesOk(Wrote(s, p, DirectEnter(ok))) && !Open(LogOf(s, p))
  {
    DirectKeepsLogs(s, p, ok);
    WritingKeepsChains(s, p, DirectEnter(ok));
  }
}
