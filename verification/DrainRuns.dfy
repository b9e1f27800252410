/** What every run of arrivals and drains keeps of an inbox's cursor. */
module DrainRuns {
  import opened Options
  import opened StopDrain

  // ---------------------------------------------------------------- ids are totally ordered

  lemma {:induction false} LessIsTotal(a: Id, b: Id)
    ensures Less(a, b) || a == b || Less(b, a)
    ensures !(Less(a, b) && Less(b, a)) && !Less(a, a)
  {
    if a != "" && b != "" {
      LessIsTotal(a[1..], b[1..]);
      assert a == [a[0]] + a[1..] && b == [b[0]] + b[1..];
      LessIsTotal(a[1..], a[1..]);
    } else if a != "" {
      LessIsTotal(a[1..], a[1..]);
    }
  }

  lemma {:induction false} LessTransitive(a: Id, b: Id, c: Id)
    requires Less(a, b) && Less(b, c)
    ensures Less(a, c)
  {
    if a != "" && a[0] == b[0] && b[0] == c[0] { LessTransitive(a[1..], b[1..], c[1..]); }
  }

  /** At most as late: not after. */
  lemma {:induction false} NotAfterThenLess(a: Id, b: Id, c: Id)
    requires !Less(b, a) && Less(b, c)
    ensures Less(a, c)
  {
    LessIsTotal(a, b);
    if Less(a, b) { LessTransitive(a, b, c); }
  }

  lemma {:induction false} NotAfterTransitive(a: Id, b: Id, c: Id)
    requires !Less(b, a) && !Less(c, b)
    ensures !Less(c, a)
  {
    LessIsTotal(a, b);
    LessIsTotal(b, c);
    LessIsTotal(a, c);
    if Less(a, b) && Less(b, c) { LessTransitive(a, b, c); }
  }

  lemma {:induction false} SortedOfFirst(x: Id, ids: seq<Id>)
    requires Sorted(ids) && forall y :: y in ids ==> !Less(y, x)
    ensures Sorted([x] + ids)
  {
    var r := [x] + ids;
    forall i, j | 0 <= i < j < |r| ensures !Less(r[j], r[i]) {
      assert r[j] == ids[j - 1];
      if i > 0 { assert r[i] == ids[i - 1]; }
    }
  }

  lemma {:induction false} FirstIsLeast(ids: seq<Id>)
    requires Sorted(ids) && ids != []
    ensures forall x :: x in ids ==> !Less(x, ids[0])
  {
    forall x | x in ids ensures !Less(x, ids[0]) {
      var k :| 0 <= k < |ids| && ids[k] == x;
      LessIsTotal(ids[0], ids[0]);
    }
  }

  lemma {:induction false} InsertKeepsSorted(id: Id, ids: seq<Id>)
    requires Sorted(ids)
    ensures Sorted(Insert(id, ids))
  {
    if ids != [] {
      FirstIsLeast(ids);
      LessIsTotal(ids[0], id);
      if Less(ids[0], id) {
        InsertKeepsSorted(id, ids[1..]);
        SortedOfFirst(ids[0], Insert(id, ids[1..]));
      } else {
        forall x | x in ids ensures !Less(x, id) { NotAfterTransitive(id, ids[0], x); }
        SortedOfFirst(id, ids);
      }
    }
  }

  lemma {:induction false} InOrderIsSorted(ids: seq<Id>)
    ensures Sorted(InOrder(ids))
  {
    if ids != [] {
      InOrderIsSorted(ids[1..]);
      InsertKeepsSorted(ids[0], InOrder(ids[1..]));
    }
  }

  // ---------------------------------------------------------------- the cursor

  predicate In(drains: seq<seq<Id>>, k: nat, id: Id) {
    k < |drains| && id in drains[k]
  }

  predicate UpTo(batch: seq<Id>, cursor: Id) {
    batch != [] && Sorted(batch) && forall id :: id in batch ==> !Less(cursor, id)
  }

  /** Each of the first comes before each of the second; only the empty id may be in both. */
  predicate AllBefore(a: seq<Id>, b: seq<Id>) {
    forall x, y :: x in a && y in b ==> Less(x, y) || (x == "" && y == "")
  }

  /** Everything handed over is at or before the cursor, which was handed over; later drains handed over only later ids. */
  predicate Kept(s: State) {
    && (s.cursor.None? <==> s.drains == [])
    && (s.cursor.Some? ==> s.cursor.value in s.drains[|s.drains| - 1] && forall k :: 0 <= k < |s.drains| ==> UpTo(s.drains[k], s.cursor.value))
    && (forall k, l :: 0 <= k < l < |s.drains| ==> AllBefore(s.drains[k], s.drains[l]))
  }

  lemma {:induction false} LastIsGreatest(ids: seq<Id>)
    requires Sorted(ids) && ids != []
    ensures forall x :: x in ids ==> !Less(ids[|ids| - 1], x)
  {
    var last := ids[|ids| - 1];
    forall x | x in ids ensures !Less(last, x) {
      var k :| 0 <= k < |ids| && ids[k] == x;
      LessIsTotal(last, last);
    }
  }

  /** What a drain hands over is all past the cursor, and none past the new one. */
  lemma {:induction false} DrainMoves(s: State)
    requires Drained(s) != s
    ensures var s' := Drained(s);
      |s'.drains| == |s.drains| + 1 && s'.drains[..|s.drains|] == s.drains && s'.cursor.Some?
    ensures var batch := Drained(s).drains[|s.drains|];
      batch != [] && Sorted(batch) && (forall x :: x in batch <==> x in s.inbox && Past(s.cursor, x))
      && Drained(s).cursor.value in batch && (forall x :: x in batch ==> !Less(Drained(s).cursor.value, x))
  {
    var ids := FreshOf(s.cursor, s.inbox);
    var batch := InOrder(ids);
    InOrderIsSorted(ids);
    LastIsGreatest(batch);
  }

  lemma {:induction false} UpToLater(batch: seq<Id>, c: Id, c': Id)
    requires UpTo(batch, c) && !Less(c', c)
    ensures UpTo(batch, c')
  {
    forall id | id in batch ensures !Less(c', id) { NotAfterTransitive(id, c, c'); }
  }

  /** A cursor past which an id lies is not after it. */
  lemma {:induction false} PastIsNotBefore(c: Id, id: Id)
    requires Past(Some(c), id)
    ensures !Less(id, c)
  {
    LessIsTotal(c, id);
  }

  lemma {:induction false} DrainKeeps(s: State)
    requires Kept(s)
    ensures Kept(Drained(s))
  {
    if Drained(s) != s {
      DrainMoves(s);
      var s', n := Drained(s), |s.drains|;
      var c' := s'.cursor.value;
      assert forall k :: 0 <= k < n ==> s'.drains[k] == s.drains[k];
      forall k | 0 <= k < |s'.drains| ensures UpTo(s'.drains[k], c') {
        if k < n {
          PastIsNotBefore(s.cursor.value, c');
          UpToLater(s.drains[k], s.cursor.value, c');
        }
      }
      forall k | 0 <= k < n ensures AllBefore(s'.drains[k], s'.drains[n]) {
        assert UpTo(s.drains[k], s.cursor.value);
        BatchIsLater(s.drains[k], s.cursor.value, s'.drains[n]);
      }
    }
  }

  lemma {:induction false} BatchIsLater(batch: seq<Id>, c: Id, later: seq<Id>)
    requires UpTo(batch, c) && forall y :: y in later ==> Past(Some(c), y)
    ensures AllBefore(batch, later)
  {
    forall x, y | x in batch && y in later ensures Less(x, y) || (x == "" && y == "") {
      if c == "" { LessIsTotal(x, ""); } else { NotAfterThenLess(x, c, y); }
    }
  }

  lemma {:induction false} RunKeeps(ops: seq<Op>)
    ensures Kept(After(ops))
  {
    if ops != [] {
      var n := |ops| - 1;
      RunKeeps(ops[..n]);
      if ops[n].Drain? { DrainKeeps(After(ops[..n])); }
    }
  }

  // ---------------------------------------------------------------- the theorems

  /** No id but the empty one is handed over by two drains, in whatever order messages arrive and whatever ids they have. */
  lemma {:induction false} HandedOverOnce(ops: seq<Op>, k: nat, l: nat, id: Id)
    requires id != "" && In(After(ops).drains, k, id) && In(After(ops).drains, l, id)
    ensures k == l
  {
    RunKeeps(ops);
    LessIsTotal(id, id);
    var d := After(ops).drains;
    assert k < l ==> AllBefore(d[k], d[l]);
    assert l < k ==> AllBefore(d[l], d[k]);
  }

  predicate HandedOver(s: State, id: Id) {
    exists k :: 0 <= k < |s.drains| && id in s.drains[k]
  }

  /** The next drain would hand this id over. */
  predicate Next(s: State, id: Id) {
    id in s.inbox && Past(s.cursor, id)
  }

  /**
   The failing of the law, exactly: after any run, with any ids, a drain is about to hand over an id that was
   handed over before if and only if the cursor is the empty id and a message of that id lies in the inbox.
   */
  lemma {:induction false} RepeatsExactlyTheEmptyId(ops: seq<Op>)
    ensures var s := After(ops);
      (exists id :: id in s.inbox && Next(s, id) && HandedOver(s, id)) <==> s.cursor == Some("") && "" in s.inbox
  {
    RunKeeps(ops);
    var s := After(ops);
    if s.cursor == Some("") {
      assert HandedOver(s, "");
      assert "" in s.inbox ==> Next(s, "");
    }
    forall id | id in s.inbox && Next(s, id) && HandedOver(s, id) ensures id == "" && s.cursor == Some("") {
      var k :| 0 <= k < |s.drains| && id in s.drains[k];
      assert UpTo(s.drains[k], s.cursor.value);
      LessIsTotal(id, "");
    }
  }

  lemma {:induction false} AfterMore(ops: seq<Op>, more: seq<Op>)
    requires more != []
    ensures After(ops + more) == Step(After(ops + more[..|more| - 1]), more[|more| - 1])
  {
    assert (ops + more)[..|ops + more| - 1] == ops + more[..|more| - 1];
  }

  lemma {:induction false} CursorStep(s: State, op: Op)
    requires s.cursor.Some?
    ensures Step(s, op).cursor.Some? && !Less(Step(s, op).cursor.value, s.cursor.value)
  {
    LessIsTotal(s.cursor.value, s.cursor.value);
    if op.Drain? && Drained(s) != s {
      DrainMoves(s);
      PastIsNotBefore(s.cursor.value, Drained(s).cursor.value);
    }
  }

  /** The cursor never goes back. */
  lemma {:induction false} CursorNeverGoesBack(ops: seq<Op>, more: seq<Op>)
    requires After(ops).cursor.Some?
    ensures After(ops + more).cursor.Some? && !Less(After(ops + more).cursor.value, After(ops).cursor.value)
  {
    if more == [] {
      assert ops + more == ops;
      LessIsTotal(After(ops).cursor.value, After(ops).cursor.value);
    } else {
      var n := |more| - 1;
      AfterMore(ops, more);
      CursorNeverGoesBack(ops, more[..n]);
      var s := After(ops + more[..n]);
      CursorStep(s, more[n]);
      NotAfterTransitive(After(ops).cursor.value, s.cursor.value, Step(s, more[n]).cursor.value);
    }
  }

  /** The id was handed over by a drain from the n-th on. */
  predicate HandedOverSince(s: State, n: nat, id: Id) {
    exists k :: n <= k < |s.drains| && id in s.drains[k]
  }

  lemma {:induction false} LateStep(s: State, op: Op, n: nat, id: Id)
    requires !Past(s.cursor, id) && n <= |s.drains| && !HandedOverSince(s, n, id)
    ensures var s' := Step(s, op); n <= |s'.drains| && !Past(s'.cursor, id) && !HandedOverSince(s', n, id)
  {
    if op.Drain? && Drained(s) != s {
      DrainMoves(s);
      var s' := Drained(s);
      var c' := s'.cursor.value;
      LessIsTotal(s.cursor.value, c');
      if Less(c', id) { LessTransitive(s.cursor.value, c', id); }
      assert forall k :: 0 <= k < |s.drains| ==> s'.drains[k] == s.drains[k];
    }
  }

  /** An id that is not past the cursor is handed over by no later drain, whenever its message arrives. */
  lemma {:induction false} LateIdsAreNeverHandedOver(ops: seq<Op>, more: seq<Op>, id: Id)
    requires !Past(After(ops).cursor, id)
    ensures |After(ops).drains| <= |After(ops + more).drains| && !Past(After(ops + more).cursor, id)
    ensures !HandedOverSince(After(ops + more), |After(ops).drains|, id)
  {
    if more == [] {
      assert ops + more == ops;
    } else {
      var n := |more| - 1;
      AfterMore(ops, more);
      LateIdsAreNeverHandedOver(ops, more[..n], id);
      LateStep(After(ops + more[..n]), more[n], |After(ops).drains|, id);
    }
  }

  predicate NoDrain(ops: seq<Op>) {
    forall i :: 0 <= i < |ops| ==> !ops[i].Drain?
  }

  lemma {:induction false} CursorRests(ops: seq<Op>, more: seq<Op>)
    requires NoDrain(more)
    ensures After(ops + more).cursor == After(ops).cursor && After(ops + more).drains == After(ops).drains
  {
    if more == [] {
      assert ops + more == ops;
    } else {
      CursorRests(ops, more[..|more| - 1]);
      AfterMore(ops, more);
    }
  }

  lemma {:induction false} HandedOverStays(ops: seq<Op>, more: seq<Op>, n: nat, id: Id)
    requires HandedOverSince(After(ops), n, id)
    ensures HandedOverSince(After(ops + more), n, id)
  {
    if more == [] {
      assert ops + more == ops;
    } else {
      var m := |more| - 1;
      AfterMore(ops, more);
      HandedOverStays(ops, more[..m], n, id);
      HandedOverStep(After(ops + more[..m]), more[m], n, id);
    }
  }

  lemma {:induction false} HandedOverStep(s: State, op: Op, n: nat, id: Id)
    requires HandedOverSince(s, n, id)
    ensures HandedOverSince(Step(s, op), n, id)
  {
    var k :| n <= k < |s.drains| && id in s.drains[k];
    if op.Drain? && Drained(s) != s { DrainMoves(s); }
    assert Step(s, op).drains[k] == s.drains[k];
  }

  /**
   Exactly which messages are drained: one that arrives and still lies in the inbox when the next drain comes
   is handed over, by that drain or a later one, if and only if its id is past the cursor when it arrives.
   */
  lemma {:induction false} DrainedExactlyIfPastOnArrival(ops: seq<Op>, id: Id, meanwhile: seq<Op>, more: seq<Op>)
    requires NoDrain(meanwhile) && id in After(ops + ([Arrive(id)] + meanwhile)).inbox
    ensures HandedOverSince(After(ops + ([Arrive(id)] + meanwhile + [Drain] + more)), |After(ops).drains|, id) <==> Past(After(ops).cursor, id)
  {
    var until := [Arrive(id)] + meanwhile;
    CursorRests(ops, until);
    if Past(After(ops).cursor, id) {
      NextIsHandedOver(ops + until, more, id);
      assert ops + until + [Drain] + more == ops + (until + [Drain] + more);
    } else {
      LateIdsAreNeverHandedOver(ops, until + [Drain] + more, id);
    }
  }

  lemma {:induction false} NextIsHandedOver(ops: seq<Op>, more: seq<Op>, id: Id)
    requires Next(After(ops), id)
    ensures HandedOverSince(After(ops + [Drain] + more), |After(ops).drains|, id)
  {
    var s, n := After(ops), |After(ops).drains|;
    NextIsDrained(s, id);
    OneMore(ops, Drain);
    assert id in Drained(s).drains[n] && n < |Drained(s).drains|;
    HandedOverStays(ops + [Drain], more, n, id);
  }

  lemma {:induction false} NextIsDrained(s: State, id: Id)
    requires Next(s, id)
    ensures Drained(s) != s && |Drained(s).drains| == |s.drains| + 1 && id in Drained(s).drains[|s.drains|]
  {
    assert id in InOrder(FreshOf(s.cursor, s.inbox));
    assert Drained(s).drains != s.drains;
    DrainMoves(s);
  }

  // ---------------------------------------------------------------- arrivals in order

  /** Each arriving id exceeds every id that arrived before it. */
  predicate Rising(ops: seq<Op>) {
    forall i, j :: 0 <= i < j < |ops| && ops[i].Arrive? && ops[j].Arrive? ==> Less(ops[i].id, ops[j].id)
  }

  predicate Arrived(ops: seq<Op>, id: Id) {
    exists i :: 0 <= i < |ops| && ops[i] == Arrive(id)
  }

  /** What lies in the inbox or was handed over did arrive; what lies there and was not handed over is past the cursor. */
  predicate Caught(ops: seq<Op>, s: State) {
    && (forall id :: id in s.inbox ==> Arrived(ops, id))
    && (forall k, id :: 0 <= k < |s.drains| && id in s.drains[k] ==> Arrived(ops, id))
    && (s.cursor.Some? ==> Arrived(ops, s.cursor.value))
    && (forall id :: id in s.inbox ==> HandedOver(s, id) || Past(s.cursor, id))
  }

  lemma {:induction false} ArrivedGrows(ops: seq<Op>, op: Op, id: Id)
    requires Arrived(ops, id)
    ensures Arrived(ops + [op], id)
  {
    var i :| 0 <= i < |ops| && ops[i] == Arrive(id);
    assert (ops + [op])[i] == Arrive(id);
  }

  lemma {:induction false} HandedOverGrows(s: State, s': State, id: Id)
    requires HandedOver(s, id) && s.drains <= s'.drains
    ensures HandedOver(s', id)
  {
    var k :| 0 <= k < |s.drains| && id in s.drains[k];
    assert s'.drains[k] == s.drains[k];
  }

  lemma {:induction false} DrainCatches(ops: seq<Op>, s: State)
    requires Caught(ops, s)
    ensures Caught(ops + [Drain], Drained(s)) && forall id :: id in s.inbox ==> HandedOver(Drained(s), id)
  {
    var s' := Drained(s);
    forall id | Arrived(ops, id) ensures Arrived(ops + [Drain], id) { ArrivedGrows(ops, Drain, id); }
    if s' == s {
      assert FreshOf(s.cursor, s.inbox) == [] by {
        assert |InOrder(FreshOf(s.cursor, s.inbox))| == |FreshOf(s.cursor, s.inbox)|;
      }
      forall id | id in s.inbox ensures HandedOver(s, id) {
        assert Past(s.cursor, id) ==> id in FreshOf(s.cursor, s.inbox);
      }
    } else {
      DrainMoves(s);
      forall id | id in s.inbox ensures HandedOver(s', id) {
        if HandedOver(s, id) { HandedOverGrows(s, s', id); }
        else { assert id in s'.drains[|s.drains|]; }
      }
    }
  }

  lemma {:induction false} ArrivalCatches(ops: seq<Op>, s: State, id: Id)
    requires Caught(ops, s) && Rising(ops + [Arrive(id)])
    ensures Caught(ops + [Arrive(id)], Step(s, Arrive(id)))
  {
    var s' := Step(s, Arrive(id));
    forall x | Arrived(ops, x) ensures Arrived(ops + [Arrive(id)], x) { ArrivedGrows(ops, Arrive(id), x); }
    assert (ops + [Arrive(id)])[|ops|] == Arrive(id);
    forall x | x in s'.inbox ensures HandedOver(s', x) || Past(s'.cursor, x) {
      if x in s.inbox {
        if HandedOver(s, x) { HandedOverGrows(s, s', x); }
      } else if s.cursor.Some? {
        var i :| 0 <= i < |ops| && ops[i] == Arrive(s.cursor.value);
        assert (ops + [Arrive(id)])[i] == Arrive(s.cursor.value);
      }
    }
  }

  lemma {:induction false} RunCatches(ops: seq<Op>)
    requires Rising(ops)
    ensures Caught(ops, After(ops))
  {
    if ops != [] {
      var n := |ops| - 1;
      var before := ops[..n];
      RunCatches(before);
      assert ops == before + [ops[n]];
      var s := After(before);
      match ops[n]
      case Drain => DrainCatches(before, s);
      case Arrive(id) => ArrivalCatches(before, s, id);
      case Handle(k) =>
        forall x | Arrived(before, x) ensures Arrived(ops, x) { ArrivedGrows(before, ops[n], x); }
        forall x | x in Step(s, ops[n]).inbox ensures x in s.inbox {}
        forall x | HandedOver(s, x) ensures HandedOver(Step(s, ops[n]), x) { HandedOverGrows(s, Step(s, ops[n]), x); }
    }
  }

  /** When ids arrive in rising order, each drain leaves nothing in the inbox that has not been handed over, by it or before. */
  lemma {:induction false} NothingIsMissed(ops: seq<Op>, id: Id)
    requires Rising(ops) && id in After(ops).inbox
    ensures HandedOver(After(ops + [Drain]), id)
  {
    RunCatches(ops);
    assert (ops + [Drain])[..|ops|] == ops;
    DrainCatches(ops, After(ops));
  }

  // ---------------------------------------------------------------- where it fails

  /**
   An empty id sorts before all others and makes no cursor: alone in the inbox, its message is handed over
   by every drain.
   */
  lemma {:induction false} EmptyIdComesBack()
    ensures After([] + [Arrive("")] + [Drain] + [Drain]).drains == [[""], [""]]
  {
    var a := [] + [Arrive("")];
    OneMore([], Arrive(""));
    OneMore(a, Drain);
    OneMore(a + [Drain], Drain);
    EmptyIdIsFresh(After(a));
    EmptyIdIsFresh(After(a + [Drain]));
  }

  lemma {:induction false} OneMore(ops: seq<Op>, op: Op)
    ensures After(ops + [op]) == Step(After(ops), op)
  {
    assert (ops + [op])[..|ops|] == ops;
  }

  lemma {:induction false} EmptyIdIsFresh(s: State)
    requires s.inbox == [""] && (s.cursor.None? || s.cursor.value == "")
    ensures Drained(s) == State([""], Some(""), s.drains + [[""]])
  {
    assert [""][..0] == [] && [""][1..] == [];
    assert FreshOf(s.cursor, [""]) == [""] && InOrder([""]) == [""];
  }

  /** A reminder's id is that of the message it repeats with a suffix: past that one, yet before any newer message. */
  lemma {:induction false} RemindersSortBetween(id: Id, newer: Id)
    requires Less(id, newer) && !(id <= newer)
    ensures Less(id, id + "-reminder") && Less(id + "-reminder", newer)
  {
    LessThanLonger(id, "-reminder");
    BeforeNewer(id, "-reminder", newer);
  }

  lemma {:induction false} LessThanLonger(id: Id, suffix: string)
    requires suffix != ""
    ensures Less(id, id + suffix)
  {
    if id != "" {
      LessThanLonger(id[1..], suffix);
      assert (id + suffix)[1..] == id[1..] + suffix;
    } else {
      assert id + suffix == suffix;
    }
  }

  lemma {:induction false} BeforeNewer(id: Id, suffix: string, newer: Id)
    requires Less(id, newer) && !(id <= newer)
    ensures Less(id + suffix, newer)
  {
    assert id != "" && newer != "";
    if id[0] == newer[0] {
      assert id == [id[0]] + id[1..] && newer == [newer[0]] + newer[1..];
      BeforeNewer(id[1..], suffix, newer[1..]);
      assert (id + suffix)[1..] == id[1..] + suffix;
    }
  }

  /** So a reminder that arrives after a newer message was handed over is itself handed over by no drain. */
  lemma {:induction false} RemindersCanBeMissed(ops: seq<Op>, more: seq<Op>, id: Id)
    requires After(ops).cursor.Some? && Less(id, After(ops).cursor.value) && !(id <= After(ops).cursor.value)
    ensures !HandedOverSince(After(ops + more), |After(ops).drains|, id + "-reminder")
  {
    var c := After(ops).cursor.value;
    RemindersSortBetween(id, c);
    LessIsTotal(id + "-reminder", c);
    LateIdsAreNeverHandedOver(ops, more, id + "-reminder");
  }
}
