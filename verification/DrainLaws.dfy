/** What a drain hands over, told in the characters of the ids. */
module DrainLaws {
  import opened Options
  import opened StopDrain
  import opened DrainRuns

  /** `b` comes later: they agree up to `k`, where `a` has ended or has the smaller character. */
  predicate DiffersAt(a: Id, b: Id, k: nat) {
    k <= |a| && k < |b| && a[..k] == b[..k] && (k == |a| || a[k] < b[k])
  }

  lemma {:induction false} DiffersLater(a: Id, b: Id, k: nat)
    requires a != "" && b != "" && a[0] == b[0]
    ensures DiffersAt(a, b, k + 1) <==> DiffersAt(a[1..], b[1..], k)
  {
    if k < |a| && k + 1 < |b| {
      assert a[..k + 1] == [a[0]] + a[1..][..k] && b[..k + 1] == [b[0]] + b[1..][..k];
      assert a[..k + 1][1..] == a[1..][..k] && b[..k + 1][1..] == b[1..][..k];
    }
  }

  /** Ids are ordered by their first differing character, a prefix before what it begins. */
  lemma {:induction false} LessByFirstDifference(a: Id, b: Id)
    ensures Less(a, b) <==> exists k: nat :: DiffersAt(a, b, k)
  {
    if b != "" && a == "" {
      assert DiffersAt(a, b, 0);
    } else if a != "" && b != "" && a[0] == b[0] {
      LessByFirstDifference(a[1..], b[1..]);
      forall k: nat | DiffersAt(a, b, k) ensures Less(a[1..], b[1..]) {
        DiffersLater(a, b, k - 1);
        assert DiffersAt(a[1..], b[1..], k - 1);
      }
      if Less(a[1..], b[1..]) {
        var k: nat :| DiffersAt(a[1..], b[1..], k);
        DiffersLater(a, b, k);
      }
    } else if a != "" && b != "" {
      assert a[0] < b[0] ==> DiffersAt(a, b, 0);
      forall k: nat | DiffersAt(a, b, k) ensures a[0] < b[0] { assert k > 0 ==> a[..k][0] == b[..k][0]; }
    }
  }

  /** Past the cursor, spelled out. */
  ghost predicate Later(cursor: Option<Id>, id: Id) {
    cursor == None || cursor == Some("") || exists k: nat :: DiffersAt(cursor.value, id, k)
  }

  lemma {:induction false} FreshCounts(cursor: Option<Id>, inbox: seq<Id>, id: Id)
    ensures multiset(FreshOf(cursor, inbox))[id] == if Past(cursor, id) then multiset(inbox)[id] else 0
  {
    if inbox != [] {
      var n := |inbox| - 1;
      FreshCounts(cursor, inbox[..n], id);
      assert inbox == inbox[..n] + [inbox[n]];
    }
  }

  /** Every message past the cursor is handed over, as often as it lies there, and nothing else; the inbox stays. */
  lemma {:induction false} DrainInFields(s: State, id: Id)
    ensures var s' := Step(s, Drain);
      s'.inbox == s.inbox && (s' == s <==> forall x :: x in s.inbox ==> !Later(s.cursor, x))
    ensures var s' := Step(s, Drain); s' != s ==>
      && |s'.drains| == |s.drains| + 1 && s'.drains[..|s.drains|] == s.drains
      && multiset(s'.drains[|s.drains|])[id] == (if Later(s.cursor, id) then multiset(s.inbox)[id] else 0)
  {
    forall x ensures Later(s.cursor, x) <==> Past(s.cursor, x) { if s.cursor.Some? { LessByFirstDifference(s.cursor.value, x); } }
    var ids := FreshOf(s.cursor, s.inbox);
    FreshCounts(s.cursor, s.inbox, id);
    if ids == [] {
      forall x | x in s.inbox ensures !Later(s.cursor, x) { assert Past(s.cursor, x) ==> x in ids; }
    } else {
      assert ids[0] in s.inbox && Past(s.cursor, ids[0]);
      assert |InOrder(ids)| > 0;
    }
  }

  /** In order of their ids, and the cursor is the last of them. */
  lemma {:induction false} HandedOverInOrder(s: State, i: nat, j: nat)
    requires Step(s, Drain) != s && i < j < |Step(s, Drain).drains[|s.drains|]|
    ensures var batch := Step(s, Drain).drains[|s.drains|];
      && Step(s, Drain).cursor == Some(batch[|batch| - 1])
      && (batch[i] == batch[j] || exists k: nat :: DiffersAt(batch[i], batch[j], k))
  {
    DrainMoves(s);
    var batch := Step(s, Drain).drains[|s.drains|];
    LessIsTotal(batch[i], batch[j]);
    LessByFirstDifference(batch[i], batch[j]);
  }

  /** Only a drain moves the cursor or hands anything over; messages come at the end and go from their place. */
  lemma {:induction false} OthersInFields(s: State, op: Op)
    requires !op.Drain?
    ensures var s' := Step(s, op);
      && s'.cursor == s.cursor && s'.drains == s.drains
      && (op.Arrive? ==> s'.inbox == s.inbox + [op.id])
      && (op.Handle? && op.k < |s.inbox| ==> s.inbox == s'.inbox[..op.k] + [s.inbox[op.k]] + s'.inbox[op.k..])
  {
  }
}
