/**
 Draining an inbox at a stop: every message whose id is past the cursor is handed over, in id order, and
 the cursor moves to the last of them. Ids are compared as strings, and an unset or empty cursor is none.
 */
module StopDrain {
  import opened Options

  type Id = string

  // ---------------------------------------------------------------- the order of ids

  predicate Less(a: Id, b: Id) {
    if b == "" then false
    else if a == "" then true
    else a[0] < b[0] || (a[0] == b[0] && Less(a[1..], b[1..]))
  }

  predicate Sorted(ids: seq<Id>) {
    forall i, j :: 0 <= i < j < |ids| ==> !Less(ids[j], ids[i])
  }

  function Insert(id: Id, ids: seq<Id>): (r: seq<Id>)
    ensures multiset(r) == multiset(ids) + multiset{id}
    ensures forall x :: x in r <==> x in ids || x == id
  {
    if ids == [] then [id]
    else if Less(ids[0], id) then
      assert ids == [ids[0]] + ids[1..];
      [ids[0]] + Insert(id, ids[1..])
    else [id] + ids
  }

  function InOrder(ids: seq<Id>): (r: seq<Id>)
    ensures multiset(r) == multiset(ids) && |r| == |ids|
    ensures forall x :: x in r <==> x in ids
  {
    if ids == [] then []
    else
      assert ids == [ids[0]] + ids[1..];
      var r := Insert(ids[0], InOrder(ids[1..]));
      assert |multiset(r)| == |r| && |multiset(ids)| == |ids|;
      r
  }

  // ---------------------------------------------------------------- a drain

  datatype State = State(inbox: seq<Id>, cursor: Option<Id>, drains: seq<seq<Id>>)

  const START := State([], None, [])

  predicate Past(cursor: Option<Id>, id: Id) {
    cursor.None? || cursor.value == "" || Less(cursor.value, id)
  }

  function FreshOf(cursor: Option<Id>, inbox: seq<Id>): (r: seq<Id>)
    ensures forall x :: x in r <==> x in inbox && Past(cursor, x)
  {
    if inbox == [] then []
    else
      var n := |inbox| - 1;
      assert inbox == inbox[..n] + [inbox[n]];
      if Past(cursor, inbox[n]) then FreshOf(cursor, inbox[..n]) + [inbox[n]] else FreshOf(cursor, inbox[..n])
  }

  function Drained(s: State): State {
    var batch := InOrder(FreshOf(s.cursor, s.inbox));
    if batch == [] then s else s.(cursor := Some(batch[|batch| - 1]), drains := s.drains + [batch])
  }

  /** `Arrive` files a message; `Handle` moves one out of the inbox. */
  datatype Op = Arrive(id: Id) | Handle(k: nat) | Drain

  function Step(s: State, op: Op): State {
    match op
    case Arrive(id) => s.(inbox := s.inbox + [id])
    case Handle(k) => if k < |s.inbox| then s.(inbox := s.inbox[..k] + s.inbox[k + 1..]) else s
    case Drain => Drained(s)
  }

  function After(ops: seq<Op>): State {
    if ops == [] then START else Step(After(ops[..|ops| - 1]), ops[|ops| - 1])
  }

  class AgentInbox {
    var inbox: seq<Id>
    var cursor: Option<Id>
    var drains: seq<seq<Id>>

    ghost function Model(): State
      reads this
    {
      State(inbox, cursor, drains)
    }

    constructor ()
      ensures Model() == START
    {
      inbox, cursor, drains := [], None, [];
    }

    method DrainForStop() returns (block: bool, batch: seq<Id>)
      modifies this`cursor, this`drains
      ensures Model() == Drained(old(Model()))
      ensures batch == InOrder(FreshOf(old(cursor), inbox)) && block == (batch != [])
    {
      batch := [];
      for i := 0 to |inbox|
        modifies {}
        invariant batch == FreshOf(cursor, inbox[..i])
      {
        assert inbox[..i + 1][..i] == inbox[..i];
        if cursor.None? || cursor.value == "" || Less(cursor.value, inbox[i]) { batch := batch + [inbox[i]]; }
      }
      assert inbox[..|inbox|] == inbox;
      batch := InOrder(batch);
      if batch == [] { return false, []; }
      cursor := Some(batch[|batch| - 1]);
      drains := drains + [batch];
      block := true;
    }
  }
}
