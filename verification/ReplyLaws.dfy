/** Who owes whom an answer, and until when, in the fields of the messages themselves. */
module ReplyLaws {
  import opened Options
  import opened Replies
  import opened ReplyRuns

  /** The message asks its one other recipient for an answer. */
  predicate Asks(m: Message, targets: seq<Id>) {
    m.requiresReply && |targets| == 1 && targets[0] != m.sender
  }

  /** The message closes this obligation: it refers to it, or it comes from who owes the answer, in the same conversation. */
  predicate Settles(m: Message, id: Id, ower: Id, conversation: string) {
    (id != "" && m.inReplyTo == Some(id)) || (m.sender == ower && m.conversation == conversation && conversation != "")
  }

  /** What one step makes of the obligation with this id, if there is one. */
  function Becomes(e: Option<Entry>, op: Op, id: Id): Option<Entry> {
    match op
    case Route(m, targets, now) =>
      if Asks(m, targets) && m.id == id then Some(Entry(m.sender, targets[0], m.conversation, now + 900000, false))
      else if e.Some? && Settles(m, id, e.value.to, e.value.conversation) then None
      else e
    case Sweep(now, found) =>
      if e.None? || now < e.value.due then e
      else if !e.value.redelivered && id in found then Some(e.value.(redelivered := true, due := now + 900000))
      else None
  }

  function EntryAt(s: State, id: Id): Option<Entry> {
    if id in s.pending then Some(s.pending[id]) else None
  }

  /** Every step, obligation by obligation. */
  lemma {:induction false} StepInFields(s: State, op: Op, id: Id)
    ensures EntryAt(Step(s, op), id) == Becomes(EntryAt(s, id), op, id)
  {
  }

  /** The i-th step of a run opened this obligation. */
  predicate OpenedAt(ops: seq<Op>, i: nat, id: Id) {
    i < |ops| && ops[i].Route? && ops[i].message.id == id && Asks(ops[i].message, ops[i].targets)
  }

  /** Nothing routed after the i-th step opened it again or answered it. */
  predicate UnansweredSince(ops: seq<Op>, i: nat, id: Id)
    requires OpenedAt(ops, i, id)
  {
    forall k :: i < k < |ops| && ops[k].Route? ==>
      !OpenedAt(ops, k, id) && !Settles(ops[k].message, id, ops[i].targets[0], ops[i].message.conversation)
  }

  predicate OwedSince(ops: seq<Op>, i: nat, id: Id, e: Entry) {
    && OpenedAt(ops, i, id) && UnansweredSince(ops, i, id)
    && e.sender == ops[i].message.sender && e.to == ops[i].targets[0] && e.conversation == ops[i].message.conversation
  }

  lemma {:induction false} StillOwed(ops: seq<Op>, op: Op, i: nat, id: Id, e: Entry, e': Entry)
    requires OwedSince(ops, i, id, e) && Becomes(Some(e), op, id) == Some(e')
    requires !(op.Route? && op.message.id == id && Asks(op.message, op.targets))
    ensures OwedSince(ops + [op], i, id, e')
  {
    var longer := ops + [op];
    forall k | i < k < |longer| && longer[k].Route?
      ensures !OpenedAt(longer, k, id) && !Settles(longer[k].message, id, longer[i].targets[0], longer[i].message.conversation)
    {
      if k < |ops| { assert !OpenedAt(ops, k, id); }
    }
  }

  /**
   After any run, what is pending under an id was asked by a message of that id: it names that message's sender,
   its one recipient and its conversation, and nothing routed since has answered it.
   */
  lemma {:induction false} PendingIsOwed(ops: seq<Op>, id: Id)
    requires id in After(ops).pending
    ensures exists i: nat :: OwedSince(ops, i, id, After(ops).pending[id])
  {
    var before, op := ops[..|ops| - 1], ops[|ops| - 1];
    assert ops == before + [op];
    StepInFields(After(before), op, id);
    var e' := After(ops).pending[id];
    if op.Route? && op.message.id == id && Asks(op.message, op.targets) {
      assert OwedSince(ops, |ops| - 1, id, e');
    } else {
      PendingIsOwed(before, id);
      var e := After(before).pending[id];
      var i: nat :| OwedSince(before, i, id, e);
      StillOwed(before, op, i, id, e, e');
    }
  }
}
