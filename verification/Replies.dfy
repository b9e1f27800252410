/**
 Reply deadlines: which routed messages open an obligation, what closes it, and the sweep that first
 re-delivers and then escalates what nobody answered.

 Whether the original message can still be found in its recipient's mailbox is an input of the sweep.
 `history` is what happened to each obligation, oldest first.
 */
module Replies {
  import opened Options

  type Id = string

  const REPLY_DEADLINE_MS: nat := 15 * 60 * 1000

  datatype Message = Message(
    id: Id, sender: Id, to: Id, subject: string, body: string, conversation: string,
    inReplyTo: Option<Id>, requiresReply: bool, hops: int)

  datatype Entry = Entry(sender: Id, to: Id, conversation: string, due: int, redelivered: bool)

  datatype Event = Opened(at: int) | Reminded(at: int) | Escalated(at: int, found: bool) | Answered(at: int)

  datatype State = State(pending: map<Id, Entry>, history: map<Id, seq<Event>>)

  const START := State(map[], map[])

  function HistoryOf(s: State, id: Id): seq<Event> {
    if id in s.history then s.history[id] else []
  }

  function Noted(s: State, id: Id, e: Event): State {
    s.(history := s.history[id := HistoryOf(s, id) + [e]])
  }

  // ---------------------------------------------------------------- routing past

  /** The message is an answer to this obligation: by its own reference, or said by who owes it in the same conversation. */
  predicate Answers(m: Message, id: Id, e: Entry) {
    (m.inReplyTo == Some(id) && id != "") || (e.to == m.sender && e.conversation != "" && e.conversation == m.conversation)
  }

  /** The obligations in `left` still to be looked at; of the others, those this message answers are closed. */
  function ClosedBut(s: State, m: Message, now: int, left: set<Id>): State {
    State(map id | id in s.pending && (id in left || !Answers(m, id, s.pending[id])) :: s.pending[id],
          map id | id in s.history.Keys + s.pending.Keys ::
            if id in s.pending && id !in left && Answers(m, id, s.pending[id]) then HistoryOf(s, id) + [Answered(now)] else HistoryOf(s, id))
  }

  predicate Opens(m: Message, targets: seq<Id>) {
    m.requiresReply && |targets| == 1 && targets[0] != m.sender
  }

  function Tracked(s: State, m: Message, targets: seq<Id>, now: int): State {
    var s1 := ClosedBut(s, m, now, {});
    if !Opens(m, targets) then s1
    else Noted(s1.(pending := s1.pending[m.id := Entry(m.sender, targets[0], m.conversation, now + REPLY_DEADLINE_MS, false)]), m.id, Opened(now))
  }

  // ---------------------------------------------------------------- the sweep

  predicate Due(s: State, id: Id, now: int) {
    id in s.pending && s.pending[id].due <= now
  }

  predicate Reminds(s: State, id: Id, now: int, found: set<Id>) {
    Due(s, id, now) && !s.pending[id].redelivered && id in found
  }

  function ActedOn(s: State, id: Id, now: int, found: set<Id>): State {
    if !Due(s, id, now) then s
    else if Reminds(s, id, now, found) then
      Noted(s.(pending := s.pending[id := s.pending[id].(redelivered := true, due := now + REPLY_DEADLINE_MS)]), id, Reminded(now))
    else
      Noted(s.(pending := s.pending - {id}), id, Escalated(now, id in found))
  }

  /** The sweep has acted on what is due, but for the obligations still `left` to look at. */
  function SweptBut(s: State, now: int, found: set<Id>, left: set<Id>): State {
    State(map id | id in s.pending && (id in left || !Due(s, id, now) || Reminds(s, id, now, found)) ::
            if id in left || !Due(s, id, now) then s.pending[id] else s.pending[id].(redelivered := true, due := now + REPLY_DEADLINE_MS),
          map id | id in s.history.Keys + s.pending.Keys ::
            if id in left || !Due(s, id, now) then HistoryOf(s, id)
            else if Reminds(s, id, now, found) then HistoryOf(s, id) + [Reminded(now)]
            else HistoryOf(s, id) + [Escalated(now, id in found)])
  }

  function Swept(s: State, now: int, found: set<Id>): State {
    SweptBut(s, now, found, {})
  }

  function DueIds(s: State, now: int): set<Id> {
    set id | id in s.pending && Due(s, id, now)
  }

  /** Those that are due, but for the ones still `left` to look at. */
  function DueBut(s: State, now: int, left: set<Id>): set<Id> {
    DueIds(s, now) - left
  }

  lemma {:induction false} OneMoreDue(s: State, now: int, left: set<Id>, id: Id)
    requires id in left && left <= s.pending.Keys
    ensures |DueBut(s, now, left - {id})| == |DueBut(s, now, left)| + if Due(s, id, now) then 1 else 0
  {
    assert DueBut(s, now, left - {id}) == if Due(s, id, now) then DueBut(s, now, left) + {id} else DueBut(s, now, left);
  }

  /** Every obligation has a history, so that listing histories lists them all. */
  predicate Listed(s: State) {
    s.pending.Keys <= s.history.Keys
  }

  lemma {:induction false} NothingYet(s: State, m: Message, now: int, found: set<Id>)
    requires Listed(s)
    ensures ClosedBut(s, m, now, s.pending.Keys) == s && SweptBut(s, now, found, s.pending.Keys) == s
  {
    var c, d := ClosedBut(s, m, now, s.pending.Keys), SweptBut(s, now, found, s.pending.Keys);
    assert s.history.Keys + s.pending.Keys == s.history.Keys;
    assert c.pending == s.pending && c.history == s.history;
    assert d.pending == s.pending && d.history == s.history;
  }

  lemma {:induction false} OneMoreClosed(s: State, m: Message, now: int, left: set<Id>, id: Id)
    requires id in left && left <= s.pending.Keys
    ensures var c := ClosedBut(s, m, now, left);
      ClosedBut(s, m, now, left - {id}) ==
        if Answers(m, id, s.pending[id]) then Noted(c.(pending := c.pending - {id}), id, Answered(now)) else c
  {
    var c, d := ClosedBut(s, m, now, left), ClosedBut(s, m, now, left - {id});
    if Answers(m, id, s.pending[id]) {
      var e := Noted(c.(pending := c.pending - {id}), id, Answered(now));
      assert d.pending == e.pending;
      assert d.history == e.history;
    } else {
      assert d.pending == c.pending;
      assert d.history == c.history;
    }
  }

  lemma {:induction false} OneMoreSwept(s: State, now: int, found: set<Id>, left: set<Id>, id: Id)
    requires id in left && left <= s.pending.Keys
    ensures var c := SweptBut(s, now, found, left); id in c.pending && c.pending[id] == s.pending[id]
    ensures SweptBut(s, now, found, left - {id}) == ActedOn(SweptBut(s, now, found, left), id, now, found)
  {
    var c, d := SweptBut(s, now, found, left), SweptBut(s, now, found, left - {id});
    assert c.pending[id] == s.pending[id] && HistoryOf(c, id) == HistoryOf(s, id);
    assert d.pending == ActedOn(c, id, now, found).pending;
    HistoriesSwept(s, now, found, left, id);
  }

  lemma {:induction false} HistoriesSwept(s: State, now: int, found: set<Id>, left: set<Id>, id: Id)
    requires id in left && left <= s.pending.Keys
    ensures SweptBut(s, now, found, left - {id}).history == ActedOn(SweptBut(s, now, found, left), id, now, found).history
  {
    var c, d := SweptBut(s, now, found, left), SweptBut(s, now, found, left - {id});
    assert c.pending[id] == s.pending[id] && HistoryOf(c, id) == HistoryOf(s, id);
    var e := ActedOn(c, id, now, found);
    assert d.history.Keys == e.history.Keys;
    assert d.history == e.history;
  }

  // ---------------------------------------------------------------- the object

  datatype Op = Route(message: Message, targets: seq<Id>, now: int) | Sweep(now: int, found: set<Id>)

  function Step(s: State, op: Op): State {
    match op
    case Route(m, targets, now) => Tracked(s, m, targets, now)
    case Sweep(now, found) => Swept(s, now, found)
  }

  function After(ops: seq<Op>): State {
    if ops == [] then START else Step(After(ops[..|ops| - 1]), ops[|ops| - 1])
  }

  class ReplyLedger {
    var pending: map<Id, Entry>
    var history: map<Id, seq<Event>>

    ghost function Model(): State
      reads this
    {
      State(pending, history)
    }

    ghost predicate Valid()
      reads this
    {
      Listed(Model())
    }

    constructor ()
      ensures Valid() && Model() == START
    {
      pending, history := map[], map[];
    }

    method Note(id: Id, e: Event)
      modifies this`history
      ensures Model() == Noted(old(Model()), id, e)
    {
      history := history[id := (if id in history then history[id] else []) + [e]];
    }

    method TrackReplies(m: Message, targets: seq<Id>, now: int)
      requires Valid()
      modifies this
      ensures Valid() && Model() == Tracked(old(Model()), m, targets, now)
    {
      ghost var s0 := Model();
      var entries := pending;
      var todo := entries.Keys;
      NothingYet(s0, m, now, {});
      while todo != {}
        invariant todo <= entries.Keys && entries == s0.pending
        invariant Model() == ClosedBut(s0, m, now, todo)
        decreases todo
      {
        var id :| id in todo;
        OneMoreClosed(s0, m, now, todo, id);
        todo := todo - {id};
        if Answers(m, id, entries[id]) {
          pending := pending - {id};
          Note(id, Answered(now));
        }
      }
      if m.requiresReply && |targets| == 1 && targets[0] != m.sender {
        pending := pending[m.id := Entry(m.sender, targets[0], m.conversation, now + REPLY_DEADLINE_MS, false)];
        Note(m.id, Opened(now));
      }
    }

    method ActOn(id: Id, e: Entry, now: int, found: set<Id>) returns (acted: bool)
      requires id in pending && pending[id] == e
      modifies this
      ensures Model() == ActedOn(old(Model()), id, now, found) && acted == (e.due <= now)
    {
      if e.due > now { return false; }
      if !e.redelivered && id in found {
        pending := pending[id := e.(redelivered := true, due := now + REPLY_DEADLINE_MS)];
        Note(id, Reminded(now));
      } else {
        pending := pending - {id};
        Note(id, Escalated(now, id in found));
      }
      acted := true;
    }

    method SweepUnansweredReplies(now: int, found: set<Id>) returns (acted: nat)
      requires Valid()
      modifies this
      ensures Valid() && Model() == Swept(old(Model()), now, found) && acted == |DueIds(old(Model()), now)|
    {
      ghost var s0 := Model();
      var entries := pending;
      var todo := entries.Keys;
      NothingYet(s0, Message("", "", "", "", "", "", None, false, 0), now, found);
      acted := 0;
      assert DueBut(s0, now, todo) == {};
      while todo != {}
        invariant todo <= entries.Keys && entries == s0.pending
        invariant Model() == SweptBut(s0, now, found, todo)
        invariant acted == |DueBut(s0, now, todo)|
        decreases todo
      {
        var id :| id in todo;
        OneMoreSwept(s0, now, found, todo, id);
        OneMoreDue(s0, now, todo, id);
        var due := ActOn(id, entries[id], now, found);
        if due { acted := acted + 1; }
        todo := todo - {id};
      }
      assert DueBut(s0, now, todo) == DueIds(s0, now);
    }
  }
}
