/** What every run of routed messages and deadline sweeps keeps of the reply obligations. */
module ReplyRuns {
  import opened Options
  import opened Replies

  // ---------------------------------------------------------------- the life of an obligation

  /** The event that has an obligation under way. */
  predicate IsOpening(e: Event) {
    e.Opened? || e.Reminded?
  }

  function LastOf(h: seq<Event>): Option<Event> {
    if h == [] then None else Some(h[|h| - 1])
  }

  predicate UnderWay(h: seq<Event>) {
    LastOf(h).Some? && IsOpening(LastOf(h).value)
  }

  /** What may follow what: a reminder comes once and a deadline after the opening, an escalation a deadline after the last of either. */
  predicate Follows(h: seq<Event>, e: Event) {
    match e
    case Opened(_) => true
    case Reminded(at) => LastOf(h).Some? && LastOf(h).value.Opened? && at >= LastOf(h).value.at + REPLY_DEADLINE_MS
    case Escalated(at, found) =>
      UnderWay(h) && at >= LastOf(h).value.at + REPLY_DEADLINE_MS && (found ==> LastOf(h).value.Reminded?)
    case Answered(_) => UnderWay(h)
  }

  predicate Orderly(h: seq<Event>) {
    h == [] || (Orderly(h[..|h| - 1]) && Follows(h[..|h| - 1], h[|h| - 1]))
  }

  /** An entry says where its obligation stands. */
  predicate EntryFits(s: State, id: Id) {
    var h := HistoryOf(s, id);
    && Orderly(h)
    && (id in s.pending <==> UnderWay(h))
    && (id in s.pending ==> s.pending[id].redelivered == LastOf(h).value.Reminded? && s.pending[id].due == LastOf(h).value.at + REPLY_DEADLINE_MS)
  }

  lemma {:induction false} OrderlyGrows(h: seq<Event>, e: Event)
    requires Orderly(h) && Follows(h, e)
    ensures Orderly(h + [e]) && LastOf(h + [e]) == Some(e)
  {
    assert (h + [e])[..|h|] == h;
  }

  lemma {:induction false} ClosingFits(s: State, m: Message, now: int, id: Id)
    requires EntryFits(s, id)
    ensures EntryFits(ClosedBut(s, m, now, {}), id)
  {
    var s', h := ClosedBut(s, m, now, {}), HistoryOf(s, id);
    if id in s.pending && Answers(m, id, s.pending[id]) {
      OrderlyGrows(h, Answered(now));
      assert HistoryOf(s', id) == h + [Answered(now)];
    } else {
      assert HistoryOf(s', id) == h;
    }
  }

  lemma {:induction false} SweepFits(s: State, now: int, found: set<Id>, id: Id)
    requires EntryFits(s, id)
    ensures EntryFits(Swept(s, now, found), id)
  {
    var s', h := Swept(s, now, found), HistoryOf(s, id);
    if !Due(s, id, now) {
      assert HistoryOf(s', id) == h;
    } else {
      var e := if Reminds(s, id, now, found) then Reminded(now) else Escalated(now, id in found);
      OrderlyGrows(h, e);
      assert HistoryOf(s', id) == h + [e];
    }
  }

  lemma {:induction false} TrackingFits(s: State, m: Message, targets: seq<Id>, now: int, id: Id)
    requires EntryFits(s, id)
    ensures EntryFits(Tracked(s, m, targets, now), id)
  {
    ClosingFits(s, m, now, id);
    var s1 := ClosedBut(s, m, now, {});
    if Opens(m, targets) && id == m.id { OrderlyGrows(HistoryOf(s1, id), Opened(now)); }
  }

  /**
   Over any run, what happened to a message's obligation is orderly (each opening is followed by at most
   one reminder, a deadline later, and is closed by one answer or one escalation), and it is pending
   exactly while it was opened or reminded last, until one deadline after that.
   */
  lemma {:induction false} RunIsOrderly(ops: seq<Op>, id: Id)
    ensures EntryFits(After(ops), id)
  {
    if ops != [] {
      var before := ops[..|ops| - 1];
      RunIsOrderly(before, id);
      match ops[|ops| - 1]
      case Route(m, targets, now) => TrackingFits(After(before), m, targets, now, id);
      case Sweep(now, found) => SweepFits(After(before), now, found, id);
    }
  }

  function Count(h: seq<Event>, p: Event -> bool): nat {
    if h == [] then 0 else Count(h[..|h| - 1], p) + if p(h[|h| - 1]) then 1 else 0
  }

  function Openings(h: seq<Event>): nat { Count(h, (e: Event) => e.Opened?) }

  function Reminders(h: seq<Event>): nat { Count(h, (e: Event) => e.Reminded?) }

  function Closings(h: seq<Event>): nat { Count(h, (e: Event) => !IsOpening(e)) }

  lemma {:induction false} OrderlyCounts(h: seq<Event>)
    requires Orderly(h)
    ensures Reminders(h) + (if LastOf(h).Some? && LastOf(h).value.Opened? then 1 else 0) <= Openings(h)
    ensures Closings(h) + (if UnderWay(h) then 1 else 0) <= Openings(h)
  {
    if h != [] { OrderlyCounts(h[..|h| - 1]); }
  }

  /** Each opening is reminded of at most once and closed at most once; a pending one is still to be closed, and a fresh one to be reminded of. */
  lemma {:induction false} OneReminderPerOpening(ops: seq<Op>, id: Id)
    ensures var s := After(ops); var h := HistoryOf(s, id);
      && Reminders(h) + (if id in s.pending && !s.pending[id].redelivered then 1 else 0) <= Openings(h)
      && Closings(h) + (if id in s.pending then 1 else 0) <= Openings(h)
  {
    RunIsOrderly(ops, id);
    OrderlyCounts(HistoryOf(After(ops), id));
  }

  // ---------------------------------------------------------------- entering and leaving

  /** An obligation leaves only by an answer or by an escalation, and enters only by a message to one other recipient that asks for a reply. */
  lemma {:induction false} EntersAndLeaves(s: State, op: Op, id: Id)
    ensures id in s.pending && id !in Step(s, op).pending <==>
      id in s.pending && match op
        case Route(m, targets, now) => Answers(m, id, s.pending[id]) && !(Opens(m, targets) && id == m.id)
        case Sweep(now, found) => s.pending[id].due <= now && (s.pending[id].redelivered || id !in found)
    ensures id !in s.pending && id in Step(s, op).pending <==>
      id !in s.pending && op.Route? && Opens(op.message, op.targets) && id == op.message.id
  {
  }

  // ---------------------------------------------------------------- the measure

  function Unreminded(s: State): set<Id> {
    set id | id in s.pending && !s.pending[id].redelivered
  }

  /** Two for each fresh obligation, one for each that was reminded of. */
  function Measure(s: State): nat {
    |s.pending.Keys| + |Unreminded(s)|
  }

  lemma {:induction false} SubsetIsSmaller<T>(a: set<T>, b: set<T>)
    requires a <= b
    ensures |a| <= |b|
  {
    assert b == a + (b - a);
  }

  /** A sweep opens nothing, and the measure drops by at least the number of obligations it acted on. */
  lemma {:induction false} SweepsWindDown(s: State, now: int, found: set<Id>)
    ensures Swept(s, now, found).pending.Keys <= s.pending.Keys
    ensures Measure(Swept(s, now, found)) + |DueIds(s, now)| <= Measure(s)
  {
    var s', due := Swept(s, now, found), DueIds(s, now);
    var reminded := set id | id in due && Reminds(s, id, now, found);
    SweptSets(s, now, found, reminded);
    Counting(s.pending.Keys, due - reminded);
    Counting(Unreminded(s), reminded);
    Counting(due, reminded);
    SubsetIsSmaller(Unreminded(s'), Unreminded(s) - reminded);
  }

  lemma {:induction false} SweptSets(s: State, now: int, found: set<Id>, reminded: set<Id>)
    requires forall id :: id in reminded <==> Reminds(s, id, now, found)
    ensures var s' := Swept(s, now, found);
      && reminded <= DueIds(s, now) <= s.pending.Keys && reminded <= Unreminded(s)
      && s'.pending.Keys == s.pending.Keys - (DueIds(s, now) - reminded)
      && Unreminded(s') <= Unreminded(s) - reminded
  {
  }

  lemma {:induction false} Counting<T>(a: set<T>, b: set<T>)
    requires b <= a
    ensures |a - b| + |b| == |a|
  {
    assert a == (a - b) + b;
  }

  function Acted(ops: seq<Op>, base: State): nat {
    if ops == [] then 0
    else
      var s := RunFrom(base, ops[..|ops| - 1]);
      Acted(ops[..|ops| - 1], base) + if ops[|ops| - 1].Sweep? then |DueIds(s, ops[|ops| - 1].now)| else 0
  }

  function RunFrom(base: State, ops: seq<Op>): State {
    if ops == [] then base else Step(RunFrom(base, ops[..|ops| - 1]), ops[|ops| - 1])
  }

  /** With no more messages routed, all the sweeps to come together act no more often than twice per obligation. */
  lemma {:induction false} SilenceEnds(base: State, sweeps: seq<Op>)
    requires forall i :: 0 <= i < |sweeps| ==> sweeps[i].Sweep?
    ensures Measure(RunFrom(base, sweeps)) + Acted(sweeps, base) <= Measure(base) <= 2 * |base.pending|
  {
    SubsetIsSmaller(Unreminded(base), base.pending.Keys);
    if sweeps != [] {
      var n := |sweeps| - 1;
      SilenceEnds(base, sweeps[..n]);
      SweepsWindDown(RunFrom(base, sweeps[..n]), sweeps[n].now, sweeps[n].found);
    }
  }
}
