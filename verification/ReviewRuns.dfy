/** What every run of sweeps, verdicts, board edits and floor changes keeps of the review obligations. */
module ReviewRuns {
  import opened Options
  import opened Reviews

  // ---------------------------------------------------------------- counting queries

  function Asked(queries: seq<Query>, id: Id): nat {
    if queries == [] then 0 else Asked(queries[..|queries| - 1], id) + if queries[|queries| - 1].task == id then 1 else 0
  }

  lemma {:induction false} AskedMore(queries: seq<Query>, q: Query, id: Id)
    ensures Asked(queries + [q], id) == Asked(queries, id) + if q.task == id then 1 else 0
  {
    assert (queries + [q])[..|queries|] == queries;
  }

  // ---------------------------------------------------------------- one visit

  /** Some agent could take the review of this card. */
  predicate Free(s: State, c: Card) {
    c.assignee.Some? && exists i :: 0 <= i < |s.agents| && Suits(s.agents[i], c.assignee.value)
  }

  lemma {:induction false} FreeIsReviewable(s: State, c: Card)
    ensures Free(s, c) == Reviewable(s, c)
  {
  }

  /** A visit may load an agent; it changes nobody's fitness. */
  lemma {:induction false} VisitKeepsFloor(s: State, c: Card, previous: map<Id, string>, fate: Fate, other: Card)
    ensures Free(Visited(s, c, previous, fate).state, other) == Free(s, other)
  {
    var s' := Visited(s, c, previous, fate).state;
    assert |s'.agents| == |s.agents|;
    if other.assignee.Some? {
      forall i | 0 <= i < |s.agents| ensures Suits(s'.agents[i], other.assignee.value) == Suits(s.agents[i], other.assignee.value) {}
    }
  }

  lemma {:induction false} VisitOfAnother(s: State, c: Card, previous: map<Id, string>, fate: Fate, id: Id)
    requires c.id != id
    ensures var s' := Visited(s, c, previous, fate).state;
      (id in s'.owes <==> id in s.owes) && Asked(s'.queries, id) == Asked(s.queries, id)
  {
    forall r: Id { AskedMore(s.queries, Query(c.id, r), id); }
  }

  predicate Throws(fate: Fate) {
    fate.NotSent? || fate.NotRecorded?
  }

  /** What a visit does to the card it looks at. */
  lemma {:induction false} VisitOfItself(s: State, c: Card, previous: map<Id, string>, fate: Fate)
    ensures var v := Visited(s, c, previous, fate);
      var due := Ripe(c) && c.id in Minted(s, c, previous) && Free(s, c);
      (c.id in v.state.owes <==> c.id in Minted(s, c, previous) && !(due && !Throws(fate)))
      && Asked(v.state.queries, c.id) == Asked(s.queries, c.id) + (if due && !fate.NotSent? then 1 else 0)
      && (v.threw <==> due && Throws(fate))
  {
    FreeIsReviewable(s, c);
    forall r: Id { AskedMore(s.queries, Query(c.id, r), c.id); }
  }

  // ---------------------------------------------------------------- one sweep, card by card

  predicate UniqueIds(board: seq<Card>) {
    forall i, j :: 0 <= i < j < |board| ==> board[i].id != board[j].id
  }

  lemma {:induction false} SweepOfAnother(s: State, todo: seq<Card>, previous: map<Id, string>, fates: map<Id, Fate>, id: Id)
    requires forall i :: 0 <= i < |todo| ==> todo[i].id != id
    ensures var s' := SweptFrom(s, todo, previous, fates);
      (id in s'.owes <==> id in s.owes) && Asked(s'.queries, id) == Asked(s.queries, id)
    decreases |todo|
  {
    if todo != [] {
      var v := Visited(s, todo[0], previous, FateOf(fates, todo[0].id));
      VisitOfAnother(s, todo[0], previous, FateOf(fates, todo[0].id), id);
      if !v.threw { SweepOfAnother(v.state, todo[1..], previous, fates, id); }
    }
  }

  /** The obligation a sweep finds or makes for a card. */
  predicate Obliged(owed: bool, c: Card, previous: map<Id, string>) {
    owed || (Ripe(c) && !WasDone(previous, c.id))
  }

  /** A query about this card is called for: it is ripe, owed or freshly done, and somebody is free. */
  predicate Due(s: State, c: Card, previous: map<Id, string>) {
    Ripe(c) && Obliged(c.id in s.owes, c, previous) && Free(s, c)
  }

  /** A throw ends the sweep before it comes to the k-th card. */
  predicate CutShort(s: State, todo: seq<Card>, previous: map<Id, string>, fates: map<Id, Fate>, k: nat)
    requires k <= |todo|
  {
    exists j :: 0 <= j < k && Due(s, todo[j], previous) && Throws(FateOf(fates, todo[j].id))
  }

  lemma {:induction false} DueStays(s: State, c: Card, previous: map<Id, string>, fate: Fate, other: Card)
    requires c.id != other.id
    ensures Due(Visited(s, c, previous, fate).state, other, previous) == Due(s, other, previous)
  {
    VisitOfAnother(s, c, previous, fate, other.id);
    VisitKeepsFloor(s, c, previous, fate, other);
  }

  /** The first visit over, what may cut the sweep short is found among the cards that are left. */
  lemma {:induction false} CutShortLater(s: State, todo: seq<Card>, previous: map<Id, string>, fates: map<Id, Fate>, k: nat)
    requires UniqueIds(todo) && 0 < k < |todo|
    ensures var v := Visited(s, todo[0], previous, FateOf(fates, todo[0].id));
      CutShort(s, todo, previous, fates, k) <==> v.threw || CutShort(v.state, todo[1..], previous, fates, k - 1)
  {
    var first := todo[0];
    var v := Visited(s, first, previous, FateOf(fates, first.id));
    VisitOfItself(s, first, previous, FateOf(fates, first.id));
    forall j | 0 <= j < k - 1 ensures todo[1..][j] == todo[j + 1] && Due(v.state, todo[j + 1], previous) == Due(s, todo[j + 1], previous) {
      DueStays(s, first, previous, FateOf(fates, first.id), todo[j + 1]);
    }
    if CutShort(s, todo, previous, fates, k) {
      var j :| 0 <= j < k && Due(s, todo[j], previous) && Throws(FateOf(fates, todo[j].id));
      if j > 0 { assert todo[1..][j - 1] == todo[j]; }
    }
    if CutShort(v.state, todo[1..], previous, fates, k - 1) {
      var j :| 0 <= j < k - 1 && Due(v.state, todo[1..][j], previous) && Throws(FateOf(fates, todo[1..][j].id));
      assert Due(s, todo[j + 1], previous) && Throws(FateOf(fates, todo[j + 1].id));
    }
  }

  /** What a sweep does about one of its cards, whatever becomes of the queries. */
  lemma {:induction false} SweepOfItself(s: State, todo: seq<Card>, previous: map<Id, string>, fates: map<Id, Fate>, k: nat)
    requires UniqueIds(todo) && k < |todo|
    ensures var c, s' := todo[k], SweptFrom(s, todo, previous, fates);
      var due, fate := Due(s, c, previous), FateOf(fates, c.id);
      if CutShort(s, todo, previous, fates, k) then
        (c.id in s'.owes <==> c.id in s.owes) && Asked(s'.queries, c.id) == Asked(s.queries, c.id)
      else
        (c.id in s'.owes <==> Obliged(c.id in s.owes, c, previous) && !(due && !Throws(fate)))
        && Asked(s'.queries, c.id) == Asked(s.queries, c.id) + if due && !fate.NotSent? then 1 else 0
    decreases |todo|
  {
    var c, first := todo[k], todo[0];
    var fate := FateOf(fates, first.id);
    var v := Visited(s, first, previous, fate);
    VisitOfItself(s, first, previous, fate);
    if k == 0 {
      forall i | 0 <= i < |todo[1..]| ensures todo[1..][i].id != c.id { assert todo[1..][i] == todo[i + 1]; }
      if !v.threw { SweepOfAnother(v.state, todo[1..], previous, fates, c.id); }
    } else {
      assert first.id != c.id && todo[1..][k - 1] == c;
      VisitOfAnother(s, first, previous, fate, c.id);
      DueStays(s, first, previous, fate, c);
      CutShortLater(s, todo, previous, fates, k);
      assert UniqueIds(todo[1..]);
      if !v.threw { SweepOfItself(v.state, todo[1..], previous, fates, k - 1); }
    }
  }

  lemma {:induction false} FindsItself(board: seq<Card>, k: nat)
    requires UniqueIds(board) && k < |board|
    ensures Find(board, board[k].id) == Some(k)
  {
    if k > 0 {
      assert board[0].id != board[k].id;
      assert UniqueIds(board[1..]) && board[1..][k - 1] == board[k];
      FindsItself(board[1..], k - 1);
    }
  }

  /** The state in which a sweep comes to its cards. */
  function Begun(s: State): State {
    s.(owes := Pruned(s.owes, s.board), last := Some(Statuses(s.board)))
  }

  /** A throw ended this sweep before it came to the k-th card of the board. */
  predicate Unreached(s: State, fates: map<Id, Fate>, k: nat)
    requires k <= |s.board|
  {
    s.last.Some? && CutShort(s, s.board, s.last.value, fates, k)
  }

  lemma {:induction false} BegunIsDue(s: State, previous: map<Id, string>)
    requires UniqueIds(s.board)
    ensures forall j :: 0 <= j < |s.board| ==>
      (s.board[j].id in Begun(s).owes <==> s.board[j].id in s.owes) && Due(Begun(s), s.board[j], previous) == Due(s, s.board[j], previous)
  {
    forall j | 0 <= j < |s.board|
      ensures (s.board[j].id in Begun(s).owes <==> s.board[j].id in s.owes) && Due(Begun(s), s.board[j], previous) == Due(s, s.board[j], previous)
    {
      FindsItself(s.board, j);
      assert Free(Begun(s), s.board[j]) == Free(s, s.board[j]);
    }
  }

  /**
   One whole sweep, exactly, whatever becomes of its queries. With unique ids, a card gets a query if and only
   if the floor was learned before, no throw has ended the sweep by then, the card is ripe, an obligation stands
   or the card was not done at the previous sweep, somebody is free, and the mail goes out; the obligation then
   goes unless recording it threw, and otherwise stays or is made.
   */
  lemma {:induction false} SweepAsksExactly(s: State, fates: map<Id, Fate>, k: nat)
    requires UniqueIds(s.board) && k < |s.board|
    ensures var c, s' := s.board[k], Swept(s, fates);
      if s.last.None? || Unreached(s, fates, k) then
        (c.id in s'.owes <==> c.id in s.owes) && Asked(s'.queries, c.id) == Asked(s.queries, c.id)
      else
        var due, fate := Due(s, c, s.last.value), FateOf(fates, c.id);
        (c.id in s'.owes <==> Obliged(c.id in s.owes, c, s.last.value) && !(due && !Throws(fate)))
        && Asked(s'.queries, c.id) == Asked(s.queries, c.id) + if due && !fate.NotSent? then 1 else 0
  {
    FindsItself(s.board, k);
    if s.last.Some? {
      BegunIsDue(s, s.last.value);
      SweepOfItself(Begun(s), s.board, s.last.value, fates, k);
    }
  }

  /** A card under review is not asked about, whatever throws. */
  lemma {:induction false} UnripeIsNotAsked(s: State, todo: seq<Card>, previous: map<Id, string>, fates: map<Id, Fate>, id: Id)
    requires forall i :: 0 <= i < |todo| && todo[i].id == id ==> !Ripe(todo[i])
    ensures var s' := SweptFrom(s, todo, previous, fates);
      (id in s'.owes <==> id in s.owes) && Asked(s'.queries, id) == Asked(s.queries, id)
    decreases |todo|
  {
    if todo != [] {
      var fate := FateOf(fates, todo[0].id);
      var v := Visited(s, todo[0], previous, fate);
      if todo[0].id == id { VisitOfItself(s, todo[0], previous, fate); } else { VisitOfAnother(s, todo[0], previous, fate, id); }
      if !v.threw { UnripeIsNotAsked(v.state, todo[1..], previous, fates, id); }
    }
  }

  /** No query goes out while a review is open. */
  lemma {:induction false} OpenReviewsAreLeftAlone(s: State, fates: map<Id, Fate>, id: Id)
    requires forall i :: 0 <= i < |s.board| && s.board[i].id == id ==> Open(s.board[i])
    ensures Asked(Swept(s, fates).queries, id) == Asked(s.queries, id)
  {
    if s.last.Some? {
      var s1 := Begun(s);
      UnripeIsNotAsked(s1, s.board, s.last.value, fates, id);
    }
  }

  // ---------------------------------------------------------------- settled cards

  predicate DoneOn(board: seq<Card>, id: Id) {
    id in Statuses(board) && Statuses(board)[id] == "done"
  }

  /** Done since the last sweep, and nobody is owed a look at it. */
  predicate Settled(s: State, id: Id) {
    id !in s.owes && (s.last.None? ==> s.queries == []) && (s.last.Some? ==> WasDone(s.last.value, id))
  }

  predicate SweepsFindItDone(s: State, ops: seq<Op>, id: Id) {
    forall i :: 0 <= i < |ops| && ops[i].Sweep? ==> DoneOn(From(s, ops[..i]).board, id)
  }

  predicate NeverRefused(ops: seq<Op>, id: Id) {
    forall i :: 0 <= i < |ops| && ops[i].Verdict? && ops[i].task == id ==> ops[i].agree
  }

  lemma {:induction false} OwedIsMinted(s: State, todo: seq<Card>, previous: map<Id, string>, fates: map<Id, Fate>, id: Id)
    requires id !in s.owes && WasDone(previous, id)
    ensures var s' := SweptFrom(s, todo, previous, fates); id !in s'.owes && Asked(s'.queries, id) == Asked(s.queries, id)
    decreases |todo|
  {
    if todo != [] {
      var fate := FateOf(fates, todo[0].id);
      var v := Visited(s, todo[0], previous, fate);
      if todo[0].id == id { VisitOfItself(s, todo[0], previous, fate); } else { VisitOfAnother(s, todo[0], previous, fate, id); }
      if !v.threw { OwedIsMinted(v.state, todo[1..], previous, fates, id); }
    }
  }

  lemma {:induction false} SweepLearns(s: State, todo: seq<Card>, previous: map<Id, string>, fates: map<Id, Fate>)
    ensures SweptFrom(s, todo, previous, fates).last == s.last
    decreases |todo|
  {
    if todo != [] {
      var v := Visited(s, todo[0], previous, FateOf(fates, todo[0].id));
      if !v.threw { SweepLearns(v.state, todo[1..], previous, fates); }
    }
  }

  lemma {:induction false} SettledSweep(s: State, fates: map<Id, Fate>, id: Id)
    requires Settled(s, id) && DoneOn(s.board, id)
    ensures Settled(Swept(s, fates), id) && Asked(Swept(s, fates).queries, id) == Asked(s.queries, id)
  {
    var s1 := Begun(s);
    if s.last.Some? {
      OwedIsMinted(s1, s.board, s.last.value, fates, id);
      SweepLearns(s1, s.board, s.last.value, fates);
    }
  }

  /** A settled card is asked about by no later sweep while every one finds it done and no verdict refuses it. */
  lemma {:induction false} SettledFrom(s: State, ops: seq<Op>, id: Id)
    requires Settled(s, id) && SweepsFindItDone(s, ops, id) && NeverRefused(ops, id)
    ensures Settled(From(s, ops), id) && Asked(From(s, ops).queries, id) == Asked(s.queries, id)
  {
    if ops != [] {
      var n := |ops| - 1;
      FoundDoneBefore(s, ops, id);
      SettledFrom(s, ops[..n], id);
      if ops[n].Sweep? { SettledSweep(From(s, ops[..n]), ops[n].fates, id); }
    }
  }

  lemma {:induction false} FoundDoneBefore(s: State, ops: seq<Op>, id: Id)
    requires SweepsFindItDone(s, ops, id) && NeverRefused(ops, id) && ops != []
    ensures SweepsFindItDone(s, ops[..|ops| - 1], id) && NeverRefused(ops[..|ops| - 1], id)
  {
    var before := ops[..|ops| - 1];
    forall i | 0 <= i < |before| ensures before[..i] == ops[..i] && before[i] == ops[i] {}
  }

  /** A card that every sweep of a run found done, and that no reviewer refused, is never asked about. */
  lemma {:induction false} SettledCardsAreLeftAlone(ops: seq<Op>, id: Id)
    requires SweepsFindItDone(START, ops, id) && NeverRefused(ops, id)
    ensures Settled(After(ops), id) && Asked(After(ops).queries, id) == 0
  {
    SettledFrom(START, ops, id);
  }

  /** Until the floor has been learned nothing is asked at all. */
  lemma {:induction false} FirstSweepAsksNothing(ops: seq<Op>, first: map<Id, Fate>)
    requires forall i :: 0 <= i < |ops| ==> !ops[i].Sweep?
    ensures After(ops).last == None && After(ops + [Sweep(first)]).queries == []
  {
    NoSweepNoQuery(ops);
    assert (ops + [Sweep(first)])[..|ops|] == ops;
  }

  lemma {:induction false} NoSweepNoQuery(ops: seq<Op>)
    requires forall i :: 0 <= i < |ops| ==> !ops[i].Sweep?
    ensures After(ops).last == None && After(ops).queries == []
  {
    if ops != [] { NoSweepNoQuery(ops[..|ops| - 1]); }
  }

  // ---------------------------------------------------------------- obligations

  lemma {:induction false} OwedStays(s: State, todo: seq<Card>, previous: map<Id, string>, fates: map<Id, Fate>, id: Id)
    requires id in s.owes
    ensures Asked(SweptFrom(s, todo, previous, fates).queries, id) >= Asked(s.queries, id)
    ensures Asked(SweptFrom(s, todo, previous, fates).queries, id) == Asked(s.queries, id) ==> id in SweptFrom(s, todo, previous, fates).owes
    decreases |todo|
  {
    if todo != [] {
      var fate := FateOf(fates, todo[0].id);
      var v := Visited(s, todo[0], previous, fate);
      if todo[0].id == id { VisitOfItself(s, todo[0], previous, fate); } else { VisitOfAnother(s, todo[0], previous, fate, id); }
      if !v.threw {
        if id in v.state.owes { OwedStays(v.state, todo[1..], previous, fates, id); }
        else { AskedGrows(v.state, todo[1..], previous, fates, id); }
      }
    }
  }

  lemma {:induction false} AskedGrows(s: State, todo: seq<Card>, previous: map<Id, string>, fates: map<Id, Fate>, id: Id)
    ensures Asked(SweptFrom(s, todo, previous, fates).queries, id) >= Asked(s.queries, id)
    decreases |todo|
  {
    if todo != [] {
      var fate := FateOf(fates, todo[0].id);
      var v := Visited(s, todo[0], previous, fate);
      if todo[0].id == id { VisitOfItself(s, todo[0], previous, fate); } else { VisitOfAnother(s, todo[0], previous, fate, id); }
      if !v.threw { AskedGrows(v.state, todo[1..], previous, fates, id); }
    }
  }

  predicate OnBoardAtSweeps(s: State, ops: seq<Op>, id: Id) {
    forall i :: 0 <= i < |ops| && ops[i].Sweep? ==> OnBoard(From(s, ops[..i]).board, id)
  }

  lemma {:induction false} OwedStep(s: State, op: Op, id: Id)
    requires id in s.owes && (op.Sweep? ==> OnBoard(s.board, id))
    ensures Asked(Step(s, op).queries, id) >= Asked(s.queries, id)
    ensures Asked(Step(s, op).queries, id) == Asked(s.queries, id) ==> id in Step(s, op).owes
  {
    if op.Sweep? && s.last.Some? {
      var s1 := Begun(s);
      OwedStays(s1, s.board, s.last.value, op.fates, id);
    }
  }

  lemma {:induction false} AskedStep(s: State, op: Op, id: Id)
    ensures Asked(Step(s, op).queries, id) >= Asked(s.queries, id)
  {
    if op.Sweep? && s.last.Some? {
      AskedGrows(Begun(s), s.board, s.last.value, op.fates, id);
    }
  }

  lemma {:induction false} OnBoardBefore(s: State, ops: seq<Op>, id: Id)
    requires OnBoardAtSweeps(s, ops, id) && ops != []
    ensures OnBoardAtSweeps(s, ops[..|ops| - 1], id)
    ensures ops[|ops| - 1].Sweep? ==> OnBoard(From(s, ops[..|ops| - 1]).board, id)
  {
    var before := ops[..|ops| - 1];
    forall i | 0 <= i < |before| ensures before[..i] == ops[..i] && before[i] == ops[i] {}
  }

  /**
   An obligation outlasts any run of sweeps without a free reviewer, failed mails, verdicts and edits:
   while the card is on the board at every sweep, it is still owed until a query has gone out.
   */
  lemma {:induction false} ObligationsSurvive(s: State, ops: seq<Op>, id: Id)
    requires id in s.owes && OnBoardAtSweeps(s, ops, id)
    ensures var s' := From(s, ops);
      && Asked(s'.queries, id) >= Asked(s.queries, id)
      && (id in s'.owes || Asked(s'.queries, id) > Asked(s.queries, id))
  {
    if ops != [] {
      var n := |ops| - 1;
      OnBoardBefore(s, ops, id);
      ObligationsSurvive(s, ops[..n], id);
      var before := From(s, ops[..n]);
      AskedStep(before, ops[n], id);
      if id in before.owes { OwedStep(before, ops[n], id); }
    }
  }

  // ---------------------------------------------------------------- queries are earned

  /** The moments that call for a review of a card: it is ripe and was not done before, or it is refused. */
  predicate Calls(s: State, op: Op, id: Id) {
    match op
    case Sweep(_) => s.last.Some? && !WasDone(s.last.value, id) && exists i :: 0 <= i < |s.board| && s.board[i].id == id && Ripe(s.board[i])
    case Verdict(from, task, agree, patch) => task == id && !agree && patch != Threw && Heard(s, from, task)
    case _ => false
  }

  function CallsFor(ops: seq<Op>, id: Id): nat {
    if ops == [] then 0
    else CallsFor(ops[..|ops| - 1], id) + if Calls(After(ops[..|ops| - 1]), ops[|ops| - 1], id) then 1 else 0
  }

  predicate NoneUnrecorded(fates: map<Id, Fate>) {
    forall id :: id in fates ==> fates[id] != NotRecorded
  }

  /** Boards with unique ids, and no query mailed whose record then threw. */
  predicate Clean(ops: seq<Op>) {
    forall i :: 0 <= i < |ops| ==> (ops[i].Edit? ==> UniqueIds(ops[i].board)) && (ops[i].Sweep? ==> NoneUnrecorded(ops[i].fates))
  }

  lemma {:induction false} PatchKeepsIds(board: seq<Card>, id: Id, review: Review, status: Option<string>)
    requires UniqueIds(board)
    ensures UniqueIds(WithReview(board, id, review, status))
  {
  }

  lemma {:induction false} SweepKeepsIds(s: State, todo: seq<Card>, previous: map<Id, string>, fates: map<Id, Fate>)
    requires UniqueIds(s.board)
    ensures UniqueIds(SweptFrom(s, todo, previous, fates).board)
    decreases |todo|
  {
    if todo != [] {
      var v := Visited(s, todo[0], previous, FateOf(fates, todo[0].id));
      forall r: Id { PatchKeepsIds(s.board, todo[0].id, Review(r, None), None); }
      if !v.threw { SweepKeepsIds(v.state, todo[1..], previous, fates); }
    }
  }

  lemma {:induction false} IdsStayUnique(ops: seq<Op>)
    requires Clean(ops)
    ensures UniqueIds(After(ops).board)
  {
    if ops != [] {
      var before, op := ops[..|ops| - 1], ops[|ops| - 1];
      IdsStayUnique(before);
      var s := After(before);
      match op
      case Sweep(fates) =>
        if s.last.Some? {
          SweepKeepsIds(Begun(s), s.board, s.last.value, fates);
        }
      case Verdict(from, task, agree, patch) =>
        PatchKeepsIds(s.board, task, Review(from, Some(agree)), if agree then None else Some("doing"));
      case _ =>
    }
  }

  lemma {:induction false} EarnedStep(s: State, op: Op, id: Id)
    requires UniqueIds(s.board) && (op.Sweep? ==> NoneUnrecorded(op.fates))
    ensures var s' := Step(s, op);
      Asked(s'.queries, id) + (if id in s'.owes then 1 else 0)
        <= Asked(s.queries, id) + (if id in s.owes then 1 else 0) + (if Calls(s, op, id) then 1 else 0)
  {
    if op.Sweep? && s.last.Some? {
      match Find(s.board, id)
      case Some(k) =>
        SweepAsksExactly(s, op.fates, k);
        assert forall i :: 0 <= i < |s.board| && s.board[i].id == id ==> i == k;
      case None =>
        SweepOfAnother(Begun(s), s.board, s.last.value, op.fates, id);
    }
  }

  /** When no mailed query fails to be recorded by a throw, no card is asked about more often than it came to be done or was refused. */
  lemma {:induction false} QueriesAreEarned(ops: seq<Op>, id: Id)
    requires Clean(ops)
    ensures Asked(After(ops).queries, id) + (if id in After(ops).owes then 1 else 0) <= CallsFor(ops, id)
  {
    if ops != [] {
      var before, op := ops[..|ops| - 1], ops[|ops| - 1];
      assert Clean(before);
      QueriesAreEarned(before, id);
      IdsStayUnique(before);
      EarnedStep(After(before), op, id);
    }
  }

  // ---------------------------------------------------------------- what a throw loses

  lemma {:induction false} StatusOf(board: seq<Card>, k: nat)
    requires UniqueIds(board) && k < |board|
    ensures board[k].id in Statuses(board) && Statuses(board)[board[k].id] == board[k].status
  {
    var n := |board| - 1;
    if k < n {
      StatusOf(board[..n], k);
      assert board[..n][k] == board[k] && board[k].id != board[n].id;
    }
  }

  /** Just done: ripe, not done at the sweep before, and nothing owed yet. */
  predicate JustDone(s: State, c: Card) {
    s.last.Some? && Ripe(c) && !WasDone(s.last.value, c.id) && c.id !in s.owes
  }

  /**
   What a throw costs, exactly: after a sweep over any board with unique ids, whatever becomes of its queries, a
   card that just got done is owed a review or was asked about if and only if no card before it was due with a
   query that throws.
   */
  lemma {:induction false} AbortedSweepLosesReviews(s: State, fates: map<Id, Fate>, k: nat)
    requires UniqueIds(s.board) && k < |s.board| && JustDone(s, s.board[k])
    ensures var id, s' := s.board[k].id, Swept(s, fates);
      (id in s'.owes || Asked(s'.queries, id) > Asked(s.queries, id))
      <==> !exists j :: 0 <= j < k && Due(s, s.board[j], s.last.value) && Throws(FateOf(fates, s.board[j].id))
  {
    SweepAsksExactly(s, fates, k);
  }

  /** A card lost to a throw is asked about by no later sweep while each finds it done and no verdict refuses it. */
  lemma {:induction false} LostReviewsStayLost(s: State, fates: map<Id, Fate>, k: nat, ops: seq<Op>)
    requires UniqueIds(s.board) && k < |s.board| && JustDone(s, s.board[k]) && Unreached(s, fates, k)
    requires SweepsFindItDone(Swept(s, fates), ops, s.board[k].id) && NeverRefused(ops, s.board[k].id)
    ensures Asked(From(Swept(s, fates), ops).queries, s.board[k].id) == Asked(s.queries, s.board[k].id)
  {
    var id := s.board[k].id;
    SweepAsksExactly(s, fates, k);
    SweepLearns(Begun(s), s.board, s.last.value, fates);
    StatusOf(s.board, k);
    SettledFrom(Swept(s, fates), ops, id);
  }

  // ---------------------------------------------------------------- what a silent refusal loses

  function Entry(board: seq<Card>, id: Id): Option<Card> {
    match Find(board, id)
    case None => None
    case Some(k) => Some(board[k])
  }

  /** A patch changes the review of its own card and of no other. */
  lemma {:induction false} PatchedEntry(board: seq<Card>, id: Id, review: Review, other: Id)
    ensures var after := WithReview(board, id, review, None);
      Entry(after, other) == if other == id && OnBoard(board, id) then Some(Entry(board, id).value.(review := Some(review))) else Entry(board, other)
  {
    if Find(board, id).Some? { UpdateKeepsFind(board, Find(board, id).value, board[Find(board, id).value].(review := Some(review)), other); }
  }

  lemma {:induction false} UpdateKeepsFind(board: seq<Card>, k: nat, c: Card, id: Id)
    requires k < |board| && c.id == board[k].id
    ensures Find(board[k := c], id) == Find(board, id)
  {
    if k == 0 {
      assert board[k := c][1..] == board[1..];
    } else if board[0].id != id {
      UpdateKeepsFind(board[1..], k - 1, c, id);
      assert board[k := c][1..] == board[1..][k - 1 := c];
    }
  }

  lemma {:induction false} SweepOfOtherEntry(s: State, todo: seq<Card>, previous: map<Id, string>, fates: map<Id, Fate>, id: Id)
    requires forall i :: 0 <= i < |todo| && todo[i].id == id ==> !FateOf(fates, id).Recorded?
    ensures Entry(SweptFrom(s, todo, previous, fates).board, id) == Entry(s.board, id)
    decreases |todo|
  {
    if todo != [] {
      var v := Visited(s, todo[0], previous, FateOf(fates, todo[0].id));
      forall r: Id { PatchedEntry(s.board, todo[0].id, Review(r, None), id); }
      if !v.threw { SweepOfOtherEntry(v.state, todo[1..], previous, fates, id); }
    }
  }

  /**
   A record the ledger turns down in silence is a second way to lose a review: the query is out and nothing is
   owed any more, yet the card shows no review, so that no verdict on it is heard that was not heard before.
   */
  lemma {:induction false} SilentRefusalLosesTheVerdict(s: State, fates: map<Id, Fate>, k: nat, from: Id)
    requires UniqueIds(s.board) && k < |s.board| && s.last.Some? && Due(s, s.board[k], s.last.value)
    requires FateOf(fates, s.board[k].id) == TurnedDown && !Unreached(s, fates, k)
    ensures var id, s' := s.board[k].id, Swept(s, fates);
      && Asked(s'.queries, id) == Asked(s.queries, id) + 1 && id !in s'.owes
      && Entry(s'.board, id) == Some(s.board[k]) && (Heard(s', from, id) <==> Heard(s, from, id))
  {
    SweepAsksExactly(s, fates, k);
    SweepOfOtherEntry(Begun(s), s.board, s.last.value, fates, s.board[k].id);
    FindsItself(s.board, k);
  }

  /** And a refusing verdict whose patch is turned down leaves an open review open: the card is owed a look nobody is asked for. */
  lemma {:induction false} MissedRefusalStalls(s: State, from: Id, k: nat, fates: map<Id, Fate>)
    requires UniqueIds(s.board) && k < |s.board| && Open(s.board[k]) && s.board[k].review.value.reviewer == from
    ensures var id := s.board[k].id; var s' := Judged(s, from, id, false, Missed);
      s'.board == s.board && id in s'.owes && Asked(Swept(s', fates).queries, id) == Asked(s.queries, id)
  {
    FindsItself(s.board, k);
    var id := s.board[k].id;
    var s' := Judged(s, from, id, false, Missed);
    assert forall i :: 0 <= i < |s'.board| && s'.board[i].id == id ==> i == k;
    OpenReviewsAreLeftAlone(s', fates, id);
  }
}
