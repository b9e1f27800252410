/**
 Peer review of finished cards: the sweep that asks for a review of each card that reached `done`
 while it was watching, the obligations it carries from sweep to sweep, and the verdicts.
 */
module Reviews {
  import opened Options

  type Id = string

  datatype Review = Review(reviewer: Id, ok: Option<bool>)
  datatype Card = Card(id: Id, status: string, assignee: Option<Id>, review: Option<Review>)

  /** An agent of the registry, whether it could review at all, and how much mail it has waiting. */
  datatype Agent = Agent(id: Id, fit: bool, load: nat)

  datatype Query = Query(task: Id, reviewer: Id)

  /**
   What becomes of a query: mailed and recorded on the card; not mailed, which throws; mailed, while recording it
   throws; or mailed, while the ledger turns the record down without a word.
   */
  datatype Fate = Recorded | NotSent | NotRecorded | TurnedDown

  /** What becomes of the patch of a verdict. */
  datatype Patch = Landed | Missed | Threw

  datatype State = State(
    board: seq<Card>, agents: seq<Agent>, owes: set<Id>, last: Option<map<Id, string>>, queries: seq<Query>)

  const START := State([], [], {}, None, [])

  // ---------------------------------------------------------------- the board

  function Find(board: seq<Card>, id: Id): (r: Option<nat>)
    ensures r.Some? ==> r.value < |board| && board[r.value].id == id
    ensures r.None? ==> forall i :: 0 <= i < |board| ==> board[i].id != id
  {
    if board == [] then None
    else if board[0].id == id then Some(0)
    else
      var rest := Find(board[1..], id);
      if rest.None? then None else Some(rest.value + 1)
  }

  predicate OnBoard(board: seq<Card>, id: Id) {
    Find(board, id).Some?
  }

  function Statuses(board: seq<Card>): map<Id, string> {
    if board == [] then map[] else Statuses(board[..|board| - 1])[board[|board| - 1].id := board[|board| - 1].status]
  }

  function WithReview(board: seq<Card>, id: Id, review: Review, status: Option<string>): seq<Card> {
    match Find(board, id)
    case None => board
    case Some(i) => board[i := board[i].(review := Some(review), status := status.GetOr(board[i].status))]
  }

  // ---------------------------------------------------------------- who reviews

  predicate Suits(a: Agent, assignee: Id) {
    a.fit && a.id != assignee
  }

  /** The first of the least loaded agents that suit. */
  function LeastLoaded(agents: seq<Agent>, assignee: Id): (r: Option<nat>)
    ensures r.Some? ==> r.value < |agents| && Suits(agents[r.value], assignee)
    ensures r.Some? ==> forall i :: 0 <= i < |agents| && Suits(agents[i], assignee) ==>
      agents[r.value].load < agents[i].load || (agents[r.value].load == agents[i].load && r.value <= i)
    ensures r.None? ==> forall i :: 0 <= i < |agents| ==> !Suits(agents[i], assignee)
  {
    if agents == [] then None
    else
      var n := |agents| - 1;
      var best := LeastLoaded(agents[..n], assignee);
      if Suits(agents[n], assignee) && (best.None? || agents[n].load < agents[best.value].load) then Some(n) else best
  }

  // ---------------------------------------------------------------- one sweep

  predicate Open(c: Card) {
    c.review.Some? && c.review.value.ok.None?
  }

  /** Done, assigned, and not under review. */
  predicate Ripe(c: Card) {
    c.status == "done" && c.assignee.Some? && c.assignee.value != "" && !Open(c)
  }

  predicate WasDone(previous: map<Id, string>, id: Id) {
    id in previous && previous[id] == "done"
  }

  predicate Reviewable(s: State, c: Card) {
    c.assignee.Some? && LeastLoaded(s.agents, c.assignee.value).Some?
  }

  /** The obligations as they stand once this card has been looked at, before anybody is asked. */
  function Minted(s: State, c: Card, previous: map<Id, string>): set<Id> {
    if Ripe(c) && !WasDone(previous, c.id) then s.owes + {c.id} else s.owes
  }

  datatype Visit = Visit(state: State, asked: bool, threw: bool)

  function Visited(s: State, c: Card, previous: map<Id, string>, fate: Fate): Visit {
    var owes := Minted(s, c, previous);
    var s1 := s.(owes := owes);
    if !Ripe(c) || c.id !in owes || !Reviewable(s, c) then Visit(s1, false, false)
    else if fate.NotSent? then Visit(s1, false, true)
    else
      var k := LeastLoaded(s.agents, c.assignee.value).value;
      var reviewer := s.agents[k];
      var s2 := s1.(queries := s.queries + [Query(c.id, reviewer.id)], agents := s.agents[k := reviewer.(load := reviewer.load + 1)]);
      if fate.NotRecorded? then Visit(s2, false, true)
      else if fate.TurnedDown? then Visit(s2.(owes := owes - {c.id}), true, false)
      else Visit(s2.(board := WithReview(s.board, c.id, Review(reviewer.id, None), None), owes := owes - {c.id}), true, false)
  }

  /** A visit that does not throw counts its query, if it sent one. */
  lemma {:induction false} VisitCounts(s: State, c: Card, previous: map<Id, string>, fate: Fate)
    ensures var v := Visited(s, c, previous, fate); !v.threw ==> |v.state.queries| == |s.queries| + if v.asked then 1 else 0
  {
  }

  function FateOf(fates: map<Id, Fate>, id: Id): Fate {
    if id in fates then fates[id] else Recorded
  }

  /** The rest of a sweep; a throw ends it. */
  function SweptFrom(s: State, todo: seq<Card>, previous: map<Id, string>, fates: map<Id, Fate>): State
    decreases |todo|
  {
    if todo == [] then s
    else
      var v := Visited(s, todo[0], previous, FateOf(fates, todo[0].id));
      if v.threw then v.state else SweptFrom(v.state, todo[1..], previous, fates)
  }

  function Pruned(owes: set<Id>, board: seq<Card>): set<Id> {
    set id | id in owes && OnBoard(board, id)
  }

  function Swept(s: State, fates: map<Id, Fate>): State {
    var s1 := s.(owes := Pruned(s.owes, s.board), last := Some(Statuses(s.board)));
    if s.last.None? then s1 else SweptFrom(s1, s.board, s.last.value, fates)
  }

  predicate ThrowsFrom(s: State, todo: seq<Card>, previous: map<Id, string>, fates: map<Id, Fate>)
    decreases |todo|
  {
    && todo != []
    && var v := Visited(s, todo[0], previous, FateOf(fates, todo[0].id)); v.threw || ThrowsFrom(v.state, todo[1..], previous, fates)
  }

  /** A sweep ends in a throw, and reports nothing. */
  predicate SweepThrows(s: State, fates: map<Id, Fate>) {
    s.last.Some? && ThrowsFrom(s.(owes := Pruned(s.owes, s.board), last := Some(Statuses(s.board))), s.board, s.last.value, fates)
  }

  // ---------------------------------------------------------------- verdicts

  predicate Heard(s: State, from: Id, task: Id) {
    OnBoard(s.board, task)
    && var c := s.board[Find(s.board, task).value]; c.review.Some? && c.review.value.reviewer == from
  }

  function Judged(s: State, from: Id, task: Id, agree: bool, patch: Patch): State {
    if !Heard(s, from, task) || patch == Threw then s
    else
      var board := WithReview(s.board, task, Review(from, Some(agree)), if agree then None else Some("doing"));
      s.(board := if patch == Landed then board else s.board, owes := if agree then s.owes else s.owes + {task})
  }

  datatype Op =
    | Sweep(fates: map<Id, Fate>)
    | Verdict(from: Id, task: Id, agree: bool, patch: Patch)
    | Edit(board: seq<Card>)
    | Floor(agents: seq<Agent>)

  function Step(s: State, op: Op): State {
    match op
    case Sweep(fates) => Swept(s, fates)
    case Verdict(from, task, agree, patch) => Judged(s, from, task, agree, patch)
    case Edit(board) => s.(board := board)
    case Floor(agents) => s.(agents := agents)
  }

  function From(s: State, ops: seq<Op>): State {
    if ops == [] then s else Step(From(s, ops[..|ops| - 1]), ops[|ops| - 1])
  }

  function After(ops: seq<Op>): State {
    From(START, ops)
  }

  // ---------------------------------------------------------------- the object

  class TaskReviews {
    var board: seq<Card>
    var agents: seq<Agent>
    var owesReview: set<Id>
    var lastTaskStatus: Option<map<Id, string>>
    var queries: seq<Query>

    ghost function Model(): State
      reads this
    {
      State(board, agents, owesReview, lastTaskStatus, queries)
    }

    constructor ()
      ensures Model() == START
    {
      board, agents, owesReview, lastTaskStatus, queries := [], [], {}, None, [];
    }

    method LeastLoadedIdle(skip: Id) returns (r: Option<nat>)
      ensures r == LeastLoaded(agents, skip)
    {
      r := None;
      for i := 0 to |agents|
        invariant r == LeastLoaded(agents[..i], skip)
      {
        assert agents[..i + 1][..i] == agents[..i];
        if agents[i].fit && agents[i].id != skip && (r.None? || agents[i].load < agents[r.value].load) { r := Some(i); }
      }
      assert agents[..|agents|] == agents;
    }

    method PatchReview(id: Id, review: Review, status: Option<string>)
      modifies this`board
      ensures board == WithReview(old(board), id, review, status)
    {
      var i := Find(board, id);
      if i.Some? {
        board := board[i.value := board[i.value].(review := Some(review), status := status.GetOr(board[i.value].status))];
      }
    }

    /** The mail goes out, and counts among what waits for its reviewer. */
    method SendQuery(task: Id, k: nat)
      requires k < |agents|
      modifies this`queries, this`agents
      ensures queries == old(queries) + [Query(task, old(agents)[k].id)]
      ensures agents == old(agents)[k := old(agents)[k].(load := old(agents)[k].load + 1)]
    {
      queries := queries + [Query(task, agents[k].id)];
      agents := agents[k := agents[k].(load := agents[k].load + 1)];
    }

    /** Looks at one card of the sweep. */
    method Consider(c: Card, previous: map<Id, string>, fate: Fate) returns (asked: bool, threw: bool)
      modifies this
      ensures var v := Visited(old(Model()), c, previous, fate); Model() == v.state && asked == v.asked && threw == v.threw
    {
      if c.status != "done" || c.assignee.None? || c.assignee.value == "" { return false, false; }
      if c.review.Some? && c.review.value.ok.None? { return false, false; }
      if !(c.id in previous && previous[c.id] == "done") { owesReview := owesReview + {c.id}; }
      if c.id !in owesReview { return false, false; }
      var k := LeastLoadedIdle(c.assignee.value);
      if k.None? { return false, false; }
      if fate.NotSent? { return false, true; }
      var reviewer := agents[k.value].id;
      SendQuery(c.id, k.value);
      if fate.NotRecorded? { return false, true; }
      if fate.Recorded? { PatchReview(c.id, Review(reviewer, None), None); }
      owesReview := owesReview - {c.id};
      return true, false;
    }

    method StatusesOf(tasks: seq<Card>) returns (seen: map<Id, string>)
      ensures seen == Statuses(tasks)
    {
      seen := map[];
      for i := 0 to |tasks|
        invariant seen == Statuses(tasks[..i])
      {
        assert tasks[..i + 1][..i] == tasks[..i];
        seen := seen[tasks[i].id := tasks[i].status];
      }
      assert tasks[..|tasks|] == tasks;
    }

    /** The number of queries that went out, or nothing when one threw. */
    method SweepTaskReviews(fates: map<Id, Fate>) returns (r: Option<nat>)
      modifies this
      ensures Model() == Swept(old(Model()), fates)
      ensures r == if SweepThrows(old(Model()), fates) then None else Some(|queries| - |old(queries)|)
    {
      var seen := StatusesOf(board);
      owesReview := set id | id in owesReview && OnBoard(board, id);
      var previous := lastTaskStatus;
      lastTaskStatus := Some(seen);
      if previous.None? { return Some(0); }
      r := ConsiderAll(board, previous.value, fates);
    }

    /** The body of a sweep, card by card. */
    method ConsiderAll(tasks: seq<Card>, previous: map<Id, string>, fates: map<Id, Fate>) returns (r: Option<nat>)
      modifies this
      ensures Model() == SweptFrom(old(Model()), tasks, previous, fates)
      ensures r == if ThrowsFrom(old(Model()), tasks, previous, fates) then None else Some(|queries| - |old(queries)|)
    {
      ghost var s0 := Model();
      var asked: nat, i := 0, 0;
      assert tasks[0..] == tasks;
      while i < |tasks|
        invariant i <= |tasks|
        invariant SweptFrom(Model(), tasks[i..], previous, fates) == SweptFrom(s0, tasks, previous, fates)
        invariant ThrowsFrom(Model(), tasks[i..], previous, fates) == ThrowsFrom(s0, tasks, previous, fates)
        invariant |queries| == |s0.queries| + asked
      {
        assert tasks[i..][1..] == tasks[i + 1..] && tasks[i..][0] == tasks[i];
        VisitCounts(Model(), tasks[i], previous, FateOf(fates, tasks[i].id));
        var was, threw := Consider(tasks[i], previous, FateOf(fates, tasks[i].id));
        if threw { return None; }
        if was { asked := asked + 1; }
        i := i + 1;
      }
      r := Some(asked);
    }

    method ApplyReviewVerdict(from: Id, task: Id, agree: bool, patch: Patch)
      modifies this
      ensures Model() == Judged(old(Model()), from, task, agree, patch)
    {
      var i := Find(board, task);
      if i.None? { return; }
      var c := board[i.value];
      if c.review.None? || c.review.value.reviewer != from { return; }
      if patch == Threw { return; }
      if patch == Landed { PatchReview(task, c.review.value.(ok := Some(agree)), if agree then None else Some("doing")); }
      if !agree { owesReview := owesReview + {task}; }
    }
  }
}
