/** Whom a review is asked of, and what the card then says. */
module ReviewLaws {
  import opened Options
  import opened Reviews
  import opened ReviewRuns

  /** How many of these queries went to an agent. */
  function SentTo(queries: seq<Query>, agent: Id): nat {
    if queries == [] then 0 else SentTo(queries[..|queries| - 1], agent) + if queries[|queries| - 1].reviewer == agent then 1 else 0
  }

  predicate UniqueAgents(agents: seq<Agent>) {
    forall i, j :: 0 <= i < j < |agents| ==> agents[i].id != agents[j].id
  }

  /** The mail an agent has waiting once these queries have gone out too. */
  function LoadAfter(agents: seq<Agent>, i: nat, queries: seq<Query>): nat
    requires i < |agents|
  {
    agents[i].load + SentTo(queries, agents[i].id)
  }

  /** Fit to review, not the author, and with less waiting than everybody else of whom that is true, or as little and listed first. */
  predicate IsBestReviewer(agents: seq<Agent>, i: nat, author: Id, queries: seq<Query>) {
    && i < |agents| && agents[i].fit && agents[i].id != author
    && forall j :: 0 <= j < |agents| && agents[j].fit && agents[j].id != author ==>
         LoadAfter(agents, i, queries) < LoadAfter(agents, j, queries)
         || (LoadAfter(agents, i, queries) == LoadAfter(agents, j, queries) && i <= j)
  }

  /** Done by somebody, and not under review as it is. */
  predicate WantsReview(c: Card) {
    c.status == "done" && c.assignee.Some? && c.assignee.value != "" && !(c.review.Some? && c.review.value.ok == None)
  }

  /** The sweep may ask about a card: it wants review, was promised one or was not done the last time, and somebody can do it. */
  lemma {:induction false} DueInFields(s: State, c: Card, previous: map<Id, string>)
    ensures Due(s, c, previous) <==>
      && WantsReview(c) && (c.id in s.owes || !(c.id in previous && previous[c.id] == "done"))
      && exists i :: 0 <= i < |s.agents| && s.agents[i].fit && s.agents[i].id != c.assignee.value
  {
    if c.assignee.Some? {
      forall i | 0 <= i < |s.agents| ensures Suits(s.agents[i], c.assignee.value) <==> s.agents[i].fit && s.agents[i].id != c.assignee.value {}
      var r := LeastLoaded(s.agents, c.assignee.value);
      assert r.Some? ==> Suits(s.agents[r.value], c.assignee.value);
    }
  }

  /** A query is for a card of the board that wants review and goes to the best reviewer of its work at that moment. */
  ghost predicate WellAddressed(board: seq<Card>, agents: seq<Agent>, earlier: seq<Query>, q: Query) {
    exists k: nat, i: nat :: k < |board| && board[k].id == q.task && WantsReview(board[k])
      && IsBestReviewer(agents, i, board[k].assignee.value, earlier) && agents[i].id == q.reviewer
  }

  /** The agents as they stand once these queries are on their piles. */
  ghost predicate Piled(agents0: seq<Agent>, agents: seq<Agent>, added: seq<Query>) {
    |agents| == |agents0|
    && forall i: nat :: i < |agents| ==> agents[i] == agents0[i].(load := LoadAfter(agents0, i, added))
  }

  ghost predicate AllAddressed(board: seq<Card>, agents: seq<Agent>, added: seq<Query>) {
    forall j: nat :: j < |added| ==> WellAddressed(board, agents, added[..j], added[j])
  }

  /** Whom the last of these queries about a card asked. */
  function AskedLast(added: seq<Query>, id: Id): Option<Id> {
    if added == [] then None
    else if added[|added| - 1].task == id then Some(added[|added| - 1].reviewer)
    else AskedLast(added[..|added| - 1], id)
  }

  /** The card once these queries have gone out: where the record landed, its open review names who was asked. */
  function CardAfter(board: seq<Card>, added: seq<Query>, fates: map<Id, Fate>, id: Id): Option<Card> {
    var c, asked := Entry(board, id), AskedLast(added, id);
    if c.Some? && asked.Some? && FateOf(fates, id).Recorded? then Some(c.value.(review := Some(Review(asked.value, None)))) else c
  }

  ghost predicate Filed(board0: seq<Card>, board: seq<Card>, added: seq<Query>, fates: map<Id, Fate>) {
    forall id: Id :: Entry(board, id) == CardAfter(board0, added, fates, id)
  }

  /** A sweep under way: what it has asked, the piles it has made and what it has recorded. */
  ghost predicate Underway(s0: State, s: State, added: seq<Query>, fates: map<Id, Fate>) {
    && s.queries == s0.queries + added && Piled(s0.agents, s.agents, added)
    && AllAddressed(s0.board, s0.agents, added) && Filed(s0.board, s.board, added, fates)
  }

  lemma {:induction false} PileGrows(agents0: seq<Agent>, agents: seq<Agent>, added: seq<Query>, k: nat, q: Query)
    requires UniqueAgents(agents0) && Piled(agents0, agents, added) && k < |agents| && q.reviewer == agents0[k].id
    ensures Piled(agents0, agents[k := agents[k].(load := agents[k].load + 1)], added + [q])
  {
    assert (added + [q])[..|added|] == added;
    forall i: nat | i < |agents| ensures agents0[i].id == q.reviewer <==> i == k {
      assert i < k ==> agents0[i].id != agents0[k].id;
      assert k < i ==> agents0[k].id != agents0[i].id;
    }
  }

  lemma {:induction false} AddressedGrows(board: seq<Card>, agents: seq<Agent>, added: seq<Query>, q: Query)
    requires AllAddressed(board, agents, added) && WellAddressed(board, agents, added, q)
    ensures AllAddressed(board, agents, added + [q])
  {
    var longer := added + [q];
    forall j: nat | j < |longer| ensures WellAddressed(board, agents, longer[..j], longer[j]) {
      assert longer[..j] == added[..j];
      if j == |added| { assert added[..j] == added; }
    }
  }

  lemma {:induction false} FilesGrow(board0: seq<Card>, board: seq<Card>, added: seq<Query>, fates: map<Id, Fate>, q: Query)
    requires Filed(board0, board, added, fates)
    ensures FateOf(fates, q.task).Recorded? ==>
      Filed(board0, WithReview(board, q.task, Review(q.reviewer, None), None), added + [q], fates)
    ensures !FateOf(fates, q.task).Recorded? ==> Filed(board0, board, added + [q], fates)
  {
    var longer := added + [q];
    assert longer[..|added|] == added;
    forall id: Id
      ensures FateOf(fates, q.task).Recorded? ==>
        Entry(WithReview(board, q.task, Review(q.reviewer, None), None), id) == CardAfter(board0, longer, fates, id)
      ensures !FateOf(fates, q.task).Recorded? ==> Entry(board, id) == CardAfter(board0, longer, fates, id)
    {
      PatchedEntry(board, q.task, Review(q.reviewer, None), id);
      assert Entry(board, id) == CardAfter(board0, added, fates, id);
    }
  }

  lemma {:induction false} BestIsLeastLoaded(agents0: seq<Agent>, agents: seq<Agent>, added: seq<Query>, author: Id)
    requires Piled(agents0, agents, added) && LeastLoaded(agents, author).Some?
    ensures IsBestReviewer(agents0, LeastLoaded(agents, author).value, author, added)
  {
    var r := LeastLoaded(agents, author).value;
    forall j | 0 <= j < |agents0| && agents0[j].fit && agents0[j].id != author
      ensures LoadAfter(agents0, r, added) < LoadAfter(agents0, j, added)
        || (LoadAfter(agents0, r, added) == LoadAfter(agents0, j, added) && r <= j)
    {
      assert Suits(agents[j], author);
    }
  }

  /** One card: nothing asked, or one query, well addressed, and a record only of that. */
  lemma {:induction false} VisitAsks(s: State, c: Card, previous: map<Id, string>, fate: Fate)
    ensures var v := Visited(s, c, previous, fate).state;
      || (v.queries == s.queries && v.agents == s.agents && v.board == s.board)
      || (WantsReview(c) && LeastLoaded(s.agents, c.assignee.value).Some?
          && var k := LeastLoaded(s.agents, c.assignee.value).value;
             v.queries == s.queries + [Query(c.id, s.agents[k].id)]
             && v.agents == s.agents[k := s.agents[k].(load := s.agents[k].load + 1)]
             && v.board == if fate.Recorded? then WithReview(s.board, c.id, Review(s.agents[k].id, None), None) else s.board)
  {
  }

  lemma {:induction false} QueryIsAddressed(s0: State, s: State, added: seq<Query>, fates: map<Id, Fate>, k: nat)
    requires Underway(s0, s, added, fates) && k < |s0.board|
    requires WantsReview(s0.board[k]) && LeastLoaded(s.agents, s0.board[k].assignee.value).Some?
    ensures var r := LeastLoaded(s.agents, s0.board[k].assignee.value).value;
      s.agents[r].id == s0.agents[r].id && WellAddressed(s0.board, s0.agents, added, Query(s0.board[k].id, s.agents[r].id))
  {
    BestIsLeastLoaded(s0.agents, s.agents, added, s0.board[k].assignee.value);
  }

  lemma {:induction false} AskedIsUnderway(s0: State, s: State, added: seq<Query>, fates: map<Id, Fate>, r: nat, q: Query, v: State)
    requires UniqueAgents(s0.agents) && Underway(s0, s, added, fates)
    requires r < |s.agents| && q.reviewer == s0.agents[r].id && WellAddressed(s0.board, s0.agents, added, q)
    requires v.queries == s.queries + [q] && v.agents == s.agents[r := s.agents[r].(load := s.agents[r].load + 1)]
    requires v.board == if FateOf(fates, q.task).Recorded? then WithReview(s.board, q.task, Review(q.reviewer, None), None) else s.board
    ensures Underway(s0, v, added + [q], fates)
  {
    AddressedGrows(s0.board, s0.agents, added, q);
    PileGrows(s0.agents, s.agents, added, r, q);
    FilesGrow(s0.board, s.board, added, fates, q);
    assert s0.queries + added + [q] == s0.queries + (added + [q]);
  }

  lemma {:induction false} RestIsUnderway(s0: State, s: State, added: seq<Query>, fates: map<Id, Fate>, v: State)
    requires Underway(s0, s, added, fates) && v.queries == s.queries && v.agents == s.agents && v.board == s.board
    ensures Underway(s0, v, added + [], fates)
  {
    assert added + [] == added;
  }

  lemma {:induction false} VisitIsUnderway(s0: State, s: State, added: seq<Query>, k: nat, previous: map<Id, string>, fates: map<Id, Fate>)
    returns (more: seq<Query>)
    requires UniqueAgents(s0.agents) && Underway(s0, s, added, fates) && k < |s0.board|
    ensures Underway(s0, Visited(s, s0.board[k], previous, FateOf(fates, s0.board[k].id)).state, added + more, fates)
  {
    var c := s0.board[k];
    var v := Visited(s, c, previous, FateOf(fates, c.id)).state;
    VisitAsks(s, c, previous, FateOf(fates, c.id));
    if v.queries == s.queries {
      more := [];
      RestIsUnderway(s0, s, added, fates, v);
    } else {
      var r := LeastLoaded(s.agents, c.assignee.value).value;
      var q := Query(c.id, s.agents[r].id);
      more := [q];
      QueryIsAddressed(s0, s, added, fates, k);
      AskedIsUnderway(s0, s, added, fates, r, q, v);
    }
  }

  lemma {:induction false} SweepIsUnderway(s0: State, s: State, added: seq<Query>, k: nat, previous: map<Id, string>, fates: map<Id, Fate>)
    returns (all: seq<Query>)
    requires UniqueAgents(s0.agents) && Underway(s0, s, added, fates) && k <= |s0.board|
    ensures Underway(s0, SweptFrom(s, s0.board[k..], previous, fates), all, fates)
    decreases |s0.board| - k
  {
    if k == |s0.board| {
      all := added;
    } else {
      var more := VisitIsUnderway(s0, s, added, k, previous, fates);
      var v := Visited(s, s0.board[k], previous, FateOf(fates, s0.board[k].id));
      assert s0.board[k..][1..] == s0.board[k + 1..] && s0.board[k..][0] == s0.board[k];
      if v.threw { all := added + more; } else { all := SweepIsUnderway(s0, v.state, added + more, k + 1, previous, fates); }
    }
  }

  lemma {:induction false} NothingAskedYet(s: State, b: State, fates: map<Id, Fate>)
    requires b.queries == s.queries && b.agents == s.agents && b.board == s.board
    ensures Underway(s, b, [], fates)
  {
    assert s.queries + [] == s.queries;
    forall i: nat | i < |b.agents| ensures b.agents[i] == s.agents[i].(load := LoadAfter(s.agents, i, [])) {}
  }

  /**
   Every query of a sweep, whatever becomes of it, goes to an agent fit to review that is not the card's author
   and that has, with what this sweep has already sent it, the least waiting of all such agents; the first of them.
   Where the record of a query lands, the card's open review names the agent that was asked; no other card changes.
   */
  lemma {:induction false} QueriesAreWellAddressed(s: State, fates: map<Id, Fate>) returns (added: seq<Query>)
    requires UniqueAgents(s.agents)
    ensures Swept(s, fates).queries == s.queries + added && AllAddressed(s.board, s.agents, added)
    ensures forall id: Id :: Entry(Swept(s, fates).board, id) == CardAfter(s.board, added, fates, id)
  {
    NothingAskedYet(s, Begun(s), fates);
    if s.last.None? {
      added := [];
    } else {
      assert s.board[0..] == s.board;
      added := SweepIsUnderway(s, Begun(s), [], 0, s.last.value, fates);
    }
  }

  lemma {:induction false} OthersAreNotOwed(s: State, todo: seq<Card>, previous: map<Id, string>, fates: map<Id, Fate>, id: Id)
    requires id !in s.owes && forall i :: 0 <= i < |todo| ==> todo[i].id != id
    ensures id !in SweptFrom(s, todo, previous, fates).owes
    decreases |todo|
  {
    if todo != [] {
      var v := Visited(s, todo[0], previous, FateOf(fates, todo[0].id));
      if !v.threw { OthersAreNotOwed(v.state, todo[1..], previous, fates, id); }
    }
  }

  /** After a sweep no review is owed to a card that is not on the board, so one that leaves it is forgotten. */
  lemma {:induction false} LeavingForgets(s: State, fates: map<Id, Fate>, id: Id)
    requires Entry(s.board, id) == None
    ensures id !in Swept(s, fates).owes
  {
    assert !OnBoard(s.board, id);
    if s.last.Some? { OthersAreNotOwed(Begun(s), s.board, s.last.value, fates, id); }
  }

  /** So only the agent that was asked is heard on a card, and nobody is heard on a card nobody was ever asked about. */
  lemma {:induction false} OnlyTheAskedIsHeard(s: State, from: Id, id: Id)
    ensures Heard(s, from, id) <==>
      Entry(s.board, id).Some? && Entry(s.board, id).value.review.Some? && Entry(s.board, id).value.review.value.reviewer == from
  {
  }

  // ---------------------------------------------------------------- what a verdict leaves

  /**
   A verdict whose patch lands leaves its answer on the card, signed by its author; a refusal puts the card back
   to doing and owes it another look. Every other card stays, and so does this one if it is not this agent's to judge.
   */
  lemma {:induction false} VerdictIsWritten(s: State, from: Id, task: Id, agree: bool, id: Id)
    ensures var c, s' := Entry(s.board, task), Judged(s, from, task, agree, Landed);
      if c.Some? && c.value.review.Some? && c.value.review.value.reviewer == from then
        && Entry(s'.board, id) == (
             if id != task then Entry(s.board, id)
             else Some(c.value.(review := Some(Review(from, Some(agree))), status := if agree then c.value.status else "doing")))
        && (id in s'.owes <==> id in s.owes || (id == task && !agree))
      else s' == s
  {
    var k := Find(s.board, task);
    if k.Some? {
      var c := s.board[k.value];
      UpdateKeepsFind(s.board, k.value, c.(review := Some(Review(from, Some(agree))), status := if agree then c.status else "doing"), id);
    }
  }
}
