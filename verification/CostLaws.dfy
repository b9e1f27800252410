/**
 What one sample costs whom, in the columns of its row: input and output tokens together, dollars beside
 them, and for every row of a series after its first only what it rose by.
 */
module CostLaws {
  import opened Options
  import opened CostLedger
  import opened CostRuns

  // ---------------------------------------------------------------- one row

  /** The same agent and session; a missing column counts as empty. */
  predicate SameSeries(a: Row, b: Row) {
    a.agent.GetOr("") == b.agent.GetOr("") && a.session.GetOr("") == b.session.GetOr("")
  }

  /** No agent's name holds the character that separates it from its session. */
  predicate ClearNames(rows: seq<Row>) {
    forall k :: 0 <= k < |rows| ==> '\0' !in rows[k].agent.GetOr("")
  }

  lemma {:induction false} OneMoreRow(rows: seq<Row>, row: Row, card: string)
    ensures Spend(rows + [row], card) ==
      if row.Credits(card) then Plus(Spend(rows, card), Moved(row.Snapshot(), Latest(rows, row.Key()))) else Spend(rows, card)
    ensures Get(Scan(rows + [row]).byTask, card) == Spend(rows + [row], card)
  {
    assert (rows + [row])[..|rows|] == rows;
    ScanIsSpend(rows + [row], card, "");
  }

  predicate NewSeries(rows: seq<Row>, row: Row) {
    forall k :: 0 <= k < |rows| ==> !SameSeries(rows[k], row)
  }

  /** The first row of its series is charged in full, to the card it is stamped with and to no other. */
  lemma {:induction false} FirstRowIsCharged(rows: seq<Row>, row: Row, card: string)
    requires ClearNames(rows + [row]) && NewSeries(rows, row)
    ensures var was, now := Spend(rows, card), Spend(rows + [row], card);
      if row.task == Some(card) && card != "" then
        now.tokens == was.tokens + row.input.GetOr(0.0) + row.output.GetOr(0.0) && now.usd == was.usd + row.usd.GetOr(0.0)
      else now == was
    ensures Get(Scan(rows + [row]).byTask, card) == Spend(rows + [row], card)
  {
    OneMoreRow(rows, row, card);
    LatestIsLastOfSeries(rows, row.Key());
    forall k | 0 <= k < |rows| ensures rows[k].Key() != row.Key() {
      assert rows[k] == (rows + [row])[k] && row == (rows + [row])[|rows|];
      SeriesKeysAreDistinct(rows[k], row);
    }
  }

  /** `k` is the last row before this one of the same agent and session. */
  predicate Precedes(rows: seq<Row>, k: nat, row: Row) {
    k < |rows| && SameSeries(rows[k], row) && forall j :: k < j < |rows| ==> !SameSeries(rows[j], row)
  }

  lemma {:induction false} LatestIsPreceding(rows: seq<Row>, k: nat, row: Row)
    requires ClearNames(rows + [row]) && Precedes(rows, k, row)
    ensures Latest(rows, row.Key()) == Some(rows[k].Snapshot())
  {
    forall j | 0 <= j < |rows| ensures rows[j].Key() == row.Key() <==> SameSeries(rows[j], row) {
      assert rows[j] == (rows + [row])[j] && row == (rows + [row])[|rows|];
      SeriesKeysAreDistinct(rows[j], row);
    }
    LatestIsLastOfSeries(rows, row.Key());
    assert rows[k].Key() == row.Key();
  }

  /** A later row is charged what it rose by, tokens and dollars each for themselves, and never less than nothing. */
  lemma {:induction false} LaterRowIsCharged(rows: seq<Row>, k: nat, row: Row, card: string)
    requires ClearNames(rows + [row]) && Precedes(rows, k, row)
    ensures var was, now, old' := Spend(rows, card), Spend(rows + [row], card), rows[k];
      var rise := (row.input.GetOr(0.0) + row.output.GetOr(0.0)) - (old'.input.GetOr(0.0) + old'.output.GetOr(0.0));
      var dearer := row.usd.GetOr(0.0) - old'.usd.GetOr(0.0);
      if row.task == Some(card) && card != "" then
        && now.tokens == was.tokens + (if rise > 0.0 then rise else 0.0)
        && now.usd == was.usd + (if dearer > 0.0 then dearer else 0.0)
      else now == was
    ensures Get(Scan(rows + [row]).byTask, card) == Spend(rows + [row], card)
  {
    OneMoreRow(rows, row, card);
    LatestIsPreceding(rows, k, row);
  }

  // ---------------------------------------------------------------- one sample, at any moment of any run

  /** The first card in flight that is this agent's. */
  predicate FirstInFlight(board: seq<Card>, k: nat, agent: string) {
    && k < |board| && board[k].status == "doing" && board[k].assignee == Some(agent) && agent != ""
    && forall j :: 0 <= j < k ==> !(board[j].status == "doing" && board[j].assignee == Some(agent))
  }

  /** What an agent's sample is stamped with: what the card map says for five seconds, and after that what the board says. */
  ghost predicate WorksOn(l: Ledger, agent: string, at: int, card: Option<string>) {
    if l.cache.Some? && at - l.cache.value.at <= 5000 then
      card == if agent in l.cache.value.active then Some(l.cache.value.active[agent]) else None
    else
      match card
      case Some(c) => exists k: nat :: FirstInFlight(l.board, k, agent) && l.board[k].id == c
      case None => forall k: nat :: !FirstInFlight(l.board, k, agent)
  }

  lemma {:induction false} FirstInFlightIsFirstDoing(board: seq<Card>, agent: string)
    ensures forall k: nat :: FirstInFlight(board, k, agent) ==> FirstDoing(board, agent) == Some(board[k].id)
    ensures FirstDoing(board, agent).Some? ==>
      exists k: nat :: FirstInFlight(board, k, agent) && FirstDoing(board, agent) == Some(board[k].id)
  {
    FirstDoingFinds(board, agent);
    forall k: nat | FirstInFlight(board, k, agent) ensures FirstDoing(board, agent) == Some(board[k].id) {
      assert board[k].Doing(agent);
      var i :| 0 <= i < |board| && board[i].Doing(agent) && FirstDoing(board, agent) == Some(board[i].id)
        && forall j :: 0 <= j < i ==> !board[j].Doing(agent);
      assert !(i < k) && !(k < i);
    }
    if FirstDoing(board, agent).Some? {
      var i: nat :| i < |board| && board[i].Doing(agent) && FirstDoing(board, agent) == Some(board[i].id)
        && forall j :: 0 <= j < i ==> !board[j].Doing(agent);
      forall j | 0 <= j < i ensures !(board[j].status == "doing" && board[j].assignee == Some(agent)) { assert !board[j].Doing(agent); }
      assert FirstInFlight(board, i, agent);
    }
  }

  lemma {:induction false} StampIsWork(l: Ledger, agent: string, at: int, card: Option<string>)
    ensures WorksOn(l, agent, at, card) <==> card == Cached(Refreshed(l, at), agent)
  {
    ActiveMapIsFirstDoing(l.board, agent);
    FirstInFlightIsFirstDoing(l.board, agent);
  }

  predicate OnBoard(board: seq<Card>, card: string) {
    exists i :: 0 <= i < |board| && board[i].id == card
  }

  /** The row a sample is written as. */
  function RowFor(s: Sample, card: Option<string>): Row {
    Row(Some(s.agent), Some(s.session), card, Some(s.input), Some(s.output), Some(s.usd))
  }

  /** One sample moves the answer for a card on the board by what it moves the cost by. */
  lemma {:induction false} AnswersMove(l: Ledger, lost: Amount, s: Sample, at: int, work: Option<string>, card: string)
    requires Agrees(l, lost, card) && card in Ids(l.board) && work == Cached(Refreshed(l, at), s.agent)
    ensures var after, row := Appended(l, s, at, true), RowFor(s, work);
      && after.file == l.file + [Parsed(row)] && Rows(after.file) == Rows(l.file) + [row]
      && Moves(TaskSpent(l, card), TaskSpent(after, card), Spend(Rows(l.file), card), Spend(Rows(after.file), card))
  {
    var after, row := Appended(l, s, at, true), RowFor(s, work);
    assert after.file == l.file + [Parsed(row)];
    RowsGrow(l.file, row, card);
    SampleAgrees(l, lost, s, at, card);
    AnswerOf(l, lost, card);
    AnswerOf(after, lost, card);
  }

  /** Both pairs lie the same amount apart. */
  predicate Moves(was: Amount, now: Amount, before: Amount, after: Amount) {
    now.tokens - was.tokens == after.tokens - before.tokens && now.usd - was.usd == after.usd - before.usd
  }

  lemma {:induction false} SampleAgrees(l: Ledger, lost: Amount, s: Sample, at: int, card: string)
    requires Agrees(l, lost, card) && card in Ids(l.board)
    ensures var after := Appended(l, s, at, true);
      Agrees(after, lost, card) && after.board == l.board && (after.byTask.Some? <==> l.byTask.Some?)
  {
    StepAgrees(l, lost, card, Sampled(s, at, true));
    PlusLaws(lost, ZERO, ZERO);
  }

  /** What a card on the board is answered, and what was lost of it. */
  lemma {:induction false} AnswerOf(l: Ledger, lost: Amount, card: string)
    requires Agrees(l, lost, card) && card in Ids(l.board)
    ensures Plus(TaskSpent(l, card), if l.byTask.Some? then lost else ZERO) == Spend(Rows(l.file), card)
    ensures l.byTask == None ==> lost == ZERO
  {
    ScanIsSpend(Rows(l.file), card, "");
    PlusLaws(Spend(Rows(l.file), card), ZERO, ZERO);
  }

  lemma {:induction false} RunAnswersMove(l: Ledger, es: seq<Event>, s: Sample, at: int, work: Option<string>, card: string)
    requires Fresh(l) && AppendsSucceed(es) && WorksOn(Run(l, es), s.agent, at, work) && OnBoard(Run(l, es).board, card)
    ensures var before, row := Run(l, es), RowFor(s, work); var after := Appended(before, s, at, true);
      && after.file == before.file + [Parsed(row)] && Rows(after.file) == Rows(before.file) + [row]
      && Moves(TaskSpent(before, card), TaskSpent(after, card), Spend(Rows(before.file), card), Spend(Rows(after.file), card))
  {
    StampIsWork(Run(l, es), s.agent, at, work);
    KeptPlusLostIsSpend(l, es, card);
    IdsAreOnBoard(Run(l, es).board, card);
    AnswersMove(Run(l, es), Lost(l, es, card), s, at, work, card);
  }

  lemma {:induction false} NamesStayClear(rows: seq<Row>, row: Row)
    requires ClearNames(rows) && '\0' !in row.agent.GetOr("")
    ensures ClearNames(rows + [row])
  {
  }

  /**
   The first sample of a session, at any moment of any run whose appends reach the disk: the card its agent works
   on is answered with its input and output tokens and its dollars more, every other card as before.
   */
  lemma {:induction false} FirstSampleIsCharged(l: Ledger, es: seq<Event>, s: Sample, at: int, work: Option<string>, card: string)
    requires Fresh(l) && AppendsSucceed(es) && WorksOn(Run(l, es), s.agent, at, work) && OnBoard(Run(l, es).board, card)
    requires ClearNames(Rows(Run(l, es).file)) && '\0' !in s.agent
    requires NewSeries(Rows(Run(l, es).file), RowFor(s, work))
    ensures var before := Run(l, es); var after := Appended(before, s, at, true);
      && after.file == before.file + [Parsed(RowFor(s, work))]
      && var was, now := TaskSpent(before, card), TaskSpent(after, card);
         if work == Some(card) && card != "" then now.tokens == was.tokens + s.input + s.output && now.usd == was.usd + s.usd
         else now == was
  {
    var rows, row := Rows(Run(l, es).file), RowFor(s, work);
    RunAnswersMove(l, es, s, at, work, card);
    NamesStayClear(rows, row);
    FirstRowIsCharged(rows, row, card);
  }

  /** A later one: with what it rose by over the last row of its agent and session. */
  lemma {:induction false} LaterSampleIsCharged(l: Ledger, es: seq<Event>, s: Sample, at: int, work: Option<string>, card: string, k: nat)
    requires Fresh(l) && AppendsSucceed(es) && WorksOn(Run(l, es), s.agent, at, work) && OnBoard(Run(l, es).board, card)
    requires ClearNames(Rows(Run(l, es).file)) && '\0' !in s.agent && Precedes(Rows(Run(l, es).file), k, RowFor(s, work))
    ensures var before := Run(l, es); var after := Appended(before, s, at, true);
      && after.file == before.file + [Parsed(RowFor(s, work))]
      && var was, now, last := TaskSpent(before, card), TaskSpent(after, card), Rows(before.file)[k];
         var rise := (s.input + s.output) - (last.input.GetOr(0.0) + last.output.GetOr(0.0));
         var dearer := s.usd - last.usd.GetOr(0.0);
         if work == Some(card) && card != "" then
           && now.tokens == was.tokens + (if rise > 0.0 then rise else 0.0)
           && now.usd == was.usd + (if dearer > 0.0 then dearer else 0.0)
         else now == was
  {
    var rows, row := Rows(Run(l, es).file), RowFor(s, work);
    RunAnswersMove(l, es, s, at, work, card);
    NamesStayClear(rows, row);
    LaterRowIsCharged(rows, k, row, card);
  }

  /** The first card with this id. */
  predicate FirstWithId(board: seq<Card>, k: nat, card: string) {
    k < |board| && board[k].id == card && forall j :: 0 <= j < k ==> board[j].id != card
  }

  /** A card's cap is that of the first card with its id, if it is positive. */
  lemma {:induction false} CapIsOfTheFirst(board: seq<Card>, k: nat, card: string)
    requires FirstWithId(board, k, card)
    ensures CapOf(board, card) ==
      if board[k].budgetTokens.Some? && board[k].budgetTokens.value > 0.0 then board[k].budgetTokens else None
  {
    if k > 0 {
      assert board[0].id != card;
      forall j | 0 <= j < k - 1 ensures board[1..][j].id != card { assert board[j + 1].id != card; }
      CapIsOfTheFirst(board[1..], k - 1, card);
    }
  }

  lemma {:induction false} NoCardNoCap(board: seq<Card>, card: string)
    requires !OnBoard(board, card)
    ensures CapOf(board, card) == None
  {
    if board != [] {
      assert forall i :: 0 <= i < |board[1..]| ==> board[1..][i] == board[i + 1];
      NoCardNoCap(board[1..], card);
    }
  }
}
