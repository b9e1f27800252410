/**
 What the cost accumulator promises over whole runs: the incremental form agrees with a rescan of
 the whole ledger, up to an amount that is known exactly, and the arithmetic of one series.
 */
module CostRuns {
  import opened Options
  import opened CostLedger

  // ---------------------------------------------------------------- scan against definition

  /** Folding the rows one by one computes, for every card and every series, what the definitions say. */
  lemma {:induction false} ScanIsSpend(rows: seq<Row>, card: string, key: string)
    ensures Get(Scan(rows).byTask, card) == Spend(rows, card)
    ensures Find(Scan(rows).baseline, key) == Latest(rows, key)
    ensures "" !in Scan(rows).byTask
  {
    if rows != [] {
      var before, last := rows[..|rows| - 1], rows[|rows| - 1];
      ScanIsSpend(before, card, key);
      ScanIsSpend(before, card, last.Key());
    }
  }

  /** The newest snapshot of a series is that of the last row with its key. */
  lemma {:induction false} LatestIsLastOfSeries(rows: seq<Row>, key: string)
    ensures Latest(rows, key).Some? <==> exists i :: 0 <= i < |rows| && rows[i].Key() == key
    ensures Latest(rows, key).Some? ==>
      exists i :: 0 <= i < |rows| && rows[i].Key() == key && Latest(rows, key).value == rows[i].Snapshot()
        && forall j :: i < j < |rows| ==> rows[j].Key() != key
  {
    if rows != [] {
      var before := rows[..|rows| - 1];
      LatestIsLastOfSeries(before, key);
      if rows[|rows| - 1].Key() == key {
        assert Latest(rows, key).value == rows[|rows| - 1].Snapshot();
      } else if Latest(before, key).Some? {
        var i :| 0 <= i < |before| && before[i].Key() == key && Latest(before, key).value == before[i].Snapshot()
          && forall j :: i < j < |before| ==> before[j].Key() != key;
        assert rows[i].Key() == key;
        assert forall j :: i < j < |rows| ==> rows[j].Key() != key;
      } else {
        assert forall i :: 0 <= i < |before| ==> before[i] == rows[i];
      }
    }
  }

  // ---------------------------------------------------------------- runs

  /** One step of the main process or of its environment. */
  datatype Event =
    | Sampled(sample: Sample, at: int, written: bool)
    | BoardWritten(cards: seq<Card>)
    | SpendRead
    | BudgetRead(agent: string, now: int)

  function Step(l: Ledger, e: Event): Ledger {
    match e
    case Sampled(s, at, written) => Appended(l, s, at, written)
    case BoardWritten(cards) => l.(board := cards)
    case SpendRead => Built(l)
    case BudgetRead(agent, now) => Asked(Refreshed(l, now), agent)
  }

  function Run(l: Ledger, es: seq<Event>): Ledger {
    if es == [] then l else Step(Run(l, es[..|es| - 1]), es[|es| - 1])
  }

  predicate AppendsSucceed(es: seq<Event>) {
    forall i :: 0 <= i < |es| && es[i].Sampled? ==> es[i].written
  }

  /** What pruning `l` takes away from a card. */
  function Discarded(l: Ledger, card: string): Amount {
    if l.byTask == None || card in Ids(l.board) then ZERO else Get(l.byTask.value, card)
  }

  function RefreshLoss(l: Ledger, now: int, card: string): Amount {
    if Stale(l, now) then Discarded(l, card) else ZERO
  }

  function BuildLoss(l: Ledger, card: string): Amount {
    if l.byTask.Some? || card in Ids(l.board) then ZERO else Spend(Rows(l.file), card)
  }

  function AskLoss(l: Ledger, agent: string, card: string): Amount {
    if Carded(l, agent) then BuildLoss(l, card) else ZERO
  }

  /** What one step makes the accumulator forget about a card. */
  function Loss(l: Ledger, e: Event, card: string): Amount {
    match e
    case Sampled(_, at, _) => RefreshLoss(l, at, card)
    case BoardWritten(_) => ZERO
    case SpendRead => BuildLoss(l, card)
    case BudgetRead(agent, now) =>
      Plus(RefreshLoss(l, now, card), AskLoss(Refreshed(l, now), agent, card))
  }

  function Lost(l: Ledger, es: seq<Event>, card: string): Amount {
    if es == [] then ZERO
    else
      var before := es[..|es| - 1];
      Plus(Lost(l, before, card), Loss(Run(l, before), es[|es| - 1], card))
  }

  /** The process has just started: nothing is built. */
  predicate Fresh(l: Ledger) {
    l.byTask == None && l.baseline == map[] && l.cache == None
  }

  /** Against given baselines and a given spend: baselines exact, spend exact up to what was lost. */
  ghost predicate Matches(l: Ledger, lost: Amount, card: string, baseline: Totals, spend: Amount) {
    if l.byTask == None then lost == ZERO
    else l.baseline == baseline && Plus(Get(l.byTask.value, card), lost) == spend
  }

  /** The agreement kept by every step. */
  ghost predicate Agrees(l: Ledger, lost: Amount, card: string) {
    Matches(l, lost, card, Scan(Rows(l.file)).baseline, Spend(Rows(l.file), card))
  }

  lemma {:induction false} RefreshMatches(l: Ledger, lost: Amount, card: string, now: int, baseline: Totals, spend: Amount)
    requires Matches(l, lost, card, baseline, spend)
    ensures Matches(Refreshed(l, now), Plus(lost, RefreshLoss(l, now, card)), card, baseline, spend)
  {
  }

  /** Pruning takes away all of a card that is off the board and nothing of one that is on it. */
  lemma {:induction false} PrunedMatches(byTask: Totals, ids: set<string>, card: string)
    ensures Plus(Get(Kept(byTask, ids), card), if card in ids then ZERO else Get(byTask, card)) == Get(byTask, card)
  {
  }

  lemma {:induction false} BuildMatches(l: Ledger, lost: Amount, card: string, books: Books, spend: Amount)
    requires Matches(l, lost, card, books.baseline, spend)
    requires books == Scan(Rows(l.file)) && spend == Spend(Rows(l.file), card)
    requires Get(books.byTask, card) == spend
    ensures Matches(Built(l), Plus(lost, BuildLoss(l, card)), card, books.baseline, spend)
  {
    if l.byTask == None {
      PrunedMatches(books.byTask, Ids(l.board), card);
      assert Plus(lost, BuildLoss(l, card)) == BuildLoss(l, card);
      assert Built(l).byTask == Some(Kept(books.byTask, Ids(l.board))) && Built(l).baseline == books.baseline;
    } else {
      PlusLaws(lost, ZERO, ZERO);
    }
  }

  lemma {:induction false} ApplyMatches(l: Ledger, lost: Amount, card: string, row: Row, baseline: Totals, spend: Amount)
    requires l.byTask.Some? && Matches(l, lost, card, baseline, spend)
    ensures var b := Apply(Books(l.byTask.value, l.baseline), row);
      Matches(l.(byTask := Some(b.byTask), baseline := b.baseline), lost, card, baseline[row.Key() := row.Snapshot()],
              if row.Credits(card) then Plus(spend, Moved(row.Snapshot(), Find(baseline, row.Key()))) else spend)
  {
  }

  lemma {:induction false} RowsGrow(file: seq<Line>, row: Row, card: string)
    ensures Rows(file + [Parsed(row)]) == Rows(file) + [row]
    ensures Scan(Rows(file) + [row]) == Apply(Scan(Rows(file)), row)
    ensures Spend(Rows(file) + [row], card)
         == if row.Credits(card) then Plus(Spend(Rows(file), card), Moved(row.Snapshot(), Find(Scan(Rows(file)).baseline, row.Key())))
            else Spend(Rows(file), card)
  {
    var grown := file + [Parsed(row)];
    assert grown[..|grown| - 1] == file;
    var rows := Rows(file);
    assert (rows + [row])[..|rows|] == rows;
    ScanIsSpend(rows, card, row.Key());
  }

  lemma {:induction false} ChargeAgrees(l: Ledger, lost: Amount, card: string, row: Row)
    requires Agrees(l, lost, card)
    ensures Agrees(Charge(l, row, true), lost, card)
  {
    RowsGrow(l.file, row, card);
    if l.byTask.Some? {
      ApplyMatches(l, lost, card, row, Scan(Rows(l.file)).baseline, Spend(Rows(l.file), card));
    }
  }

  lemma {:induction false} RefreshAgrees(l: Ledger, lost: Amount, card: string, now: int)
    requires Agrees(l, lost, card)
    ensures Agrees(Refreshed(l, now), Plus(lost, RefreshLoss(l, now, card)), card)
  {
    RefreshMatches(l, lost, card, now, Scan(Rows(l.file)).baseline, Spend(Rows(l.file), card));
  }

  lemma {:induction false} BuildAgrees(l: Ledger, lost: Amount, card: string)
    requires Agrees(l, lost, card)
    ensures Agrees(Built(l), Plus(lost, BuildLoss(l, card)), card)
  {
    ScanIsSpend(Rows(l.file), card, "");
    BuildMatches(l, lost, card, Scan(Rows(l.file)), Spend(Rows(l.file), card));
  }

  lemma {:induction false} AskAgrees(l: Ledger, lost: Amount, card: string, agent: string)
    requires Agrees(l, lost, card)
    ensures Agrees(Asked(l, agent), Plus(lost, AskLoss(l, agent, card)), card)
  {
    if Carded(l, agent) { BuildAgrees(l, lost, card); }
  }

  lemma {:induction false} PlusLaws(a: Amount, b: Amount, c: Amount)
    ensures Plus(Plus(a, b), c) == Plus(a, Plus(b, c))
    ensures Plus(a, ZERO) == a
  {
  }

  lemma {:induction false} StepAgrees(l: Ledger, lost: Amount, card: string, e: Event)
    requires Agrees(l, lost, card)
    requires e.Sampled? ==> e.written
    ensures Agrees(Step(l, e), Plus(lost, Loss(l, e, card)), card)
  {
    match e
    case BoardWritten(_) =>
    case SpendRead => BuildAgrees(l, lost, card);
    case Sampled(s, at, _) =>
      RefreshAgrees(l, lost, card, at);
      var l1 := Refreshed(l, at);
      ChargeAgrees(l1, Plus(lost, RefreshLoss(l, at, card)), card, StampedRow(s, Cached(l1, s.agent)));
    case BudgetRead(agent, now) =>
      RefreshAgrees(l, lost, card, now);
      AskAgrees(Refreshed(l, now), Plus(lost, RefreshLoss(l, now, card)), card, agent);
      PlusLaws(lost, RefreshLoss(l, now, card), AskLoss(Refreshed(l, now), agent, card));
  }

  /**
   The incremental form refines the rescan, with nothing left out: over any run of appends that
   reach the disk, board changes, cache rebuilds, prunes and reads, the baselines are those of a scan
   of the ledger as it stands, and what is kept for a card plus what pruning took away from it is what
   the card has cost.
   */
  lemma {:induction false} KeptPlusLostIsSpend(l: Ledger, es: seq<Event>, card: string)
    requires Fresh(l) && AppendsSucceed(es)
    ensures Agrees(Run(l, es), Lost(l, es, card), card)
  {
    if es != [] {
      var before := es[..|es| - 1];
      KeptPlusLostIsSpend(l, before, card);
      StepAgrees(Run(l, before), Lost(l, before, card), card, es[|es| - 1]);
    }
  }

  /** What a process that started now would answer for a card. */
  function FreshAnswer(l: Ledger, card: string): Amount {
    TaskSpent(l.(byTask := None, baseline := map[], cache := None), card)
  }

  /** On the board, an answer from scratch is what the card has cost. */
  lemma {:induction false} FreshAnswerIsSpend(l: Ledger, card: string)
    requires card in Ids(l.board)
    ensures FreshAnswer(l, card) == Spend(Rows(l.file), card)
  {
    ScanIsSpend(Rows(l.file), card, "");
  }

  /** For a card on the board, the kept figure is that of a fresh rescan exactly when nothing was lost. */
  lemma {:induction false} FastIsSlowExactlyWhenNothingLost(l: Ledger, es: seq<Event>, card: string)
    requires Fresh(l) && AppendsSucceed(es)
    requires Run(l, es).byTask.Some? && card in Ids(Run(l, es).board)
    ensures TaskSpent(Run(l, es), card) == FreshAnswer(Run(l, es), card) <==> Lost(l, es, card) == ZERO
  {
    KeptPlusLostIsSpend(l, es, card);
    FreshAnswerIsSpend(Run(l, es), card);
  }

  /** The card is on the board in every state of the run in which the accumulator exists or is being built. */
  ghost predicate OnBoardSinceBuilt(l: Ledger, es: seq<Event>, card: string) {
    forall past :: past <= es && (Run(l, past).byTask.Some? || (past < es && Run(l, es[..|past| + 1]).byTask.Some?))
      ==> card in Ids(Run(l, past).board)
  }

  lemma {:induction false} NothingLostOnBoard(l: Ledger, es: seq<Event>, card: string)
    requires OnBoardSinceBuilt(l, es, card)
    ensures Lost(l, es, card) == ZERO
  {
    if es != [] {
      var before := es[..|es| - 1];
      forall past | past <= before && (Run(l, past).byTask.Some? || (past < before && Run(l, before[..|past| + 1]).byTask.Some?))
        ensures card in Ids(Run(l, past).board)
      {
        assert past <= es;
        if past < before { assert before[..|past| + 1] == es[..|past| + 1]; }
      }
      NothingLostOnBoard(l, before, card);
      assert before < es && es[..|before| + 1] == es;
      NothingLostByStep(Run(l, before), es[|before|], card);
    }
  }

  lemma {:induction false} NothingLostByStep(l: Ledger, e: Event, card: string)
    requires l.byTask.Some? || Step(l, e).byTask.Some? ==> card in Ids(l.board)
    ensures Loss(l, e, card) == ZERO
  {
  }

  /** A card on the board continuously since the accumulator was built is charged what a rescan charges it. */
  lemma {:induction false} FastRefinesSlow(l: Ledger, es: seq<Event>, card: string)
    requires Fresh(l) && AppendsSucceed(es) && OnBoardSinceBuilt(l, es, card)
    requires Run(l, es).byTask.Some?
    ensures TaskSpent(Run(l, es), card) == FreshAnswer(Run(l, es), card) == Spend(Rows(Run(l, es).file), card)
    ensures Run(l, es).baseline == Rescanned(Run(l, es)).baseline
  {
    NothingLostOnBoard(l, es, card);
    assert es <= es;
    FreshAnswerIsSpend(Run(l, es), card);
    KeptPlusLostIsSpend(l, es, card);
  }

  const CARD_A := Card("a", "doing", Some("w"), None)

  const ROW_A := StampedRow(Sample("w", "s", 7.0, 0.0, 0.0), Some("a"))

  lemma {:induction false} RunGrows(l: Ledger, es: seq<Event>, e: Event)
    ensures Run(l, es + [e]) == Step(Run(l, es), e)
  {
    assert (es + [e])[..|es|] == es;
  }

  lemma {:induction false} BoardOfOne()
    ensures Ids([CARD_A]) == {"a"} && Ids([]) == {}
    ensures ActiveMap([CARD_A]) == map["w" := "a"]
    ensures Rows([]) == [] && Rows([Parsed(ROW_A)]) == [ROW_A]
    ensures Scan([]) == Books(map[], map[])
    ensures Scan([ROW_A]) == Apply(Books(map[], map[]), ROW_A)
    ensures Spend([], "a") == ZERO && Spend([ROW_A], "a") == Amount(7.0, 0.0)
  {
    assert [CARD_A][..0] == [] && [Parsed(ROW_A)][..0] == [] && [ROW_A][..0] == [];
    assert ActiveMap([]) == map[];
    assert Spend([], "a") == ZERO;
    assert Latest([], ROW_A.Key()) == None;
    assert LastMove([ROW_A]) == ROW_A.Snapshot();
  }

  /** The same two steps begin both counterexamples: build the accumulator, then one sample of seven tokens. */
  lemma {:induction false} AfterOneSample(written: bool) returns (start: Ledger, es: seq<Event>)
    ensures Fresh(start) && (written ==> AppendsSucceed(es))
    ensures var l := Run(start, es);
      && l.file == (if written then [Parsed(ROW_A)] else [])
      && l.board == [CARD_A] && l.byTask == Some(map["a" := Amount(7.0, 0.0)]) && l.cache == Some(Cache(0, map["w" := "a"]))
  {
    BoardOfOne();
    start := Ledger([], [CARD_A], None, map[], None);
    var s := Sampled(Sample("w", "s", 7.0, 0.0, 0.0), 0, written);
    es := [SpendRead, s];
    RunGrows(start, [], SpendRead);
    RunGrows(start, [SpendRead], s);
    assert [] + [SpendRead] == [SpendRead] && [SpendRead] + [s] == es;
    BuiltOnNothing();
    ChargedOnce(written);
  }

  /** The accumulator built over an empty ledger, and then with its card map refreshed. */
  const EMPTY_BOOKS := Ledger([], [CARD_A], Some(map[]), map[], None)
  const WATCHING := EMPTY_BOOKS.(cache := Some(Cache(0, map["w" := "a"])))

  lemma {:induction false} BuiltOnNothing()
    ensures Built(Ledger([], [CARD_A], None, map[], None)) == EMPTY_BOOKS
    ensures Refreshed(EMPTY_BOOKS, 0) == WATCHING
  {
    BoardOfOne();
    assert Kept(map[], {"a"}) == map[];
  }

  lemma {:induction false} ChargedOnce(written: bool)
    ensures var l := Appended(EMPTY_BOOKS, Sample("w", "s", 7.0, 0.0, 0.0), 0, written);
      && l.file == (if written then [Parsed(ROW_A)] else [])
      && l.board == [CARD_A] && l.byTask == Some(map["a" := Amount(7.0, 0.0)]) && l.cache == WATCHING.cache
  {
    BuiltOnNothing();
    assert Cached(WATCHING, "w") == Some("a");
    assert StampedRow(Sample("w", "s", 7.0, 0.0, 0.0), Some("a")) == ROW_A;
    assert ROW_A.task == Some("a") && ROW_A.Snapshot() == Amount(7.0, 0.0);
    FirstCharge(ROW_A, "a");
  }

  /** The first row of all is charged in full. */
  lemma {:induction false} FirstCharge(row: Row, card: string)
    requires row.task == Some(card) && card != ""
    ensures Apply(Books(map[], map[]), row).byTask == map[card := row.Snapshot()]
  {
    assert Moved(row.Snapshot(), None) == row.Snapshot();
    assert Plus(ZERO, row.Snapshot()) == row.Snapshot();
  }

  /** While its only card is off the board, asking for the budget prunes it away. */
  lemma {:induction false} PrunedWhileAway(l: Ledger)
    requires l.board == [] && l.byTask == Some(map["a" := Amount(7.0, 0.0)]) && l.cache == Some(Cache(0, map["w" := "a"]))
    ensures var l' := Step(l, BudgetRead("w", 6000)); l'.byTask == Some(map[]) && l'.file == l.file
  {
    BoardOfOne();
    assert ActiveMap([]) == map[];
    assert Kept(l.byTask.value, {}) == map[];
  }

  lemma {:induction false} ForgottenShows(l: Ledger)
    requires l.byTask == Some(map[]) && l.file == [Parsed(ROW_A)] && l.board == [CARD_A]
    ensures "a" in Ids(l.board) && TaskSpent(l, "a") == ZERO && FreshAnswer(l, "a") == Amount(7.0, 0.0)
  {
    BoardOfOne();
    FreshAnswerIsSpend(l, "a");
  }

  /** The run goes on: the card leaves the board, is pruned, and comes back. */
  lemma {:induction false} AwayAndBack(start: Ledger, es: seq<Event>) returns (longer: seq<Event>)
    requires var l := Run(start, es);
      l.byTask == Some(map["a" := Amount(7.0, 0.0)]) && l.cache == Some(Cache(0, map["w" := "a"])) && l.file == [Parsed(ROW_A)]
    ensures AppendsSucceed(es) ==> AppendsSucceed(longer)
    ensures var l := Run(start, longer); l.byTask == Some(map[]) && l.file == [Parsed(ROW_A)] && l.board == [CARD_A]
  {
    var away, asked, back := BoardWritten([]), BudgetRead("w", 6000), BoardWritten([CARD_A]);
    RunGrows(start, es, away);
    RunGrows(start, es + [away], asked);
    PrunedWhileAway(Run(start, es + [away]));
    longer := es + [away] + [asked] + [back];
    RunGrows(start, es + [away] + [asked], back);
  }

  /** A card that leaves the board, is pruned and comes back has forgotten its spend: the condition is needed. */
  lemma {:induction false} ReturningCardForgetsItsSpend()
    ensures exists l, es ::
      (Fresh(l) && AppendsSucceed(es) && "a" in Ids(Run(l, es).board)
       && TaskSpent(Run(l, es), "a") == ZERO && FreshAnswer(Run(l, es), "a") == Amount(7.0, 0.0))
  {
    var start, es := AfterOneSample(true);
    var longer := AwayAndBack(start, es);
    ForgottenShows(Run(start, longer));
  }

  /** An append the disk refused is still charged in memory, so the two forms part: that hypothesis is needed too. */
  lemma {:induction false} RefusedAppendParts()
    ensures exists l, es ::
      (Fresh(l) && "a" in Ids(Run(l, es).board)
       && TaskSpent(Run(l, es), "a") == Amount(7.0, 0.0) && FreshAnswer(Run(l, es), "a") == ZERO)
  {
    BoardOfOne();
    var start, es := AfterOneSample(false);
    FreshAnswerIsSpend(Run(start, es), "a");
  }

  // ---------------------------------------------------------------- one series

  /** The snapshots of one series, in ledger order. */
  function Series(rows: seq<Row>, key: string): seq<Amount> {
    if rows == [] then []
    else
      var before := Series(rows[..|rows| - 1], key);
      if rows[|rows| - 1].Key() == key then before + [rows[|rows| - 1].Snapshot()] else before
  }

  /** Everything one series was charged for, to whichever card. */
  function Charged(rows: seq<Row>, key: string): Amount {
    if rows == [] then ZERO
    else
      var before := Charged(rows[..|rows| - 1], key);
      if rows[|rows| - 1].Key() == key then Plus(before, LastMove(rows)) else before
  }

  /** Every amount the clamp swallowed when a series fell. */
  function Falls(s: seq<real>): real {
    if |s| < 2 then 0.0
    else Falls(s[..|s| - 1]) + Positive(s[|s| - 2] - s[|s| - 1])
  }

  function Sum(s: seq<real>): real {
    if s == [] then 0.0 else Sum(s[..|s| - 1]) + s[|s| - 1]
  }

  function Tokens(s: seq<Amount>): (t: seq<real>)
    ensures |t| == |s|
  {
    seq(|s|, i requires 0 <= i < |s| => s[i].tokens)
  }

  function Dollars(s: seq<Amount>): (t: seq<real>)
    ensures |t| == |s|
  {
    seq(|s|, i requires 0 <= i < |s| => s[i].usd)
  }

  function LastOf(s: seq<real>): real {
    if s == [] then 0.0 else s[|s| - 1]
  }

  lemma {:induction false} LatestIsLastSnapshot(rows: seq<Row>, key: string)
    ensures Latest(rows, key) == if Series(rows, key) == [] then None else Some(Series(rows, key)[|Series(rows, key)| - 1])
  {
    if rows != [] { LatestIsLastSnapshot(rows[..|rows| - 1], key); }
  }

  lemma {:induction false} TokensGrow(s: seq<Amount>, a: Amount)
    ensures Tokens(s + [a]) == Tokens(s) + [a.tokens]
    ensures Dollars(s + [a]) == Dollars(s) + [a.usd]
  {
  }

  lemma {:induction false} FallsGrow(s: seq<real>, x: real)
    ensures Falls(s + [x]) == Falls(s) + (if s == [] then 0.0 else Positive(LastOf(s) - x))
  {
    assert (s + [x])[..|s|] == s;
  }

  /** Conservation: a series is charged exactly its last snapshot plus every fall it took. */
  lemma {:induction false} ChargedIsLastPlusFalls(rows: seq<Row>, key: string)
    ensures Charged(rows, key).tokens == LastOf(Tokens(Series(rows, key))) + Falls(Tokens(Series(rows, key)))
    ensures Charged(rows, key).usd == LastOf(Dollars(Series(rows, key))) + Falls(Dollars(Series(rows, key)))
  {
    if rows != [] {
      var before, last := rows[..|rows| - 1], rows[|rows| - 1];
      ChargedIsLastPlusFalls(before, key);
      if last.Key() == key {
        LatestIsLastSnapshot(before, key);
        var s, a := Series(before, key), last.Snapshot();
        TokensGrow(s, a);
        FallsGrow(Tokens(s), a.tokens);
        FallsGrow(Dollars(s), a.usd);
      }
    }
  }

  lemma {:induction false} FallsAreNotNegative(s: seq<real>)
    ensures Falls(s) >= 0.0
  {
    if |s| >= 2 { FallsAreNotNegative(s[..|s| - 1]); }
  }

  lemma {:induction false} FallsBounds(s: seq<real>, k: nat)
    requires k < |s|
    ensures s[k] <= LastOf(s) + Falls(s)
    ensures (forall i :: 0 <= i < |s| ==> s[i] >= 0.0) ==> LastOf(s) + Falls(s) <= Sum(s)
    ensures (forall i, j :: 0 <= i <= j < |s| ==> s[i] <= s[j]) ==> Falls(s) == 0.0
    decreases |s|
  {
    var before := s[..|s| - 1];
    if |s| > 1 {
      FallsBounds(before, if k < |s| - 1 then k else 0);
      assert s == before + [s[|s| - 1]];
      FallsGrow(before, s[|s| - 1]);
      FallsAreNotNegative(before);
    } else {
      assert before == [];
    }
  }

  /**
   The cost arithmetic across collector resets: what one series is charged is at least each of its
   snapshots, at most their sum, and its last snapshot when the series never falls.
   */
  lemma {:induction false} ChargeBounds(rows: seq<Row>, key: string, k: nat)
    requires k < |Series(rows, key)|
    ensures var s := Series(rows, key); var c := Charged(rows, key);
      && s[k].tokens <= c.tokens && s[k].usd <= c.usd
      && ((forall i :: 0 <= i < |s| ==> s[i].tokens >= 0.0) ==> c.tokens <= Sum(Tokens(s)))
      && ((forall i :: 0 <= i < |s| ==> s[i].usd >= 0.0) ==> c.usd <= Sum(Dollars(s)))
      && ((forall i, j :: 0 <= i <= j < |s| ==> s[i].tokens <= s[j].tokens) ==> c.tokens == s[|s| - 1].tokens)
      && ((forall i, j :: 0 <= i <= j < |s| ==> s[i].usd <= s[j].usd) ==> c.usd == s[|s| - 1].usd)
  {
    ChargedIsLastPlusFalls(rows, key);
    FallsBounds(Tokens(Series(rows, key)), k);
    FallsBounds(Dollars(Series(rows, key)), k);
  }

  predicate NonNegative(rows: seq<Row>) {
    forall i :: 0 <= i < |rows| ==> rows[i].Snapshot().tokens >= 0.0 && rows[i].Snapshot().usd >= 0.0
  }

  /** A card's spend never falls as rows are added. */
  lemma {:induction false} SpendNeverFalls(rows: seq<Row>, more: seq<Row>, card: string)
    requires NonNegative(rows + more)
    ensures Spend(rows, card).tokens <= Spend(rows + more, card).tokens
    ensures Spend(rows, card).usd <= Spend(rows + more, card).usd
    decreases |more|
  {
    if more == [] {
      assert rows + more == rows;
    } else {
      var all := rows + more;
      var less := more[..|more| - 1];
      assert all[..|all| - 1] == rows + less;
      assert NonNegative(rows + less) by {
        assert forall i :: 0 <= i < |rows + less| ==> (rows + less)[i] == all[i];
      }
      SpendNeverFalls(rows, less, card);
      assert all[|all| - 1].Snapshot().tokens >= 0.0;
    }
  }

  /** The rows of a window all belong to one series and are all stamped with one card. */
  predicate Window(rows: seq<Row>, from: nat, key: string, card: string) {
    from <= |rows| && card != ""
    && forall i :: from <= i < |rows| ==> rows[i].Key() == key && rows[i].Credits(card)
  }

  /**
   A card pays for what happened while it was in flight: over a window of rows of one series stamped
   with the card and with no reset, its spend grows by the last snapshot minus the one before the window.
   */
  lemma {:induction false} WindowTelescopes(rows: seq<Row>, from: nat, key: string, card: string)
    requires Window(rows, from, key, card) && Latest(rows[..from], key).Some? && from < |rows|
    requires forall i :: from <= i < |rows| ==>
      rows[i].Snapshot().tokens >= (if i == from then Latest(rows[..from], key).value else rows[i - 1].Snapshot()).tokens
    ensures Spend(rows, card).tokens
         == Spend(rows[..from], card).tokens + rows[|rows| - 1].Snapshot().tokens - Latest(rows[..from], key).value.tokens
    decreases |rows|
  {
    var n := |rows| - 1;
    var before := rows[..n];
    assert before[..from] == rows[..from];
    if from < n {
      WindowTelescopes(before, from, key, card);
      assert Latest(before, key) == Some(before[n - 1].Snapshot());
    }
  }

  /** Two series share an accumulator only if they are the same pair, since agent ids carry no NUL. */
  lemma {:induction false} SeriesKeysAreDistinct(a: Row, b: Row)
    requires '\0' !in a.agent.GetOr("") && '\0' !in b.agent.GetOr("")
    ensures a.Key() == b.Key() <==> (a.agent.GetOr("") == b.agent.GetOr("") && a.session.GetOr("") == b.session.GetOr(""))
  {
    var x, y := a.agent.GetOr(""), b.agent.GetOr("");
    assert forall i :: 0 <= i < |x| ==> a.Key()[i] == x[i] && x[i] in x;
    assert forall i :: 0 <= i < |y| ==> b.Key()[i] == y[i] && y[i] in y;
    assert a.Key()[|x|] == '\0' && b.Key()[|y|] == '\0';
    if a.Key() == b.Key() {
      assert |x| == |y|;
      assert a.Key()[..|x|] == x && b.Key()[..|y|] == y;
      assert a.Key()[|x| + 1..] == a.session.GetOr("") && b.Key()[|y| + 1..] == b.session.GetOr("");
    }
  }
}
