/**
 What appends the disk refuses do to the accumulator: it goes on as if they were in the ledger, and exactly
 when a rescan would see the difference.
 */
module CostRefusals {
  import opened Options
  import opened CostLedger
  import opened CostRuns

  // ---------------------------------------------------------------- the ledger with the refused rows

  /** The row a sample is appended as. */
  function RowOf(l: Ledger, s: Sample, at: int): Row {
    StampedRow(s, Cached(Refreshed(l, at), s.agent))
  }

  /** What one step adds to the ledger, the refused rows the accumulator was charged with included. */
  function SeenBy(l: Ledger, e: Event): seq<Line> {
    match e
    case Sampled(s, at, written) => if written || l.byTask.Some? then [Parsed(RowOf(l, s, at))] else []
    case _ => []
  }

  /** The ledger as the accumulator has seen it. */
  function Seen(l: Ledger, es: seq<Event>): seq<Line> {
    if es == [] then l.file
    else
      var before := es[..|es| - 1];
      Seen(l, before) + SeenBy(Run(l, before), es[|es| - 1])
  }

  /** Until the accumulator is built it has seen what is on disk. */
  ghost predicate SeenAgrees(l: Ledger, seen: seq<Line>, lost: Amount, card: string) {
    (l.byTask == None ==> seen == l.file) && Agrees(l.(file := seen), lost, card)
  }

  /** Steps that do not append run the same over either ledger. */
  lemma {:induction false} QuietStep(l: Ledger, seen: seq<Line>, card: string, e: Event)
    requires l.byTask == None ==> seen == l.file
    requires !e.Sampled?
    ensures var s', t' := Step(l, e), Step(l.(file := seen), e);
      s'.file == l.file && t' == s'.(file := seen) && (s'.byTask == None ==> l.byTask == None)
      && Loss(l.(file := seen), e, card) == Loss(l, e, card)
  {
    match e
    case BudgetRead(agent, now) =>
      assert Refreshed(l.(file := seen), now) == Refreshed(l, now).(file := seen);
      AskedOverSeen(Refreshed(l, now), seen, agent, card);
    case _ =>
  }

  lemma {:induction false} AskedOverSeen(l: Ledger, seen: seq<Line>, agent: string, card: string)
    requires l.byTask == None ==> seen == l.file
    ensures Asked(l.(file := seen), agent) == Asked(l, agent).(file := seen) && Asked(l, agent).file == l.file
    ensures AskLoss(l.(file := seen), agent, card) == AskLoss(l, agent, card)
    ensures Asked(l, agent).byTask == None ==> l.byTask == None
  {
  }

  lemma {:induction false} SampleStep(l: Ledger, seen: seq<Line>, s: Sample, at: int, written: bool, card: string)
    requires l.byTask == None ==> seen == l.file
    ensures var e := Sampled(s, at, written); var whole := l.(file := seen); var s' := Step(l, e);
      && (l.byTask == None <==> s'.byTask == None)
      && Loss(whole, e, card) == Loss(l, e, card)
      && s'.file == l.file + (if written then [Parsed(RowOf(l, s, at))] else [])
      && s'.(file := seen + SeenBy(l, e)) ==
           if written || l.byTask.Some? then Step(whole, Sampled(s, at, true)) else Refreshed(whole, at)
  {
    var whole := l.(file := seen);
    assert Refreshed(whole, at) == Refreshed(l, at).(file := seen);
    assert seen + [] == seen && l.file + [] == l.file;
  }

  lemma {:induction false} SeenFrom(l: Ledger, seen: seq<Line>, whole: Ledger, lost: Amount, card: string)
    requires whole == l.(file := seen) && Agrees(whole, lost, card) && (l.byTask == None ==> seen == l.file)
    ensures SeenAgrees(l, seen, lost, card)
  {
  }

  lemma {:induction false} SampleSeen(l: Ledger, seen: seq<Line>, lost: Amount, card: string, s: Sample, at: int, written: bool)
    requires SeenAgrees(l, seen, lost, card)
    ensures var e := Sampled(s, at, written);
      SeenAgrees(Step(l, e), seen + SeenBy(l, e), Plus(lost, Loss(l, e, card)), card)
  {
    var whole, e := l.(file := seen), Sampled(s, at, written);
    SampleStep(l, seen, s, at, written, card);
    var more := if written || l.byTask.Some? then Step(whole, Sampled(s, at, true)) else Refreshed(whole, at);
    if written || l.byTask.Some? {
      StepAgrees(whole, lost, card, Sampled(s, at, true));
    } else {
      RefreshAgrees(whole, lost, card, at);
    }
    SeenFrom(Step(l, e), seen + SeenBy(l, e), more, Plus(lost, Loss(l, e, card)), card);
  }

  lemma {:induction false} StepSeen(l: Ledger, seen: seq<Line>, lost: Amount, card: string, e: Event)
    requires SeenAgrees(l, seen, lost, card)
    ensures SeenAgrees(Step(l, e), seen + SeenBy(l, e), Plus(lost, Loss(l, e, card)), card)
  {
    if e.Sampled? {
      SampleSeen(l, seen, lost, card, e.sample, e.at, e.written);
    } else {
      QuietStep(l, seen, card, e);
      StepAgrees(l.(file := seen), lost, card, e);
      assert seen + SeenBy(l, e) == seen;
      SeenFrom(Step(l, e), seen, Step(l.(file := seen), e), Plus(lost, Loss(l, e, card)), card);
    }
  }

  /**
   Over any run, refused appends included, what is kept for a card plus what pruning took away from it is what
   the card has cost over the ledger with the refused rows in it, and the baselines are those of its scan.
   */
  lemma {:induction false} KeptPlusLostIsSeen(l: Ledger, es: seq<Event>, card: string)
    requires Fresh(l)
    ensures SeenAgrees(Run(l, es), Seen(l, es), Lost(l, es, card), card)
  {
    if es != [] {
      var before := es[..|es| - 1];
      KeptPlusLostIsSeen(l, before, card);
      StepSeen(Run(l, before), Seen(l, before), Lost(l, before, card), card, es[|es| - 1]);
    }
  }

  // ---------------------------------------------------------------- what one refused row is worth

  function Minus(a: Amount, b: Amount): Amount {
    Amount(a.tokens - b.tokens, a.usd - b.usd)
  }

  /** The next row of a series. */
  function NextOf(rows: seq<Row>, key: string): Option<Row> {
    if rows == [] then None
    else
      var before := NextOf(rows[..|rows| - 1], key);
      if before.Some? then before else if rows[|rows| - 1].Key() == key then Some(rows[|rows| - 1]) else None
  }

  /** What a row between these others adds to a card: its own move, and what the next row of its series then moves less. */
  function Worth(before: seq<Row>, row: Row, rest: seq<Row>, card: string): Amount {
    var previous := Latest(before, row.Key());
    var own := if row.Credits(card) then Moved(row.Snapshot(), previous) else ZERO;
    match NextOf(rest, row.Key())
    case None => own
    case Some(next) =>
      if next.Credits(card) then Minus(Plus(own, Moved(next.Snapshot(), Some(row.Snapshot()))), Moved(next.Snapshot(), previous)) else own
  }

  /** The baselines with and without the row are the same but for its series until the next row of it. */
  lemma {:induction false} LatestWithout(before: seq<Row>, row: Row, rest: seq<Row>, key: string)
    ensures Latest(before + [row] + rest, key) ==
      if key == row.Key() && NextOf(rest, key).None? then Some(row.Snapshot()) else Latest(before + rest, key)
  {
    if rest == [] {
      assert before + [row] + rest == before + [row] && before + rest == before;
      assert (before + [row])[..|before|] == before;
    } else {
      var n := |rest| - 1;
      LatestWithout(before, row, rest[..n], key);
      DropLast(before + [row], rest);
      DropLast(before, rest);
    }
  }

  lemma {:induction false} LatestBefore(before: seq<Row>, rest: seq<Row>, key: string)
    requires NextOf(rest, key).None?
    ensures Latest(before + rest, key) == Latest(before, key)
  {
    if rest == [] {
      assert before + rest == before;
    } else {
      LatestBefore(before, rest[..|rest| - 1], key);
      DropLast(before, rest);
    }
  }

  lemma {:induction false} DropLast<T>(a: seq<T>, b: seq<T>)
    requires b != []
    ensures (a + b)[..|a + b| - 1] == a + b[..|b| - 1] && (a + b)[|a + b| - 1] == b[|b| - 1]
  {
  }

  lemma {:induction false} LastSpend(rows: seq<Row>, last: Row, card: string)
    ensures Spend(rows + [last], card) ==
      if last.Credits(card) then Plus(Spend(rows, card), Moved(last.Snapshot(), Latest(rows, last.Key()))) else Spend(rows, card)
  {
    assert (rows + [last])[..|rows|] == rows;
  }

  /** Exactly what a row is worth to each card, wherever it stands in the ledger. */
  lemma {:induction false} SpendWithout(before: seq<Row>, row: Row, rest: seq<Row>, card: string)
    ensures Spend(before + [row] + rest, card) == Plus(Spend(before + rest, card), Worth(before, row, rest, card))
  {
    if rest == [] {
      assert before + [row] + rest == before + [row] && before + rest == before;
      LastSpend(before, row, card);
    } else {
      var n := |rest| - 1;
      var last := rest[n];
      SpendWithout(before, row, rest[..n], card);
      LatestWithout(before, row, rest[..n], last.Key());
      assert before + [row] + rest == before + [row] + rest[..n] + [last] && before + rest == before + rest[..n] + [last];
      LastSpend(before + [row] + rest[..n], last, card);
      LastSpend(before + rest[..n], last, card);
      if NextOf(rest[..n], last.Key()).None? { LatestBefore(before, rest[..n], last.Key()); }
    }
  }

  // ---------------------------------------------------------------- when it shows

  /**
   A card on the board is answered as a fresh rescan answers it, over any run, if and only if what pruning took
   from it is what the refused rows are worth to it.
   */
  lemma {:induction false} RefusalsShowExactly(l: Ledger, es: seq<Event>, card: string)
    requires Fresh(l) && Run(l, es).byTask.Some? && card in Ids(Run(l, es).board)
    ensures TaskSpent(Run(l, es), card) == FreshAnswer(Run(l, es), card)
      <==> Plus(Spend(Rows(Run(l, es).file), card), Lost(l, es, card)) == Spend(Rows(Seen(l, es)), card)
  {
    KeptIsSeen(l, es, card);
    FreshAnswerIsSpend(Run(l, es), card);
    PlusCancels(TaskSpent(Run(l, es), card), Spend(Rows(Run(l, es).file), card), Lost(l, es, card));
  }

  lemma {:induction false} KeptIsSeen(l: Ledger, es: seq<Event>, card: string)
    requires Fresh(l) && Run(l, es).byTask.Some?
    ensures Plus(TaskSpent(Run(l, es), card), Lost(l, es, card)) == Spend(Rows(Seen(l, es)), card)
  {
    KeptPlusLostIsSeen(l, es, card);
    KeptOf(Run(l, es), Seen(l, es), Lost(l, es, card), card);
  }

  lemma {:induction false} KeptOf(l: Ledger, seen: seq<Line>, lost: Amount, card: string)
    requires l.byTask.Some? && SeenAgrees(l, seen, lost, card)
    ensures Plus(TaskSpent(l, card), lost) == Spend(Rows(seen), card)
  {
  }

  lemma {:induction false} PlusCancels(a: Amount, b: Amount, c: Amount)
    ensures a == b <==> Plus(a, c) == Plus(b, c)
  {
  }

  /**
   With one row refused and nothing pruned away, a card is answered as a fresh rescan answers it if and only if
   that row is worth nothing to it.
   */
  lemma {:induction false} OneRefusalShowsExactly(l: Ledger, es: seq<Event>, card: string, before: seq<Row>, row: Row, rest: seq<Row>)
    requires Fresh(l) && Run(l, es).byTask.Some? && card in Ids(Run(l, es).board) && Lost(l, es, card) == ZERO
    requires Rows(Seen(l, es)) == before + [row] + rest && Rows(Run(l, es).file) == before + rest
    ensures TaskSpent(Run(l, es), card) == FreshAnswer(Run(l, es), card) <==> Worth(before, row, rest, card) == ZERO
  {
    RefusalsShowExactly(l, es, card);
    SpendWithout(before, row, rest, card);
  }

  predicate Between(x: real, a: real, b: real) {
    a <= x <= b || b <= x <= a
  }

  /**
   A refused row in the middle of a series whose next row is stamped with the same card is made up for exactly
   when it lies between its neighbours: then nobody sees that it was refused.
   */
  lemma {:induction false} MadeUpForExactlyBetween(before: seq<Row>, row: Row, rest: seq<Row>, card: string)
    requires row.Credits(card) && Latest(before, row.Key()).Some?
    requires NextOf(rest, row.Key()).Some? && NextOf(rest, row.Key()).value.Credits(card)
    ensures var p, x, y := Latest(before, row.Key()).value, row.Snapshot(), NextOf(rest, row.Key()).value.Snapshot();
      Worth(before, row, rest, card) == ZERO <==> Between(x.tokens, p.tokens, y.tokens) && Between(x.usd, p.usd, y.usd)
  {
  }
}
