/**
 The per-card cost accumulator of the hive manager.

 A ledger row is a cumulative snapshot of one (agent, session) series.  A card is charged the
 clamped difference between consecutive snapshots of a series.  The accumulator is built by one
 scan of the whole ledger and kept current row by row afterwards; cards that leave the board are
 pruned from it.  `Spend` says what a card has cost without any accumulator, and the lemmas at the
 end relate the incremental form to it over every run.
 */
module CostLedger {
  import opened Options

  datatype Amount = Amount(tokens: real, usd: real)

  const ZERO := Amount(0.0, 0.0)

  function Plus(a: Amount, b: Amount): Amount {
    Amount(a.tokens + b.tokens, a.usd + b.usd)
  }

  function Positive(x: real): real {
    if x > 0.0 then x else 0.0
  }

  /** How far a series moved from `previous` to `now`; a reset counts as no movement. */
  function Moved(now: Amount, previous: Option<Amount>): Amount {
    match previous
    case None => now
    case Some(p) => Amount(Positive(now.tokens - p.tokens), Positive(now.usd - p.usd))
  }

  /** One parsed ledger line.  Every column may be missing. */
  datatype Row = Row(agent: Option<string>, session: Option<string>, task: Option<string>,
                     input: Option<real>, output: Option<real>, usd: Option<real>)
  {
    function Key(): string {
      agent.GetOr("") + "\0" + session.GetOr("")
    }

    function Snapshot(): Amount {
      Amount(input.GetOr(0.0) + output.GetOr(0.0), usd.GetOr(0.0))
    }

    predicate Credits(card: string) {
      task == Some(card) && card != ""
    }
  }

  /** A line of the ledger file: a row, or one torn by a crash, which the scan skips. */
  datatype Line = Parsed(row: Row) | Torn

  function Rows(file: seq<Line>): seq<Row> {
    if file == [] then []
    else
      var rest := Rows(file[..|file| - 1]);
      match file[|file| - 1]
      case Parsed(row) => rest + [row]
      case Torn => rest
  }

  type Totals = map<string, Amount>

  function Get(m: Totals, key: string): Amount {
    if key in m then m[key] else ZERO
  }

  function Find(m: Totals, key: string): Option<Amount> {
    if key in m then Some(m[key]) else None
  }

  // ---------------------------------------------------------------- what a card has cost

  /** The newest snapshot of a series. */
  function Latest(rows: seq<Row>, key: string): Option<Amount> {
    if rows == [] then None
    else
      var last := rows[|rows| - 1];
      if last.Key() == key then Some(last.Snapshot()) else Latest(rows[..|rows| - 1], key)
  }

  /** What the newest row moved its own series by. */
  function LastMove(rows: seq<Row>): Amount
    requires rows != []
  {
    var last := rows[|rows| - 1];
    Moved(last.Snapshot(), Latest(rows[..|rows| - 1], last.Key()))
  }

  /** What a card has cost: the moves of the rows stamped with it, over the whole ledger. */
  function Spend(rows: seq<Row>, card: string): Amount {
    if rows == [] then ZERO
    else
      var before := Spend(rows[..|rows| - 1], card);
      if rows[|rows| - 1].Credits(card) then Plus(before, LastMove(rows)) else before
  }

  // ---------------------------------------------------------------- the two accumulators

  datatype Books = Books(byTask: Totals, baseline: Totals)

  function Apply(b: Books, row: Row): Books {
    var now := row.Snapshot();
    var moved := Moved(now, Find(b.baseline, row.Key()));
    var baseline := b.baseline[row.Key() := now];
    if row.task == None || row.task == Some("") then Books(b.byTask, baseline)
    else Books(b.byTask[row.task.value := Plus(Get(b.byTask, row.task.value), moved)], baseline)
  }

  function Scan(rows: seq<Row>): Books {
    if rows == [] then Books(map[], map[])
    else Apply(Scan(rows[..|rows| - 1]), rows[|rows| - 1])
  }

  function Kept(byTask: Totals, live: set<string>): Totals {
    byTask - (byTask.Keys - live)
  }

  // ---------------------------------------------------------------- the manager's state

  datatype Card = Card(id: string, status: string, assignee: Option<string>, budgetTokens: Option<real>)
  {
    predicate Doing(agent: string) {
      status == "doing" && assignee == Some(agent) && agent != ""
    }
  }

  function Ids(board: seq<Card>): set<string> {
    if board == [] then {} else Ids(board[..|board| - 1]) + {board[|board| - 1].id}
  }

  /** The first card an agent is doing, scanning the board in order. */
  function FirstDoing(board: seq<Card>, agent: string): Option<string> {
    if board == [] then None
    else if board[0].Doing(agent) then Some(board[0].id)
    else FirstDoing(board[1..], agent)
  }

  /** The agents with a card in flight, built in one pass: an agent keeps the first card found for it. */
  function ActiveMap(board: seq<Card>): map<string, string> {
    if board == [] then map[]
    else
      var m, t := ActiveMap(board[..|board| - 1]), board[|board| - 1];
      if t.status == "doing" && t.assignee.Some? && t.assignee.value != "" && t.assignee.value !in m
      then m[t.assignee.value := t.id] else m
  }

  datatype Cache = Cache(at: int, active: map<string, string>)

  const CACHE_MS := 5000

  datatype Ledger = Ledger(file: seq<Line>, board: seq<Card>, byTask: Option<Totals>, baseline: Totals,
                           cache: Option<Cache>)

  predicate Stale(l: Ledger, now: int) {
    l.cache == None || now - l.cache.value.at > CACHE_MS
  }

  function Pruned(l: Ledger): Ledger {
    if l.byTask == None then l else l.(byTask := Some(Kept(l.byTask.value, Ids(l.board))))
  }

  /** Rebuilding the assignee cache is also where cards that left the board are dropped. */
  function Refreshed(l: Ledger, now: int): Ledger {
    if Stale(l, now) then Pruned(l.(cache := Some(Cache(now, ActiveMap(l.board))))) else l
  }

  function Rescanned(l: Ledger): Ledger {
    var books := Scan(Rows(l.file));
    Pruned(l.(byTask := Some(books.byTask), baseline := books.baseline))
  }

  function Built(l: Ledger): Ledger {
    if l.byTask == None then Rescanned(l) else l
  }

  function Cached(l: Ledger, agent: string): Option<string> {
    if l.cache.Some? && agent in l.cache.value.active then Some(l.cache.value.active[agent]) else None
  }

  /** The agent has a card in flight, so asking for its budget reads that card's spend. */
  predicate Carded(l: Ledger, agent: string) {
    Cached(l, agent).Some? && Cached(l, agent) != Some("")
  }

  function Asked(l: Ledger, agent: string): Ledger {
    if Carded(l, agent) then Built(l) else l
  }

  datatype Sample = Sample(agent: string, session: string, input: real, output: real, usd: real)

  function StampedRow(s: Sample, card: Option<string>): Row {
    Row(Some(s.agent), Some(s.session), card, Some(s.input), Some(s.output), Some(s.usd))
  }

  /** Writing one row to disk and folding it in; `written` is false when the disk refused it. */
  function Charge(l: Ledger, row: Row, written: bool): Ledger {
    var l1 := if written then l.(file := l.file + [Parsed(row)]) else l;
    if l1.byTask == None then l1
    else
      var books := Apply(Books(l1.byTask.value, l1.baseline), row);
      l1.(byTask := Some(books.byTask), baseline := books.baseline)
  }

  /** One appended usage sample, stamped with the card its agent is working on. */
  function Appended(l: Ledger, s: Sample, now: int, written: bool): Ledger {
    var l1 := Refreshed(l, now);
    Charge(l1, StampedRow(s, Cached(l1, s.agent)), written)
  }

  function TaskSpent(l: Ledger, card: string): Amount {
    var l1 := Built(l);
    Get(l1.byTask.value, card)
  }

  /** The cap of the first card with that id; a missing or non-positive cap is no cap. */
  function CapOf(board: seq<Card>, card: string): Option<real> {
    if board == [] then None
    else if board[0].id == card then
      if board[0].budgetTokens.Some? && board[0].budgetTokens.value > 0.0 then board[0].budgetTokens else None
    else CapOf(board[1..], card)
  }

  // ---------------------------------------------------------------- the manager

  class HiveCosts {
    /** `cost-ledger.jsonl` and `tasks.json`, as they stand on disk. */
    var file: seq<Line>
    var board: seq<Card>
    var costByTask: Option<Totals>
    var costCumulative: Totals
    var activeTaskCache: Option<Cache>

    ghost function Model(): Ledger
      reads this
    {
      Ledger(file, board, costByTask, costCumulative, activeTaskCache)
    }

    /** A fresh process over whatever is on disk. */
    constructor (file: seq<Line>, board: seq<Card>)
      ensures Model() == Ledger(file, board, None, map[], None)
    {
      this.file, this.board := file, board;
      costByTask, costCumulative, activeTaskCache := None, map[], None;
    }

    method WriteBoard(cards: seq<Card>)
      modifies this
      ensures Model() == old(Model()).(board := cards)
    {
      board := cards;
    }

    static method ApplyCostRow(byTask: Totals, cumulative: Totals, row: Row) returns (byTask': Totals, cumulative': Totals)
      ensures Books(byTask', cumulative') == Apply(Books(byTask, cumulative), row)
    {
      var key := row.Key();
      var now := row.Snapshot();
      var delta := now;
      if key in cumulative {
        var previous := cumulative[key];
        delta := Amount(if now.tokens - previous.tokens > 0.0 then now.tokens - previous.tokens else 0.0,
                        if now.usd - previous.usd > 0.0 then now.usd - previous.usd else 0.0);
      }
      byTask', cumulative' := byTask, cumulative[key := now];
      if row.task == None || row.task == Some("") {
        return;
      }
      var acc := if row.task.value in byTask then byTask[row.task.value] else ZERO;
      byTask' := byTask[row.task.value := Amount(acc.tokens + delta.tokens, acc.usd + delta.usd)];
    }

    method PruneCostByTask()
      modifies this
      ensures Model() == Pruned(old(Model()))
    {
      if costByTask == None { return; }
      var byTask, tasks := costByTask.value, board;
      var live: set<string> := {};
      for i := 0 to |tasks|
        modifies {}
        invariant live == Ids(tasks[..i])
      {
        assert tasks[..i + 1][..i] == tasks[..i];
        live := live + {tasks[i].id};
      }
      assert tasks[..|tasks|] == tasks;
      ghost var before := byTask;
      var todo := byTask.Keys;
      while todo != {}
        modifies {}
        invariant todo <= before.Keys
        invariant byTask == map id | id in before && (id in live || id in todo) :: before[id]
        decreases |todo|
      {
        var id :| id in todo;
        if id !in live { byTask := byTask - {id}; }
        todo := todo - {id};
      }
      assert byTask == Kept(before, live);
      costByTask := Some(byTask);
    }

    method RescanCostLedger() returns (byTask: Totals)
      modifies this
      ensures Model() == Rescanned(old(Model()))
      ensures costByTask == Some(byTask)
    {
      var sums: Totals, cumulative: Totals := map[], map[];
      var raw := file;
      for i := 0 to |raw|
        modifies {}
        invariant Books(sums, cumulative) == Scan(Rows(raw[..i]))
      {
        assert raw[..i + 1][..i] == raw[..i];
        if raw[i].Parsed? {
          assert Rows(raw[..i + 1]) == Rows(raw[..i]) + [raw[i].row];
          assert Rows(raw[..i + 1])[..|Rows(raw[..i])|] == Rows(raw[..i]);
          sums, cumulative := ApplyCostRow(sums, cumulative, raw[i].row);
        }
      }
      assert raw[..|raw|] == raw;
      costCumulative := cumulative;
      costByTask := Some(sums);
      PruneCostByTask();
      byTask := costByTask.value;
    }

    method ActiveTaskId(agent: string, now: int) returns (card: Option<string>)
      modifies this
      ensures Model() == Refreshed(old(Model()), now)
      ensures card == Cached(Model(), agent)
    {
      if activeTaskCache == None || now - activeTaskCache.value.at > CACHE_MS {
        var active: map<string, string> := map[];
        var tasks := board;
        for i := 0 to |tasks|
          modifies {}
          invariant active == ActiveMap(tasks[..i])
        {
          assert tasks[..i + 1][..i] == tasks[..i];
          var t := tasks[i];
          if t.status == "doing" && t.assignee.Some? && t.assignee.value != "" && t.assignee.value !in active {
            active := active[t.assignee.value := t.id];
          }
        }
        assert tasks[..|tasks|] == tasks;
        activeTaskCache := Some(Cache(now, active));
        PruneCostByTask();
      }
      card := if agent in activeTaskCache.value.active then Some(activeTaskCache.value.active[agent]) else None;
    }

    method AppendCostLedger(s: Sample, now: int, written: bool)
      modifies this
      ensures Model() == Appended(old(Model()), s, now, written)
    {
      var card := ActiveTaskId(s.agent, now);
      var row := StampedRow(s, card);
      if written { file := file + [Parsed(row)]; }
      if costByTask.Some? {
        var byTask, cumulative := ApplyCostRow(costByTask.value, costCumulative, row);
        costByTask, costCumulative := Some(byTask), cumulative;
      }
    }

    method TaskSpend(card: string) returns (spent: Amount, cap: Option<real>, over: bool)
      modifies this
      ensures Model() == Built(old(Model()))
      ensures spent == TaskSpent(old(Model()), card)
      ensures cap == CapOf(board, card)
      ensures over <==> cap.Some? && spent.tokens > cap.value
    {
      var byTask: Totals;
      if costByTask.Some? { byTask := costByTask.value; } else { byTask := RescanCostLedger(); }
      spent := if card in byTask then byTask[card] else ZERO;
      cap := None;
      var i := 0;
      while i < |board| && board[i].id != card
        invariant 0 <= i <= |board|
        invariant CapOf(board, card) == CapOf(board[i..], card)
      {
        i := i + 1;
      }
      if i < |board| && board[i].budgetTokens.Some? && board[i].budgetTokens.value > 0.0 {
        cap := board[i].budgetTokens;
      }
      over := cap.Some? && spent.tokens > cap.value;
    }

    /** The card an agent is working on as a breaker budget, or nothing when it has no cap. */
    method BudgetForAgent(agent: string, now: int) returns (budget: Option<(string, real, real)>)
      modifies this
      ensures Model() == Asked(Refreshed(old(Model()), now), agent)
      ensures var l := Refreshed(old(Model()), now);
        if Carded(l, agent) && CapOf(board, Cached(l, agent).value).Some?
        then budget == Some((Cached(l, agent).value, TaskSpent(l, Cached(l, agent).value).tokens,
                             CapOf(board, Cached(l, agent).value).value))
        else budget == None
    {
      var card := ActiveTaskId(agent, now);
      if card == None || card == Some("") { return None; }
      var spent, cap, _ := TaskSpend(card.value);
      budget := if cap == None then None else Some((card.value, spent.tokens, cap.value));
    }
  }

  /** The first card wins: one more board entry changes an agent's card only when it had none. */
  lemma {:induction false} FirstDoingGrows(board: seq<Card>, card: Card, agent: string)
    ensures FirstDoing(board + [card], agent)
         == if FirstDoing(board, agent).Some? then FirstDoing(board, agent)
            else if card.Doing(agent) then Some(card.id) else None
    decreases |board|
  {
    if board == [] {
      assert [card][1..] == [];
      assert FirstDoing([], agent) == None;
      assert board + [card] == [card];
    } else {
      assert (board + [card])[1..] == board[1..] + [card];
      FirstDoingGrows(board[1..], card, agent);
    }
  }

  /** An agent has a first card in flight exactly when some card on the board is its own and in flight. */
  lemma {:induction false} FirstDoingFinds(board: seq<Card>, agent: string)
    ensures FirstDoing(board, agent).Some? <==> exists i :: 0 <= i < |board| && board[i].Doing(agent)
    ensures FirstDoing(board, agent).Some? ==>
      exists i :: 0 <= i < |board| && board[i].Doing(agent) && FirstDoing(board, agent) == Some(board[i].id)
        && forall j :: 0 <= j < i ==> !board[j].Doing(agent)
    decreases |board|
  {
    if board != [] && !board[0].Doing(agent) {
      FirstDoingFinds(board[1..], agent);
      if FirstDoing(board, agent).Some? {
        var k :| 0 <= k < |board[1..]| && board[1..][k].Doing(agent) && FirstDoing(board[1..], agent) == Some(board[1..][k].id)
          && forall j :: 0 <= j < k ==> !board[1..][j].Doing(agent);
        assert board[k + 1].Doing(agent);
        forall j | 0 <= j < k + 1 ensures !board[j].Doing(agent) {
          if j > 0 { assert !board[1..][j - 1].Doing(agent); }
        }
      } else {
        forall i | 0 <= i < |board| ensures !board[i].Doing(agent) {
          if i > 0 { assert board[i] == board[1..][i - 1]; }
        }
      }
    }
  }

  /** The cache names, for each agent with a card in flight and for no other, its first one. */
  lemma {:induction false} ActiveMapIsFirstDoing(board: seq<Card>, agent: string)
    ensures agent in ActiveMap(board) <==> FirstDoing(board, agent).Some?
    ensures agent in ActiveMap(board) ==> FirstDoing(board, agent) == Some(ActiveMap(board)[agent])
  {
    if board != [] {
      var before, t := board[..|board| - 1], board[|board| - 1];
      ActiveMapIsFirstDoing(before, agent);
      assert board == before + [t];
      FirstDoingGrows(before, t, agent);
    }
  }

  lemma {:induction false} IdsAreOnBoard(board: seq<Card>, id: string)
    ensures id in Ids(board) <==> exists i :: 0 <= i < |board| && board[i].id == id
  {
    if board != [] {
      var before := board[..|board| - 1];
      IdsAreOnBoard(before, id);
      if id in Ids(before) {
        var i :| 0 <= i < |before| && before[i].id == id;
        assert board[i].id == id;
      }
    }
  }
}
