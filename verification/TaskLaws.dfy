/** What a write does to the cards, told in their fields, and how often a writer tries. */
module TaskLaws {
  import opened Options
  import opened TaskLedger
  import opened TaskRuns

  predicate Has(c: Card, field: string, value: Value) {
    field in c.fields && c.fields[field] == value
  }

  /** Card i is the first of its id. */
  predicate First(tasks: Cards, i: nat, id: string) {
    i < |tasks| && tasks[i].id == id && forall j :: 0 <= j < i ==> tasks[j].id != id
  }

  predicate Free(tasks: Cards, id: string) {
    forall j :: 0 <= j < |tasks| ==> tasks[j].id != id
  }

  /** A stripped card keeps its id and exactly its durable fields, a numeric cap among them. */
  lemma {:induction false} StripKeepsDurable(c: Card, field: string, value: Value)
    ensures Stripped(c).id == c.id
    ensures Has(Stripped(c), field, value) <==> Has(c, field, value) && Durable(field, value)
  {
  }

  lemma {:induction false} FirstIsFound(tasks: Cards, i: nat, id: string)
    requires First(tasks, i, id)
    ensures IndexOf(tasks, id) == i
  {
    assert !(IndexOf(tasks, id) < i) && !(i < IndexOf(tasks, id));
  }

  /** What the next ledger carries for a card, field by field, when its fields were to become what `wanted` says. */
  ghost predicate Becomes(after: Card, id: string, wanted: map<string, Value>) {
    && after.id == id
    && forall field, value :: Has(after, field, value) <==> field in wanted && wanted[field] == value && Durable(field, value)
  }

  lemma {:induction false} StrippedBecomes(c: Card)
    ensures Becomes(Stripped(c), c.id, c.fields)
  {
    forall field, value ensures Has(Stripped(c), field, value) <==> field in c.fields && c.fields[field] == value && Durable(field, value) {
      StripKeepsDurable(c, field, value);
    }
  }

  /** A card is added at the end by the main process exactly where its id is free, and every card is stripped. */
  lemma {:induction false} AddLands(card: Card, before: Cards, after: Cards)
    requires Lands(Add(card), before, after)
    ensures Free(before, card.id) && |after| == |before| + 1
    ensures forall i :: 0 <= i < |before| ==> Becomes(after[i], before[i].id, before[i].fields)
    ensures Becomes(after[|before|], card.id, card.fields)
  {
    forall i | 0 <= i < |before| + 1 ensures after[i] == Stripped((before + [card])[i]) && Becomes(after[i], (before + [card])[i].id, (before + [card])[i].fields) {
      StrippedBecomes((before + [card])[i]);
    }
  }

  /** A patch by the main process: the first card of the id has the patch's fields over its own, all others stay. */
  lemma {:induction false} PatchLands(id: string, patch: map<string, Value>, before: Cards, after: Cards, i: nat)
    requires Lands(Patch(id, patch), before, after) && First(before, i, id)
    ensures |after| == |before| && Becomes(after[i], id, before[i].fields + patch)
    ensures forall j :: 0 <= j < |before| && j != i ==> Becomes(after[j], before[j].id, before[j].fields)
  {
    FirstIsFound(before, i, id);
    var next := before[i := Card(id, before[i].fields + patch)];
    forall j | 0 <= j < |before| ensures after[j] == Stripped(next[j]) && Becomes(after[j], next[j].id, next[j].fields) {
      StrippedBecomes(next[j]);
    }
  }

  /** A patch by the command line, as asked for: no other card changes and nothing is stripped. */
  lemma {:induction false} CliPatchLands(id: string, patch: map<string, Value>, question: Option<Question>, before: Cards, after: Cards, i: nat, field: string)
    requires Lands(CliPatch(id, patch, question), before, after) && First(before, i, id)
    ensures |after| == |before| && after[i].id == id
    ensures forall j :: 0 <= j < |before| && j != i ==> after[j] == before[j]
    ensures question == None || (field != "status" && field != "humanQA") ==>
      if field in patch then Has(after[i], field, patch[field])
      else if field in before[i].fields then Has(after[i], field, before[i].fields[field])
      else field !in after[i].fields
    ensures question.Some? ==> Has(after[i], "status", Text("blocked"))
    ensures question.Some? && "humanQA" in before[i].fields && before[i].fields["humanQA"].Questions? ==>
      Has(after[i], "humanQA", Questions(before[i].fields["humanQA"].qs + [question.value]))
    ensures question.Some? && !("humanQA" in before[i].fields && before[i].fields["humanQA"].Questions?) ==>
      Has(after[i], "humanQA", Questions([question.value]))
  {
    FirstIsFound(before, i, id);
  }

  /** The command line adds its card at the end, taken or not. */
  lemma {:induction false} CliAddLands(card: Card, before: Cards, after: Cards)
    requires Lands(CliAdd(card), before, after)
    ensures after == before + [card]
  {
  }

  predicate Precedes(tasks: Cards, a: Card, b: Card) {
    exists p, q :: 0 <= p < q < |tasks| && tasks[p] == a && tasks[q] == b
  }

  lemma {:induction false} WithoutKeepsTheRest(tasks: Cards, id: string, c: Card)
    ensures c in WithoutId(tasks, id) <==> c in tasks && c.id != id
  {
    if tasks != [] { WithoutKeepsTheRest(tasks[1..], id, c); }
  }

  lemma {:induction false} WithoutKeepsOrder(tasks: Cards, id: string, i: nat, j: nat)
    requires i < j < |WithoutId(tasks, id)|
    ensures Precedes(tasks, WithoutId(tasks, id)[i], WithoutId(tasks, id)[j])
  {
    var kept, rest := WithoutId(tasks, id), WithoutId(tasks[1..], id);
    var a, b := kept[i], kept[j];
    var k: nat := if tasks[0].id == id then 0 else 1;
    if i >= k {
      WithoutKeepsOrder(tasks[1..], id, i - k, j - k);
      var p, q :| 0 <= p < q < |tasks[1..]| && tasks[1..][p] == a && tasks[1..][q] == b;
      assert tasks[p + 1] == a && tasks[q + 1] == b;
    } else {
      WithoutKeepsTheRest(tasks[1..], id, b);
      var q :| 0 <= q < |tasks[1..]| && tasks[1..][q] == b;
      assert tasks[0] == a && tasks[q + 1] == b;
    }
  }

  /** A deletion leaves exactly the cards of other ids, stripped, in their order. */
  lemma {:induction false} DeleteLands(id: string, before: Cards, after: Cards) returns (kept: Cards)
    requires Lands(Delete(id), before, after)
    ensures !Free(before, id) && |after| == |kept|
    ensures forall c :: c in kept <==> c in before && c.id != id
    ensures forall i, j :: 0 <= i < j < |kept| ==> Precedes(before, kept[i], kept[j])
    ensures forall i :: 0 <= i < |kept| ==> Becomes(after[i], kept[i].id, kept[i].fields)
  {
    kept := WithoutId(before, id);
    forall c ensures c in kept <==> c in before && c.id != id { WithoutKeepsTheRest(before, id, c); }
    forall i, j | 0 <= i < j < |kept| ensures Precedes(before, kept[i], kept[j]) { WithoutKeepsOrder(before, id, i, j); }
    forall i | 0 <= i < |kept| ensures Becomes(after[i], kept[i].id, kept[i].fields) { StrippedBecomes(kept[i]); }
    if Free(before, id) { NothingGoes(before, id); }
  }

  lemma {:induction false} NothingGoes(tasks: Cards, id: string)
    requires Free(tasks, id)
    ensures WithoutId(tasks, id) == tasks
  {
    if tasks != [] { NothingGoes(tasks[1..], id); }
  }

  /** And when nothing is done: a taken id for an addition, a missing card for the rest. */
  lemma {:induction false} NothingToDoExactly(m: Mutation, tasks: Cards)
    ensures Apply(m, tasks) == None <==>
      match m
      case Add(card) => !Free(tasks, card.id)
      case CliAdd(_) => false
      case Patch(id, _) => Free(tasks, id)
      case CliPatch(id, _, _) => Free(tasks, id)
      case Delete(id) => Free(tasks, id)
  {
    match m
    case Delete(id) =>
      if Free(tasks, id) { NothingGoes(tasks, id); } else { SomethingGoes(tasks, id); }
    case Add(card) => if Free(tasks, card.id) { assert IndexOf(tasks, card.id) == |tasks|; }
    case CliAdd(_) =>
    case Patch(id, _) => if Free(tasks, id) { assert IndexOf(tasks, id) == |tasks|; }
    case CliPatch(id, _, _) => if Free(tasks, id) { assert IndexOf(tasks, id) == |tasks|; }
  }

  lemma {:induction false} SomethingGoes(tasks: Cards, id: string)
    requires !Free(tasks, id)
    ensures |WithoutId(tasks, id)| < |tasks|
  {
    if tasks[0].id == id {
      WithoutIsLess(tasks[1..], id);
    } else {
      assert !Free(tasks[1..], id) by { var j :| 0 <= j < |tasks| && tasks[j].id == id; assert tasks[1..][j - 1].id == id; }
      SomethingGoes(tasks[1..], id);
    }
  }

  // ---------------------------------------------------------------- how often a writer tries

  /** This check of the writer finds that another write came first. */
  predicate LosesRace(s: State, e: Event, w: nat) {
    && e == Check(w) && w in s.writers
    && match s.writers[w].phase case Composed(rev, _) => rev != s.ledger.rev case _ => false
  }

  function RacesLost(start: Ledger, es: seq<Event>, w: nat): nat {
    if es == [] then 0
    else
      var before := es[..|es| - 1];
      RacesLost(start, before, w) + if LosesRace(Run(Start(start), before), es[|es| - 1], w) then 1 else 0
  }

  /** A writer's remaining attempts against the races it has lost so far. */
  predicate Counted(writer: Writer, lost: nat) {
    var bound := if writer.mutation.CliAdd? || writer.mutation.CliPatch? then 5 else 2;
    if writer.phase == Busy then lost == bound else writer.attempts + lost == bound && writer.attempts >= 1
  }

  lemma {:induction false} CountedStep(s: State, e: Event, w: nat, lost: nat)
    requires if w in s.writers then Counted(s.writers[w], lost) else lost == 0
    ensures var s', more := Step(s, e), lost + if LosesRace(s, e, w) then 1 else 0;
      if w in s'.writers then Counted(s'.writers[w], more) else more == 0
  {
    match e
    case Launch(v, m) =>
    case Read(v) =>
    case Check(v) =>
    case Rename(v) =>
  }

  lemma {:induction false} AttemptsAreCounted(start: Ledger, es: seq<Event>, w: nat)
    ensures var s, lost := Run(Start(start), es), RacesLost(start, es, w);
      if w in s.writers then Counted(s.writers[w], lost) else lost == 0
  {
    if es != [] {
      var before := es[..|es| - 1];
      AttemptsAreCounted(start, before, w);
      CountedStep(Run(Start(start), before), es[|es| - 1], w, RacesLost(start, before, w));
    }
  }

  /** A writer gives up exactly when it has lost five races, or two if it is the main process. */
  lemma {:induction false} GivesUpExactly(start: Ledger, es: seq<Event>, w: nat)
    requires w in Run(Start(start), es).writers
    ensures var writer, lost := Run(Start(start), es).writers[w], RacesLost(start, es, w);
      var bound := if writer.mutation.CliAdd? || writer.mutation.CliPatch? then 5 else 2;
      lost <= bound && (writer.phase == Busy <==> lost == bound)
  {
    AttemptsAreCounted(start, es, w);
  }
}
