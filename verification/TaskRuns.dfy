/**
 No lost updates: what the compare-and-swap promises over every interleaving of writers, and what the
 window between the check and the rename costs.
 */
module TaskRuns {
  import opened Options
  import opened TaskLedger

  function Run(s: State, es: seq<Event>): State {
    if es == [] then s else Step(Run(s, es[..|es| - 1]), es[|es| - 1])
  }

  function Start(ledger: Ledger): State {
    State(ledger, map[], [])
  }

  // ---------------------------------------------------------------- the hypothesis

  /** A rename lands before any other write does since its check: check and rename act as one step. */
  predicate Undisturbed(s: State, e: Event) {
    e.Rename? && e.w in s.writers && s.writers[e.w].phase.Checked? ==> s.writers[e.w].phase.seen == |s.history|
  }

  ghost predicate UndisturbedRun(start: Ledger, es: seq<Event>) {
    forall past :: past < es ==> Undisturbed(Run(Start(start), past), es[|past|])
  }

  // ---------------------------------------------------------------- the invariant

  /** The cards after the first k writes. */
  function After(start: Ledger, history: seq<Commit>, k: nat): Cards
    requires k <= |history|
  {
    if k == 0 then start.tasks else history[k - 1].after
  }

  /** The write is its mutation applied to the cards `before`. */
  predicate Lands(m: Mutation, before: Cards, after: Cards) {
    Apply(m, before).Some? && after == Written(m, Apply(m, before).value)
  }

  predicate LandsAt(start: Ledger, history: seq<Commit>, k: nat)
    requires k < |history|
  {
    Lands(history[k].mutation, After(start, history, k), history[k].after)
  }

  /** Each write is its mutation applied to the cards exactly as the write before it left them. */
  predicate Linear(start: Ledger, history: seq<Commit>) {
    forall k :: 0 <= k < |history| ==> LandsAt(start, history, k)
  }

  /** A composed write belongs to the cards its revision names; a checked one to the newest it had seen. */
  predicate WriterOk(start: Ledger, history: seq<Commit>, w: Writer) {
    match w.phase
    case Composed(rev, next) =>
      start.rev <= rev <= start.rev + |history| && Apply(w.mutation, After(start, history, rev - start.rev)) == Some(next)
    case Checked(rev, next, seen) =>
      seen <= |history| && rev == start.rev + seen && Apply(w.mutation, After(start, history, seen)) == Some(next)
    case _ => true
  }

  ghost predicate Inv(start: Ledger, s: State) {
    && s.ledger.rev == start.rev + |s.history|
    && s.ledger.tasks == After(start, s.history, |s.history|)
    && Linear(start, s.history)
    && forall w :: w in s.writers ==> WriterOk(start, s.history, s.writers[w])
  }

  lemma {:induction false} WriterOkGrows(start: Ledger, history: seq<Commit>, c: Commit, w: Writer)
    requires WriterOk(start, history, w)
    ensures WriterOk(start, history + [c], w)
  {
    match w.phase
    case Composed(rev, next) => assert After(start, history + [c], rev - start.rev) == After(start, history, rev - start.rev);
    case Checked(rev, next, seen) => assert After(start, history + [c], seen) == After(start, history, seen);
    case _ =>
  }

  lemma {:induction false} LinearGrows(start: Ledger, history: seq<Commit>, c: Commit)
    requires Linear(start, history) && Lands(c.mutation, After(start, history, |history|), c.after)
    ensures Linear(start, history + [c])
  {
    forall k | 0 <= k < |history| + 1 ensures LandsAt(start, history + [c], k) {
      if k < |history| { assert LandsAt(start, history, k); }
      assert After(start, history + [c], k) == After(start, history, k);
    }
  }

  lemma {:induction false} RenameKeeps(start: Ledger, s: State, w: nat)
    requires Inv(start, s) && Undisturbed(s, Rename(w))
    ensures Inv(start, RenameStep(s, w))
  {
    if w in s.writers && s.writers[w].phase.Checked? {
      var writer := s.writers[w];
      var s' := RenameStep(s, w);
      var c := s'.history[|s.history|];
      assert s'.history == s.history + [c];
      assert WriterOk(start, s.history, writer);
      LinearGrows(start, s.history, c);
      forall v | v in s'.writers ensures WriterOk(start, s'.history, s'.writers[v]) {
        if v != w { WriterOkGrows(start, s.history, c, s.writers[v]); }
      }
    }
  }

  lemma {:induction false} StepKeeps(start: Ledger, s: State, e: Event)
    requires Inv(start, s) && Undisturbed(s, e)
    ensures Inv(start, Step(s, e))
  {
    match e
    case Launch(w, m) =>
    case Read(w) => if w in s.writers { assert WriterOk(start, s.history, s.writers[w]); }
    case Check(w) => if w in s.writers { assert WriterOk(start, s.history, s.writers[w]); }
    case Rename(w) => RenameKeeps(start, s, w);
  }

  lemma {:induction false} RunKeeps(start: Ledger, es: seq<Event>)
    requires UndisturbedRun(start, es)
    ensures Inv(start, Run(Start(start), es))
  {
    if es != [] {
      var before := es[..|es| - 1];
      forall past | past < before ensures Undisturbed(Run(Start(start), past), before[|past|]) {
        assert past < es && es[|past|] == before[|past|];
      }
      RunKeeps(start, before);
      assert before < es;
      StepKeeps(start, Run(Start(start), before), es[|es| - 1]);
    }
  }

  /**
   No lost updates: after any interleaving of writers whose check and rename act as one step, `rev` counts
   the writes that landed, the ledger is what the last of them left, and each is its mutation applied to
   the ledger exactly as it stood just before, up to the strip of derived fields.
   */
  lemma {:induction false} NoLostUpdates(start: Ledger, es: seq<Event>)
    requires UndisturbedRun(start, es)
    ensures var s := Run(Start(start), es);
      && s.ledger.rev == start.rev + |s.history|
      && s.ledger.tasks == After(start, s.history, |s.history|)
      && Linear(start, s.history)
  {
    RunKeeps(start, es);
  }

  /**
   The window, exactly: after an orderly run, a rename keeps `rev` counting the writes if and only if no
   other write landed since its check.
   */
  lemma {:induction false} RevCountsIffUndisturbed(start: Ledger, es: seq<Event>, w: nat)
    requires UndisturbedRun(start, es)
    requires w in Run(Start(start), es).writers && Run(Start(start), es).writers[w].phase.Checked?
    ensures var s := Run(Start(start), es); var s' := Step(s, Rename(w));
      s'.ledger.rev == start.rev + |s'.history| <==> Undisturbed(s, Rename(w))
  {
    RunKeeps(start, es);
    var s := Run(Start(start), es);
    assert WriterOk(start, s.history, s.writers[w]);
  }

  const EMPTY := Ledger([], 0)

  function Titled(id: string): Mutation { CliAdd(Card(id, map[])) }

  const RACE := [Launch(0, Titled("x")), Launch(1, Titled("y")), Read(0), Read(1), Check(0), Check(1), Rename(0), Rename(1)]

  lemma {:induction false} RunGrows(s: State, es: seq<Event>, e: Event)
    ensures Run(s, es + [e]) == Step(Run(s, es), e)
  {
    assert (es + [e])[..|es|] == es;
  }

  /** Two writers inside each other's window: both succeed, `rev` moves once and the first card is gone. */
  lemma {:induction false} RaceLosesAnUpdate()
    ensures var s := Run(Start(EMPTY), RACE);
      && 0 in s.writers && 1 in s.writers && s.writers[0].phase == s.writers[1].phase == Succeeded
      && s.ledger == Ledger([Card("y", map[])], 1) && |s.history| == 2
  {
    var s0 := Start(EMPTY);
    var x, y := Card("x", map[]), Card("y", map[]);
    assert RACE == [] + [RACE[0]] + [RACE[1]] + [RACE[2]] + [RACE[3]] + [RACE[4]] + [RACE[5]] + [RACE[6]] + [RACE[7]];
    RunGrows(s0, [], RACE[0]);
    RunGrows(s0, [] + [RACE[0]], RACE[1]);
    RunGrows(s0, [] + [RACE[0]] + [RACE[1]], RACE[2]);
    RunGrows(s0, [] + [RACE[0]] + [RACE[1]] + [RACE[2]], RACE[3]);
    RunGrows(s0, [] + [RACE[0]] + [RACE[1]] + [RACE[2]] + [RACE[3]], RACE[4]);
    RunGrows(s0, [] + [RACE[0]] + [RACE[1]] + [RACE[2]] + [RACE[3]] + [RACE[4]], RACE[5]);
    RunGrows(s0, [] + [RACE[0]] + [RACE[1]] + [RACE[2]] + [RACE[3]] + [RACE[4]] + [RACE[5]], RACE[6]);
    RunGrows(s0, [] + [RACE[0]] + [RACE[1]] + [RACE[2]] + [RACE[3]] + [RACE[4]] + [RACE[5]] + [RACE[6]], RACE[7]);
    var s1 := Step(Step(s0, RACE[0]), RACE[1]);
    assert [] + [x] == [x] && [] + [y] == [y];
    var s2 := Step(Step(s1, RACE[2]), RACE[3]);
    assert s2.writers == map[0 := Writer(Titled("x"), 5, Composed(0, [x])), 1 := Writer(Titled("y"), 5, Composed(0, [y]))];
    var s3 := Step(Step(s2, RACE[4]), RACE[5]);
    assert s3.writers == map[0 := Writer(Titled("x"), 5, Checked(0, [x], 0)), 1 := Writer(Titled("y"), 5, Checked(0, [y], 0))];
    var s4 := Step(s3, RACE[6]);
    assert s4.ledger == Ledger([x], 1);
  }

  // ---------------------------------------------------------------- what one write leaves alone

  predicate UniqueIds(tasks: Cards) {
    forall i, j :: 0 <= i < j < |tasks| ==> tasks[i].id != tasks[j].id
  }

  /** The card with an id, if the board has one. */
  function CardOf(tasks: Cards, id: string): Option<Card> {
    if IndexOf(tasks, id) < |tasks| then Some(tasks[IndexOf(tasks, id)]) else None
  }

  lemma {:induction false} CardAt(tasks: Cards, i: nat)
    requires UniqueIds(tasks) && i < |tasks|
    ensures CardOf(tasks, tasks[i].id) == Some(tasks[i])
  {
    assert IndexOf(tasks, tasks[i].id) <= i;
  }

  lemma {:induction false} WithoutIsLess(tasks: Cards, id: string)
    ensures |WithoutId(tasks, id)| <= |tasks| && forall c :: c in WithoutId(tasks, id) ==> c in tasks
  {
    if tasks != [] { WithoutIsLess(tasks[1..], id); }
  }

  lemma {:induction false} WithoutIsUnique(tasks: Cards, id: string)
    requires UniqueIds(tasks)
    ensures UniqueIds(WithoutId(tasks, id))
  {
    if tasks != [] {
      WithoutIsUnique(tasks[1..], id);
      WithoutIsLess(tasks[1..], id);
      LaterIdsDiffer(tasks);
      var rest := WithoutId(tasks[1..], id);
      forall i | 0 <= i < |rest| ensures rest[i].id != tasks[0].id { assert rest[i] in tasks[1..]; }
    }
  }

  /** Looking up behind the first card, when it is another. */
  lemma {:induction false} CardBehind(first: Card, rest: Cards, any: string)
    ensures CardOf([first] + rest, any) == if any == first.id then Some(first) else CardOf(rest, any)
  {
    assert ([first] + rest)[1..] == rest;
  }

  lemma {:induction false} CardIsHeld(tasks: Cards, any: string)
    ensures CardOf(tasks, any).Some? ==> CardOf(tasks, any).value in tasks && CardOf(tasks, any).value.id == any
  {
  }

  lemma {:induction false} WithoutCard(tasks: Cards, id: string, any: string)
    requires UniqueIds(tasks)
    ensures UniqueIds(WithoutId(tasks, id))
    ensures CardOf(WithoutId(tasks, id), any) == if any == id then None else CardOf(tasks, any)
    ensures |WithoutId(tasks, id)| == |tasks| <==> CardOf(tasks, id) == None
  {
    WithoutIsUnique(tasks, id);
    if tasks != [] {
      var rest := WithoutId(tasks[1..], id);
      WithoutCard(tasks[1..], id, any);
      WithoutIsLess(tasks[1..], id);
      assert tasks == [tasks[0]] + tasks[1..];
      CardBehind(tasks[0], tasks[1..], any);
      CardBehind(tasks[0], tasks[1..], id);
      CardBehind(tasks[0], rest, any);
      LaterIdsDiffer(tasks);
      CardIsHeld(tasks[1..], id);
    }
  }

  lemma {:induction false} LaterIdsDiffer(tasks: Cards)
    requires UniqueIds(tasks) && tasks != []
    ensures forall c :: c in tasks[1..] ==> c.id != tasks[0].id
  {
    forall c | c in tasks[1..] ensures c.id != tasks[0].id {
      var j :| 0 <= j < |tasks[1..]| && tasks[1..][j] == c;
      assert tasks[j + 1].id != tasks[0].id;
    }
  }

  lemma {:induction false} AppendCard(tasks: Cards, c: Card, any: string)
    requires UniqueIds(tasks) && CardOf(tasks, c.id) == None
    ensures UniqueIds(tasks + [c])
    ensures CardOf(tasks + [c], any) == if any == c.id then Some(c) else CardOf(tasks, any)
  {
    var grown := tasks + [c];
    forall i | 0 <= i < |tasks| ensures tasks[i].id != c.id {
      if tasks[i].id == c.id { CardAt(tasks, i); }
    }
    assert UniqueIds(grown);
    CardAt(grown, |tasks|);
    if CardOf(tasks, any).Some? { CardAt(grown, IndexOf(tasks, any)); }
    if CardOf(grown, any).Some? && any != c.id { CardAt(tasks, IndexOf(grown, any)); }
  }

  lemma {:induction false} UpdateCard(tasks: Cards, i: nat, c: Card, any: string)
    requires UniqueIds(tasks) && i < |tasks| && c.id == tasks[i].id
    ensures UniqueIds(tasks[i := c])
    ensures CardOf(tasks[i := c], any) == if any == c.id then Some(c) else CardOf(tasks, any)
  {
    var r := tasks[i := c];
    CardAt(r, i);
    if CardOf(tasks, any).Some? && any != c.id { CardAt(r, IndexOf(tasks, any)); }
    if CardOf(r, any).Some? && any != c.id { CardAt(tasks, IndexOf(r, any)); }
  }

  lemma {:induction false} StripCards(tasks: Cards, any: string)
    ensures UniqueIds(AllStripped(tasks)) <==> UniqueIds(tasks)
    ensures CardOf(AllStripped(tasks), any) == if CardOf(tasks, any) == None then None else Some(Stripped(CardOf(tasks, any).value))
  {
    var r := AllStripped(tasks);
    assert forall i :: 0 <= i < |tasks| ==> r[i].id == tasks[i].id;
    if UniqueIds(r) {
      forall i, j | 0 <= i < j < |tasks| ensures tasks[i].id != tasks[j].id { assert r[i].id != r[j].id; }
    }
    assert IndexOf(r, any) == IndexOf(tasks, any);
  }

  /** The card a mutation is about. */
  function Target(m: Mutation): string {
    match m
    case Add(card) => card.id
    case Patch(id, _) => id
    case Delete(id) => id
    case CliAdd(card) => card.id
    case CliPatch(id, _, _) => id
  }

  /** The target after a mutation, before the strip. */
  function Changed(m: Mutation, before: Option<Card>): Option<Card> {
    match m
    case Add(card) => Some(card)
    case CliAdd(card) => Some(card)
    case Delete(_) => None
    case Patch(_, patch) => if before == None then None else Some(before.value.(fields := before.value.fields + patch))
    case CliPatch(_, patch, question) => if before == None then None else Some(CliPatched(before.value, patch, question))
  }

  /** When a mutation has something to do: adding needs the id to be free, the others need the card; the command line always adds. */
  predicate Applicable(m: Mutation, tasks: Cards) {
    match m
    case Add(card) => CardOf(tasks, card.id) == None
    case CliAdd(_) => true
    case _ => CardOf(tasks, Target(m)).Some?
  }

  /** The one way ids stop being unique: a card added by the command line under an id that is taken. */
  predicate Collides(m: Mutation, tasks: Cards) {
    m.CliAdd? && CardOf(tasks, m.card.id).Some?
  }

  /** One write, card by card: it applies when it should, touches its target and nothing else, and keeps ids unique. */
  lemma {:induction false} WriteTouchesOneCard(m: Mutation, tasks: Cards, any: string)
    requires UniqueIds(tasks)
    ensures Apply(m, tasks).Some? <==> Applicable(m, tasks)
    ensures Apply(m, tasks).Some? ==> (UniqueIds(Apply(m, tasks).value) <==> !Collides(m, tasks))
    ensures Apply(m, tasks).Some? && !Collides(m, tasks) ==>
      CardOf(Apply(m, tasks).value, any) == if any == Target(m) then Changed(m, CardOf(tasks, any)) else CardOf(tasks, any)
  {
    match m
    case Add(card) => if CardOf(tasks, card.id) == None { AppendCard(tasks, card, any); }
    case CliAdd(card) =>
      if CardOf(tasks, card.id) == None { AppendCard(tasks, card, any); }
      else { assert (tasks + [card])[IndexOf(tasks, card.id)].id == (tasks + [card])[|tasks|].id; }
    case Delete(id) => WithoutCard(tasks, id, any);
    case Patch(id, patch) =>
      var i := IndexOf(tasks, id);
      if i < |tasks| { UpdateCard(tasks, i, tasks[i].(fields := tasks[i].fields + patch), any); CardAt(tasks, i); }
    case CliPatch(id, patch, question) =>
      var i := IndexOf(tasks, id);
      if i < |tasks| { UpdateCard(tasks, i, CliPatched(tasks[i], patch, question), any); CardAt(tasks, i); }
  }

  /** No command-line add in the history was under a taken id. */
  predicate NoCollisions(start: Ledger, history: seq<Commit>) {
    forall k :: 0 <= k < |history| ==> !CollidesAt(start, history, k)
  }

  predicate CollidesAt(start: Ledger, history: seq<Commit>, k: nat)
    requires k < |history|
  {
    Collides(history[k].mutation, After(start, history, k))
  }

  lemma {:induction false} WrittenCards(m: Mutation, next: Cards, any: string)
    ensures UniqueIds(Written(m, next)) <==> UniqueIds(next)
    ensures CardOf(Written(m, next), any) == if ByCli(m) || CardOf(next, any) == None then CardOf(next, any) else Some(Stripped(CardOf(next, any).value))
  {
    StripCards(next, any);
  }

  /** A landed write, card by card and after the strip. */
  lemma {:induction false} LandedCards(m: Mutation, before: Cards, after: Cards, any: string)
    requires UniqueIds(before) && Lands(m, before, after)
    ensures UniqueIds(after) <==> !Collides(m, before)
    ensures !Collides(m, before) ==>
      var c := if any == Target(m) then Changed(m, CardOf(before, any)) else CardOf(before, any);
      CardOf(after, any) == if ByCli(m) || c == None then c else Some(Stripped(c.value))
  {
    WriteTouchesOneCard(m, before, any);
    WrittenCards(m, Apply(m, before).value, any);
  }

  /** Card ids stay unique over a whole history exactly as long as the command line never adds a taken id. */
  lemma {:induction false} IdsStayUnique(start: Ledger, history: seq<Commit>)
    requires UniqueIds(start.tasks) && Linear(start, history)
    ensures (forall k :: 0 <= k <= |history| ==> UniqueIds(After(start, history, k))) <==> NoCollisions(start, history)
  {
    if NoCollisions(start, history) {
      forall k | 0 <= k <= |history| ensures UniqueIds(After(start, history, k)) { UniqueUpTo(start, history, k); }
    }
    if forall k :: 0 <= k <= |history| ==> UniqueIds(After(start, history, k)) {
      forall k | 0 <= k < |history| ensures !CollidesAt(start, history, k) {
        assert LandsAt(start, history, k);
        UniqueMeansNoCollision(history[k].mutation, After(start, history, k), After(start, history, k + 1));
      }
    }
  }

  lemma {:induction false} UniqueMeansNoCollision(m: Mutation, before: Cards, after: Cards)
    requires UniqueIds(before) && UniqueIds(after) && Lands(m, before, after)
    ensures !Collides(m, before)
  {
    LandedCards(m, before, after, "");
  }

  lemma {:induction false} UniqueUpTo(start: Ledger, history: seq<Commit>, k: nat)
    requires UniqueIds(start.tasks) && Linear(start, history) && NoCollisions(start, history) && k <= |history|
    ensures UniqueIds(After(start, history, k))
  {
    if k > 0 {
      UniqueUpTo(start, history, k - 1);
      assert LandsAt(start, history, k - 1) && !CollidesAt(start, history, k - 1);
      LandedCards(history[k - 1].mutation, After(start, history, k - 1), After(start, history, k), "");
    }
  }

  // ---------------------------------------------------------------- what a whole history leaves alone

  /** What a write by the main process leaves on a card: no meter, and a cap only if it is a number. */
  predicate Durable(field: string, value: Value) {
    field != "tokens" && field != "pct" && (field == "budgetTokens" ==> value.Number?)
  }

  /** The mutation may set the field of the card, or remove the card. */
  predicate Touches(m: Mutation, id: string, field: string) {
    match m
    case Delete(d) => d == id
    case Patch(p, patch) => p == id && field in patch
    case CliPatch(p, patch, question) => p == id && (field in patch || (question.Some? && field in {"humanQA", "status"}))
    case _ => false
  }

  predicate Carries(tasks: Cards, id: string, field: string, value: Value) {
    CardOf(tasks, id).Some? && field in CardOf(tasks, id).value.fields && CardOf(tasks, id).value.fields[field] == value
  }

  lemma {:induction false} LandedOnCard(m: Mutation, before: Cards, after: Cards, id: string)
    requires UniqueIds(before) && Lands(m, before, after) && !Collides(m, before) && CardOf(before, id).Some?
    ensures CardOf(before, id).value.id == id && CardOf(after, id) == Landed(m, CardOf(before, id).value)
    ensures Target(m) == id ==> !m.Add? && !m.CliAdd?
  {
    LandedCards(m, before, after, id);
    WriteTouchesOneCard(m, before, id);
    assert Applicable(m, before);
  }

  lemma {:induction false} WriteKeepsField(m: Mutation, before: Cards, after: Cards, id: string, field: string, value: Value)
    requires UniqueIds(before) && Lands(m, before, after) && !Collides(m, before)
    requires Durable(field, value) && !Touches(m, id, field) && Carries(before, id, field, value)
    ensures Carries(after, id, field, value)
  {
    LandedOnCard(m, before, after, id);
    CardKeepsField(m, CardOf(before, id).value, CardOf(after, id), field, value);
  }

  /** What a landed write makes of a card that was there. */
  function Landed(m: Mutation, c: Card): Option<Card> {
    var changed := if c.id == Target(m) then Changed(m, Some(c)) else Some(c);
    if ByCli(m) || changed == None then changed else Some(Stripped(changed.value))
  }

  lemma {:induction false} CardKeepsField(m: Mutation, c: Card, after: Option<Card>, field: string, value: Value)
    requires after == Landed(m, c) && !Touches(m, c.id, field) && Durable(field, value)
    requires Target(m) == c.id ==> !m.Add? && !m.CliAdd?
    requires field in c.fields && c.fields[field] == value
    ensures after.Some? && field in after.value.fields && after.value.fields[field] == value
  {
  }

  /** An update survives: a field no later write touches is carried by every later ledger, whoever writes it. */
  lemma {:induction false} UntouchedFieldSurvives(start: Ledger, history: seq<Commit>, id: string, field: string, value: Value, i: nat, j: nat)
    requires UniqueIds(start.tasks) && Linear(start, history) && NoCollisions(start, history)
    requires i <= j <= |history| && Durable(field, value)
    requires Carries(After(start, history, i), id, field, value)
    requires forall k :: i <= k < j ==> !Touches(history[k].mutation, id, field)
    ensures Carries(After(start, history, j), id, field, value)
    decreases j - i
  {
    if i < j {
      UntouchedFieldSurvives(start, history, id, field, value, i, j - 1);
      UniqueUpTo(start, history, j - 1);
      assert LandsAt(start, history, j - 1) && !CollidesAt(start, history, j - 1);
      WriteKeepsField(history[j - 1].mutation, After(start, history, j - 1), After(start, history, j), id, field, value);
    }
  }

  predicate KeepsQuestions(m: Mutation, id: string) {
    match m
    case Delete(d) => d != id
    case Patch(p, patch) => p == id ==> "humanQA" !in patch
    case CliPatch(p, patch, _) => p == id ==> "humanQA" !in patch
    case _ => true
  }

  function AskedOf(tasks: Cards, id: string): seq<Question> {
    if CardOf(tasks, id) == None then [] else QuestionsOf(CardOf(tasks, id).value)
  }

  lemma {:induction false} WriteGrowsQuestions(m: Mutation, before: Cards, after: Cards, id: string)
    requires UniqueIds(before) && Lands(m, before, after) && !Collides(m, before)
    requires KeepsQuestions(m, id) && CardOf(before, id).Some?
    ensures CardOf(after, id).Some? && AskedOf(before, id) <= AskedOf(after, id)
  {
    LandedOnCard(m, before, after, id);
    CardGrowsQuestions(m, CardOf(before, id).value, CardOf(after, id));
  }

  lemma {:induction false} CardGrowsQuestions(m: Mutation, c: Card, after: Option<Card>)
    requires after == Landed(m, c) && KeepsQuestions(m, c.id)
    requires Target(m) == c.id ==> !m.Add? && !m.CliAdd?
    ensures after.Some? && QuestionsOf(c) <= QuestionsOf(after.value)
  {
  }

  /** The decision trail of a card only grows: every later history starts with the earlier one. */
  lemma {:induction false} QuestionsOnlyGrow(start: Ledger, history: seq<Commit>, id: string, i: nat, j: nat)
    requires UniqueIds(start.tasks) && Linear(start, history) && NoCollisions(start, history)
    requires i <= j <= |history| && CardOf(After(start, history, i), id).Some?
    requires forall k :: i <= k < j ==> KeepsQuestions(history[k].mutation, id)
    ensures CardOf(After(start, history, j), id).Some?
    ensures AskedOf(After(start, history, i), id) <= AskedOf(After(start, history, j), id)
    decreases j - i
  {
    if i < j {
      QuestionsOnlyGrow(start, history, id, i, j - 1);
      UniqueUpTo(start, history, j - 1);
      assert LandsAt(start, history, j - 1) && !CollidesAt(start, history, j - 1);
      WriteGrowsQuestions(history[j - 1].mutation, After(start, history, j - 1), After(start, history, j), id);
    }
  }
}
