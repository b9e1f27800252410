/**
 The card ledger `tasks.json` and its two kinds of writer, the main process and the card command line, which both
 mutate it under compare-and-swap on `rev`.  Reading, checking the revision and renaming the new file
 into place are three steps, because another process may act between any two of them.
 */
module TaskLedger {
  import opened Options

  datatype Question = Question(q: string, askedBy: string)

  datatype Value = Text(s: string) | Number(n: real) | Null | Questions(qs: seq<Question>) | Opaque(tag: nat)

  /** A card is its id and whatever fields it carries. */
  datatype Card = Card(id: string, fields: map<string, Value>)

  type Cards = seq<Card>

  /** The first card with an id; the length when there is none. */
  function IndexOf(tasks: Cards, id: string): (i: nat)
    ensures i <= |tasks|
    ensures i < |tasks| ==> tasks[i].id == id
    ensures forall j :: 0 <= j < i ==> tasks[j].id != id
  {
    if tasks == [] then 0 else if tasks[0].id == id then 0 else 1 + IndexOf(tasks[1..], id)
  }

  function WithoutId(tasks: Cards, id: string): Cards {
    if tasks == [] then []
    else if tasks[0].id == id then WithoutId(tasks[1..], id)
    else [tasks[0]] + WithoutId(tasks[1..], id)
  }

  /** The meter fields a reader adds are not card data; a cap that is not a number is no cap. */
  function Stripped(c: Card): Card {
    var fields := c.fields - {"tokens", "pct"};
    if "budgetTokens" in fields && !fields["budgetTokens"].Number? then c.(fields := fields - {"budgetTokens"})
    else c.(fields := fields)
  }

  function AllStripped(tasks: Cards): Cards {
    seq(|tasks|, i requires 0 <= i < |tasks| => Stripped(tasks[i]))
  }

  datatype Mutation =
    | Add(card: Card)
    | Patch(id: string, patch: map<string, Value>)
    | Delete(id: string)
    | CliAdd(card: Card)
    | CliPatch(id: string, patch: map<string, Value>, question: Option<Question>)

  function QuestionsOf(c: Card): seq<Question> {
    if "humanQA" in c.fields && c.fields["humanQA"].Questions? then c.fields["humanQA"].qs else []
  }

  /** A patch by the command line; a question is appended to the history and blocks the card. */
  function CliPatched(c: Card, patch: map<string, Value>, question: Option<Question>): Card {
    var merged := c.fields + patch;
    if question == None then c.(fields := merged)
    else c.(fields := merged["humanQA" := Questions(QuestionsOf(c) + [question.value])]["status" := Text("blocked")])
  }

  /** The next card array, or nothing when the mutation has nothing to do. */
  function Apply(m: Mutation, tasks: Cards): Option<Cards> {
    match m
    case Add(card) => if IndexOf(tasks, card.id) < |tasks| then None else Some(tasks + [card])
    case Patch(id, patch) =>
      var i := IndexOf(tasks, id);
      if i == |tasks| then None else Some(tasks[i := tasks[i].(fields := tasks[i].fields + patch)])
    case Delete(id) => if |WithoutId(tasks, id)| == |tasks| then None else Some(WithoutId(tasks, id))
    case CliAdd(card) => Some(tasks + [card])
    case CliPatch(id, patch, question) =>
      var i := IndexOf(tasks, id);
      if i == |tasks| then None else Some(tasks[i := CliPatched(tasks[i], patch, question)])
  }

  predicate ByCli(m: Mutation) {
    m.CliAdd? || m.CliPatch?
  }

  function Attempts(m: Mutation): nat {
    if ByCli(m) then 5 else 2
  }

  /** What a writer puts into the file: the main process strips derived fields, the command line does not. */
  function Written(m: Mutation, next: Cards): Cards {
    if ByCli(m) then next else AllStripped(next)
  }

  datatype Ledger = Ledger(tasks: Cards, rev: nat)

  /** Where a writer stands; a checked writer remembers how many writes it had seen. */
  datatype Phase =
    | Reading
    | Composed(rev: nat, next: Cards)
    | Checked(rev: nat, next: Cards, seen: nat)
    | Succeeded
    | NothingToDo
    | Busy

  datatype Writer = Writer(mutation: Mutation, attempts: nat, phase: Phase)

  /** A write that landed: the mutation, and the cards it left. */
  datatype Commit = Commit(mutation: Mutation, after: Cards)

  datatype State = State(ledger: Ledger, writers: map<nat, Writer>, history: seq<Commit>)

  datatype Event = Launch(w: nat, mutation: Mutation) | Read(w: nat) | Check(w: nat) | Rename(w: nat)

  function AfterRead(writer: Writer, ledger: Ledger): Writer {
    if writer.phase != Reading then writer
    else
      match Apply(writer.mutation, ledger.tasks)
      case None => writer.(phase := NothingToDo)
      case Some(next) => writer.(phase := Composed(ledger.rev, next))
  }

  /** The compare: a lost race costs an attempt.  `seen` is how many writes have landed so far. */
  function AfterCheck(writer: Writer, ledger: Ledger, seen: nat): Writer {
    if !writer.phase.Composed? then writer
    else if ledger.rev == writer.phase.rev then writer.(phase := Checked(writer.phase.rev, writer.phase.next, seen))
    else if writer.attempts <= 1 then writer.(phase := Busy)
    else writer.(attempts := writer.attempts - 1, phase := Reading)
  }

  /** The swap. */
  function AfterRename(writer: Writer, ledger: Ledger): (Writer, Ledger) {
    if !writer.phase.Checked? then (writer, ledger)
    else (writer.(phase := Succeeded), Ledger(Written(writer.mutation, writer.phase.next), writer.phase.rev + 1))
  }

  function Launched(s: State, w: nat, m: Mutation): State {
    if w in s.writers then s else s.(writers := s.writers[w := Writer(m, Attempts(m), Reading)])
  }

  function ReadStep(s: State, w: nat): State {
    if w !in s.writers then s else s.(writers := s.writers[w := AfterRead(s.writers[w], s.ledger)])
  }

  function CheckStep(s: State, w: nat): State {
    if w !in s.writers then s else s.(writers := s.writers[w := AfterCheck(s.writers[w], s.ledger, |s.history|)])
  }

  function RenameStep(s: State, w: nat): State {
    if !(w in s.writers && s.writers[w].phase.Checked?) then s
    else
      var (writer, ledger) := AfterRename(s.writers[w], s.ledger);
      State(ledger, s.writers[w := writer], s.history + [Commit(writer.mutation, ledger.tasks)])
  }

  function Step(s: State, e: Event): State {
    match e
    case Launch(w, m) => Launched(s, w, m)
    case Read(w) => ReadStep(s, w)
    case Check(w) => CheckStep(s, w)
    case Rename(w) => RenameStep(s, w)
  }

  // ---------------------------------------------------------------- the file and one writer

  /** `tasks.json`. */
  class LedgerFile {
    var tasks: Cards
    var rev: nat

    ghost function Model(): Ledger
      reads this
    {
      Ledger(tasks, rev)
    }

    constructor (tasks: Cards, rev: nat)
      ensures Model() == Ledger(tasks, rev)
    {
      this.tasks, this.rev := tasks, rev;
    }

    static method FindCard(tasks: Cards, id: string) returns (i: nat)
      ensures i == IndexOf(tasks, id)
    {
      i := 0;
      while i < |tasks| && tasks[i].id != id
        invariant i <= |tasks|
        invariant IndexOf(tasks, id) == i + IndexOf(tasks[i..], id)
      {
        assert tasks[i..][1..] == tasks[i + 1..];
        i := i + 1;
      }
    }

    static method Filter(tasks: Cards, id: string) returns (kept: Cards)
      ensures kept == WithoutId(tasks, id)
    {
      kept := [];
      assert tasks[0..] == tasks;
      for i := 0 to |tasks|
        invariant WithoutId(tasks, id) == kept + WithoutId(tasks[i..], id)
      {
        assert tasks[i..][1..] == tasks[i + 1..];
        if tasks[i].id != id { kept := kept + [tasks[i]]; }
      }
      assert tasks[|tasks|..] == [] && kept + [] == kept;
    }

    /** The body of a mutation, against cards that were just read. */
    static method Compose(m: Mutation, tasks: Cards) returns (next: Option<Cards>)
      ensures next == Apply(m, tasks)
    {
      match m
      case Add(card) =>
        var i := FindCard(tasks, card.id);
        next := if i < |tasks| then None else Some(tasks + [card]);
      case Patch(id, patch) =>
        var i := FindCard(tasks, id);
        if i == |tasks| { return None; }
        next := Some(tasks[..i] + [Card(id, tasks[i].fields + patch)] + tasks[i + 1..]);
        assert next.value == tasks[i := Card(id, tasks[i].fields + patch)];
      case Delete(id) =>
        var kept := Filter(tasks, id);
        next := if |kept| == |tasks| then None else Some(kept);
      case CliAdd(card) =>
        next := Some(tasks + [card]);
      case CliPatch(id, patch, question) =>
        var i := FindCard(tasks, id);
        if i == |tasks| { return None; }
        var merged := Card(id, tasks[i].fields + patch);
        if question.Some? {
          merged := merged.(fields := merged.fields["humanQA" := Questions(QuestionsOf(tasks[i]) + [question.value])]);
          merged := merged.(fields := merged.fields["status" := Text("blocked")]);
        }
        next := Some(tasks[..i] + [merged] + tasks[i + 1..]);
        assert next.value == tasks[i := merged];
    }
  }

  /** One run of a mutator, in whichever process. */
  class Mutator {
    const mutation: Mutation
    var attempts: nat
    var phase: Phase

    ghost function Model(): Writer
      reads this
    {
      Writer(mutation, attempts, phase)
    }

    constructor (m: Mutation)
      ensures Model() == Writer(m, Attempts(m), Reading)
    {
      mutation, attempts, phase := m, if ByCli(m) then 5 else 2, Reading;
    }

    method ReadLedger(file: LedgerFile)
      modifies this
      ensures Model() == AfterRead(old(Model()), file.Model())
    {
      if phase != Reading { return; }
      var next := LedgerFile.Compose(mutation, file.tasks);
      phase := if next == None then NothingToDo else Composed(file.rev, next.value);
    }

    /** `seen` numbers the writes so far, for the account of the run only. */
    method CheckRev(file: LedgerFile, seen: nat)
      modifies this
      ensures Model() == AfterCheck(old(Model()), file.Model(), seen)
    {
      if !phase.Composed? { return; }
      if file.rev == phase.rev {
        phase := Checked(phase.rev, phase.next, seen);
      } else if attempts <= 1 {
        phase := Busy;
      } else {
        attempts := attempts - 1;
        phase := Reading;
      }
    }

    method RenameIntoPlace(file: LedgerFile)
      modifies this, file
      ensures (Model(), file.Model()) == AfterRename(old(Model()), old(file.Model()))
    {
      if !phase.Checked? { return; }
      var after := phase.next;
      if !ByCli(mutation) {
        var stripped: Cards := [];
        for i := 0 to |after|
          modifies {}
          invariant stripped == AllStripped(after[..i])
        {
          stripped := stripped + [Stripped(after[i])];
        }
        assert after[..|after|] == after;
        after := stripped;
      }
      file.tasks, file.rev := after, phase.rev + 1;
      phase := Succeeded;
    }
  }
}
