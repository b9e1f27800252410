/** The queue's rows in their fields: what is accepted and as what, what is typed to whom, and which row comes next. */
module QueueLaws {
  import opened Options
  import opened Text
  import opened TextLaws
  import opened DeliveryQueue
  import opened DeliveryRuns

  // ---------------------------------------------------------------- what is in the file

  /** A process that loads a file works from its well-formed rows; a missing or unparseable file has none. */
  lemma {:induction false} LoadsTheGoodRows(d: Disk, item: Item)
    ensures item in Readable(d) <==> d.Holds? && Good(item) in d.rows
  {
    if d.Holds? { GoodRowsAre(d.rows, item); }
  }

  lemma {:induction false} GoodRowsAre(rows: seq<Row>, item: Item)
    ensures item in GoodRows(rows) <==> Good(item) in rows
  {
    if rows != [] {
      GoodRowsAre(rows[1..], item);
      assert rows == [rows[0]] + rows[1..];
    }
  }

  // ---------------------------------------------------------------- what is accepted

  /** The rows queued for an agent. */
  function RowsFor(q: seq<Item>, agent: string): set<int> {
    set i | 0 <= i < |q| && q[i].agent == agent
  }

  lemma {:induction false} CountIsRows(q: seq<Item>, agent: string)
    ensures CountFor(q, agent) == |RowsFor(q, agent)|
  {
    if q != [] {
      var n := |q| - 1;
      CountIsRows(q[..n], agent);
      assert RowsFor(q, agent) == RowsFor(q[..n], agent) + if q[n].agent == agent then {n} else {};
    }
  }

  /** The text asks for compaction: its first word is one of the two commands. */
  ghost predicate AsksToCompact(text: string) {
    exists before, verb, after :: StartsWithVerb(text, before, verb, after)
  }

  predicate StartsWithVerb(text: string, before: string, verb: string, after: string) {
    text == before + verb + after && IsBlank(before) && verb in {"/compact", "/compress"} && (after == "" || IsSpace(after[0]))
  }

  lemma {:induction false} FirstWordStops(s: string)
    ensures var w := FirstWord(s); w <= s && (forall i :: 0 <= i < |w| ==> !IsSpace(w[i])) && (|w| == |s| || IsSpace(s[|w|]))
  {
    if s != "" && !IsSpace(s[0]) { FirstWordStops(s[1..]); }
  }

  lemma {:induction false} FirstWordIs(w: string, rest: string)
    requires (forall i :: 0 <= i < |w| ==> !IsSpace(w[i])) && (rest == "" || IsSpace(rest[0]))
    ensures FirstWord(w + rest) == w
  {
    if w == "" {
      assert w + rest == rest;
    } else {
      FirstWordIs(w[1..], rest);
      assert (w + rest)[1..] == w[1..] + rest;
    }
  }

  lemma {:induction false} VerbIsFirstWord(text: string, before: string, verb: string, after: string)
    requires StartsWithVerb(text, before, verb, after)
    ensures IsCompaction(text)
  {
    VerbIsOneWord(verb);
    TrimStartDrops(before, verb + after);
    assert text == before + (verb + after);
    TrimEndPasses(verb, after);
    FirstWordIs(verb, TrimEnd(after));
  }

  lemma {:induction false} VerbIsOneWord(verb: string)
    requires verb in {"/compact", "/compress"}
    ensures verb != "" && forall i :: 0 <= i < |verb| ==> !IsSpace(verb[i])
  {
  }

  lemma {:induction false} CompactionIsTheVerb(text: string)
    ensures IsCompaction(text) <==> AsksToCompact(text)
  {
    if AsksToCompact(text) {
      var before, verb, after :| StartsWithVerb(text, before, verb, after);
      VerbIsFirstWord(text, before, verb, after);
    }
    if IsCompaction(text) {
      var before, after := TrimTakesEnds(text);
      var more := VerbThenSpace(text, before, Trim(text), after);
      assert StartsWithVerb(text, before, FirstWord(Trim(text)), more);
    }
  }

  /** The first word of the middle, and what follows it. */
  lemma {:induction false} VerbThenSpace(text: string, before: string, middle: string, after: string) returns (more: string)
    requires text == before + middle + after && IsBlank(after)
    ensures text == before + FirstWord(middle) + more && (more == "" || IsSpace(more[0]))
  {
    var w := FirstWord(middle);
    FirstWordStops(middle);
    var rest := middle[|w|..];
    more := rest + after;
    assert middle == w + rest && text == before + w + (rest + after);
  }

  /** What is queued when the request is looked at: what is loaded, or what the file gives if it can be read. */
  function QueuedBefore(s: State, io: Io): Option<seq<Item>> {
    if s.queue.Some? then s.queue else if io.readFault then None else Some(Readable(s.disk))
  }

  /** The queue takes this request: readable, not full for the agent, and no second compaction for it. */
  ghost predicate Takes(q: seq<Item>, agent: string, text: string) {
    && |RowsFor(q, agent)| < 200
    && !(AsksToCompact(text) && exists i :: 0 <= i < |q| && q[i].agent == agent && AsksToCompact(q[i].text))
  }

  lemma {:induction false} TakesExactly(q: seq<Item>, agent: string, text: string)
    ensures Takes(q, agent, text) <==> CountFor(q, agent) < 200 && !(IsCompaction(text) && CompactionQueued(q, agent))
  {
    CountIsRows(q, agent);
    CompactionIsTheVerb(text);
    forall i | 0 <= i < |q| ensures IsCompaction(q[i].text) <==> AsksToCompact(q[i].text) { CompactionIsTheVerb(q[i].text); }
  }

  /** Exactly which requests are accepted: a known agent, a text, and a queue that takes it. */
  lemma {:induction false} AcceptedExactly(s: State, req: Request, known: bool, now: int, io: Io)
    ensures var q, outcome := QueuedBefore(s, io), Enqueued(s, req, known, now, io).1;
      && (outcome.Accepted? <==>
            Trim(req.agent) != "" && Trim(req.text) != "" && known && q.Some? && Takes(q.value, Trim(req.agent), Trim(req.text)))
      && (outcome.Accepted? ==> outcome.id == Id(now, s.minted + 1))
  {
    if QueuedBefore(s, io).Some? { TakesExactly(QueuedBefore(s, io).value, Trim(req.agent), Trim(req.text)); }
  }

  /** And why others are not, the first reason first. */
  lemma {:induction false} RefusedExactly(s: State, req: Request, known: bool, now: int, io: Io)
    ensures var q, agent, outcome := QueuedBefore(s, io), Trim(req.agent), Enqueued(s, req, known, now, io).1;
      && (agent == "" ==> outcome == Refused(InvalidAgent))
      && (agent != "" && Trim(req.text) == "" ==> outcome == Refused(EmptyMessage))
      && (agent != "" && Trim(req.text) != "" && !known ==> outcome == Refused(UnknownAgent))
      && (agent != "" && Trim(req.text) != "" && known ==>
            match q
            case None => outcome == Refused(Unreadable)
            case Some(rows) =>
              && (|RowsFor(rows, agent)| >= 200 ==> outcome == Refused(QueueFull))
              && (|RowsFor(rows, agent)| < 200 && !Takes(rows, agent, Trim(req.text)) ==> outcome == AlreadyQueued))
  {
    if QueuedBefore(s, io).Some? {
      CountIsRows(QueuedBefore(s, io).value, Trim(req.agent));
      TakesExactly(QueuedBefore(s, io).value, Trim(req.agent), Trim(req.text));
    }
  }

  /** What a row has typed into the terminal: its instruction if it has one, its text otherwise. */
  function TypedFor(item: Item): string {
    match item.instruction
    case Some(instruction) => instruction
    case None => item.text
  }

  /** What a request wants typed: its instruction, unless that is missing or empty, and otherwise its trimmed text. */
  function Wanted(req: Request): string {
    if req.instruction.Some? && req.instruction.value != "" then req.instruction.value else Trim(req.text)
  }

  lemma {:induction false} TypedIsTypedFor(item: Item)
    ensures item.Typed() == TypedFor(item)
  {
  }

  /** A fresh row in the words of the request. */
  predicate SaysAsked(row: Item, req: Request) {
    && row.agent == Trim(req.agent) && row.text == Trim(req.text) && row.Typed() == Wanted(req)
    && row.attempts == 0 && !row.manual
  }

  /** What was accepted is queued as one last row, in the words of the request; the file holds the same if it was written. */
  lemma {:induction false} AcceptedRow(s: State, req: Request, known: bool, now: int, io: Io)
    requires Enqueued(s, req, known, now, io).1.Accepted?
    ensures var s', q := Enqueued(s, req, known, now, io).0, QueuedBefore(s, io);
      && q.Some? && s'.queue.Some? && |s'.queue.value| == |q.value| + 1 && s'.queue.value[..|q.value|] == q.value
      && SaysAsked(s'.queue.value[|q.value|], req) && s'.queue.value[|q.value|].id == Enqueued(s, req, known, now, io).1.id
      && (io.persisted ==> Readable(s'.disk) == s'.queue.value) && (!io.persisted ==> s'.disk == s.disk)
  {
    EnqueuedCases(s, req, known, now, io);
    SavedIsReadable(Enqueued(s, req, known, now, io).0.queue.value);
  }

  // ---------------------------------------------------------------- what is typed to whom

  /** Two rows say the same to the same agent; attempts and release aside. */
  predicate SameMail(a: Item, b: Item) {
    a.id == b.id && a.agent == b.agent && a.text == b.text && a.instruction == b.instruction
  }

  predicate HasMail(q: seq<Item>, item: Item) {
    exists j :: 0 <= j < |q| && SameMail(item, q[j])
  }

  /** Every row of the first stands for one of the second. */
  predicate Derives(r: seq<Item>, q: seq<Item>) {
    forall i :: 0 <= i < |r| ==> HasMail(q, r[i])
  }

  lemma {:induction false} DerivesItself(q: seq<Item>)
    ensures Derives(q, q)
  {
    forall i | 0 <= i < |q| ensures HasMail(q, q[i]) { assert SameMail(q[i], q[i]); }
  }

  lemma {:induction false} RemovedDerives(q: seq<Item>, i: nat)
    requires i <= |q|
    ensures Derives(RemoveAt(q, i), q)
  {
    var r := RemoveAt(q, i);
    forall j | 0 <= j < |r| ensures HasMail(q, r[j]) {
      assert r[j] == q[if j < i then j else j + 1];
      assert SameMail(r[j], q[if j < i then j else j + 1]);
    }
  }

  lemma {:induction false} ReleasedDerives(q: seq<Item>, i: nat)
    requires i < |q|
    ensures Derives([q[i].(manual := true)] + RemoveAt(q, i), q)
  {
    var r := [q[i].(manual := true)] + RemoveAt(q, i);
    RemovedDerives(q, i);
    assert SameMail(r[0], q[i]);
    forall j | 0 <= j < |r| ensures HasMail(q, r[j]) {
      if j > 0 { assert HasMail(q, RemoveAt(q, i)[j - 1]); }
    }
  }

  lemma {:induction false} WithoutDerives(q: seq<Item>, agent: string)
    ensures Derives(Without(q, agent), q)
  {
    if q != [] {
      var n := |q| - 1;
      WithoutDerives(q[..n], agent);
      var r := Without(q, agent);
      assert SameMail(q[n], q[n]);
      forall j | 0 <= j < |r| ensures HasMail(q, r[j]) {
        if j < |Without(q[..n], agent)| {
          assert HasMail(q[..n], r[j]);
          var i :| 0 <= i < n && SameMail(r[j], q[..n][i]);
          assert SameMail(r[j], q[i]);
        }
      }
    }
  }

  lemma {:induction false} FailureDerives(q: seq<Item>, id: Id, attempts: int)
    ensures Derives(AfterFailure(q, id, attempts), q)
  {
    var r, i := AfterFailure(q, id, attempts), FirstById(q, id);
    DerivesItself(q);
    if i < |q| && attempts >= MAX_SEND_ATTEMPTS {
      RemovedDerives(q, i);
    } else if i < |q| {
      forall j | 0 <= j < |r| ensures HasMail(q, r[j]) { assert SameMail(r[j], q[j]); }
    }
  }

  lemma {:induction false} DerivesThrough(r: seq<Item>, q: seq<Item>, item: Item)
    requires Derives(r, q) && HasMail(r, item)
    ensures HasMail(q, item)
  {
    var j :| 0 <= j < |r| && SameMail(item, r[j]);
    assert HasMail(q, r[j]);
    var i :| 0 <= i < |q| && SameMail(r[j], q[i]);
    assert SameMail(item, q[i]);
  }

  lemma {:induction false} OperatorsDerive(s: State, agent: string, id: Id, io: Io)
    ensures Derives(Current(Removed(s, agent, id, io).0), Current(s))
    ensures Derives(Current(Released(s, agent, id, io).0), Current(s))
    ensures Derives(Current(Cleared(s, agent, io).0), Current(s))
  {
    var s1 := Loaded(s, io.readFault);
    var q, i := View(s1), FirstOf(View(s1), agent, id);
    LoadFacts(s, io.readFault);
    LoadFacts(s1, io.rereadFault);
    DerivesItself(Current(s));
    if i < |q| {
      CommitFacts(s1.(queue := Some(RemoveAt(q, i))), io);
      CommitFacts(s1.(queue := Some([q[i].(manual := true)] + RemoveAt(q, i))), io);
      RemovedDerives(q, i);
      ReleasedDerives(q, i);
    }
    if s1.queue.Some? { CommitFacts(s1.(queue := Some(Without(q, agent))), io); } else { CommitFacts(s1, io); }
    WithoutDerives(q, agent);
  }

  /** A change to the loaded rows, saved; the jobs do not matter. */
  lemma {:induction false} ChangeDerives(s: State, r: seq<Item>, io: Io, jobs: map<Key, Job>)
    requires Loaded(s, io.readFault).queue.Some? && Derives(r, Loaded(s, io.readFault).queue.value)
    ensures Derives(Current(Committed(Loaded(s, io.readFault).(queue := Some(r)), io).(jobs := jobs)), Current(s))
  {
    LoadFacts(s, io.readFault);
    CommitFacts(Loaded(s, io.readFault).(queue := Some(r)), io);
  }

  lemma {:induction false} NothingDerives(s: State, io: Io, jobs: map<Key, Job>)
    ensures Derives(Current(Committed(Loaded(s, io.readFault), io).(jobs := jobs)), Current(s))
  {
    LoadFacts(s, io.readFault);
    CommitFacts(Loaded(s, io.readFault), io);
    DerivesItself(Current(s));
  }

  lemma {:induction false} AcknowledgedDerives(s: State, key: Key, io: Io)
    ensures Derives(Current(Acknowledged(s, key, io)), Current(s))
  {
    var s1, jobs := Loaded(s, io.readFault), Acknowledged(s, key, io).jobs;
    if key !in s.jobs || s.jobs[key].acked {
      DerivesItself(Current(s));
    } else if s1.queue.Some? {
      var i := FirstById(s1.queue.value, key.id);
      RemovedDerives(s1.queue.value, i);
      ChangeDerives(s, RemoveAt(s1.queue.value, i), io, jobs);
    } else {
      NothingDerives(s, io, jobs);
    }
  }

  lemma {:induction false} FailedDerives(s: State, key: Key, io: Io)
    ensures Derives(Current(Failed(s, key, io)), Current(s))
  {
    var s1, jobs := Loaded(s, io.readFault), Failed(s, key, io).jobs;
    if key !in s.jobs || s.jobs[key].acked {
      DerivesItself(Current(s));
    } else if s1.queue.Some? {
      var attempts := s.jobs[key].item.attempts + 1;
      FailureDerives(s1.queue.value, key.id, attempts);
      ChangeDerives(s, AfterFailure(s1.queue.value, key.id, attempts), io, jobs);
    } else {
      NothingDerives(s, io, jobs);
    }
  }

  /** But for an accepted request, no step brings mail that was not there. */
  lemma {:induction false} StepDerives(s: State, e: Event, start: int)
    requires Inv(s, start)
    requires !(e.Enqueue? && Enqueued(s, e.req, e.known, e.now, e.io).1.Accepted?)
    ensures Derives(Current(Step(s, e)), Current(s))
  {
    DerivesItself(Current(s));
    match e
    case Enqueue(req, known, now, io) => EnqueuedCases(s, req, known, now, io); LoadFacts(s, io.readFault);
    case Remove(agent, id, io) => OperatorsDerive(s, agent, id, io);
    case Release(agent, id, io) => OperatorsDerive(s, agent, id, io);
    case Clear(agent, io) => OperatorsDerive(s, agent, Id(0, 0), io);
    case Acknowledge(key, io) => AcknowledgedDerives(s, key, io);
    case Fail(key, io) => FailedDerives(s, key, io);
    case Tick(live, at, fault) => TickStep(s, live, at, fault, start);
    case _ =>
  }

  /** The i-th step of the run was a request that was accepted under this id. */
  predicate AcceptedAt(s: State, es: seq<Event>, i: nat, id: Id) {
    i < |es| && es[i].Enqueue?
    && Enqueued(Run(s, es[..i]), es[i].req, es[i].known, es[i].now, es[i].io).1 == Accepted(id)
  }

  /** Somebody wanted this typed to this agent under this id: a request of the run, or a row of the file it began with. */
  ghost predicate Meant(s: State, es: seq<Event>, id: Id, agent: string, typed: string) {
    || (exists i: nat :: AcceptedAt(s, es, i, id) && agent == Trim(es[i].req.agent) && typed == Wanted(es[i].req))
    || (exists row :: row in Readable(s.disk) && row.id == id && row.agent == agent && typed == TypedFor(row))
  }

  lemma {:induction false} StillMeant(s: State, es: seq<Event>, e: Event, id: Id, agent: string, typed: string)
    requires Meant(s, es, id, agent, typed)
    ensures Meant(s, es + [e], id, agent, typed)
  {
    var longer := es + [e];
    if i: nat :| AcceptedAt(s, es, i, id) && agent == Trim(es[i].req.agent) && typed == Wanted(es[i].req) {
      assert longer[..i] == es[..i] && longer[i] == es[i];
      assert AcceptedAt(s, longer, i, id);
    }
  }

  ghost predicate AllMeant(s: State, es: seq<Event>) {
    forall row :: row in Current(Run(s, es)) ==> Meant(s, es, row.id, row.agent, TypedFor(row))
  }

  /** At every moment of every run, each row is meant. */
  lemma {:induction false} RowsAreMeant(s: State, es: seq<Event>, start: int)
    requires Started(s, start) && ClockOk(es, start)
    ensures AllMeant(s, es)
  {
    if es != [] {
      var before, e := es[..|es| - 1], es[|es| - 1];
      assert es == before + [e];
      RowsAreMeant(s, before, start);
      StartedInv(s, start);
      RunKeeps(s, before, start);
      StepMeans(s, before, e, start);
    }
  }

  lemma {:induction false} StepMeans(s: State, es: seq<Event>, e: Event, start: int)
    requires AllMeant(s, es) && Inv(Run(s, es), start)
    ensures AllMeant(s, es + [e])
  {
    var b, longer := Run(s, es), es + [e];
    assert longer[..|es|] == es;
    if e.Enqueue? && Enqueued(b, e.req, e.known, e.now, e.io).1.Accepted? {
      AcceptedMeans(s, es, e);
    } else {
      StepDerives(b, e, start);
      forall row | row in Current(Run(s, longer)) ensures Meant(s, longer, row.id, row.agent, TypedFor(row)) {
        var j :| 0 <= j < |Current(Step(b, e))| && Current(Step(b, e))[j] == row;
        assert HasMail(Current(b), row);
        var i :| 0 <= i < |Current(b)| && SameMail(row, Current(b)[i]);
        assert Current(b)[i] in Current(b);
        StillMeant(s, es, e, row.id, row.agent, TypedFor(row));
      }
    }
  }

  lemma {:induction false} AcceptedMeans(s: State, es: seq<Event>, e: Event)
    requires AllMeant(s, es) && e.Enqueue? && Enqueued(Run(s, es), e.req, e.known, e.now, e.io).1.Accepted?
    ensures AllMeant(s, es + [e])
  {
    var b, longer := Run(s, es), es + [e];
    assert longer[..|es|] == es;
    AcceptedRow(b, e.req, e.known, e.now, e.io);
    LoadFacts(b, e.io.readFault);
    var q, r := QueuedBefore(b, e.io).value, Current(Step(b, e));
    assert q == Current(b);
    var id := Enqueued(b, e.req, e.known, e.now, e.io).1.id;
    assert AcceptedAt(s, longer, |es|, id);
    forall row | row in r ensures Meant(s, longer, row.id, row.agent, TypedFor(row)) {
      var j :| 0 <= j < |r| && r[j] == row;
      if j < |q| {
        assert row == r[..|q|][j] && row in Current(b);
        StillMeant(s, es, e, row.id, row.agent, TypedFor(row));
      } else {
        TypedIsTypedFor(row);
      }
    }
  }

  /**
   Whatever a tick types to an agent, at any moment of any run, is what an accepted request for that agent wanted
   typed under that id, or what the file held for it when the process began.
   */
  lemma {:induction false} TypesWhatWasWanted(s: State, es: seq<Event>, live: seq<Live>, at: int, fault: bool, start: int, k: Key)
    requires Started(s, start) && ClockOk(es, start) && k in NewClaims(Run(s, es), Tick(live, at, fault))
    ensures Meant(s, es, k.id, k.agent, Step(Run(s, es), Tick(live, at, fault)).jobs[k].item.Typed())
  {
    var b := Run(s, es);
    var b' := Step(b, Tick(live, at, fault));
    RowsAreMeant(s, es, start);
    StartedInv(s, start);
    RunKeeps(s, es, start);
    TickStep(b, live, at, fault, start);
    var item := b'.jobs[k].item;
    assert JobOk(Current(b'), k, b'.jobs[k], b'.minted, start);
    assert item in Current(b);
    TypedIsTypedFor(item);
  }

  // ---------------------------------------------------------------- which row comes next

  /** The first row for an agent. */
  predicate HeadFor(q: seq<Item>, i: nat, agent: string) {
    i < |q| && q[i].agent == agent && forall j :: 0 <= j < i ==> q[j].agent != agent
  }

  /** 4.5 seconds have passed since the agent was last sent anything. */
  predicate CooledDown(s: State, agent: string, now: int) {
    now - (if agent in s.lastFlush then s.lastFlush[agent] else 0) >= 4500
  }

  /** What may be claimed for an agent: its first row, once it has cooled down, and on a paused floor only if released by hand. */
  lemma {:induction false} EligibleInFields(s: State, l: Live, now: int, k: Key)
    requires s.queue.Some?
    ensures Eligible(s, l, now, k) <==>
      l.ready && k.agent == l.agent && CooledDown(s, l.agent, now)
      && exists i: nat :: HeadFor(s.queue.value, i, l.agent) && s.queue.value[i].id == k.id && (l.paused ==> s.queue.value[i].manual)
  {
    var q := s.queue.value;
    var i := FirstFor(q, l.agent);
    assert i < |q| ==> HeadFor(q, i, l.agent);
    assert forall j: nat :: HeadFor(q, j, l.agent) ==> !(j < i) && !(i < j);
  }

  // ---------------------------------------------------------------- the operator's hand

  predicate FirstMatch(q: seq<Item>, i: nat, agent: string, id: Id) {
    i < |q| && q[i].agent == agent && q[i].id == id && forall j :: 0 <= j < i ==> !(q[j].agent == agent && q[j].id == id)
  }

  lemma {:induction false} FirstMatchIsFirst(q: seq<Item>, agent: string, id: Id)
    ensures var first := FirstOf(q, agent, id);
      && (first < |q| <==> FirstMatch(q, first, agent, id))
      && (forall i: nat :: FirstMatch(q, i, agent, id) ==> i == first)
  {
    var first := FirstOf(q, agent, id);
    forall i: nat | FirstMatch(q, i, agent, id) ensures i == first { assert !(i < first) && !(first < i); }
  }

  /** Taking a row out takes the first match; without a match nothing moves. */
  lemma {:induction false} RemoveTakesTheFirst(s: State, agent: string, id: Id, io: Io)
    requires QueuedBefore(s, io).Some?
    ensures var q := QueuedBefore(s, io).value; var (s', outcome) := Removed(s, agent, id, io);
      && (forall i: nat :: FirstMatch(q, i, agent, id) ==> outcome == Done && s'.queue == Some(q[..i] + q[i + 1..]))
      && ((forall i: nat :: !FirstMatch(q, i, agent, id)) ==> outcome == Refused(NotQueued) && s'.queue == Some(q))
  {
    FirstMatchIsFirst(QueuedBefore(s, io).value, agent, id);
    RemovedByPlace(s, agent, id, io);
  }

  lemma {:induction false} RemovedByPlace(s: State, agent: string, id: Id, io: Io)
    requires QueuedBefore(s, io).Some?
    ensures var q := QueuedBefore(s, io).value; var i := FirstOf(q, agent, id); var (s', outcome) := Removed(s, agent, id, io);
      if i < |q| then outcome == Done && s'.queue == Some(RemoveAt(q, i)) else outcome == Refused(NotQueued) && s'.queue == Some(q)
  {
  }

  lemma {:induction false} ReleasedByPlace(s: State, agent: string, id: Id, io: Io)
    requires QueuedBefore(s, io).Some?
    ensures var q := QueuedBefore(s, io).value; var i := FirstOf(q, agent, id); var (s', outcome) := Released(s, agent, id, io);
      if i < |q| then outcome == Done && s'.queue == Some([q[i].(manual := true)] + RemoveAt(q, i))
      else outcome == Refused(NotQueued) && s'.queue == Some(q)
  {
  }

  /** Releasing it puts it before all others, marked. */
  lemma {:induction false} ReleasePutsItFirst(s: State, agent: string, id: Id, io: Io)
    requires QueuedBefore(s, io).Some?
    ensures var q := QueuedBefore(s, io).value; var (s', outcome) := Released(s, agent, id, io);
      && (forall i: nat :: FirstMatch(q, i, agent, id) ==>
            outcome == Done && s'.queue == Some([q[i].(manual := true)] + (q[..i] + q[i + 1..])))
      && ((forall i: nat :: !FirstMatch(q, i, agent, id)) ==> outcome == Refused(NotQueued) && s'.queue == Some(q))
  {
    FirstMatchIsFirst(QueuedBefore(s, io).value, agent, id);
    ReleasedByPlace(s, agent, id, io);
  }

  /** The rows of all other agents, in order. */
  function Others(q: seq<Item>, agent: string): seq<Item> {
    if q == [] then [] else (if q[0].agent == agent then [] else [q[0]]) + Others(q[1..], agent)
  }

  lemma {:induction false} OthersOfMore(q: seq<Item>, item: Item, agent: string)
    ensures Others(q + [item], agent) == Others(q, agent) + if item.agent == agent then [] else [item]
  {
    if q == [] {
      assert (q + [item])[1..] == [];
    } else {
      OthersOfMore(q[1..], item, agent);
      assert (q + [item])[1..] == q[1..] + [item];
    }
  }

  lemma {:induction false} ClearLeavesOthers(q: seq<Item>, agent: string)
    ensures Without(q, agent) == Others(q, agent)
  {
    if q != [] {
      ClearLeavesOthers(q[..|q| - 1], agent);
      OthersOfMore(q[..|q| - 1], q[|q| - 1], agent);
      assert q == q[..|q| - 1] + [q[|q| - 1]];
    }
  }

  /** A failed write counts against the row, wherever it stands; the third takes it out. */
  lemma {:induction false} FailureInFields(q: seq<Item>, id: Id, attempts: int, i: nat)
    requires Distinct(q) && i < |q| && q[i].id == id
    ensures AfterFailure(q, id, attempts) ==
      if attempts >= 3 then q[..i] + q[i + 1..] else q[..i] + [q[i].(attempts := attempts)] + q[i + 1..]
  {
    assert FirstById(q, id) == i;
    assert q[i := q[i].(attempts := attempts)] == q[..i] + [q[i].(attempts := attempts)] + q[i + 1..];
  }

  /** A tick begins one, its end waits for every send it began, and nothing else begins or ends one. */
  lemma {:induction false} TicksInFields(s: State, e: Event)
    ensures Step(s, e).ticking <==>
      match e
      case Tick(_, _, _) => true
      case TickEnd => s.ticking && s.jobs != map[]
      case _ => s.ticking
  {
    match e
    case Tick(live, at, fault) => if !s.ticking { DrainKeepsTicking(Loaded(s.(ticking := true), fault), live, at); }
    case _ =>
  }

  lemma {:induction false} DrainKeepsTicking(s: State, live: seq<Live>, at: int)
    ensures Drained(s, live, at).ticking == s.ticking
  {
    if live != [] { DrainKeepsTicking(s, live[..|live| - 1], at); }
  }

  /** A read that fails leaves nothing loaded and says so; once loaded, nothing is read again. */
  lemma {:induction false} LoadInFields(s: State, fault: bool)
    ensures var s' := Loaded(s, fault);
      && (s.queue.Some? ==> s' == s)
      && (s.queue == None && fault ==> s'.queue == None && s'.refused)
      && (s.queue == None && !fault ==> s'.queue.Some? && !s'.refused)
      && s'.disk == s.disk && s'.jobs == s.jobs && s'.lastFlush == s.lastFlush && s'.ticking == s.ticking && s'.minted == s.minted
  {
  }
}
