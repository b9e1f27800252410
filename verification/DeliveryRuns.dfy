/**
 What the delivery queue promises over every interleaving of its mutators, ticks and send outcomes.
 */
module DeliveryRuns {
  import opened Options
  import opened DeliveryQueue

  function Run(s: State, es: seq<Event>): State {
    if es == [] then s else Step(Run(s, es[..|es| - 1]), es[|es| - 1])
  }

  // ---------------------------------------------------------------- rows by id

  predicate Distinct(q: seq<Item>) {
    forall i, j :: 0 <= i < j < |q| ==> q[i].id != q[j].id
  }

  /** The row with an id, if it is queued. */
  function RowOf(q: seq<Item>, id: Id): Option<Item> {
    var i := FirstById(q, id);
    if i < |q| then Some(q[i]) else None
  }

  lemma {:induction false} RowAt(q: seq<Item>, i: nat)
    requires Distinct(q) && i < |q|
    ensures RowOf(q, q[i].id) == Some(q[i])
  {
    assert FirstById(q, q[i].id) <= i;
  }

  lemma {:induction false} RemoveAtRow(q: seq<Item>, i: nat, id: Id)
    requires Distinct(q) && i < |q|
    ensures Distinct(RemoveAt(q, i))
    ensures RowOf(RemoveAt(q, i), id) == if id == q[i].id then None else RowOf(q, id)
  {
    var r := RemoveAt(q, i);
    assert forall j :: 0 <= j < |r| ==> r[j] == q[if j < i then j else j + 1];
    if RowOf(q, id).Some? && id != q[i].id {
      var k := FirstById(q, id);
      assert r[if k < i then k else k - 1].id == id;
    }
    if RowOf(r, id).Some? {
      var k := FirstById(r, id);
      RowAt(q, if k < i then k else k + 1);
    }
  }

  lemma {:induction false} AppendRow(q: seq<Item>, item: Item, id: Id)
    requires Distinct(q) && RowOf(q, item.id) == None
    ensures Distinct(q + [item])
    ensures RowOf(q + [item], id) == if id == item.id then Some(item) else RowOf(q, id)
  {
    var r := q + [item];
    forall j | 0 <= j < |q| ensures q[j].id != item.id {
      if q[j].id == item.id { RowAt(q, j); }
    }
    assert Distinct(r);
    RowAt(r, |q|);
    if RowOf(q, id).Some? { RowAt(r, FirstById(q, id)); assert r[FirstById(q, id)] == q[FirstById(q, id)]; }
    if RowOf(r, id).Some? && id != item.id { RowAt(q, FirstById(r, id)); }
  }

  lemma {:induction false} PrependRow(q: seq<Item>, item: Item, id: Id)
    requires Distinct(q) && RowOf(q, item.id) == None
    ensures Distinct([item] + q)
    ensures RowOf([item] + q, id) == if id == item.id then Some(item) else RowOf(q, id)
  {
    var r := [item] + q;
    forall j | 0 <= j < |q| ensures q[j].id != item.id {
      if q[j].id == item.id { RowAt(q, j); }
    }
    assert Distinct(r);
    assert r[1..] == q && r[0] == item;
  }

  lemma {:induction false} UpdateRow(q: seq<Item>, i: nat, item: Item, id: Id)
    requires Distinct(q) && i < |q| && item.id == q[i].id
    ensures Distinct(q[i := item])
    ensures RowOf(q[i := item], id) == if id == item.id then Some(item) else RowOf(q, id)
  {
    var r := q[i := item];
    RowAt(r, i);
    if RowOf(q, id).Some? && id != item.id { RowAt(r, FirstById(q, id)); assert r[FirstById(q, id)] == q[FirstById(q, id)]; }
    if RowOf(r, id).Some? && id != item.id { RowAt(q, FirstById(r, id)); }
  }

  lemma {:induction false} LastIsNew(q: seq<Item>)
    requires Distinct(q) && q != []
    ensures RowOf(q[..|q| - 1], q[|q| - 1].id) == None && Distinct(q[..|q| - 1])
  {
    assert forall j :: 0 <= j < |q| - 1 ==> q[..|q| - 1][j] == q[j] && q[j].id != q[|q| - 1].id;
  }

  lemma {:induction false} WithoutRow(q: seq<Item>, agent: string, id: Id)
    requires Distinct(q)
    ensures Distinct(Without(q, agent))
    ensures RowOf(Without(q, agent), id) == if RowOf(q, id).Some? && RowOf(q, id).value.agent == agent then None else RowOf(q, id)
  {
    if q != [] {
      var before, last := q[..|q| - 1], q[|q| - 1];
      WithoutRow(before, agent, id);
      WithoutRow(before, agent, last.id);
      LastIsNew(q);
      AppendRow(before, last, id);
      assert q == before + [last];
      if last.agent != agent { AppendRow(Without(before, agent), last, id); }
    }
  }

  lemma {:induction false} FirstOfRow(q: seq<Item>, agent: string, id: Id)
    requires Distinct(q)
    ensures FirstOf(q, agent, id) < |q| <==> RowOf(q, id).Some? && RowOf(q, id).value.agent == agent
    ensures FirstOf(q, agent, id) < |q| ==> FirstOf(q, agent, id) == FirstById(q, id)
  {
    var j := FirstOf(q, agent, id);
    if j < |q| { RowAt(q, j); }
    if RowOf(q, id).Some? && RowOf(q, id).value.agent == agent {
      assert !(j > FirstById(q, id));
    }
  }

  // ---------------------------------------------------------------- the invariant

  /** Ids that exist: stamped before this process began at `start`, or minted by it. */
  predicate Known(id: Id, minted: nat, start: int) {
    id.stamp < start || 1 <= id.n <= minted
  }

  ghost predicate QueueOk(q: seq<Item>, minted: nat, start: int) {
    && Distinct(q)
    && forall id :: RowOf(q, id).Some? ==> Known(id, minted, start) && 0 <= RowOf(q, id).value.attempts < MAX_SEND_ATTEMPTS
  }

  /** A job stands for the row it carries for as long as that row is queued. */
  predicate JobOk(q: seq<Item>, k: Key, job: Job, minted: nat, start: int) {
    && job.item.id == k.id && Known(k.id, minted, start) && 0 <= job.item.attempts < MAX_SEND_ATTEMPTS
    && (RowOf(q, k.id).Some? ==>
          !job.acked && RowOf(q, k.id).value.agent == k.agent && RowOf(q, k.id).value.attempts == job.item.attempts)
  }

  ghost predicate JobsOk(q: seq<Item>, jobs: map<Key, Job>, minted: nat, start: int) {
    && (forall k :: k in jobs ==> JobOk(q, k, jobs[k], minted, start))
    && (forall k, l :: k in jobs && l in jobs && (k.agent == l.agent || k.id == l.id) ==> k == l)
  }

  /** The rows a process with this state works from: the queue, or what it would load. */
  function Current(s: State): seq<Item> {
    if s.queue.Some? then s.queue.value else Readable(s.disk)
  }

  ghost predicate Inv(s: State, start: int) {
    && QueueOk(Current(s), s.minted, start)
    && JobsOk(Current(s), s.jobs, s.minted, start)
    && (s.queue == None ==> s.jobs == map[])
    && (!s.ticking ==> s.jobs == map[])
  }

  /** A process just started over a file whose rows were stamped before it. */
  ghost predicate Started(s: State, start: int) {
    s == State(s.disk, None, false, map[], map[], false, 0) && QueueOk(Readable(s.disk), 0, start)
  }

  predicate Timely(e: Event, start: int) {
    e.Enqueue? ==> e.now >= start
  }

  /** Nothing is enqueued before the process began. */
  predicate ClockOk(es: seq<Event>, start: int) {
    forall i :: 0 <= i < |es| ==> Timely(es[i], start)
  }

  // ---------------------------------------------------------------- load and save

  lemma {:induction false} GoodRowsOfRows(q: seq<Item>)
    ensures GoodRows(AsRows(q)) == q
  {
    if q != [] {
      GoodRowsOfRows(q[1..]);
      assert AsRows(q)[1..] == AsRows(q[1..]);
    }
  }

  /** What is saved is what a restart would load. */
  lemma {:induction false} SavedIsReadable(q: seq<Item>)
    ensures Readable(Holds(AsRows(q))) == q
  {
    GoodRowsOfRows(q);
  }

  lemma {:induction false} LoadFacts(s: State, fault: bool)
    ensures Current(Loaded(s, fault)) == Current(s)
    ensures Loaded(s, fault).queue.Some? <==> s.queue.Some? || !fault
    ensures Loaded(s, fault) == s.(queue := Loaded(s, fault).queue, refused := Loaded(s, fault).refused)
  {
  }

  lemma {:induction false} CommitFacts(s: State, io: Io)
    ensures Current(Committed(s, io)) == Current(s)
    ensures Committed(s, io) == s.(disk := Committed(s, io).disk, queue := Committed(s, io).queue, refused := Committed(s, io).refused)
    ensures s.queue.Some? ==> Committed(s, io).queue == s.queue
    ensures s.queue == None ==> Committed(s, io).disk == s.disk
  {
  }

  /** Rows that stand for old rows, jobs unchanged or fewer: the invariant holds. */
  lemma {:induction false} FewerRowsKeep(q: seq<Item>, r: seq<Item>, jobs: map<Key, Job>, fewer: map<Key, Job>, minted: nat, start: int)
    requires QueueOk(q, minted, start) && JobsOk(q, jobs, minted, start) && Distinct(r)
    requires forall id :: RowOf(r, id).Some? ==>
      RowOf(q, id).Some? && RowOf(q, id).value.agent == RowOf(r, id).value.agent && RowOf(q, id).value.attempts == RowOf(r, id).value.attempts
    requires forall k :: k in fewer ==> k in jobs && fewer[k] == jobs[k]
    ensures QueueOk(r, minted, start) && JobsOk(r, fewer, minted, start)
  {
    forall k | k in fewer ensures JobOk(r, k, fewer[k], minted, start) { assert JobOk(q, k, jobs[k], minted, start); }
  }

  ghost predicate SameAttempts(q: seq<Item>, r: seq<Item>) {
    forall id :: RowOf(r, id).Some? && RowOf(q, id).Some? ==> RowOf(r, id).value.attempts == RowOf(q, id).value.attempts
  }

  // ---------------------------------------------------------------- what each step does to the rows

  /** The operator's remove or clear finds the agent's row. */
  predicate TakenOut(s: State, agent: string, id: Id, io: Io) {
    (s.queue.Some? || !io.readFault) && RowOf(Current(s), id).Some? && RowOf(Current(s), id).value.agent == agent
  }

  /** The four ways a row leaves: acknowledged, dropped at the retry bound, removed or cleared by the operator. */
  predicate Leaves(s: State, e: Event, id: Id) {
    match e
    case Acknowledge(key, _) => key.id == id && key in s.jobs && !s.jobs[key].acked
    case Fail(key, _) =>
      key.id == id && key in s.jobs && !s.jobs[key].acked && s.jobs[key].item.attempts + 1 >= MAX_SEND_ATTEMPTS
    case Remove(agent, rid, io) => id == rid && TakenOut(s, agent, rid, io)
    case Clear(agent, io) => TakenOut(s, agent, id, io)
    case _ => false
  }

  predicate Comes(s: State, e: Event, id: Id) {
    e.Enqueue? && Enqueued(s, e.req, e.known, e.now, e.io).1 == Accepted(id)
  }

  /** A step's new rows, id by id: the old ones that did not leave, and the one that came. */
  ghost predicate Moves(s: State, e: Event) {
    forall id :: RowOf(Current(Step(s, e)), id).Some?
      <==> (RowOf(Current(s), id).Some? && !Leaves(s, e, id)) || Comes(s, e, id)
  }

  lemma {:induction false} RemoveStep(s: State, agent: string, id: Id, io: Io, start: int)
    requires Inv(s, start)
    ensures var s' := Removed(s, agent, id, io).0;
      && Inv(s', start) && SameAttempts(Current(s), Current(s'))
      && forall any :: RowOf(Current(s'), any).Some? <==> RowOf(Current(s), any).Some? && !(any == id && TakenOut(s, agent, id, io))
  {
    LoadFacts(s, io.readFault);
    var s1 := Loaded(s, io.readFault);
    var i := FirstOf(View(s1), agent, id);
    if s1.queue.Some? { FirstOfRow(View(s1), agent, id); }
    if i == |View(s1)| {
      LoadFacts(s1, io.rereadFault);
    } else {
      RemoveRow(s1, i, id, io, start);
      assert Removed(s, agent, id, io).0 == AfterCommit(s1, RemoveAt(View(s1), i), s.jobs, io);
    }
  }

  lemma {:induction false} RemoveRow(s: State, i: nat, id: Id, io: Io, start: int)
    requires Inv(s, start) && s.queue.Some? && i < |s.queue.value| && i == FirstById(s.queue.value, id)
    ensures var s' := AfterCommit(s, RemoveAt(s.queue.value, i), s.jobs, io);
      && Inv(s', start) && SameAttempts(Current(s), Current(s'))
      && forall any :: RowOf(Current(s'), any).Some? <==> RowOf(Current(s), any).Some? && any != id
  {
    TakeOut(s.queue.value, id, s.jobs, s.jobs, s.minted, start);
    CommittedInv(s, RemoveAt(s.queue.value, i), s.jobs, io, start);
  }

  lemma {:induction false} ReleaseStep(s: State, agent: string, id: Id, io: Io, start: int)
    requires Inv(s, start)
    ensures var s' := Released(s, agent, id, io).0;
      Inv(s', start) && SameAttempts(Current(s), Current(s')) && forall any :: RowOf(Current(s'), any).Some? <==> RowOf(Current(s), any).Some?
  {
    LoadFacts(s, io.readFault);
    var s1 := Loaded(s, io.readFault);
    var q := View(s1);
    var i := FirstOf(q, agent, id);
    if i == |q| {
      LoadFacts(s1, io.rereadFault);
    } else {
      var item := q[i].(manual := true);
      var rest := RemoveAt(q, i);
      RowAt(q, i);
      RemoveAtRow(q, i, id);
      PrependRow(rest, item, id);
      forall any ensures RowOf([item] + rest, any) == if any == id then Some(item) else RowOf(q, any) {
        RemoveAtRow(q, i, any);
        PrependRow(rest, item, any);
      }
      FewerRowsKeep(q, [item] + rest, s.jobs, s.jobs, s.minted, start);
      CommitFacts(s1.(queue := Some([item] + rest)), io);
    }
  }

  lemma {:induction false} ClearStep(s: State, agent: string, io: Io, start: int)
    requires Inv(s, start)
    ensures var s' := Cleared(s, agent, io).0;
      Inv(s', start) && SameAttempts(Current(s), Current(s')) && forall any :: RowOf(Current(s'), any).Some? <==> RowOf(Current(s), any).Some? && !TakenOut(s, agent, any, io)
  {
    LoadFacts(s, io.readFault);
    var s1 := Loaded(s, io.readFault);
    if s1.queue.Some? {
      var q := s1.queue.value;
      forall any
        ensures RowOf(Without(q, agent), any) == if RowOf(q, any).Some? && RowOf(q, any).value.agent == agent then None else RowOf(q, any)
      {
        WithoutRow(q, agent, any);
      }
      WithoutRow(q, agent, Id(0, 0));
      CommitFacts(s1.(queue := Some(Without(q, agent))), io);
    } else {
      CommitFacts(s1, io);
    }
  }

  lemma {:induction false} NewRowKeeps(q: seq<Item>, item: Item, jobs: map<Key, Job>, minted: nat, start: int)
    requires QueueOk(q, minted, start) && JobsOk(q, jobs, minted, start)
    requires item.id.n == minted + 1 && item.id.stamp >= start && item.attempts == 0
    ensures !Known(item.id, minted, start)
    ensures QueueOk(q + [item], minted + 1, start) && JobsOk(q + [item], jobs, minted + 1, start)
    ensures forall id :: RowOf(q + [item], id) == if id == item.id then Some(item) else RowOf(q, id)
  {
    AppendRow(q, item, item.id);
    forall id ensures RowOf(q + [item], id) == if id == item.id then Some(item) else RowOf(q, id) { AppendRow(q, item, id); }
    forall k | k in jobs ensures JobOk(q + [item], k, jobs[k], minted + 1, start) { assert JobOk(q, k, jobs[k], minted, start); }
  }

  lemma {:induction false} EnqueueStep(s: State, req: Request, known: bool, now: int, io: Io, start: int)
    requires Inv(s, start) && now >= start
    ensures Inv(Enqueued(s, req, known, now, io).0, start) && SameAttempts(Current(s), Current(Enqueued(s, req, known, now, io).0))
    ensures Enqueued(s, req, known, now, io).1.Accepted? ==> !Known(Enqueued(s, req, known, now, io).1.id, s.minted, start)
    ensures forall any ::
      (RowOf(Current(Enqueued(s, req, known, now, io).0), any).Some?
       <==> RowOf(Current(s), any).Some? || Enqueued(s, req, known, now, io).1 == Accepted(any))
  {
    LoadFacts(s, io.readFault);
    var s1 := Loaded(s, io.readFault);
    var item := NewItem(req, Id(now, s1.minted + 1));
    var result := Enqueued(s, req, known, now, io);
    EnqueuedCases(s, req, known, now, io);
    if result.1.Accepted? {
      AddedStep(s1, item, io, start);
    } else {
      assert Current(result.0) == Current(s);
    }
  }

  lemma {:induction false} EnqueuedCases(s: State, req: Request, known: bool, now: int, io: Io)
    ensures var (s', outcome) := Enqueued(s, req, known, now, io);
      var s1 := Loaded(s, io.readFault);
      if outcome.Accepted? then
        var item := NewItem(req, Id(now, s1.minted + 1));
        s1.queue.Some? && outcome == Accepted(item.id) && s' == Committed(Added(s1, item), io)
      else s' == s || s' == s1
  {
  }

  lemma {:induction false} AddedStep(s: State, item: Item, io: Io, start: int)
    requires Inv(s, start) && s.queue.Some? && item.id.n == s.minted + 1 && item.id.stamp >= start && item.attempts == 0
    ensures !Known(item.id, s.minted, start)
    ensures var s' := Committed(Added(s, item), io);
      Inv(s', start) && SameAttempts(Current(s), Current(s')) && forall any :: RowOf(Current(s'), any).Some? <==> RowOf(Current(s), any).Some? || item.id == any
  {
    NewRowKeeps(s.queue.value, item, s.jobs, s.minted, start);
    CommitFacts(Added(s, item), io);
  }

  /** The row of `id` taken out of a queue, if it is there. */
  lemma {:induction false} TakeOut(q: seq<Item>, id: Id, jobs: map<Key, Job>, fewer: map<Key, Job>, minted: nat, start: int)
    requires QueueOk(q, minted, start) && JobsOk(q, jobs, minted, start)
    requires forall k :: k in fewer ==> k in jobs && fewer[k] == jobs[k]
    ensures var r := RemoveAt(q, FirstById(q, id));
      && QueueOk(r, minted, start) && JobsOk(r, fewer, minted, start)
      && forall any :: RowOf(r, any) == if any == id then None else RowOf(q, any)
  {
    var i := FirstById(q, id);
    var r := RemoveAt(q, i);
    if i < |q| { RemoveAtRow(q, i, id); }
    forall any ensures RowOf(r, any) == if any == id then None else RowOf(q, any) {
      if i < |q| { RemoveAtRow(q, i, any); }
    }
    FewerRowsKeep(q, r, jobs, fewer, minted, start);
  }

  lemma {:induction false} AcknowledgeStep(s: State, key: Key, io: Io, start: int)
    requires Inv(s, start)
    ensures var s' := Acknowledged(s, key, io);
      Inv(s', start) && SameAttempts(Current(s), Current(s')) && forall any :: RowOf(Current(s'), any).Some? <==>
        RowOf(Current(s), any).Some? && !(any == key.id && key in s.jobs && !s.jobs[key].acked)
  {
    if key in s.jobs && !s.jobs[key].acked {
      var q := s.queue.value;
      var r := RemoveAt(q, FirstById(q, key.id));
      TakeOut(q, key.id, s.jobs, s.jobs, s.minted, start);
      CommitFacts(s.(queue := Some(r)), io);
      var jobs := s.jobs[key := s.jobs[key].(acked := true)];
      AckedJobsOk(r, s.jobs, key, s.minted, start);
      assert Acknowledged(s, key, io).jobs == jobs && Current(Acknowledged(s, key, io)) == r;
    }
  }

  lemma {:induction false} AckedJobsOk(q: seq<Item>, jobs: map<Key, Job>, key: Key, minted: nat, start: int)
    requires JobsOk(q, jobs, minted, start) && key in jobs && RowOf(q, key.id) == None
    ensures JobsOk(q, jobs[key := jobs[key].(acked := true)], minted, start)
  {
    assert JobOk(q, key, jobs[key], minted, start);
  }

  /** One more attempt on the row a job carries, and the job gone. */
  lemma {:induction false} RetryKeeps(q: seq<Item>, key: Key, jobs: map<Key, Job>, minted: nat, start: int)
    requires QueueOk(q, minted, start) && JobsOk(q, jobs, minted, start)
    requires key in jobs && jobs[key].item.attempts + 1 < MAX_SEND_ATTEMPTS && FirstById(q, key.id) < |q|
    ensures var i := FirstById(q, key.id);
      var item := q[i].(attempts := jobs[key].item.attempts + 1);
      && QueueOk(q[i := item], minted, start) && JobsOk(q[i := item], jobs - {key}, minted, start)
      && forall any :: RowOf(q[i := item], any) == if any == key.id then Some(item) else RowOf(q, any)
  {
    var i := FirstById(q, key.id);
    var item := q[i].(attempts := jobs[key].item.attempts + 1);
    var r := q[i := item];
    UpdateRow(q, i, item, key.id);
    forall any ensures RowOf(r, any) == if any == key.id then Some(item) else RowOf(q, any) { UpdateRow(q, i, item, any); }
    assert JobOk(q, key, jobs[key], minted, start);
    forall k | k in jobs - {key} ensures JobOk(r, k, jobs[k], minted, start) {
      assert JobOk(q, k, jobs[k], minted, start);
      assert k.id != key.id;
    }
  }

  lemma {:induction false} FailureKeeps(q: seq<Item>, key: Key, jobs: map<Key, Job>, minted: nat, start: int)
    requires QueueOk(q, minted, start) && JobsOk(q, jobs, minted, start) && key in jobs
    ensures var attempts := jobs[key].item.attempts + 1;
      var r := AfterFailure(q, key.id, attempts);
      && QueueOk(r, minted, start) && JobsOk(r, jobs - {key}, minted, start)
      && forall any :: RowOf(r, any).Some? <==> RowOf(q, any).Some? && !(any == key.id && attempts >= MAX_SEND_ATTEMPTS)
  {
    if FirstById(q, key.id) == |q| {
      FewerRowsKeep(q, q, jobs, jobs - {key}, minted, start);
    } else if jobs[key].item.attempts + 1 >= MAX_SEND_ATTEMPTS {
      TakeOut(q, key.id, jobs, jobs - {key}, minted, start);
    } else {
      RetryKeeps(q, key, jobs, minted, start);
    }
  }

  lemma {:induction false} FailStep(s: State, key: Key, io: Io, start: int)
    requires Inv(s, start)
    ensures var s' := Failed(s, key, io);
      Inv(s', start) && forall any :: RowOf(Current(s'), any).Some? <==>
        RowOf(Current(s), any).Some?
        && !(any == key.id && key in s.jobs && !s.jobs[key].acked && s.jobs[key].item.attempts + 1 >= MAX_SEND_ATTEMPTS)
  {
    if key in s.jobs && !s.jobs[key].acked {
      FailCommits(s, key, io, start);
      RowsAfterFailure(s.queue.value, key.id, s.jobs[key].item.attempts + 1);
    }
  }

  lemma {:induction false} RowsAfterFailure(q: seq<Item>, id: Id, attempts: int)
    requires Distinct(q)
    ensures forall any :: RowOf(AfterFailure(q, id, attempts), any).Some? <==> RowOf(q, any).Some? && !(any == id && attempts >= MAX_SEND_ATTEMPTS)
  {
    forall any ensures RowOf(AfterFailure(q, id, attempts), any).Some? <==> RowOf(q, any).Some? && !(any == id && attempts >= MAX_SEND_ATTEMPTS) {
      AfterFailureRow(q, id, attempts, any);
    }
  }

  lemma {:induction false} FailCommits(s: State, key: Key, io: Io, start: int)
    requires Inv(s, start) && key in s.jobs && !s.jobs[key].acked
    ensures Inv(Failed(s, key, io), start)
    ensures Current(Failed(s, key, io)) == AfterFailure(s.queue.value, key.id, s.jobs[key].item.attempts + 1)
  {
    var r := AfterFailure(s.queue.value, key.id, s.jobs[key].item.attempts + 1);
    JobLeft(s, key, r, io, start);
    FailedIsCommit(s, key, io);
  }

  /** A job is over and the queue with it settled. */
  lemma {:induction false} JobLeft(s: State, key: Key, r: seq<Item>, io: Io, start: int)
    requires Inv(s, start) && key in s.jobs && r == AfterFailure(s.queue.value, key.id, s.jobs[key].item.attempts + 1)
    ensures Inv(AfterCommit(s, r, s.jobs - {key}, io), start) && Current(AfterCommit(s, r, s.jobs - {key}, io)) == r
  {
    assert s.ticking;
    FailureKeepsR(s.queue.value, key, s.jobs, s.minted, start, r);
    CommittedInv(s, r, s.jobs - {key}, io, start);
  }

  lemma {:induction false} FailureKeepsR(q: seq<Item>, key: Key, jobs: map<Key, Job>, minted: nat, start: int, r: seq<Item>)
    requires QueueOk(q, minted, start) && JobsOk(q, jobs, minted, start) && key in jobs && r == AfterFailure(q, key.id, jobs[key].item.attempts + 1)
    ensures QueueOk(r, minted, start) && JobsOk(r, jobs - {key}, minted, start)
  {
    FailureKeepsOk(q, key, jobs, minted, start);
  }

  lemma {:induction false} FailureKeepsOk(q: seq<Item>, key: Key, jobs: map<Key, Job>, minted: nat, start: int)
    requires QueueOk(q, minted, start) && JobsOk(q, jobs, minted, start) && key in jobs
    ensures var r := AfterFailure(q, key.id, jobs[key].item.attempts + 1);
      QueueOk(r, minted, start) && JobsOk(r, jobs - {key}, minted, start)
  {
    FailureKeeps(q, key, jobs, minted, start);
  }

  lemma {:induction false} FailedIsCommit(s: State, key: Key, io: Io)
    requires key in s.jobs && !s.jobs[key].acked && s.queue.Some?
    ensures Failed(s, key, io) == AfterCommit(s, AfterFailure(s.queue.value, key.id, s.jobs[key].item.attempts + 1), s.jobs - {key}, io)
  {
  }

  function AfterCommit(s: State, r: seq<Item>, jobs: map<Key, Job>, io: Io): State {
    Committed(s.(queue := Some(r)), io).(jobs := jobs)
  }

  lemma {:induction false} CommittedInv(s: State, r: seq<Item>, jobs: map<Key, Job>, io: Io, start: int)
    requires QueueOk(r, s.minted, start) && JobsOk(r, jobs, s.minted, start) && (!s.ticking ==> jobs == map[])
    ensures Inv(AfterCommit(s, r, jobs, io), start) && Current(AfterCommit(s, r, jobs, io)) == r
  {
    CommitFacts(s.(queue := Some(r)), io);
  }

  // ---------------------------------------------------------------- the drain

  /** During a drain at `now`: every job is one this very drain claimed. */
  ghost predicate Draining(s: State, now: int) {
    forall k :: k in s.jobs ==> k.agent in s.lastFlush && s.lastFlush[k.agent] == now
  }

  /** A claim for an agent and a row that have none. */
  lemma {:induction false} NewClaimKeeps(q: seq<Item>, jobs: map<Key, Job>, item: Item, minted: nat, start: int)
    requires QueueOk(q, minted, start) && JobsOk(q, jobs, minted, start) && RowOf(q, item.id) == Some(item)
    requires forall k :: k in jobs ==> k.agent != item.agent
    ensures JobsOk(q, jobs[Key(item.agent, item.id) := Job(item, false)], minted, start)
  {
    forall k | k in jobs ensures k.id != item.id { assert JobOk(q, k, jobs[k], minted, start); }
    assert JobOk(q, Key(item.agent, item.id), Job(item, false), minted, start);
  }

  /** One claim: nothing, or the head of the agent's queue, which no job carries yet. */
  lemma {:induction false} ClaimStep(s: State, l: Live, now: int, start: int)
    requires s.queue.Some? && Inv(s, start) && s.ticking && Draining(s, now)
    ensures var s' := Claimed(s, l, now);
      && Inv(s', start) && s'.ticking && Draining(s', now)
      && s' == s.(jobs := s'.jobs, lastFlush := s'.lastFlush)
      && (l.ready && Next(s, l, now).Some? ==>
            var item := Next(s, l, now).value;
            && RowOf(s.queue.value, item.id) == Some(item) && item.agent == l.agent
            && Key(l.agent, item.id) !in s.jobs
            && s' == s.(jobs := s.jobs[Key(l.agent, item.id) := Job(item, false)], lastFlush := s.lastFlush[l.agent := now]))
      && (!(l.ready && Next(s, l, now).Some?) ==> s' == s)
  {
    if l.ready && Next(s, l, now).Some? {
      var q := s.queue.value;
      var i := FirstFor(q, l.agent);
      RowAt(q, i);
      assert l.agent in s.lastFlush ==> s.lastFlush[l.agent] != now;
      NewClaimKeeps(q, s.jobs, q[i], s.minted, start);
    }
  }

  lemma {:induction false} DrainStep(s: State, live: seq<Live>, now: int, start: int)
    requires s.queue.Some? && Inv(s, start) && s.ticking && Draining(s, now)
    ensures var s' := Drained(s, live, now);
      && Inv(s', start) && s'.ticking && Draining(s', now)
      && s' == s.(jobs := s'.jobs, lastFlush := s'.lastFlush)
      && (forall k :: k in s.jobs ==> k in s'.jobs && s'.jobs[k] == s.jobs[k])
      && (forall k :: k in s'.jobs && k !in s.jobs ==> RowOf(s.queue.value, k.id) == Some(s'.jobs[k].item) && !s'.jobs[k].acked)
  {
    if live != [] {
      DrainStep(s, live[..|live| - 1], now, start);
      ClaimStep(Drained(s, live[..|live| - 1], now), live[|live| - 1], now, start);
    }
  }

  lemma {:induction false} TickStep(s: State, live: seq<Live>, at: int, fault: bool, start: int)
    requires Inv(s, start)
    ensures var s' := Ticked(s, live, at, fault);
      && Inv(s', start) && Current(s') == Current(s) && s'.minted == s.minted && s'.disk == s.disk
      && (s'.jobs != s.jobs ==> s.jobs == map[])
      && (forall k :: k in s'.jobs && k !in s.jobs ==> RowOf(Current(s), k.id) == Some(s'.jobs[k].item) && !s'.jobs[k].acked)
  {
    if !s.ticking {
      var s0 := s.(ticking := true);
      LoadFacts(s0, fault);
      var s1 := Loaded(s0, fault);
      if View(s1) != [] { DrainStep(s1, live, at, start); }
    }
  }

  lemma {:induction false} SettleStep(s: State, key: Key, start: int)
    requires Inv(s, start)
    ensures Inv(Settled(s, key), start) && Inv(TickEnded(s), start)
    ensures Current(Settled(s, key)) == Current(s) == Current(TickEnded(s))
  {
  }

  // ---------------------------------------------------------------- all runs

  lemma {:induction false} StepKeeps(s: State, e: Event, start: int)
    requires Inv(s, start) && Timely(e, start)
    ensures Inv(Step(s, e), start) && Moves(s, e)
    ensures forall id :: Comes(s, e, id) ==> !Known(id, s.minted, start)
  {
    match e
    case Enqueue(req, known, now, io) => EnqueueStep(s, req, known, now, io, start);
    case Remove(agent, id, io) => RemoveStep(s, agent, id, io, start);
    case Release(agent, id, io) => ReleaseStep(s, agent, id, io, start);
    case Clear(agent, io) => ClearStep(s, agent, io, start);
    case Tick(live, at, fault) => TickStep(s, live, at, fault, start);
    case TickEnd => SettleStep(s, Key("", Id(0, 0)), start);
    case Acknowledge(key, io) => AcknowledgeStep(s, key, io, start);
    case Settle(key) => SettleStep(s, key, start);
    case Fail(key, io) => FailStep(s, key, io, start);
  }

  lemma {:induction false} RunKeeps(s: State, es: seq<Event>, start: int)
    requires Inv(s, start) && ClockOk(es, start)
    ensures Inv(Run(s, es), start)
  {
    if es != [] {
      RunKeeps(s, es[..|es| - 1], start);
      StepKeeps(Run(s, es[..|es| - 1]), es[|es| - 1], start);
    }
  }

  lemma {:induction false} StartedInv(s: State, start: int)
    requires Started(s, start)
    ensures Inv(s, start)
  {
  }

  /**
   Exact accounting, at any point of any run: a row is among those the process works from after a step
   exactly when it was there before and the step is not one of the four that take it out, or the step is
   the enqueue that accepted it under that id; and an accepted id is new.
   */
  lemma {:induction false} RowsAreAccountedFor(s: State, es: seq<Event>, e: Event, start: int, id: Id)
    requires Started(s, start) && ClockOk(es, start) && Timely(e, start)
    ensures var before := Run(s, es);
      && (RowOf(Current(Step(before, e)), id).Some?
          <==> (RowOf(Current(before), id).Some? && !Leaves(before, e, id)) || Comes(before, e, id))
      && (Comes(before, e, id) ==> !Known(id, before.minted, start) && RowOf(Current(before), id) == None)
  {
    StartedInv(s, start);
    RunKeeps(s, es, start);
    StepKeeps(Run(s, es), e, start);
    assert QueueOk(Current(Run(s, es)), Run(s, es).minted, start);
  }

  /** An id that exists and is no longer among the rows. */
  predicate Gone(s: State, id: Id, start: int) {
    Known(id, s.minted, start) && RowOf(Current(s), id) == None
  }

  lemma {:induction false} DrainKeepsMinted(s: State, live: seq<Live>, now: int)
    ensures Drained(s, live, now).minted == s.minted
  {
    if live != [] { DrainKeepsMinted(s, live[..|live| - 1], now); }
  }

  predicate SameJobs(s: State, s': State) {
    s'.jobs == s.jobs && s'.minted == s.minted && s'.lastFlush == s.lastFlush
  }

  lemma {:induction false} RemovedFrame(s: State, agent: string, id: Id, io: Io)
    ensures SameJobs(s, Removed(s, agent, id, io).0)
  {
    var s1 := Loaded(s, io.readFault);
    var i := FirstOf(View(s1), agent, id);
    if i < |View(s1)| { CommitFacts(s1.(queue := Some(RemoveAt(View(s1), i))), io); }
  }

  lemma {:induction false} ReleasedFrame(s: State, agent: string, id: Id, io: Io)
    ensures SameJobs(s, Released(s, agent, id, io).0)
  {
    var s1 := Loaded(s, io.readFault);
    var i := FirstOf(View(s1), agent, id);
    if i < |View(s1)| { CommitFacts(s1.(queue := Some([View(s1)[i].(manual := true)] + RemoveAt(View(s1), i))), io); }
  }

  lemma {:induction false} ClearedFrame(s: State, agent: string, io: Io)
    ensures SameJobs(s, Cleared(s, agent, io).0)
  {
  }

  /** Claims may go, none is made, and what agents were last sent stays. */
  predicate NoNewClaims(s: State, s': State) {
    s'.jobs.Keys <= s.jobs.Keys && s'.minted == s.minted && s'.lastFlush == s.lastFlush
  }

  lemma {:induction false} AcknowledgedFrame(s: State, key: Key, io: Io)
    ensures NoNewClaims(s, Acknowledged(s, key, io))
  {
    if key in s.jobs && !s.jobs[key].acked {
      var s1 := Loaded(s, io.readFault);
      LoadFacts(s, io.readFault);
      CommitFacts(if s1.queue.Some? then s1.(queue := Some(RemoveAt(s1.queue.value, FirstById(s1.queue.value, key.id)))) else s1, io);
    }
  }

  lemma {:induction false} FailedFrame(s: State, key: Key, io: Io)
    ensures NoNewClaims(s, Failed(s, key, io))
  {
    if key in s.jobs && !s.jobs[key].acked {
      var s1 := Loaded(s, io.readFault);
      LoadFacts(s, io.readFault);
      CommitFacts(if s1.queue.Some? then s1.(queue := Some(AfterFailure(s1.queue.value, key.id, s.jobs[key].item.attempts + 1))) else s1, io);
    }
  }

  lemma {:induction false} EnqueuedFrame(s: State, req: Request, known: bool, now: int, io: Io)
    ensures var s' := Enqueued(s, req, known, now, io).0; s'.jobs == s.jobs && s'.lastFlush == s.lastFlush
  {
    EnqueuedCases(s, req, known, now, io);
    var s1 := Loaded(s, io.readFault);
    LoadFacts(s, io.readFault);
    CommitFacts(Added(s1, NewItem(req, Id(now, s1.minted + 1))), io);
  }

  /** Only a tick claims, or changes what an agent was last sent. */
  lemma {:induction false} OnlyTicksClaim(s: State, e: Event)
    requires !e.Tick?
    ensures Step(s, e).jobs.Keys <= s.jobs.Keys && Step(s, e).lastFlush == s.lastFlush
  {
    match e
    case Enqueue(req, known, now, io) => EnqueuedFrame(s, req, known, now, io);
    case Remove(a, id, io) => RemovedFrame(s, a, id, io);
    case Release(a, id, io) => ReleasedFrame(s, a, id, io);
    case Clear(a, io) => ClearedFrame(s, a, io);
    case Acknowledge(key, io) => AcknowledgedFrame(s, key, io);
    case Fail(key, io) => FailedFrame(s, key, io);
    case _ =>
  }

  lemma {:induction false} MintedGrows(s: State, e: Event)
    ensures s.minted <= Step(s, e).minted
  {
    match e
    case Tick(live, at, fault) => DrainKeepsMinted(Loaded(s.(ticking := true), fault), live, at);
    case Enqueue(req, known, now, io) => EnqueuedCases(s, req, known, now, io);
    case Remove(agent, id, io) => OperatorsMintNothing(s, agent, id, io);
    case Release(agent, id, io) => OperatorsMintNothing(s, agent, id, io);
    case Clear(agent, io) => OperatorsMintNothing(s, agent, Id(0, 0), io);
    case Acknowledge(key, io) => EndingsMintNothing(s, key, io);
    case Fail(key, io) => EndingsMintNothing(s, key, io);
    case _ =>
  }

  lemma {:induction false} OperatorsMintNothing(s: State, agent: string, id: Id, io: Io)
    ensures Removed(s, agent, id, io).0.minted == s.minted && Released(s, agent, id, io).0.minted == s.minted
    ensures Cleared(s, agent, io).0.minted == s.minted
  {
    RemovedFrame(s, agent, id, io);
    ReleasedFrame(s, agent, id, io);
    ClearedFrame(s, agent, io);
  }

  lemma {:induction false} EndingsMintNothing(s: State, key: Key, io: Io)
    ensures Acknowledged(s, key, io).minted == s.minted && Failed(s, key, io).minted == s.minted
  {
    AcknowledgedFrame(s, key, io);
    FailedFrame(s, key, io);
  }

  lemma {:induction false} GoneStaysGone(s: State, es: seq<Event>, start: int, id: Id)
    requires Inv(s, start) && ClockOk(es, start) && Gone(s, id, start)
    ensures Inv(Run(s, es), start) && Gone(Run(s, es), id, start)
  {
    if es != [] {
      GoneStaysGone(s, es[..|es| - 1], start, id);
      StepKeeps(Run(s, es[..|es| - 1]), es[|es| - 1], start);
      MintedGrows(Run(s, es[..|es| - 1]), es[|es| - 1]);
    }
  }

  /** The keys a step claims for sending. */
  function NewClaims(s: State, e: Event): set<Key> {
    Step(s, e).jobs.Keys - s.jobs.Keys
  }

  /** Only ticks claim, and what they claim is queued at that moment. */
  lemma {:induction false} ClaimsAreQueued(s: State, e: Event, start: int, k: Key)
    requires Inv(s, start) && k in NewClaims(s, e)
    ensures e.Tick? && RowOf(Current(s), k.id) == Some(Step(s, e).jobs[k].item) && s.jobs == map[]
  {
    if e.Tick? { TickStep(s, e.live, e.at, e.fault, start); } else { OnlyTicksClaim(s, e); }
  }

  /** A row leaves at most once and is never chosen again: no later state has it, so no later step removes or claims it. */
  lemma {:induction false} LeavesOnceAndForGood(s: State, es: seq<Event>, e: Event, fs: seq<Event>, f: Event, start: int, id: Id)
    requires Started(s, start) && ClockOk(es, start) && ClockOk(fs, start) && Timely(e, start)
    requires RowOf(Current(Run(s, es)), id).Some? && RowOf(Current(Step(Run(s, es), e)), id) == None
    ensures var later := Run(Step(Run(s, es), e), fs);
      RowOf(Current(later), id) == None && forall k :: k in NewClaims(later, f) ==> k.id != id
  {
    StartedInv(s, start);
    RunKeeps(s, es, start);
    var before := Run(s, es);
    assert QueueOk(Current(before), before.minted, start);
    StepKeeps(before, e, start);
    MintedGrows(before, e);
    var after := Step(before, e);
    GoneStaysGone(after, fs, start, id);
    forall k | k in NewClaims(Run(after, fs), f) ensures k.id != id { ClaimsAreQueued(Run(after, fs), f, start, k); }
  }

  /** At most one send in flight per row, and even per agent, at every point of every run. */
  lemma {:induction false} OneSendInFlight(s: State, es: seq<Event>, start: int, k: Key, l: Key)
    requires Started(s, start) && ClockOk(es, start)
    requires k in Run(s, es).jobs && l in Run(s, es).jobs && (k.id == l.id || k.agent == l.agent)
    ensures k == l
  {
    StartedInv(s, start);
    RunKeeps(s, es, start);
  }

  // ---------------------------------------------------------------- how often a row is typed

  predicate ClaimedAt(s: State, e: Event, id: Id) {
    exists k :: k in NewClaims(s, e) && k.id == id
  }

  /** How many times a row was handed to its terminal. */
  function Typings(s: State, es: seq<Event>, id: Id): nat {
    if es == [] then 0
    else Typings(s, es[..|es| - 1], id) + if ClaimedAt(Run(s, es[..|es| - 1]), es[|es| - 1], id) then 1 else 0
  }

  /** What is known about the number of typings in a state. */
  ghost predicate Counted(s: State, id: Id, n: nat, start: int) {
    && n <= MAX_SEND_ATTEMPTS
    && (!Known(id, s.minted, start) ==> n == 0)
    && (forall k :: k in s.jobs && k.id == id ==> n <= s.jobs[k].item.attempts + 1)
    && (RowOf(Current(s), id).Some? && (forall k :: k in s.jobs ==> k.id != id) ==> n <= RowOf(Current(s), id).value.attempts)
  }

  lemma {:induction false} QuietStepCounted(s: State, s': State, id: Id, n: nat, start: int)
    requires Counted(s, id, n, start) && s'.jobs == s.jobs && s.minted <= s'.minted
    requires QueueOk(Current(s'), s'.minted, start)
    requires RowOf(Current(s'), id).Some? ==>
      if RowOf(Current(s), id).Some? then RowOf(Current(s'), id).value.attempts == RowOf(Current(s), id).value.attempts
      else !Known(id, s.minted, start)
    ensures Counted(s', id, n, start)
  {
  }

  lemma {:induction false} TickCounted(s: State, live: seq<Live>, at: int, fault: bool, id: Id, n: nat, start: int)
    requires Inv(s, start) && Counted(s, id, n, start)
    ensures var e := Tick(live, at, fault);
      Counted(Step(s, e), id, if ClaimedAt(s, e, id) then n + 1 else n, start)
  {
    var e := Tick(live, at, fault);
    TickStep(s, live, at, fault, start);
    var s' := Step(s, e);
    if ClaimedAt(s, e, id) {
      var k :| k in NewClaims(s, e) && k.id == id;
      ClaimsAreQueued(s, e, start, k);
      assert JobOk(Current(s'), k, s'.jobs[k], s'.minted, start);
      assert n <= RowOf(Current(s), id).value.attempts;
      forall l | l in s'.jobs && l.id == id ensures n + 1 <= s'.jobs[l].item.attempts + 1 { assert l == k; }
    } else {
      assert forall k :: k in s'.jobs && k !in s.jobs ==> k in NewClaims(s, e);
    }
  }

  lemma {:induction false} FailCounted(s: State, key: Key, io: Io, id: Id, n: nat, start: int)
    requires Inv(s, start) && Counted(s, id, n, start)
    ensures Counted(Failed(s, key, io), id, n, start)
  {
    if key in s.jobs && !s.jobs[key].acked {
      var q, attempts := s.queue.value, s.jobs[key].item.attempts + 1;
      FailedIsCommit(s, key, io);
      CommittedInv2(s, AfterFailure(q, key.id, attempts), s.jobs - {key}, io);
      AfterFailureRow(q, key.id, attempts, id);
      assert JobOk(q, key, s.jobs[key], s.minted, start);
      FailureCounted(s, AfterCommit(s, AfterFailure(q, key.id, attempts), s.jobs - {key}, io), key, id, n, start);
    }
  }

  /** A job that failed is counted on its row. */
  lemma {:induction false} FailureCounted(s: State, s': State, key: Key, id: Id, n: nat, start: int)
    requires Counted(s, id, n, start) && key in s.jobs && JobOk(Current(s), key, s.jobs[key], s.minted, start)
    requires s'.jobs == s.jobs - {key} && s'.minted == s.minted
    requires id != key.id ==> RowOf(Current(s'), id) == RowOf(Current(s), id)
    requires id == key.id && RowOf(Current(s'), id).Some? ==> RowOf(Current(s'), id).value.attempts == s.jobs[key].item.attempts + 1
    ensures Counted(s', id, n, start)
  {
    assert forall k :: k in s.jobs && k != key ==> k in s'.jobs && s'.jobs[k] == s.jobs[k];
  }

  lemma {:induction false} CommittedInv2(s: State, r: seq<Item>, jobs: map<Key, Job>, io: Io)
    ensures Current(AfterCommit(s, r, jobs, io)) == r
    ensures AfterCommit(s, r, jobs, io).minted == s.minted && AfterCommit(s, r, jobs, io).jobs == jobs
  {
    CommitFacts(s.(queue := Some(r)), io);
  }

  lemma {:induction false} AfterFailureRow(q: seq<Item>, id: Id, attempts: int, any: Id)
    requires Distinct(q)
    ensures var r := AfterFailure(q, id, attempts);
      RowOf(r, any) == if any != id || RowOf(q, id) == None then RowOf(q, any)
                       else if attempts >= MAX_SEND_ATTEMPTS then None
                       else Some(RowOf(q, id).value.(attempts := attempts))
  {
    var i := FirstById(q, id);
    if i < |q| {
      RemoveAtRow(q, i, any);
      UpdateRow(q, i, q[i].(attempts := attempts), any);
    }
  }

  lemma {:induction false} NoClaimOutsideTicks(s: State, e: Event, id: Id, start: int)
    requires Inv(s, start) && !e.Tick?
    ensures !ClaimedAt(s, e, id)
  {
    forall k | k in NewClaims(s, e) ensures false { ClaimsAreQueued(s, e, start, k); }
  }

  lemma {:induction false} EnqueueCounted(s: State, req: Request, known: bool, now: int, io: Io, id: Id, n: nat, start: int)
    requires Inv(s, start) && now >= start && Counted(s, id, n, start)
    ensures Counted(Enqueued(s, req, known, now, io).0, id, n, start)
  {
    EnqueueStep(s, req, known, now, io, start);
    EnqueuedCases(s, req, known, now, io);
    EnqueuedFrame(s, req, known, now, io);
    QuietStepCounted(s, Enqueued(s, req, known, now, io).0, id, n, start);
  }

  lemma {:induction false} OperatorCounted(s: State, agent: string, rid: Id, io: Io, id: Id, n: nat, start: int)
    requires Inv(s, start) && Counted(s, id, n, start)
    ensures Counted(Removed(s, agent, rid, io).0, id, n, start)
    ensures Counted(Released(s, agent, rid, io).0, id, n, start)
    ensures Counted(Cleared(s, agent, io).0, id, n, start)
  {
    RemoveStep(s, agent, rid, io, start);
    ReleaseStep(s, agent, rid, io, start);
    ClearStep(s, agent, io, start);
    RemovedFrame(s, agent, rid, io);
    ReleasedFrame(s, agent, rid, io);
    ClearedFrame(s, agent, io);
    QuietStepCounted(s, Removed(s, agent, rid, io).0, id, n, start);
    QuietStepCounted(s, Released(s, agent, rid, io).0, id, n, start);
    QuietStepCounted(s, Cleared(s, agent, io).0, id, n, start);
  }

  /** No step but a tick or a failed write changes a count, and those change it by what they did. */
  lemma {:induction false} StepCounted(s: State, e: Event, id: Id, n: nat, start: int)
    requires Inv(s, start) && Timely(e, start) && Counted(s, id, n, start)
    ensures Counted(Step(s, e), id, if ClaimedAt(s, e, id) then n + 1 else n, start)
  {
    if !e.Tick? { NoClaimOutsideTicks(s, e, id, start); }
    match e
    case Tick(live, at, fault) => TickCounted(s, live, at, fault, id, n, start);
    case Fail(key, io) => FailCounted(s, key, io, id, n, start);
    case Enqueue(req, known, now, io) => EnqueueCounted(s, req, known, now, io, id, n, start);
    case Remove(agent, rid, io) => OperatorCounted(s, agent, rid, io, id, n, start);
    case Release(agent, rid, io) => OperatorCounted(s, agent, rid, io, id, n, start);
    case Clear(agent, io) => OperatorCounted(s, agent, id, io, id, n, start);
    case TickEnd => assert Counted(TickEnded(s), id, n, start);
    case Acknowledge(key, io) => AcknowledgeCounted(s, key, io, id, n, start);
    case Settle(key) => SettleCounted(s, key, id, n, start);
  }

  lemma {:induction false} AcknowledgeCounted(s: State, key: Key, io: Io, id: Id, n: nat, start: int)
    requires Inv(s, start) && Counted(s, id, n, start)
    ensures Counted(Acknowledged(s, key, io), id, n, start)
  {
    if key in s.jobs && !s.jobs[key].acked {
      var q := s.queue.value;
      var r := RemoveAt(q, FirstById(q, key.id));
      var jobs := s.jobs[key := s.jobs[key].(acked := true)];
      assert Acknowledged(s, key, io) == AfterCommit(s, r, jobs, io);
      CommittedInv2(s, r, jobs, io);
      TakeOut(q, key.id, s.jobs, s.jobs, s.minted, start);
    }
  }

  lemma {:induction false} SettleCounted(s: State, key: Key, id: Id, n: nat, start: int)
    requires Inv(s, start) && Counted(s, id, n, start)
    ensures Counted(Settled(s, key), id, n, start)
  {
    if key in s.jobs && s.jobs[key].acked {
      assert JobOk(Current(s), key, s.jobs[key], s.minted, start);
      assert n <= s.jobs[key].item.attempts + 1 || key.id != id;
    }
  }

  /** Bounded retries: over any run no row is typed into a terminal more than three times. */
  lemma {:induction false} TypedAtMostThrice(s: State, es: seq<Event>, start: int, id: Id)
    requires Started(s, start) && ClockOk(es, start)
    ensures Inv(Run(s, es), start) && Counted(Run(s, es), id, Typings(s, es, id), start)
    ensures Typings(s, es, id) <= MAX_SEND_ATTEMPTS
  {
    if es == [] {
      StartedInv(s, start);
    } else {
      var n := |es| - 1;
      TypedAtMostThrice(s, es[..n], start, id);
      StepKeeps(Run(s, es[..n]), es[n], start);
      StepCounted(Run(s, es[..n]), es[n], id, Typings(s, es[..n], id), start);
    }
  }

  // ---------------------------------------------------------------- order and spacing

  /** During a drain an agent is either untouched or has its head claimed and its cooldown restarted. */
  lemma {:induction false} DrainAgent(s: State, live: seq<Live>, now: int, start: int, agent: string)
    requires s.queue.Some? && Inv(s, start) && s.ticking && s.jobs == map[]
    ensures var s' := Drained(s, live, now);
      var i := FirstFor(s.queue.value, agent);
      if exists k :: k in s'.jobs && k.agent == agent
      then agent in s'.lastFlush && s'.lastFlush[agent] == now && i < |s.queue.value| && Key(agent, s.queue.value[i].id) in s'.jobs
      else (agent in s.lastFlush <==> agent in s'.lastFlush) && (agent in s.lastFlush ==> s'.lastFlush[agent] == s.lastFlush[agent])
  {
    if live != [] {
      var before, l := live[..|live| - 1], live[|live| - 1];
      DrainAgent(s, before, now, start, agent);
      DrainStep(s, before, now, start);
      ClaimStep(Drained(s, before, now), l, now, start);
    }
  }

  /** The entry would have its agent's head claimed, if nothing were in flight yet. */
  predicate Eligible(s: State, l: Live, now: int, k: Key) {
    l.ready && l.agent == k.agent && Next(s, l, now).Some? && Next(s, l, now).value.id == k.id
  }

  /** One more entry of the drain: it claims what it would have claimed at the start, if that is still unclaimed. */
  lemma {:induction false} ClaimWasEligible(s: State, before: seq<Live>, l: Live, now: int, start: int, k: Key)
    requires s.queue.Some? && Inv(s, start) && s.ticking && s.jobs == map[]
    ensures k in Claimed(Drained(s, before, now), l, now).jobs <==> k in Drained(s, before, now).jobs || Eligible(s, l, now, k)
  {
    DrainStep(s, before, now, start);
    var s' := Drained(s, before, now);
    ClaimStep(s', l, now, start);
    DrainAgent(s, before, now, start, l.agent);
    if exists j :: j in s'.jobs && j.agent == l.agent {
      assert Next(s', l, now) == None;
    } else {
      assert Next(s', l, now) == Next(s, l, now);
    }
  }

  ghost predicate SomeEligible(s: State, live: seq<Live>, now: int, k: Key) {
    exists i :: 0 <= i < |live| && Eligible(s, live[i], now, k)
  }

  lemma {:induction false} OneMoreEligible(s: State, live: seq<Live>, now: int, k: Key)
    requires live != []
    ensures SomeEligible(s, live, now, k) <==> SomeEligible(s, live[..|live| - 1], now, k) || Eligible(s, live[|live| - 1], now, k)
  {
    var before := live[..|live| - 1];
    if SomeEligible(s, before, now, k) {
      var i :| 0 <= i < |before| && Eligible(s, before[i], now, k);
      assert Eligible(s, live[i], now, k);
    }
    if SomeEligible(s, live, now, k) {
      var i :| 0 <= i < |live| && Eligible(s, live[i], now, k);
      if i < |before| { assert Eligible(s, before[i], now, k); }
    }
  }

  /** A tick claims exactly the eligible heads of the ready agents. */
  lemma {:induction false} TickClaimsHeads(s: State, live: seq<Live>, now: int, start: int, k: Key)
    requires s.queue.Some? && Inv(s, start) && s.ticking && s.jobs == map[]
    ensures k in Drained(s, live, now).jobs <==> SomeEligible(s, live, now, k)
  {
    if live != [] {
      TickClaimsHeads(s, live[..|live| - 1], now, start, k);
      ClaimWasEligible(s, live[..|live| - 1], live[|live| - 1], now, start, k);
      OneMoreEligible(s, live, now, k);
    }
  }

  /** The instant of a step, for the steps that have one. */
  predicate NotBefore(e: Event, t: int) {
    e.Tick? ==> e.at >= t
  }

  /** A cooldown that was restarted at `t` or later still is, while no tick goes back in time. */
  ghost predicate FlushedSince(s: State, agent: string, t: int) {
    agent in s.lastFlush && s.lastFlush[agent] >= t
  }

  lemma {:induction false} DrainKeepsFlush(s: State, live: seq<Live>, now: int, agent: string, t: int)
    requires FlushedSince(s, agent, t) && now >= t
    ensures FlushedSince(Drained(s, live, now), agent, t)
    ensures (exists k :: k in Drained(s, live, now).jobs && k !in s.jobs && k.agent == agent) ==> now - t >= FLUSH_COOLDOWN_MS
  {
    if live != [] { DrainKeepsFlush(s, live[..|live| - 1], now, agent, t); }
  }

  lemma {:induction false} FlushStays(s: State, e: Event, agent: string, t: int)
    requires FlushedSince(s, agent, t) && NotBefore(e, t)
    ensures FlushedSince(Step(s, e), agent, t)
  {
    if e.Tick? {
      DrainKeepsFlush(Loaded(s.(ticking := true), e.fault), e.live, e.at, agent, t);
    } else {
      OnlyTicksClaim(s, e);
    }
  }

  lemma {:induction false} FlushStaysForGood(s: State, es: seq<Event>, agent: string, t: int)
    requires FlushedSince(s, agent, t) && forall i :: 0 <= i < |es| ==> NotBefore(es[i], t)
    ensures FlushedSince(Run(s, es), agent, t)
  {
    if es != [] {
      FlushStaysForGood(s, es[..|es| - 1], agent, t);
      FlushStays(Run(s, es[..|es| - 1]), es[|es| - 1], agent, t);
    }
  }

  lemma {:induction false} ClaimRestartsCooldown(s: State, live: seq<Live>, at: int, fault: bool, start: int, k: Key)
    requires Inv(s, start) && k in NewClaims(s, Tick(live, at, fault))
    ensures FlushedSince(Ticked(s, live, at, fault), k.agent, at)
  {
    var s1 := Loaded(s.(ticking := true), fault);
    LoadFacts(s.(ticking := true), fault);
    assert !s.ticking && s1.queue.Some? && s1.jobs == map[];
    DrainStep(s1, live, at, start);
  }

  /** Two claims for one agent are at least a cooldown apart, whatever happens between their ticks. */
  lemma {:induction false} ClaimsAreSpaced(s: State, es: seq<Event>, live: seq<Live>, at: int, fault: bool, fs: seq<Event>,
                                          live': seq<Live>, at': int, fault': bool, start: int, k: Key, l: Key)
    requires Started(s, start) && ClockOk(es, start) && at' >= at
    requires forall i :: 0 <= i < |fs| ==> NotBefore(fs[i], at)
    requires k in NewClaims(Run(s, es), Tick(live, at, fault))
    requires l in NewClaims(Run(Ticked(Run(s, es), live, at, fault), fs), Tick(live', at', fault')) && k.agent == l.agent
    ensures at' - at >= FLUSH_COOLDOWN_MS
  {
    StartedInv(s, start);
    RunKeeps(s, es, start);
    ClaimRestartsCooldown(Run(s, es), live, at, fault, start, k);
    var mid := Run(Ticked(Run(s, es), live, at, fault), fs);
    FlushStaysForGood(Ticked(Run(s, es), live, at, fault), fs, k.agent, at);
    DrainKeepsFlush(Loaded(mid.(ticking := true), fault'), live', at', k.agent, at);
  }

  // ---------------------------------------------------------------- the file

  predicate Persisted(e: Event) {
    match e
    case Enqueue(_, _, _, io) => io.persisted
    case Remove(_, _, io) => io.persisted
    case Release(_, _, io) => io.persisted
    case Clear(_, io) => io.persisted
    case Acknowledge(_, io) => io.persisted
    case Fail(_, io) => io.persisted
    case _ => true
  }

  /** A process restarted now would work from the same rows. */
  ghost predicate Mirrored(s: State) {
    s.queue.Some? ==> Readable(s.disk) == s.queue.value
  }

  lemma {:induction false} CommitMirrors(s: State, io: Io)
    requires io.persisted
    ensures Mirrored(Committed(s, io))
  {
    if s.queue.Some? { SavedIsReadable(s.queue.value); }
  }

  lemma {:induction false} DrainKeepsFile(s: State, live: seq<Live>, now: int)
    ensures Drained(s, live, now).queue == s.queue && Drained(s, live, now).disk == s.disk
  {
    if live != [] { DrainKeepsFile(s, live[..|live| - 1], now); }
  }

  lemma {:induction false} StepMirrors(s: State, e: Event)
    requires Mirrored(s) && Persisted(e)
    ensures Mirrored(Step(s, e))
  {
    match e
    case Tick(live, at, fault) => DrainKeepsFile(Loaded(s.(ticking := true), fault), live, at);
    case Enqueue(req, known, now, io) =>
      EnqueuedCases(s, req, known, now, io);
      CommitMirrors(Added(Loaded(s, io.readFault), NewItem(req, Id(now, Loaded(s, io.readFault).minted + 1))), io);
    case Remove(agent, id, io) =>
      var s1 := Loaded(s, io.readFault);
      CommitMirrors(s1.(queue := Some(RemoveAt(View(s1), FirstOf(View(s1), agent, id)))), io);
    case Release(agent, id, io) =>
      var s1 := Loaded(s, io.readFault);
      var i := FirstOf(View(s1), agent, id);
      if i < |View(s1)| { CommitMirrors(s1.(queue := Some([View(s1)[i].(manual := true)] + RemoveAt(View(s1), i))), io); }
    case Clear(agent, io) =>
      var s1 := Loaded(s, io.readFault);
      CommitMirrors(if s1.queue.Some? then s1.(queue := Some(Without(s1.queue.value, agent))) else s1, io);
    case Acknowledge(key, io) => AcknowledgeMirrors(s, key, io);
    case Fail(key, io) => FailMirrors(s, key, io);
    case _ =>
  }

  lemma {:induction false} AcknowledgeMirrors(s: State, key: Key, io: Io)
    requires Mirrored(s) && io.persisted
    ensures Mirrored(Acknowledged(s, key, io))
  {
    var s1 := Loaded(s, io.readFault);
    CommitMirrors(if s1.queue.Some? then s1.(queue := Some(RemoveAt(s1.queue.value, FirstById(s1.queue.value, key.id)))) else s1, io);
  }

  lemma {:induction false} FailMirrors(s: State, key: Key, io: Io)
    requires Mirrored(s) && io.persisted
    ensures Mirrored(Failed(s, key, io))
  {
    if key in s.jobs && !s.jobs[key].acked {
      var s1 := Loaded(s, io.readFault);
      CommitMirrors(if s1.queue.Some? then s1.(queue := Some(AfterFailure(s1.queue.value, key.id, s.jobs[key].item.attempts + 1))) else s1, io);
    }
  }

  /** Crash safety: if no write fails, then at every point of every run a restart would load the queue as it stands. */
  lemma {:induction false} FileMirrorsMemory(s: State, es: seq<Event>, start: int)
    requires Started(s, start) && forall i :: 0 <= i < |es| ==> Persisted(es[i])
    ensures Mirrored(Run(s, es))
  {
    if es != [] {
      FileMirrorsMemory(s, es[..|es| - 1], start);
      StepMirrors(Run(s, es[..|es| - 1]), es[|es| - 1]);
    }
  }

  /** Neither read of the step gets through. */
  predicate Unreadable(e: Event) {
    match e
    case Enqueue(_, _, _, io) => io.readFault && io.rereadFault
    case Remove(_, _, io) => io.readFault && io.rereadFault
    case Release(_, _, io) => io.readFault && io.rereadFault
    case Clear(_, io) => io.readFault && io.rereadFault
    case Acknowledge(_, io) => io.readFault && io.rereadFault
    case Fail(_, io) => io.readFault && io.rereadFault
    case Tick(_, _, fault) => fault
    case _ => true
  }

  /** A file that could not be read is never written: not by any run of steps whose reads all fail. */
  lemma {:induction false} UnreadableIsNeverOverwritten(s: State, es: seq<Event>, start: int)
    requires Started(s, start) && forall i :: 0 <= i < |es| ==> Unreadable(es[i])
    ensures Run(s, es).disk == s.disk && Run(s, es).queue == None && Run(s, es).jobs == map[]
  {
    if es != [] {
      UnreadableIsNeverOverwritten(s, es[..|es| - 1], start);
      var s0, e := Run(s, es[..|es| - 1]), es[|es| - 1];
      match e
      case Tick(live, at, fault) =>
      case Enqueue(req, known, now, io) => EnqueuedCases(s0, req, known, now, io);
      case _ =>
    }
  }

  /** What the step itself does to the row of `id`; `minted` counts the ids made so far. */
  function OwnEffect(e: Event, minted: nat, id: Id, row: Option<Item>): Option<Item> {
    match e
    case Enqueue(req, _, now, _) => if id == Id(now, minted + 1) then Some(NewItem(req, id)) else row
    case Remove(agent, which, _) => if id == which && row.Some? && row.value.agent == agent then None else row
    case Release(agent, which, _) =>
      if id == which && row.Some? && row.value.agent == agent then Some(row.value.(manual := true)) else row
    case Clear(agent, _) => if row.Some? && row.value.agent == agent then None else row
    case _ => row
  }

  /** Over an unread file only an operator's step can write, and it writes what it just read. */
  lemma {:induction false} WriterHasRead(s: State, e: Event)
    requires s.queue == None && s.jobs == map[] && Step(s, e).disk != s.disk
    ensures e.Enqueue? || e.Remove? || e.Release? || e.Clear?
    ensures !e.io.readFault && e.io.persisted && Loaded(s, e.io.readFault).queue == Some(Readable(s.disk))
  {
    match e
    case Tick(live, at, fault) => DrainKeepsFile(Loaded(s.(ticking := true), fault), live, at);
    case Enqueue(req, known, now, io) => EnqueuedCases(s, req, known, now, io);
    case _ =>
  }

  lemma {:induction false} ReleasedRow(q: seq<Item>, agent: string, which: Id, id: Id)
    requires Distinct(q) && FirstOf(q, agent, which) < |q|
    ensures var i := FirstOf(q, agent, which);
      RowOf([q[i].(manual := true)] + RemoveAt(q, i), id) == if id == which then Some(RowOf(q, id).value.(manual := true)) else RowOf(q, id)
  {
    var i := FirstOf(q, agent, which);
    FirstOfRow(q, agent, which);
    RemoveAtRow(q, i, id);
    RemoveAtRow(q, i, which);
    PrependRow(RemoveAt(q, i), q[i].(manual := true), id);
  }

  lemma {:induction false} WrittenIsCurrent(s: State, s2: State, io: Io)
    requires s2.queue.Some? && io.persisted && s == Committed(s2, io)
    ensures Readable(s.disk) == s2.queue.value
  {
    SavedIsReadable(s2.queue.value);
  }

  /** Row by row, the file a first write leaves is the file it read, but for the step's own effect. */
  lemma {:induction false} FirstWrite(s: State, e: Event, id: Id)
    requires s.queue == None && s.jobs == map[] && Step(s, e).disk != s.disk && Distinct(Readable(s.disk))
    requires e.Enqueue? ==> RowOf(Readable(s.disk), Id(e.now, s.minted + 1)) == None
    ensures RowOf(Readable(Step(s, e).disk), id) == OwnEffect(e, s.minted, id, RowOf(Readable(s.disk), id))
  {
    WriterHasRead(s, e);
    var q := Readable(s.disk);
    match e
    case Enqueue(req, known, now, io) =>
      EnqueuedCases(s, req, known, now, io);
      AppendRow(q, NewItem(req, Id(now, s.minted + 1)), id);
      WrittenIsCurrent(Step(s, e), Added(Loaded(s, io.readFault), NewItem(req, Id(now, s.minted + 1))), io);
    case Remove(agent, which, io) => FirstRemove(s, agent, which, io, id);
    case Release(agent, which, io) => FirstRelease(s, agent, which, io, id);
    case Clear(agent, io) =>
      WithoutRow(q, agent, id);
      WrittenIsCurrent(Step(s, e), Loaded(s, io.readFault).(queue := Some(Without(q, agent))), io);
    case _ =>
  }

  lemma {:induction false} FirstRemove(s: State, agent: string, which: Id, io: Io, id: Id)
    requires s.queue == None && Distinct(Readable(s.disk)) && !io.readFault && io.persisted
    requires Removed(s, agent, which, io).0.disk != s.disk
    ensures RowOf(Readable(Removed(s, agent, which, io).0.disk), id)
      == OwnEffect(Remove(agent, which, io), s.minted, id, RowOf(Readable(s.disk), id))
  {
    var q, s1 := Readable(s.disk), Loaded(s, io.readFault);
    FirstOfRow(q, agent, which);
    var i := FirstOf(q, agent, which);
    RemoveAtRow(q, i, id);
    WrittenIsCurrent(Removed(s, agent, which, io).0, s1.(queue := Some(RemoveAt(q, i))), io);
  }

  lemma {:induction false} FirstRelease(s: State, agent: string, which: Id, io: Io, id: Id)
    requires s.queue == None && Distinct(Readable(s.disk)) && !io.readFault && io.persisted
    requires Released(s, agent, which, io).0.disk != s.disk
    ensures RowOf(Readable(Released(s, agent, which, io).0.disk), id)
      == OwnEffect(Release(agent, which, io), s.minted, id, RowOf(Readable(s.disk), id))
  {
    var q, s1 := Readable(s.disk), Loaded(s, io.readFault);
    FirstOfRow(q, agent, which);
    var i := FirstOf(q, agent, which);
    ReleasedRow(q, agent, which, id);
    WrittenIsCurrent(Released(s, agent, which, io).0, s1.(queue := Some([q[i].(manual := true)] + RemoveAt(q, i))), io);
  }

  /**
   And when, after any such run, a step does write, the new file holds, id by id, the well-formed rows of
   the file as it was, apart from what the step itself does to one agent's rows.
   */
  lemma {:induction false} WritingStartsFromTheFile(s: State, es: seq<Event>, e: Event, start: int, id: Id)
    requires Started(s, start) && ClockOk(es, start) && Timely(e, start)
    requires (forall i :: 0 <= i < |es| ==> Unreadable(es[i])) && Step(Run(s, es), e).disk != s.disk
    ensures e.Enqueue? || e.Remove? || e.Release? || e.Clear?
    ensures RowOf(Readable(Step(Run(s, es), e).disk), id)
      == OwnEffect(e, Run(s, es).minted, id, RowOf(Readable(s.disk), id))
  {
    UnreadableIsNeverOverwritten(s, es, start);
    StartedInv(s, start);
    RunKeeps(s, es, start);
    WriterHasRead(Run(s, es), e);
    FirstWrite(Run(s, es), e, id);
  }
}
