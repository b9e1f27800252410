/**
 The main-owned delivery queue: mutators that write through to one file, and a drain that overlaps
 with them.  Each step below is the synchronous stretch between two awaits.

 A job remembers the attempts counter of the row it carries, which is what holding the row object
 amounts to: only its one job ever changes that counter.
 */
module DeliveryQueue {
  import opened Options
  import opened Text

  /** The clock instant and the process-wide counter a row id is made of. */
  datatype Id = Id(stamp: int, n: nat)

  datatype Item = Item(id: Id, agent: string, text: string, instruction: Option<string>, manual: bool, attempts: int)
  {
    function Typed(): string {
      instruction.GetOr(text)
    }
  }

  const FLUSH_COOLDOWN_MS := 4500
  const MAX_SEND_ATTEMPTS := 3
  const MAX_QUEUED_PER_AGENT := 200
  const COMPACT_VERBS := {"/compact", "/compress"}

  function FirstWord(s: string): string {
    if s == "" || IsSpace(s[0]) then "" else [s[0]] + FirstWord(s[1..])
  }

  predicate IsCompaction(text: string) {
    FirstWord(Trim(text)) in COMPACT_VERBS
  }

  /** A row of the file: a queue entry, or something of the wrong shape that loading drops. */
  datatype Row = Good(item: Item) | Malformed

  /** What the path holds: nothing, text that does not parse, or rows. */
  datatype Disk = Absent | Corrupt | Holds(rows: seq<Row>)

  function GoodRows(rows: seq<Row>): seq<Item> {
    if rows == [] then []
    else if rows[0].Good? then [rows[0].item] + GoodRows(rows[1..])
    else GoodRows(rows[1..])
  }

  /** The queue a process loading this file gets. */
  function Readable(d: Disk): seq<Item> {
    match d
    case Holds(rows) => GoodRows(rows)
    case _ => []
  }

  function AsRows(q: seq<Item>): seq<Row> {
    seq(|q|, i requires 0 <= i < |q| => Good(q[i]))
  }

  datatype Key = Key(agent: string, id: Id)

  /** A send in flight; `acked` once the row has been acknowledged and the claim is about to be dropped. */
  datatype Job = Job(item: Item, acked: bool)

  /** What can go wrong around one step: the read, the read of the trailing snapshot, and the write. */
  datatype Io = Io(readFault: bool, rereadFault: bool, persisted: bool)

  datatype State = State(disk: Disk, queue: Option<seq<Item>>, refused: bool, jobs: map<Key, Job>,
                         lastFlush: map<string, int>, ticking: bool, minted: nat)

  function View(s: State): seq<Item> {
    s.queue.GetOr([])
  }

  // ---------------------------------------------------------------- sequence operations

  /** The position of the first row that matches; the length when there is none. */
  function FirstById(q: seq<Item>, id: Id): (i: nat)
    ensures i <= |q|
    ensures i < |q| ==> q[i].id == id
    ensures forall j :: 0 <= j < i ==> q[j].id != id
  {
    if q == [] then 0 else if q[0].id == id then 0 else 1 + FirstById(q[1..], id)
  }

  function FirstOf(q: seq<Item>, agent: string, id: Id): (i: nat)
    ensures i <= |q|
    ensures i < |q| ==> q[i].id == id && q[i].agent == agent
    ensures forall j :: 0 <= j < i ==> !(q[j].id == id && q[j].agent == agent)
  {
    if q == [] then 0 else if q[0].id == id && q[0].agent == agent then 0 else 1 + FirstOf(q[1..], agent, id)
  }

  function FirstFor(q: seq<Item>, agent: string): (i: nat)
    ensures i <= |q|
    ensures i < |q| ==> q[i].agent == agent
    ensures forall j :: 0 <= j < i ==> q[j].agent != agent
  {
    if q == [] then 0 else if q[0].agent == agent then 0 else 1 + FirstFor(q[1..], agent)
  }

  function RemoveAt(q: seq<Item>, i: nat): seq<Item> {
    if i < |q| then q[..i] + q[i + 1..] else q
  }

  function Without(q: seq<Item>, agent: string): seq<Item> {
    if q == [] then []
    else if q[|q| - 1].agent == agent then Without(q[..|q| - 1], agent)
    else Without(q[..|q| - 1], agent) + [q[|q| - 1]]
  }

  function CountFor(q: seq<Item>, agent: string): nat {
    if q == [] then 0 else CountFor(q[..|q| - 1], agent) + if q[|q| - 1].agent == agent then 1 else 0
  }

  predicate CompactionQueued(q: seq<Item>, agent: string) {
    exists i :: 0 <= i < |q| && q[i].agent == agent && IsCompaction(q[i].text)
  }

  // ---------------------------------------------------------------- load, save, commit

  /** Absent and unparseable files load as empty and arm writing; a read fault leaves writing disarmed. */
  function Loaded(s: State, fault: bool): State {
    if s.queue.Some? then s
    else if fault then s.(refused := true)
    else s.(queue := Some(Readable(s.disk)), refused := false)
  }

  function Saved(s: State, persisted: bool): State {
    if s.queue.Some? && persisted then s.(disk := Holds(AsRows(s.queue.value))) else s
  }

  function Committed(s: State, io: Io): State {
    Loaded(Saved(s, io.persisted), io.rereadFault)
  }

  // ---------------------------------------------------------------- mutators

  datatype Outcome = Accepted(id: Id) | AlreadyQueued | Done | Refused(why: Why)

  datatype Why = InvalidAgent | EmptyMessage | UnknownAgent | Unreadable | QueueFull | NotQueued

  datatype Request = Request(agent: string, text: string, instruction: Option<string>)

  /** What is refused before the queue is even looked at. */
  function EarlyRefusal(req: Request, known: bool): Option<Why> {
    if Trim(req.agent) == "" then Some(InvalidAgent)
    else if Trim(req.text) == "" then Some(EmptyMessage)
    else if !known then Some(UnknownAgent)
    else None
  }

  /** What a loaded queue does not take: more than an agent's share, or a second pending compaction. */
  function LateRefusal(s: State, req: Request): Option<Outcome> {
    if s.queue == None then Some(Refused(Unreadable))
    else if CountFor(s.queue.value, Trim(req.agent)) >= MAX_QUEUED_PER_AGENT then Some(Refused(QueueFull))
    else if IsCompaction(Trim(req.text)) && CompactionQueued(s.queue.value, Trim(req.agent)) then Some(AlreadyQueued)
    else None
  }

  function NewItem(req: Request, id: Id): Item {
    Item(id, Trim(req.agent), Trim(req.text), if req.instruction == Some("") then None else req.instruction, false, 0)
  }

  function Added(s: State, item: Item): State {
    s.(queue := Some(View(s) + [item]), minted := s.minted + 1)
  }

  function Enqueued(s: State, req: Request, known: bool, now: int, io: Io): (State, Outcome) {
    if EarlyRefusal(req, known).Some? then (s, Refused(EarlyRefusal(req, known).value))
    else
      var s1 := Loaded(s, io.readFault);
      if LateRefusal(s1, req).Some? then (s1, LateRefusal(s1, req).value)
      else
        var id := Id(now, s1.minted + 1);
        (Committed(Added(s1, NewItem(req, id)), io), Accepted(id))
  }

  function Removed(s: State, agent: string, id: Id, io: Io): (State, Outcome) {
    var s1 := Loaded(s, io.readFault);
    var i := FirstOf(View(s1), agent, id);
    if i == |View(s1)| then (Loaded(s1, io.rereadFault), Refused(NotQueued))
    else (Committed(s1.(queue := Some(RemoveAt(View(s1), i))), io), Done)
  }

  function Released(s: State, agent: string, id: Id, io: Io): (State, Outcome) {
    var s1 := Loaded(s, io.readFault);
    var i := FirstOf(View(s1), agent, id);
    if i == |View(s1)| then (Loaded(s1, io.rereadFault), Refused(NotQueued))
    else (Committed(s1.(queue := Some([View(s1)[i].(manual := true)] + RemoveAt(View(s1), i))), io), Done)
  }

  function Cleared(s: State, agent: string, io: Io): (State, Outcome) {
    var s1 := Loaded(s, io.readFault);
    var s2 := if s1.queue.Some? then s1.(queue := Some(Without(s1.queue.value, agent))) else s1;
    (Committed(s2, io), Done)
  }

  // ---------------------------------------------------------------- the drain

  /** One live terminal; `ready` stands for every gate that is not the queue's own. */
  datatype Live = Live(agent: string, ready: bool, paused: bool)

  /** The head of an agent's queue, if the cooldown has passed and the pause does not hold it. */
  function Next(s: State, l: Live, now: int): Option<Item> {
    var i := FirstFor(View(s), l.agent);
    var last := if l.agent in s.lastFlush then s.lastFlush[l.agent] else 0;
    if now - last < FLUSH_COOLDOWN_MS || i == |View(s)| || (l.paused && !View(s)[i].manual) then None
    else Some(View(s)[i])
  }

  function Claimed(s: State, l: Live, now: int): State {
    if !l.ready then s
    else
      match Next(s, l, now)
      case None => s
      case Some(item) =>
        var key := Key(l.agent, item.id);
        if key in s.jobs then s
        else s.(jobs := s.jobs[key := Job(item, false)], lastFlush := s.lastFlush[l.agent := now])
  }

  function Drained(s: State, live: seq<Live>, now: int): State {
    if live == [] then s else Claimed(Drained(s, live[..|live| - 1], now), live[|live| - 1], now)
  }

  /** A tick starts nothing while the previous one still has sends in flight. */
  function Ticked(s: State, live: seq<Live>, now: int, fault: bool): State {
    if s.ticking then s
    else
      var s1 := Loaded(s.(ticking := true), fault);
      if View(s1) == [] then s1 else Drained(s1, live, now)
  }

  function TickEnded(s: State): State {
    if s.jobs == map[] then s.(ticking := false) else s
  }

  /** The send succeeded: the row leaves the queue, wherever it now stands. */
  function Acknowledged(s: State, key: Key, io: Io): State {
    if key !in s.jobs || s.jobs[key].acked then s
    else
      var s1 := Loaded(s, io.readFault);
      var s2 := if s1.queue.Some? then s1.(queue := Some(RemoveAt(s1.queue.value, FirstById(s1.queue.value, key.id)))) else s1;
      var s3 := Committed(s2, io);
      s3.(jobs := s3.jobs[key := s3.jobs[key].(acked := true)])
  }

  /** The claim of an acknowledged send is dropped. */
  function Settled(s: State, key: Key): State {
    if key in s.jobs && s.jobs[key].acked then s.(jobs := s.jobs - {key}) else s
  }

  /** The write failed: one more attempt, and the row is dropped when it has burned them all. */
  function Failed(s: State, key: Key, io: Io): State {
    if key !in s.jobs || s.jobs[key].acked then s
    else
      var attempts := s.jobs[key].item.attempts + 1;
      var s1 := Loaded(s, io.readFault);
      var s2 := if s1.queue.Some? then s1.(queue := Some(AfterFailure(s1.queue.value, key.id, attempts))) else s1;
      var s3 := Committed(s2, io);
      s3.(jobs := s3.jobs - {key})
  }

  /** The rows after a row's attempts have been counted: dropped at the bound, updated below it, untouched when gone. */
  function AfterFailure(q: seq<Item>, id: Id, attempts: int): seq<Item> {
    var i := FirstById(q, id);
    if i == |q| then q
    else if attempts >= MAX_SEND_ATTEMPTS then RemoveAt(q, i)
    else q[i := q[i].(attempts := attempts)]
  }

  // ---------------------------------------------------------------- steps

  datatype Event =
    | Enqueue(req: Request, known: bool, now: int, io: Io)
    | Remove(agent: string, id: Id, io: Io)
    | Release(agent: string, id: Id, io: Io)
    | Clear(agent: string, io: Io)
    | Tick(live: seq<Live>, at: int, fault: bool)
    | TickEnd
    | Acknowledge(key: Key, io: Io)
    | Settle(key: Key)
    | Fail(key: Key, io: Io)

  function Step(s: State, e: Event): State {
    match e
    case Enqueue(req, known, now, io) => Enqueued(s, req, known, now, io).0
    case Remove(agent, id, io) => Removed(s, agent, id, io).0
    case Release(agent, id, io) => Released(s, agent, id, io).0
    case Clear(agent, io) => Cleared(s, agent, io).0
    case Tick(live, at, fault) => Ticked(s, live, at, fault)
    case TickEnd => TickEnded(s)
    case Acknowledge(key, io) => Acknowledged(s, key, io)
    case Settle(key) => Settled(s, key)
    case Fail(key, io) => Failed(s, key, io)
  }

  // ---------------------------------------------------------------- the service

  class DeliveryService {
    /** The queue file, as it stands. */
    var disk: Disk
    var queue: Option<seq<Item>>
    var queueReadError: bool
    var queueInFlight: map<Key, Job>
    var lastFlushAt: map<string, int>
    var ticking: bool
    var queueSeq: nat

    ghost function Model(): State
      reads this
    {
      State(disk, queue, queueReadError, queueInFlight, lastFlushAt, ticking, queueSeq)
    }

    constructor (disk: Disk)
      ensures Model() == State(disk, None, false, map[], map[], false, 0)
    {
      this.disk := disk;
      queue, queueReadError, queueInFlight, lastFlushAt, ticking, queueSeq := None, false, map[], map[], false, 0;
    }

    method LoadQueue(fault: bool) returns (q: seq<Item>)
      modifies this
      ensures Model() == Loaded(old(Model()), fault)
      ensures q == View(Model())
    {
      if queue.Some? { return queue.value; }
      if fault {
        queueReadError := true;
        return [];
      }
      q := [];
      if disk.Holds? {
        var rows := disk.rows;
        assert rows[0..] == rows;
        for k := 0 to |rows|
          modifies {}
          invariant GoodRows(rows) == q + GoodRows(rows[k..])
        {
          if rows[k].Good? { q := q + [rows[k].item]; }
          assert rows[k..][1..] == rows[k + 1..];
        }
        assert rows[|rows|..] == [] && q + [] == q;
      }
      queue, queueReadError := Some(q), false;
    }

    method SaveQueue(persisted: bool)
      modifies this
      ensures Model() == Saved(old(Model()), persisted)
    {
      if queue == None { return; }
      if persisted { disk := Holds(AsRows(queue.value)); }
    }

    method CommitQueue(io: Io)
      modifies this
      ensures Model() == Committed(old(Model()), io)
    {
      SaveQueue(io.persisted);
      var _ := LoadQueue(io.rereadFault);
    }

    static method Tally(q: seq<Item>, agent: string) returns (count: nat, compacting: bool)
      ensures count == CountFor(q, agent) && compacting == CompactionQueued(q, agent)
    {
      count, compacting := 0, false;
      for k := 0 to |q|
        invariant count == CountFor(q[..k], agent)
        invariant compacting <==> CompactionQueued(q[..k], agent)
      {
        assert q[..k + 1][..k] == q[..k];
        if q[k].agent == agent {
          count := count + 1;
          if IsCompaction(q[k].text) { compacting := true; }
        }
        CompactionGrows(q, k, agent);
      }
      assert q[..|q|] == q;
    }

    static method BuildItem(req: Request, id: Id) returns (item: Item)
      ensures item == NewItem(req, id)
    {
      var instruction := req.instruction;
      if instruction == Some("") { instruction := None; }
      item := Item(id, Trim(req.agent), Trim(req.text), instruction, false, 0);
    }

    method EnqueueMessage(req: Request, known: bool, now: int, io: Io) returns (outcome: Outcome)
      modifies this
      ensures (Model(), outcome) == Enqueued(old(Model()), req, known, now, io)
    {
      var agent, text := Trim(req.agent), Trim(req.text);
      if agent == "" { return Refused(InvalidAgent); }
      if text == "" { return Refused(EmptyMessage); }
      if !known { return Refused(UnknownAgent); }
      var q := LoadQueue(io.readFault);
      if queue == None { return Refused(Unreadable); }
      var count, compacting := Tally(q, agent);
      if count >= MAX_QUEUED_PER_AGENT { return Refused(QueueFull); }
      if IsCompaction(text) && compacting { return AlreadyQueued; }
      queueSeq := queueSeq + 1;
      var id := Id(now, queueSeq);
      var item := BuildItem(req, id);
      queue := Some(q + [item]);
      CommitQueue(io);
      outcome := Accepted(id);
    }

    static method FindOf(q: seq<Item>, agent: string, id: Id) returns (i: nat)
      ensures i == FirstOf(q, agent, id)
    {
      i := 0;
      while i < |q| && !(q[i].id == id && q[i].agent == agent)
        invariant i <= |q|
        invariant FirstOf(q, agent, id) == i + FirstOf(q[i..], agent, id)
      {
        assert q[i..][1..] == q[i + 1..];
        i := i + 1;
      }
    }

    static method SpliceOut(q: seq<Item>, id: Id) returns (r: seq<Item>)
      ensures r == RemoveAt(q, FirstById(q, id))
    {
      var i := FindById(q, id);
      r := if i < |q| then q[..i] + q[i + 1..] else q;
    }

    static method CountFailure(q: seq<Item>, id: Id, attempts: int) returns (r: seq<Item>)
      ensures r == AfterFailure(q, id, attempts)
    {
      var i := FindById(q, id);
      if i == |q| { return q; }
      if attempts >= MAX_SEND_ATTEMPTS {
        r := q[..i] + q[i + 1..];
      } else {
        r := q[i := q[i].(attempts := attempts)];
      }
    }

    static method FindFor(q: seq<Item>, agent: string) returns (i: nat)
      ensures i == FirstFor(q, agent)
    {
      i := 0;
      while i < |q| && q[i].agent != agent
        invariant i <= |q|
        invariant FirstFor(q, agent) == i + FirstFor(q[i..], agent)
      {
        assert q[i..][1..] == q[i + 1..];
        i := i + 1;
      }
    }

    static method FindById(q: seq<Item>, id: Id) returns (i: nat)
      ensures i == FirstById(q, id)
    {
      i := 0;
      while i < |q| && q[i].id != id
        invariant i <= |q|
        invariant FirstById(q, id) == i + FirstById(q[i..], id)
      {
        assert q[i..][1..] == q[i + 1..];
        i := i + 1;
      }
    }

    method RemoveQueued(agent: string, id: Id, io: Io) returns (outcome: Outcome)
      modifies this
      ensures (Model(), outcome) == Removed(old(Model()), agent, id, io)
    {
      var q := LoadQueue(io.readFault);
      var i := FindOf(q, agent, id);
      if i == |q| {
        var _ := LoadQueue(io.rereadFault);
        return Refused(NotQueued);
      }
      queue := Some(q[..i] + q[i + 1..]);
      CommitQueue(io);
      outcome := Done;
    }

    method ReleaseQueued(agent: string, id: Id, io: Io) returns (outcome: Outcome)
      modifies this
      ensures (Model(), outcome) == Released(old(Model()), agent, id, io)
    {
      var q := LoadQueue(io.readFault);
      var i := FindOf(q, agent, id);
      if i == |q| {
        var _ := LoadQueue(io.rereadFault);
        return Refused(NotQueued);
      }
      var item := q[i];
      var rest := q[..i] + q[i + 1..];
      queue := Some([item.(manual := true)] + rest);
      CommitQueue(io);
      outcome := Done;
    }

    static method WithoutAgent(before: seq<Item>, agent: string) returns (q: seq<Item>)
      ensures q == Without(before, agent)
    {
      q := before;
      var k := |q|;
      assert before[..k] == before && q[k..] == [];
      while k > 0
        invariant 0 <= k <= |before| && k <= |q|
        invariant q[..k] == before[..k]
        invariant Without(before, agent) == Without(before[..k], agent) + q[k..]
        decreases k
      {
        k := k - 1;
        OneLess(before, q, k, agent);
        if q[k].agent == agent { q := q[..k] + q[k + 1..]; }
      }
      assert before[..0] == [] && q[0..] == q && [] + q == q;
    }


    method ClearQueued(agent: string, io: Io) returns (outcome: Outcome)
      modifies this
      ensures (Model(), outcome) == Cleared(old(Model()), agent, io)
    {
      var before := LoadQueue(io.readFault);
      var q := WithoutAgent(before, agent);
      if queue.Some? { queue := Some(q); }
      CommitQueue(io);
      outcome := Done;
    }

    /** The synchronous half of the drain: every claim is made before the first await. */
    method DrainQueue(live: seq<Live>, now: int, fault: bool)
      modifies this
      ensures Model() == var s := Loaded(old(Model()), fault); if View(s) == [] then s else Drained(s, live, now)
    {
      var q := LoadQueue(fault);
      if q == [] { return; }
      ghost var start := Model();
      for k := 0 to |live|
        invariant Model() == Drained(start, live[..k], now)
        invariant queue == Some(q)
      {
        assert live[..k + 1][..k] == live[..k];
        var a := live[k];
        if a.ready {
          var last := if a.agent in lastFlushAt then lastFlushAt[a.agent] else 0;
          if now - last >= FLUSH_COOLDOWN_MS {
            var i := FindFor(q, a.agent);
            if i < |q| && !(a.paused && !q[i].manual) {
              var key := Key(a.agent, q[i].id);
              if key !in queueInFlight {
                queueInFlight := queueInFlight[key := Job(q[i], false)];
                lastFlushAt := lastFlushAt[a.agent := now];
              }
            }
          }
        }
      }
      assert live[..|live|] == live;
    }

    method TickOnce(live: seq<Live>, now: int, fault: bool)
      modifies this
      ensures Model() == Ticked(old(Model()), live, now, fault)
    {
      if ticking { return; }
      ticking := true;
      DrainQueue(live, now, fault);
    }

    method EndTick()
      modifies this
      ensures Model() == TickEnded(old(Model()))
    {
      if queueInFlight == map[] { ticking := false; }
    }

    method OnSent(key: Key, io: Io)
      modifies this
      ensures Model() == Acknowledged(old(Model()), key, io)
    {
      if key !in queueInFlight || queueInFlight[key].acked { return; }
      var q := LoadQueue(io.readFault);
      var r := SpliceOut(q, key.id);
      if queue.Some? { queue := Some(r); }
      CommitQueue(io);
      queueInFlight := queueInFlight[key := queueInFlight[key].(acked := true)];
    }

    method OnSettled(key: Key)
      modifies this
      ensures Model() == Settled(old(Model()), key)
    {
      if key in queueInFlight && queueInFlight[key].acked { queueInFlight := queueInFlight - {key}; }
    }

    method OnFailed(key: Key, io: Io)
      modifies this
      ensures Model() == Failed(old(Model()), key, io)
    {
      if key !in queueInFlight || queueInFlight[key].acked { return; }
      var attempts := queueInFlight[key].item.attempts + 1;
      var q := LoadQueue(io.readFault);
      var r := CountFailure(q, key.id, attempts);
      if queue.Some? { queue := Some(r); }
      CommitQueue(io);
      queueInFlight := queueInFlight - {key};
    }
  }

  /** What is left of the queue up to a row, when the row is looked at with what was kept after it. */
  lemma {:induction false} OneLess(before: seq<Item>, q: seq<Item>, k: nat, agent: string)
    requires k < |before| && k < |q| && q[..k + 1] == before[..k + 1]
    ensures q[k] == before[k] && q[..k] == before[..k]
    ensures var r := if q[k].agent == agent then q[..k] + q[k + 1..] else q;
      r[..k] == before[..k] && Without(before[..k + 1], agent) + q[k + 1..] == Without(before[..k], agent) + r[k..]
  {
    assert q[k] == q[..k + 1][k] == before[..k + 1][k];
    assert before[..k + 1][..k] == before[..k] && q[..k + 1][..k] == q[..k];
    if q[k].agent == agent {
      assert (q[..k] + q[k + 1..])[k..] == q[k + 1..];
    } else {
      assert q[k..] == [q[k]] + q[k + 1..];
      assert Without(before[..k + 1], agent) == Without(before[..k], agent) + [q[k]];
    }
  }

  lemma {:induction false} CompactionGrows(q: seq<Item>, k: nat, agent: string)
    requires k < |q|
    ensures CompactionQueued(q[..k + 1], agent)
      <==> CompactionQueued(q[..k], agent) || (q[k].agent == agent && IsCompaction(q[k].text))
  {
    if CompactionQueued(q[..k], agent) {
      var i :| 0 <= i < k && q[..k][i].agent == agent && IsCompaction(q[..k][i].text);
      assert q[..k + 1][i] == q[..k][i];
    }
    if CompactionQueued(q[..k + 1], agent) {
      var i :| 0 <= i < k + 1 && q[..k + 1][i].agent == agent && IsCompaction(q[..k + 1][i].text);
      if i < k { assert q[..k][i] == q[..k + 1][i]; }
    }
    assert q[..k + 1][k] == q[k];
  }
}
