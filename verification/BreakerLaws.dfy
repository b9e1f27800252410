/** The breaker in numbers: what trips it, which reason is given, where the level goes, and what is remembered of an agent. */
module BreakerLaws {
  import opened Options
  import opened Breaker
  import opened BreakerRuns

  // ---------------------------------------------------------------- what trips

  /** The tokens an agent pays for are input and output; the floor counts those of the cache as well. */
  lemma {:induction false} AmountsInFields(i: Input)
    ensures var s := i.sample;
      && BillableTokensOf(s) == (match s case None => 0.0 case Some(x) => x.input + x.output)
      && AllTokens(i) == (match s case None => 0.0 case Some(x) => x.input + x.output + x.cacheRead + x.cacheCreation)
      && Usd(i) == (match s case None => 0.0 case Some(x) => x.usd)
  {
  }

  /** Its card has a cap and has spent more. */
  predicate PastItsCap(i: Input) {
    match i.budget
    case Some(b) => b.cap > 0.0 && b.tokens > b.cap
    case None => false
  }

  /** It has a cap of its own and its latest sample is past that. */
  predicate PastItsOwnCap(i: Input, cfg: Config) {
    i.agentId in cfg.agentTokenCaps && cfg.agentTokenCaps[i.agentId] > 0.0
    && match i.sample
       case Some(s) => s.input + s.output > cfg.agentTokenCaps[i.agentId]
       case None => 0.0 > cfg.agentTokenCaps[i.agentId]
  }

  /** Two samples, the later one with more output, outside compaction. */
  predicate OutputGrew(i: Input, r: Record, now: int) {
    match (i.sample, r.lastSample)
    case (Some(s), Some(p)) => now >= r.compactingUntil && s.output > p.output && s.ts > p.ts
    case _ => false
  }

  /** It puts out more tokens a minute than allowed. */
  predicate PastTheSpeed(i: Input, r: Record, cfg: Config, now: int) {
    OutputGrew(i, r, now)
    && (i.sample.value.output - r.lastSample.value.output) * 60000.0
         > cfg.tokenVelocityPerMin * (i.sample.value.ts - r.lastSample.value.ts) as real
  }

  lemma {:induction false} SpeedIsPerMinute(grown: real, ms: int, limit: real)
    requires ms > 0
    ensures grown / (ms as real / 60000.0) > limit <==> grown * 60000.0 > limit * ms as real
  {
    var m := ms as real / 60000.0;
    assert m > 0.0 && m * 60000.0 == ms as real;
    var v := grown / m;
    assert v * m == grown;
    assert grown * 60000.0 == v * ms as real;
    if v > limit {
      assert (v - limit) * ms as real > 0.0;
    } else {
      assert (limit - v) * ms as real >= 0.0;
    }
  }

  lemma {:induction false} TooFastInFields(i: Input, r: Record, cfg: Config, now: int)
    ensures TooFast(i, r, cfg, now) <==> PastTheSpeed(i, r, cfg, now)
    ensures Burning(i, r, now) <==> OutputGrew(i, r, now)
  {
    if OutputGrew(i, r, now) {
      SpeedIsPerMinute(i.sample.value.output - r.lastSample.value.output, i.sample.value.ts - r.lastSample.value.ts, cfg.tokenVelocityPerMin);
    }
  }

  /** It is not making progress: neither told so, nor a new kind of tool call in the last five minutes. */
  predicate Stuck(i: Input, r: Record, now: int) {
    !i.progressing && now - r.lastDistinctToolAt >= 300000
  }

  /** The trips in the order they are looked for. */
  function TripsInOrder(i: Input, r: Record, b: Beat): seq<(bool, Reason)> {
    [ (r.repeatCount >= b.cfg.repeatedToolLimit, Looping),
      (r.errorCount >= b.cfg.errorStormLimit, ErrorStorm),
      (PastItsCap(i), OverBudget),
      (PastItsOwnCap(i, b.cfg), TokenLimit),
      (b.topUsd == Some(i.agentId) && b.cfg.costCapUsd.Some?, CostCap),
      (b.topTokens == Some(i.agentId) && b.cfg.costCapTokens.Some?, TokenCap),
      (PastTheSpeed(i, r, b.cfg, b.now), Velocity) ]
  }

  predicate IsFirstTrip(trips: seq<(bool, Reason)>, k: nat) {
    k < |trips| && trips[k].0 && forall j :: 0 <= j < k ==> !trips[j].0
  }

  predicate NoneTrips(trips: seq<(bool, Reason)>) {
    forall j :: 0 <= j < |trips| ==> !trips[j].0
  }

  /**
   An agent trips hard on the first of seven grounds that holds, and for that reason; with none of them, on a
   second beat in a row in which its output grew while it was stuck; and only softly on a card at eighty per cent of its cap.
   */
  lemma {:induction false} TripsInFields(i: Input, r: Record, b: Beat)
    ensures var trips, stuck := TripsInOrder(i, r, b), OutputGrew(i, r, b.now) && Stuck(i, r, b.now);
      && (forall k: nat :: IsFirstTrip(trips, k) ==> Hard(i, r, b) && TripReason(i, r, b) == trips[k].1)
      && (NoneTrips(trips) ==>
            && (Hard(i, r, b) <==> stuck && r.noProgressBeats + 1 >= 2)
            && (Hard(i, r, b) ==> TripReason(i, r, b) == NoProgress)
            && (Soft(i, r, b) <==> !Hard(i, r, b) && NearItsCap(i))
            && (Soft(i, r, b) ==> TripReason(i, r, b) == NearBudget))
    ensures Hard(i, r, b) ==> !Soft(i, r, b)
  {
    var trips := TripsInOrder(i, r, b);
    TooFastInFields(i, r, b.cfg, b.now);
    AmountsInFields(i);
    forall k: nat | IsFirstTrip(trips, k) ensures Hard(i, r, b) && TripReason(i, r, b) == trips[k].1 {
      FirstTripIsTheReason(i, r, b, k);
    }
    if NoneTrips(trips) {
      assert !trips[0].0 && !trips[1].0 && !trips[2].0 && !trips[3].0 && !trips[4].0 && !trips[5].0 && !trips[6].0;
    }
  }

  lemma {:induction false} FirstTripIsTheReason(i: Input, r: Record, b: Beat, k: nat)
    requires IsFirstTrip(TripsInOrder(i, r, b), k)
    ensures Hard(i, r, b) && TripReason(i, r, b) == TripsInOrder(i, r, b)[k].1
  {
    var trips := TripsInOrder(i, r, b);
    TooFastInFields(i, r, b.cfg, b.now);
    AmountsInFields(i);
    assert k > 0 ==> !trips[0].0;
    assert k > 1 ==> !trips[1].0;
    assert k > 2 ==> !trips[2].0;
    assert k > 3 ==> !trips[3].0;
    assert k > 4 ==> !trips[4].0;
    assert k > 5 ==> !trips[5].0;
  }

  predicate NearItsCap(i: Input) {
    match i.budget
    case Some(b) => b.cap > 0.0 && b.cap * 0.8 <= b.tokens <= b.cap
    case None => false
  }

  // ---------------------------------------------------------------- what a beat leaves

  function LevelOfRank(rank: int): Level {
    if rank <= 0 then Healthy else if rank == 1 then Steering else if rank == 2 then Constrained else Stopped
  }

  function RankOf(l: Level): int {
    match l
    case Healthy => 0
    case Steering => 1
    case Constrained => 2
    case Stopped => 3
  }

  /** Where the ladder goes: a hard trip up one, but no further than constrained without the opt-in; the band to steering; else down one. */
  function LevelAfter(i: Input, r: Record, b: Beat): Level {
    var top := if b.cfg.hardStop then 3 else 2;
    if Hard(i, r, b) then LevelOfRank(if RankOf(r.level) + 1 < top then RankOf(r.level) + 1 else top)
    else if Soft(i, r, b) then (if r.level == Healthy then Steering else r.level)
    else LevelOfRank(RankOf(r.level) - 1)
  }

  /** The no-progress counter moves only on beats that get as far as it: up while stuck, and back to nothing otherwise. */
  function CounterAfter(i: Input, r: Record, b: Beat): int {
    if !NoneTrips(TripsInOrder(i, r, b)) || !OutputGrew(i, r, b.now) then r.noProgressBeats
    else if Stuck(i, r, b.now) then r.noProgressBeats + 1
    else 0
  }

  /** The whole record after a beat. */
  lemma {:induction false} BeatInFields(i: Input, r: Record, b: Beat)
    ensures var r' := Beaten(i, r, b);
      && r' == r.(level := r'.level, reason := r'.reason, lastSample := r'.lastSample, noProgressBeats := r'.noProgressBeats)
      && r'.level == LevelAfter(i, r, b)
      && r'.lastSample == (if i.sample.Some? then i.sample else r.lastSample)
      && r'.noProgressBeats == CounterAfter(i, r, b)
      && r'.reason == (if Hard(i, r, b) || Soft(i, r, b) then TripReason(i, r, b) else if r'.level != r.level then Recovering else r.reason)
  {
    OneRankPerBeat(i, r, b);
    TooFastInFields(i, r, b.cfg, b.now);
    AmountsInFields(i);
    CounterInFields(i, r, b);
  }

  lemma {:induction false} CounterInFields(i: Input, r: Record, b: Beat)
    ensures BeatsAfter(i, r, b.cfg, b.now, b.topUsd == Some(i.agentId), b.topTokens == Some(i.agentId)) == CounterAfter(i, r, b)
  {
    var trips := TripsInOrder(i, r, b);
    TooFastInFields(i, r, b.cfg, b.now);
    AmountsInFields(i);
    assert NoneTrips(trips) <==> !trips[0].0 && !trips[1].0 && !trips[2].0 && !trips[3].0 && !trips[4].0 && !trips[5].0 && !trips[6].0;
  }

  /** What a beat reports: an action only when the level rose, the one of the new level. */
  lemma {:induction false} DecisionInFields(i: Input, before: Record, after: Record, now: int)
    ensures var d := Decided(i, before, after, now);
      && d.agentId == i.agentId && d.level == after.level && d.reason == after.reason && d.ts == now
      && (d.changed <==> after.level != before.level)
      && d.action == (
           if RankOf(after.level) <= RankOf(before.level) then NoAction
           else if after.level == Steering then Steer
           else if after.level == Constrained then Constrain
           else Stop)
  {
  }

  /** Switched off, everyone is healthy for no reason, and nothing else is forgotten. */
  lemma {:induction false} SwitchedOffInFields(rs: Records, i: Input, now: int)
    ensures var (rs', ds) := SwitchedOff(rs, [i], now); var r := Of(rs, i.agentId);
      rs' == rs[i.agentId := r.(level := Healthy, reason := Blank)]
      && ds == [Decision(i.agentId, Healthy, Blank, now, NoAction, r.level != Healthy)]
  {
    assert [i][..0] == [];
    assert SwitchedOff(rs, [], now) == (rs, []);
  }

  // ---------------------------------------------------------------- what is remembered

  /** The last tool call of an agent, if it was heard of since it was last forgotten. */
  function LastCall(es: seq<Event>, a: string): Option<string> {
    if es == [] then None
    else
      match es[|es| - 1]
      case ToolUsed(b, key, _) => if a == b then Some(key) else LastCall(es[..|es| - 1], a)
      case Forgotten(b) => if a == b then None else LastCall(es[..|es| - 1], a)
      case _ => LastCall(es[..|es| - 1], a)
  }

  /** How many times in a row it made that call. */
  function InARow(es: seq<Event>, a: string): int {
    if es == [] then 0
    else
      var before := es[..|es| - 1];
      match es[|es| - 1]
      case ToolUsed(b, key, _) => if a != b then InARow(before, a) else if LastCall(before, a) == Some(key) then InARow(before, a) + 1 else 1
      case Forgotten(b) => if a == b then 0 else InARow(before, a)
      case _ => InARow(before, a)
  }

  /** Its errors since it last turned to another call. */
  function ErrorsSince(es: seq<Event>, a: string): int {
    if es == [] then 0
    else
      var before := es[..|es| - 1];
      match es[|es| - 1]
      case ToolUsed(b, key, _) => if a == b && LastCall(before, a) != Some(key) then 0 else ErrorsSince(before, a)
      case Errored(b) => ErrorsSince(before, a) + if a == b then 1 else 0
      case Forgotten(b) => if a == b then 0 else ErrorsSince(before, a)
      case _ => ErrorsSince(before, a)
  }

  /** When it did. */
  function TurnedAt(es: seq<Event>, a: string): int {
    if es == [] then 0
    else
      var before := es[..|es| - 1];
      match es[|es| - 1]
      case ToolUsed(b, key, now) => if a == b && LastCall(before, a) != Some(key) then now else TurnedAt(before, a)
      case Forgotten(b) => if a == b then 0 else TurnedAt(before, a)
      case _ => TurnedAt(before, a)
  }

  /** Until when compaction excuses it: five minutes from its start, a minute and a half from its end. */
  function ExcusedUntil(es: seq<Event>, a: string): int {
    if es == [] then 0
    else
      var before := es[..|es| - 1];
      match es[|es| - 1]
      case CompactStarted(b, now) => if a == b then now + 300000 else ExcusedUntil(before, a)
      case CompactEnded(b, now) => if a == b && ExcusedUntil(before, a) > now then now + 90000 else ExcusedUntil(before, a)
      case Forgotten(b) => if a == b then 0 else ExcusedUntil(before, a)
      case _ => ExcusedUntil(before, a)
  }

  predicate Remembers(r: Record, es: seq<Event>, a: string) {
    && r.repeatKey == LastCall(es, a) && r.repeatCount == InARow(es, a) && r.errorCount == ErrorsSince(es, a)
    && r.lastDistinctToolAt == TurnedAt(es, a) && r.compactingUntil == ExcusedUntil(es, a)
  }

  /** A beat touches none of that. */
  predicate SameMemory(r: Record, s: Record) {
    && r.repeatKey == s.repeatKey && r.repeatCount == s.repeatCount && r.errorCount == s.errorCount
    && r.lastDistinctToolAt == s.lastDistinctToolAt && r.compactingUntil == s.compactingUntil
  }

  lemma {:induction false} BeatsKeepMemory(rs: Records, inputs: seq<Input>, b: Beat, now: int, a: string)
    ensures SameMemory(Of(Evaluated(rs, inputs, b).0, a), Of(rs, a)) && SameMemory(Of(SwitchedOff(rs, inputs, now).0, a), Of(rs, a))
  {
    if inputs != [] { BeatsKeepMemory(rs, inputs[..|inputs| - 1], b, now, a); }
  }

  /** After any run, an agent's record says of its calls, errors and compactions what happened. */
  lemma {:induction false} MemoryIsHistory(es: seq<Event>, a: string)
    ensures Remembers(Of(Run(map[], es), a), es, a)
  {
    if es != [] {
      var before, e := es[..|es| - 1], es[|es| - 1];
      MemoryIsHistory(before, a);
      match e
      case Tick(inputs, cfg, now) => BeatsKeepMemory(Run(map[], before), inputs, BeatOf(inputs, cfg, now), now, a);
      case _ =>
    }
  }
}
