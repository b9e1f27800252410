/**
 The circuit breaker: per-agent trip conditions and the steer, constrain, stop ladder.

 Operator-facing reasons are values of `Reason`; amounts and times are real and integer numbers,
 and the clock is an argument.
 */
module Breaker {
  import opened Options

  datatype Level = Healthy | Steering | Constrained | Stopped

  datatype Action = NoAction | Steer | Constrain | Stop

  const LEVELS := [Healthy, Steering, Constrained, Stopped]

  function Rank(l: Level): (r: nat)
    ensures r < |LEVELS| && LEVELS[r] == l
  {
    match l
    case Healthy => 0
    case Steering => 1
    case Constrained => 2
    case Stopped => 3
  }

  function ActionFor(l: Level): Action {
    match l
    case Healthy => NoAction
    case Steering => Steer
    case Constrained => Constrain
    case Stopped => Stop
  }

  function Min(a: nat, b: nat): nat { if a < b then a else b }

  function Max(a: int, b: int): int { if a < b then b else a }

  /** A cumulative usage snapshot. */
  datatype Sample = Sample(input: real, output: real, cacheRead: real, cacheCreation: real, usd: real, ts: int)

  function TokensOf(s: Option<Sample>): real {
    if s == None then 0.0 else s.value.input + s.value.output + s.value.cacheRead + s.value.cacheCreation
  }

  function BillableTokensOf(s: Option<Sample>): real {
    if s == None then 0.0 else s.value.input + s.value.output
  }

  function UsdOf(s: Option<Sample>): real {
    if s == None then 0.0 else s.value.usd
  }

  /** The card an agent is working on, what it has spent and its cap. */
  datatype Budget = Budget(taskId: string, tokens: real, cap: real)

  datatype Input = Input(agentId: string, sample: Option<Sample>, progressing: bool, budget: Option<Budget>)

  datatype Config = Config(enabled: bool, hardStop: bool, repeatedToolLimit: int, errorStormLimit: int,
                           tokenVelocityPerMin: real, costCapUsd: Option<real>, costCapTokens: Option<real>,
                           agentTokenCaps: map<string, real>)
  {
    function Ceiling(): Level {
      if hardStop then Stopped else Constrained
    }
  }

  datatype Reason =
    | Blank
    | Looping
    | ErrorStorm
    | OverBudget
    | NearBudget
    | TokenLimit
    | CostCap
    | TokenCap
    | Velocity
    | NoProgress
    | Recovering

  datatype Trip = Trip(tripping: bool, reason: Reason, ceiling: Option<Level>)

  const NO_TRIP := Trip(false, Blank, None)

  /** What the breaker remembers about one agent. */
  datatype Record = Record(level: Level, reason: Reason, lastSample: Option<Sample>, repeatKey: Option<string>,
                           repeatCount: int, errorCount: int, compactingUntil: int, lastDistinctToolAt: int,
                           noProgressBeats: int)

  const NEW_RECORD := Record(Healthy, Blank, None, None, 0, 0, 0, 0, 0)

  type Records = map<string, Record>

  function Of(rs: Records, agent: string): Record {
    if agent in rs then rs[agent] else NEW_RECORD
  }

  const COMPACT_GRACE_MS := 300000
  const POST_COMPACT_GRACE_MS := 90000
  const PROGRESS_TOOL_WINDOW_MS := 300000
  const NO_PROGRESS_BEATS := 2
  const BUDGET_STEER_FRACTION := 0.8

  // ---------------------------------------------------------------- the arms

  predicate HasCap(b: Option<Budget>) {
    b.Some? && b.value.cap > 0.0
  }

  predicate OverCap(b: Option<Budget>) {
    HasCap(b) && b.value.tokens > b.value.cap
  }

  /** The advisory band: at least the steering fraction of the cap, and not past it. */
  predicate InBand(b: Option<Budget>) {
    HasCap(b) && b.value.cap * BUDGET_STEER_FRACTION <= b.value.tokens <= b.value.cap
  }

  predicate OverAgentCap(i: Input, cfg: Config) {
    i.agentId in cfg.agentTokenCaps && cfg.agentTokenCaps[i.agentId] > 0.0
    && BillableTokensOf(i.sample) > cfg.agentTokenCaps[i.agentId]
  }

  /** The two samples a velocity can be read from: output grew over a positive span, outside compaction. */
  predicate Burning(i: Input, r: Record, now: int) {
    && i.sample.Some? && r.lastSample.Some? && now >= r.compactingUntil
    && i.sample.value.output > r.lastSample.value.output
    && i.sample.value.ts > r.lastSample.value.ts
  }

  function VelocityOf(i: Input, r: Record, now: int): real
    requires Burning(i, r, now)
  {
    (i.sample.value.output - r.lastSample.value.output)
    / ((i.sample.value.ts - r.lastSample.value.ts) as real / 60000.0)
  }

  predicate TooFast(i: Input, r: Record, cfg: Config, now: int) {
    Burning(i, r, now) && VelocityOf(i, r, now) > cfg.tokenVelocityPerMin
  }

  predicate Idling(i: Input, r: Record, now: int) {
    !i.progressing && !(now - r.lastDistinctToolAt < PROGRESS_TOOL_WINDOW_MS)
  }

  /** The arms that are asked before the no-progress arm and do not concern the card budget. */
  predicate EarlierArm(i: Input, r: Record, cfg: Config, now: int, topUsd: bool, topTokens: bool) {
    || r.repeatCount >= cfg.repeatedToolLimit
    || r.errorCount >= cfg.errorStormLimit
    || OverAgentCap(i, cfg)
    || (topUsd && cfg.costCapUsd.Some?)
    || (topTokens && cfg.costCapTokens.Some?)
    || TooFast(i, r, cfg, now)
  }

  /** The counter of consecutive beats without progress after this beat. */
  function BeatsAfter(i: Input, r: Record, cfg: Config, now: int, topUsd: bool, topTokens: bool): int {
    if EarlierArm(i, r, cfg, now, topUsd, topTokens) || OverCap(i.budget) || !Burning(i, r, now) then r.noProgressBeats
    else if Idling(i, r, now) then r.noProgressBeats + 1
    else 0
  }

  predicate NoProgressArm(i: Input, r: Record, cfg: Config, now: int, topUsd: bool, topTokens: bool) {
    && !EarlierArm(i, r, cfg, now, topUsd, topTokens) && !OverCap(i.budget)
    && Burning(i, r, now) && Idling(i, r, now)
    && r.noProgressBeats + 1 >= NO_PROGRESS_BEATS
  }

  /** A trip with no ceiling of its own. */
  predicate HardTrip(i: Input, r: Record, cfg: Config, now: int, topUsd: bool, topTokens: bool) {
    || EarlierArm(i, r, cfg, now, topUsd, topTokens)
    || OverCap(i.budget)
    || NoProgressArm(i, r, cfg, now, topUsd, topTokens)
  }

  /** Only the advisory band is holding. */
  predicate SoftTrip(i: Input, r: Record, cfg: Config, now: int, topUsd: bool, topTokens: bool) {
    !HardTrip(i, r, cfg, now, topUsd, topTokens) && InBand(i.budget)
  }

  /** Where the ladder goes: one rank up to a ceiling, held at steering by the band, or one rank down. */
  function NextRank(rank: nat, ceiling: nat, hard: bool, soft: bool): nat {
    if hard then Min(rank + 1, ceiling)
    else if soft then Max(rank, Min(Min(rank + 1, ceiling), Rank(Steering)))
    else Max(rank - 1, 0)
  }

  // ---------------------------------------------------------------- one beat

  /** The biggest spender so far: the first agent of the greatest amount above minus one. */
  function TopOf(inputs: seq<Input>, amount: Input -> real): (top: (Option<string>, real, real))
  {
    if inputs == [] then (None, 0.0, -1.0)
    else
      var (who, total, max) := TopOf(inputs[..|inputs| - 1], amount);
      var last := inputs[|inputs| - 1];
      if amount(last) > max then (Some(last.agentId), total + amount(last), amount(last))
      else (who, total + amount(last), max)
  }

  /** The agent blamed for the floor total, if a positive cap is set and the total is past it. */
  function Blamed(inputs: seq<Input>, cap: Option<real>, amount: Input -> real): Option<string> {
    if cap.Some? && cap.value > 0.0 && TopOf(inputs, amount).1 > cap.value then TopOf(inputs, amount).0 else None
  }

  function Usd(i: Input): real { UsdOf(i.sample) }

  function AllTokens(i: Input): real { TokensOf(i.sample) }

  datatype Decision = Decision(agentId: string, level: Level, reason: Reason, ts: int, action: Action, changed: bool)

  datatype Beat = Beat(cfg: Config, now: int, topUsd: Option<string>, topTokens: Option<string>)

  function BeatOf(inputs: seq<Input>, cfg: Config, now: int): Beat {
    Beat(cfg, now, Blamed(inputs, cfg.costCapUsd, Usd), Blamed(inputs, cfg.costCapTokens, AllTokens))
  }

  predicate Hard(i: Input, r: Record, b: Beat) {
    HardTrip(i, r, b.cfg, b.now, b.topUsd == Some(i.agentId), b.topTokens == Some(i.agentId))
  }

  predicate Soft(i: Input, r: Record, b: Beat) {
    SoftTrip(i, r, b.cfg, b.now, b.topUsd == Some(i.agentId), b.topTokens == Some(i.agentId))
  }

  /** The reason an operator reads is that of the first arm that holds. */
  function TripReason(i: Input, r: Record, b: Beat): Reason {
    if r.repeatCount >= b.cfg.repeatedToolLimit then Looping
    else if r.errorCount >= b.cfg.errorStormLimit then ErrorStorm
    else if OverCap(i.budget) then OverBudget
    else if OverAgentCap(i, b.cfg) then TokenLimit
    else if b.topUsd == Some(i.agentId) && b.cfg.costCapUsd.Some? then CostCap
    else if b.topTokens == Some(i.agentId) && b.cfg.costCapTokens.Some? then TokenCap
    else if TooFast(i, r, b.cfg, b.now) then Velocity
    else if Hard(i, r, b) then NoProgress
    else NearBudget
  }

  /** The record after its beat. */
  function Beaten(i: Input, r: Record, b: Beat): Record {
    var level := LEVELS[Min(NextRank(Rank(r.level), Rank(b.cfg.Ceiling()), Hard(i, r, b), Soft(i, r, b)), 3)];
    r.(level := level,
       reason := if Hard(i, r, b) || Soft(i, r, b) then TripReason(i, r, b)
                 else if level != r.level then Recovering else r.reason,
       lastSample := if i.sample.Some? then i.sample else r.lastSample,
       noProgressBeats := BeatsAfter(i, r, b.cfg, b.now, b.topUsd == Some(i.agentId), b.topTokens == Some(i.agentId)))
  }

  function Decided(i: Input, before: Record, after: Record, now: int): Decision {
    Decision(i.agentId, after.level, after.reason, now,
             if Rank(after.level) > Rank(before.level) then ActionFor(after.level) else NoAction,
             after.level != before.level)
  }

  /** All inputs of a beat, in order. */
  function Evaluated(rs: Records, inputs: seq<Input>, b: Beat): (Records, seq<Decision>) {
    if inputs == [] then (rs, [])
    else
      var (before, decisions) := Evaluated(rs, inputs[..|inputs| - 1], b);
      var i := inputs[|inputs| - 1];
      var r := Of(before, i.agentId);
      var r' := Beaten(i, r, b);
      (before[i.agentId := r'], decisions + [Decided(i, r, r', b.now)])
  }

  /** With the breaker off everyone is reported healthy. */
  function SwitchedOff(rs: Records, inputs: seq<Input>, now: int): (Records, seq<Decision>) {
    if inputs == [] then (rs, [])
    else
      var (before, decisions) := SwitchedOff(rs, inputs[..|inputs| - 1], now);
      var i := inputs[|inputs| - 1];
      var r := Of(before, i.agentId);
      var r' := r.(level := Healthy, reason := Blank);
      (before[i.agentId := r'], decisions + [Decided(i, r, r', now)])
  }

  function Ticked(rs: Records, inputs: seq<Input>, cfg: Config, now: int): (Records, seq<Decision>) {
    if !cfg.enabled then SwitchedOff(rs, inputs, now) else Evaluated(rs, inputs, BeatOf(inputs, cfg, now))
  }

  // ---------------------------------------------------------------- the events

  datatype Event =
    | ToolUsed(agent: string, key: string, now: int)
    | Errored(agent: string)
    | CompactStarted(agent: string, now: int)
    | CompactEnded(agent: string, now: int)
    | Forgotten(agent: string)
    | Tick(inputs: seq<Input>, cfg: Config, now: int)

  function Noted(r: Record, e: Event): Record {
    match e
    case ToolUsed(_, key, now) =>
      if r.repeatKey == Some(key) then r.(repeatCount := r.repeatCount + 1)
      else r.(repeatKey := Some(key), repeatCount := 1, errorCount := 0, lastDistinctToolAt := now)
    case Errored(_) => r.(errorCount := r.errorCount + 1)
    case CompactStarted(_, now) => r.(compactingUntil := now + COMPACT_GRACE_MS)
    case CompactEnded(_, now) =>
      if r.compactingUntil > now then r.(compactingUntil := now + POST_COMPACT_GRACE_MS) else r
    case _ => r
  }

  function Step(rs: Records, e: Event): Records {
    match e
    case Forgotten(agent) => rs - {agent}
    case Tick(inputs, cfg, now) => Ticked(rs, inputs, cfg, now).0
    case _ => rs[e.agent := Noted(Of(rs, e.agent), e)]
  }

  // ---------------------------------------------------------------- the object

  class CircuitBreaker {
    var agents: Records

    constructor ()
      ensures agents == map[]
    {
      agents := map[];
    }

    /** The record of an agent, created on first use. */
    method Lookup(agent: string) returns (r: Record)
      modifies this
      ensures r == Of(old(agents), agent)
      ensures agents == old(agents)[agent := r]
    {
      if agent !in agents { agents := agents[agent := NEW_RECORD]; }
      r := agents[agent];
    }

    method Forget(agent: string)
      modifies this
      ensures agents == Step(old(agents), Forgotten(agent))
    {
      agents := agents - {agent};
    }

    method RecordToolUse(agent: string, key: string, now: int)
      modifies this
      ensures agents == Step(old(agents), ToolUsed(agent, key, now))
    {
      var r := Lookup(agent);
      if r.repeatKey == Some(key) {
        r := r.(repeatCount := r.repeatCount + 1);
      } else {
        r := r.(repeatKey := Some(key));
        r := r.(repeatCount := 1);
        r := r.(errorCount := 0);
        r := r.(lastDistinctToolAt := now);
      }
      agents := agents[agent := r];
    }

    method RecordError(agent: string)
      modifies this
      ensures agents == Step(old(agents), Errored(agent))
    {
      var r := Lookup(agent);
      agents := agents[agent := r.(errorCount := r.errorCount + 1)];
    }

    method RecordCompactStart(agent: string, now: int)
      modifies this
      ensures agents == Step(old(agents), CompactStarted(agent, now))
    {
      var r := Lookup(agent);
      agents := agents[agent := r.(compactingUntil := now + COMPACT_GRACE_MS)];
    }

    method RecordCompactEnd(agent: string, now: int)
      modifies this
      ensures agents == Step(old(agents), CompactEnded(agent, now))
    {
      var r := Lookup(agent);
      if r.compactingUntil > now {
        agents := agents[agent := r.(compactingUntil := now + POST_COMPACT_GRACE_MS)];
      }
    }

    /** One pass for the floor total and its biggest contributor. */
    static method FindTop(inputs: seq<Input>, cap: Option<real>, amount: Input -> real) returns (top: Option<string>)
      ensures top == Blamed(inputs, cap, amount)
    {
      top := None;
      if cap.Some? && cap.value > 0.0 {
        var total, max := 0.0, -1.0;
        for k := 0 to |inputs|
          invariant (top, total, max) == TopOf(inputs[..k], amount)
        {
          assert inputs[..k + 1][..k] == inputs[..k];
          total := total + amount(inputs[k]);
          if amount(inputs[k]) > max {
            max := amount(inputs[k]);
            top := Some(inputs[k].agentId);
          }
        }
        assert inputs[..|inputs|] == inputs;
        if total <= cap.value { top := None; }
      }
    }

    /** The trip arms in their order; the only state they touch is the no-progress counter. */
    static method Evaluate(i: Input, r: Record, b: Beat) returns (trip: Trip, beats: int)
      ensures beats == BeatsAfter(i, r, b.cfg, b.now, b.topUsd == Some(i.agentId), b.topTokens == Some(i.agentId))
      ensures trip.tripping <==> Hard(i, r, b) || Soft(i, r, b)
      ensures trip.tripping ==> trip.reason == TripReason(i, r, b)
      ensures trip.ceiling == if Soft(i, r, b) then Some(Steering) else None
    {
      beats := r.noProgressBeats;
      if r.repeatCount >= b.cfg.repeatedToolLimit { return Trip(true, Looping, None), beats; }
      if r.errorCount >= b.cfg.errorStormLimit { return Trip(true, ErrorStorm, None), beats; }
      var softTrip: Option<Trip> := None;
      if i.budget.Some? && i.budget.value.cap > 0.0 && i.budget.value.tokens >= i.budget.value.cap * BUDGET_STEER_FRACTION {
        if i.budget.value.tokens > i.budget.value.cap { return Trip(true, OverBudget, None), beats; }
        softTrip := Some(Trip(true, NearBudget, Some(Steering)));
      }
      if i.agentId in b.cfg.agentTokenCaps {
        var cap := b.cfg.agentTokenCaps[i.agentId];
        if cap > 0.0 && BillableTokensOf(i.sample) > cap { return Trip(true, TokenLimit, None), beats; }
      }
      if b.topUsd == Some(i.agentId) && b.cfg.costCapUsd.Some? { return Trip(true, CostCap, None), beats; }
      if b.topTokens == Some(i.agentId) && b.cfg.costCapTokens.Some? { return Trip(true, TokenCap, None), beats; }
      if i.sample.Some? && r.lastSample.Some? && b.now >= r.compactingUntil {
        var dOut := i.sample.value.output - r.lastSample.value.output;
        var dMin := (i.sample.value.ts - r.lastSample.value.ts) as real / 60000.0;
        if dOut > 0.0 && dMin > 0.0 {
          assert Burning(i, r, b.now);
          if dOut / dMin > b.cfg.tokenVelocityPerMin { return Trip(true, Velocity, None), beats; }
          if !i.progressing && !(b.now - r.lastDistinctToolAt < PROGRESS_TOOL_WINDOW_MS) {
            beats := beats + 1;
            if beats >= NO_PROGRESS_BEATS { return Trip(true, NoProgress, None), beats; }
          } else {
            beats := 0;
          }
        }
      }
      trip := if softTrip.Some? then softTrip.value else NO_TRIP;
    }

    /** The ladder: escalate one rank towards the ceiling, hold under an arm's own ceiling, or recover one. */
    static method Climb(level: Level, trip: Trip, hardStop: bool) returns (target: Level)
      requires trip.ceiling == None || trip.ceiling == Some(Steering)
      ensures target == LEVELS[Min(NextRank(Rank(level), Rank(if hardStop then Stopped else Constrained),
                                            trip.tripping && trip.ceiling == None, trip.tripping && trip.ceiling.Some?), 3)]
    {
      var ceiling := if hardStop then Stopped else Constrained;
      if trip.tripping {
        target := LEVELS[Min(Rank(level) + 1, Rank(ceiling))];
        if trip.ceiling.Some? {
          assert Rank(LEVELS[1]) == 1 && Rank(LEVELS[2]) == 2 && Rank(LEVELS[3]) == 3;
          target := LEVELS[Max(Rank(level), Min(Rank(target), Rank(trip.ceiling.value)))];
        }
      } else {
        target := LEVELS[Max(Rank(level) - 1, 0)];
      }
    }

    method TickOne(i: Input, b: Beat) returns (decision: Decision)
      modifies this
      ensures agents == old(agents)[i.agentId := Beaten(i, Of(old(agents), i.agentId), b)]
      ensures decision == Decided(i, Of(old(agents), i.agentId), agents[i.agentId], b.now)
    {
      var r := Lookup(i.agentId);
      var trip, beats := Evaluate(i, r, b);
      var target := Climb(r.level, trip, b.cfg.hardStop);
      var changed := target != r.level;
      var escalated := Rank(target) > Rank(r.level);
      var reason := if trip.tripping then trip.reason else if changed then Recovering else r.reason;
      var r' := r.(noProgressBeats := beats, level := target, reason := reason);
      if i.sample.Some? { r' := r'.(lastSample := i.sample); }
      agents := agents[i.agentId := r'];
      decision := Decision(i.agentId, target, reason, b.now, if escalated then ActionFor(target) else NoAction, changed);
    }

    method TickAll(inputs: seq<Input>, cfg: Config, now: int) returns (decisions: seq<Decision>)
      modifies this
      ensures (agents, decisions) == Ticked(old(agents), inputs, cfg, now)
    {
      decisions := [];
      if !cfg.enabled {
        for k := 0 to |inputs|
          invariant (agents, decisions) == SwitchedOff(old(agents), inputs[..k], now)
        {
          assert inputs[..k + 1][..k] == inputs[..k];
          ghost var before := agents;
          var r := Lookup(inputs[k].agentId);
          var changed := r.level != Healthy;
          agents := agents[inputs[k].agentId := r.(level := Healthy, reason := Blank)];
          assert agents == before[inputs[k].agentId := r.(level := Healthy, reason := Blank)];
          decisions := decisions + [Decision(inputs[k].agentId, Healthy, Blank, now, NoAction, changed)];
        }
        assert inputs[..|inputs|] == inputs;
        return;
      }
      var topUsd := FindTop(inputs, cfg.costCapUsd, Usd);
      var topTokens := FindTop(inputs, cfg.costCapTokens, AllTokens);
      var b := Beat(cfg, now, topUsd, topTokens);
      for k := 0 to |inputs|
        invariant (agents, decisions) == Evaluated(old(agents), inputs[..k], b)
      {
        assert inputs[..k + 1][..k] == inputs[..k];
        var decision := TickOne(inputs[k], b);
        decisions := decisions + [decision];
      }
      assert inputs[..|inputs|] == inputs;
    }
  }
}
