/**
 The breaker beside cards past their cap. An over-cap card trips before the no-progress arm is asked, so
 that arm's counter may miss its first beat: exactly then the budgeted run can come to stand lower.
 */
module BreakerCaps {
  import opened Options
  import opened Breaker
  import opened BreakerRuns

  // ---------------------------------------------------------------- what keeps a run from being overtaken

  /** The same memories but for level, reason and counter; counters do not go below zero. */
  predicate SameSignalsSeen(r: Record, s: Record) {
    r.(level := s.level, reason := s.reason, noProgressBeats := s.noProgressBeats) == s
    && r.noProgressBeats >= 0 && s.noProgressBeats >= 0
  }

  /** The second stands at least as high, and its counter has started if the first's has. */
  predicate KeepsUp(r: Record, s: Record) {
    SameSignalsSeen(r, s) && Rank(r.level) <= Rank(s.level) && (r.noProgressBeats >= 1 ==> s.noProgressBeats >= 1)
  }

  /** A beat that starts the no-progress counter, but for a budget. */
  predicate StartsCounter(i: Input, r: Record, b: Beat) {
    && !EarlierArm(i, r, b.cfg, b.now, b.topUsd == Some(i.agentId), b.topTokens == Some(i.agentId))
    && Burning(i, r, b.now) && Idling(i, r, b.now)
    && r.noProgressBeats == 0
  }

  /** The budget keeps the counter from starting. */
  predicate Misses(j: Input, s: Record, b: Beat) {
    OverCap(j.budget) && StartsCounter(j, s, b)
  }

  lemma {:induction false} SameArms(i: Input, budget: Option<Budget>, r: Record, s: Record, b: Beat)
    requires SameSignalsSeen(r, s)
    ensures var j, usd, tokens := i.(budget := budget), b.topUsd == Some(i.agentId), b.topTokens == Some(i.agentId);
      && (EarlierArm(i, r, b.cfg, b.now, usd, tokens) <==> EarlierArm(j, s, b.cfg, b.now, usd, tokens))
      && (Burning(i, r, b.now) <==> Burning(j, s, b.now))
      && (Idling(i, r, b.now) <==> Idling(j, s, b.now))
  {
    var j := i.(budget := budget);
    assert Burning(i, r, b.now) <==> Burning(j, s, b.now);
    assert TooFast(i, r, b.cfg, b.now) <==> TooFast(j, s, b.cfg, b.now);
  }

  /** Up a rank under a hard trip is never below down a rank without one. */
  lemma {:induction false} HardAboveNone(low: nat, high: nat, ceiling: nat, hardLow: bool, hardHigh: bool, softHigh: bool)
    requires low <= high && low <= 3 && ceiling >= 2 && (hardLow ==> hardHigh)
    ensures NextRank(low, ceiling, hardLow, false) <= NextRank(high, ceiling, hardHigh, softHigh)
  {
  }

  /** One beat, with a budget and without, exactly: the budgeted record keeps up unless its counter misses its start. */
  lemma {:induction false} KeepsUpExactly(i: Input, budget: Option<Budget>, r: Record, s: Record, b: Beat)
    requires i.budget == None && KeepsUp(r, s)
    ensures var j := i.(budget := budget);
      && Rank(Beaten(i, r, b).level) <= Rank(Beaten(j, s, b).level)
      && SameSignalsSeen(Beaten(i, r, b), Beaten(j, s, b))
      && (KeepsUp(Beaten(i, r, b), Beaten(j, s, b)) <==> !Misses(j, s, b))
  {
    var j := i.(budget := budget);
    SameArms(i, budget, r, s, b);
    assert Hard(i, r, b) ==> Hard(j, s, b);
    OneRankPerBeat(i, r, b);
    OneRankPerBeat(j, s, b);
    HardAboveNone(Rank(r.level), Rank(s.level), Rank(b.cfg.Ceiling()), Hard(i, r, b), Hard(j, s, b), Soft(j, s, b));
  }

  // ---------------------------------------------------------------- whole runs

  ghost predicate AllKeepUp(rs: Records, ss: Records) {
    rs.Keys == ss.Keys && forall a :: a in rs ==> KeepsUp(rs[a], ss[a])
  }

  predicate BudgetsAdded(xs: seq<Input>, ys: seq<Input>) {
    |xs| == |ys| && forall k :: 0 <= k < |xs| ==> xs[k] == ys[k].(budget := None)
  }

  predicate BudgetsAddedTo(e: Event, f: Event) {
    if e.Tick? && f.Tick? then e.cfg == f.cfg && e.now == f.now && BudgetsAdded(e.inputs, f.inputs) else e == f
  }

  /** In no position of the beat does the budgeted run's counter miss its start. */
  predicate NoneMisses(ss: Records, ys: seq<Input>, b: Beat) {
    forall k :: 0 <= k < |ys| ==> !Misses(ys[k], Of(Evaluated(ss, ys[..k], b).0, ys[k].agentId), b)
  }

  predicate StepMissesNone(ss: Records, f: Event) {
    f.Tick? && f.cfg.enabled ==> NoneMisses(ss, f.inputs, BeatOf(f.inputs, f.cfg, f.now))
  }

  lemma {:induction false} OneInputMore(ss: Records, ys: seq<Input>, b: Beat)
    requires ys != [] && NoneMisses(ss, ys, b)
    ensures var n := |ys| - 1; NoneMisses(ss, ys[..n], b) && !Misses(ys[n], Of(Evaluated(ss, ys[..n], b).0, ys[n].agentId), b)
  {
    var before := ys[..|ys| - 1];
    forall k | 0 <= k < |before| ensures !Misses(before[k], Of(Evaluated(ss, before[..k], b).0, before[k].agentId), b) {
      assert before[..k] == ys[..k] && before[k] == ys[k];
    }
  }

  lemma {:induction false} OneInputKeepsUp(rs: Records, ss: Records, x: Input, y: Input, b: Beat)
    requires AllKeepUp(rs, ss) && x == y.(budget := None) && !Misses(y, Of(ss, y.agentId), b)
    ensures AllKeepUp(rs[x.agentId := Beaten(x, Of(rs, x.agentId), b)], ss[y.agentId := Beaten(y, Of(ss, y.agentId), b)])
  {
    var r, s := Of(rs, x.agentId), Of(ss, x.agentId);
    assert KeepsUp(r, s) && x.(budget := y.budget) == y;
    KeepsUpExactly(x, y.budget, r, s, b);
  }

  lemma {:induction false} BeatKeepsUp(rs: Records, ss: Records, xs: seq<Input>, ys: seq<Input>, b: Beat)
    requires AllKeepUp(rs, ss) && BudgetsAdded(xs, ys) && NoneMisses(ss, ys, b)
    ensures AllKeepUp(Evaluated(rs, xs, b).0, Evaluated(ss, ys, b).0)
  {
    if xs != [] {
      var n := |xs| - 1;
      OneInputMore(ss, ys, b);
      BeatKeepsUp(rs, ss, xs[..n], ys[..n], b);
      OneInputKeepsUp(Evaluated(rs, xs[..n], b).0, Evaluated(ss, ys[..n], b).0, xs[n], ys[n], b);
    }
  }

  lemma {:induction false} SwitchedOffKeepsUp(rs: Records, ss: Records, xs: seq<Input>, ys: seq<Input>, now: int)
    requires AllKeepUp(rs, ss) && BudgetsAdded(xs, ys)
    ensures AllKeepUp(SwitchedOff(rs, xs, now).0, SwitchedOff(ss, ys, now).0)
  {
    if xs != [] {
      var n := |xs| - 1;
      SwitchedOffKeepsUp(rs, ss, xs[..n], ys[..n], now);
    }
  }

  lemma {:induction false} SameTops(xs: seq<Input>, ys: seq<Input>, amount: Input -> real)
    requires BudgetsAdded(xs, ys) && forall i, budget :: amount(i) == amount(i.(budget := budget))
    ensures TopOf(xs, amount) == TopOf(ys, amount)
  {
    if xs != [] {
      var n := |xs| - 1;
      SameTops(xs[..n], ys[..n], amount);
      assert xs[n] == ys[n].(budget := None);
    }
  }

  lemma {:induction false} TickKeepsUp(rs: Records, ss: Records, xs: seq<Input>, ys: seq<Input>, cfg: Config, now: int)
    requires AllKeepUp(rs, ss) && BudgetsAdded(xs, ys) && (cfg.enabled ==> NoneMisses(ss, ys, BeatOf(ys, cfg, now)))
    ensures AllKeepUp(Ticked(rs, xs, cfg, now).0, Ticked(ss, ys, cfg, now).0)
  {
    SameTops(xs, ys, Usd);
    SameTops(xs, ys, AllTokens);
    assert BeatOf(xs, cfg, now) == BeatOf(ys, cfg, now);
    if cfg.enabled { BeatKeepsUp(rs, ss, xs, ys, BeatOf(xs, cfg, now)); } else { SwitchedOffKeepsUp(rs, ss, xs, ys, now); }
  }

  lemma {:induction false} NotedKeepsUp(r: Record, s: Record, e: Event)
    requires KeepsUp(r, s)
    ensures KeepsUp(Noted(r, e), Noted(s, e))
  {
  }

  lemma {:induction false} StepKeepsUp(rs: Records, ss: Records, e: Event, f: Event)
    requires AllKeepUp(rs, ss) && BudgetsAddedTo(e, f) && StepMissesNone(ss, f)
    ensures AllKeepUp(Step(rs, e), Step(ss, f))
  {
    if e.Tick? {
      TickKeepsUp(rs, ss, e.inputs, f.inputs, e.cfg, e.now);
    } else if !e.Forgotten? {
      NotedKeepsUp(Of(rs, e.agent), Of(ss, e.agent), e);
    }
  }

  /** In no beat of the run. */
  predicate RunMissesNone(ss: Records, fs: seq<Event>) {
    fs == []
    || (RunMissesNone(ss, fs[..|fs| - 1]) && StepMissesNone(Run(ss, fs[..|fs| - 1]), fs[|fs| - 1]))
  }

  predicate RunBudgetsAdded(es: seq<Event>, fs: seq<Event>) {
    |es| == |fs| && forall k :: 0 <= k < |es| ==> BudgetsAddedTo(es[k], fs[k])
  }

  /**
   Budgets of any kind only strengthen the breaker as long as none of them keeps a counter from starting: over
   any run, whether or not cards are past their caps, each agent's level is then at least that of the run
   without budgets.
   */
  lemma {:induction false} BudgetsOnlyStrengthen(rs: Records, ss: Records, es: seq<Event>, fs: seq<Event>)
    requires AllKeepUp(rs, ss) && RunBudgetsAdded(es, fs) && RunMissesNone(ss, fs)
    ensures AllKeepUp(Run(rs, es), Run(ss, fs))
  {
    if es != [] {
      var n := |es| - 1;
      BudgetsOnlyStrengthen(rs, ss, es[..n], fs[..n]);
      StepKeepsUp(Run(rs, es[..n]), Run(ss, fs[..n]), es[n], fs[n]);
    }
  }

  // ---------------------------------------------------------------- and when it does miss

  /** A record after beats of its own. */
  function AfterBeats(r: Record, beats: seq<(Input, Beat)>): Record {
    if beats == [] then r
    else
      var last := beats[|beats| - 1];
      Beaten(last.0, AfterBeats(r, beats[..|beats| - 1]), last.1)
  }

  predicate Unbudgeted(beats: seq<(Input, Beat)>) {
    forall k :: 0 <= k < |beats| ==> beats[k].0.budget == None
  }

  lemma {:induction false} CommonBeatsKeepUp(r: Record, s: Record, beats: seq<(Input, Beat)>)
    requires KeepsUp(r, s) && Unbudgeted(beats)
    ensures KeepsUp(AfterBeats(r, beats), AfterBeats(s, beats))
  {
    if beats != [] {
      var n := |beats| - 1;
      var i := beats[n].0;
      CommonBeatsKeepUp(r, s, beats[..n]);
      assert i.(budget := None) == i;
      KeepsUpExactly(i, None, AfterBeats(r, beats[..n]), AfterBeats(s, beats[..n]), beats[n].1);
    }
  }

  /** Nothing trips and nothing burns. */
  predicate Rests(i: Input, r: Record, b: Beat) {
    !Hard(i, r, b) && !Soft(i, r, b) && !Burning(i, r, b.now)
  }

  /** One more rest, one rank down; memory and counter stay as they are but for the sample. */
  lemma {:induction false} RestLowers(i: Input, r: Record, b: Beat)
    requires Rests(i, r, b)
    ensures var r' := Beaten(i, r, b);
      r' == r.(level := r'.level, reason := r'.reason, lastSample := r'.lastSample)
      && Rank(r'.level) == Max(Rank(r.level) - 1, 0)
  {
    OneRankPerBeat(i, r, b);
  }

  /** The beat that starts one counter and trips on the other. */
  lemma {:induction false} IdleBeatParts(i: Input, r: Record, s: Record, b: Beat)
    requires SameSignalsSeen(r, s) && i.budget == None && r.noProgressBeats >= 1 && StartsCounter(i, s, b)
    requires r.level == s.level == Healthy
    ensures Beaten(i, r, b).level == Steering && Beaten(i, s, b).level == Healthy
  {
    assert i.(budget := None) == i;
    SameArms(i, None, r, s, b);
    OneRankPerBeat(i, r, b);
    OneRankPerBeat(i, s, b);
  }

  /**
   Once the counter has missed its start, rest enough and then one idle burning beat leave the budgeted run
   lower: for every three resting beats and every such beat after them.
   */
  lemma {:induction false} MissedStartShows(r: Record, s: Record, rests: seq<(Input, Beat)>, idle: (Input, Beat))
    requires SameSignalsSeen(r, s) && r.noProgressBeats >= 1 && s.noProgressBeats == 0 && |rests| == 3
    requires forall k :: 0 <= k < 3 ==> Rests(rests[k].0, AfterBeats(r, rests[..k]), rests[k].1)
    requires forall k :: 0 <= k < 3 ==> Rests(rests[k].0, AfterBeats(s, rests[..k]), rests[k].1)
    requires idle.0.budget == None && StartsCounter(idle.0, AfterBeats(s, rests), idle.1)
    ensures AfterBeats(r, rests + [idle]).level == Steering && AfterBeats(s, rests + [idle]).level == Healthy
  {
    RestsHeal(r, rests);
    RestsHeal(s, rests);
    SameRests(r, s, rests);
    assert (rests + [idle])[..3] == rests;
    IdleBeatParts(idle.0, AfterBeats(r, rests), AfterBeats(s, rests), idle.1);
  }

  lemma {:induction false} ThreeBeats(r: Record, beats: seq<(Input, Beat)>)
    requires |beats| == 3
    ensures AfterBeats(r, beats[..0]) == r
    ensures forall k :: 0 <= k < 3 ==> AfterBeats(r, beats[..k + 1]) == Beaten(beats[k].0, AfterBeats(r, beats[..k]), beats[k].1)
    ensures AfterBeats(r, beats) == AfterBeats(r, beats[..3])
  {
    forall k | 0 <= k < 3 ensures beats[..k + 1][..k] == beats[..k] {}
    assert beats[..3] == beats;
  }

  lemma {:induction false} RestsHeal(r: Record, rests: seq<(Input, Beat)>)
    requires |rests| == 3 && forall k :: 0 <= k < 3 ==> Rests(rests[k].0, AfterBeats(r, rests[..k]), rests[k].1)
    ensures AfterBeats(r, rests).level == Healthy && AfterBeats(r, rests).noProgressBeats == r.noProgressBeats
  {
    ThreeBeats(r, rests);
    RestLowers(rests[0].0, AfterBeats(r, rests[..0]), rests[0].1);
    RestLowers(rests[1].0, AfterBeats(r, rests[..1]), rests[1].1);
    RestLowers(rests[2].0, AfterBeats(r, rests[..2]), rests[2].1);
  }

  lemma {:induction false} SameRests(r: Record, s: Record, beats: seq<(Input, Beat)>)
    requires SameSignalsSeen(r, s)
    ensures SameSignalsSeen(AfterBeats(r, beats), AfterBeats(s, beats))
  {
    if beats != [] { SameRests(r, s, beats[..|beats| - 1]); }
  }

  // ---------------------------------------------------------------- such beats there always are

  function LastSeen(r: Record): Sample {
    match r.lastSample
    case Some(last) => last
    case None => Sample(0.0, 0.0, 0.0, 0.0, 0.0, 0)
  }

  /** A beat late enough, with limits nobody has reached. */
  function CalmBeat(r: Record): Beat {
    Beat(Config(true, false, r.repeatCount + 1, r.errorCount + 1, 60000.0, None, None, map[]),
         Max(r.compactingUntil, r.lastDistinctToolAt + PROGRESS_TOOL_WINDOW_MS), None, None)
  }

  function Resting(r: Record): Input {
    Input("", Some(LastSeen(r)), false, None)
  }

  /** One output token more, a minute later. */
  function Burns(r: Record): Input {
    var last := LastSeen(r);
    Input("", Some(last.(output := last.output + 1.0, ts := last.ts + 60000)), false, None)
  }

  lemma {:induction false} RestingRests(r: Record, q: Record)
    requires q.lastSample in {r.lastSample, Some(LastSeen(r))} && q.repeatCount == r.repeatCount && q.errorCount == r.errorCount
    ensures Rests(Resting(r), q, CalmBeat(r)) && Beaten(Resting(r), q, CalmBeat(r)).lastSample == Some(LastSeen(r))
  {
  }

  lemma {:induction false} BurnsStarts(r: Record, q: Record)
    requires q == r.(level := q.level, reason := q.reason, lastSample := Some(LastSeen(r)), noProgressBeats := 0)
    ensures StartsCounter(Burns(r), q, CalmBeat(r))
  {
    var i, b := Burns(r), CalmBeat(r);
    assert Burning(i, q, b.now);
    assert (i.sample.value.ts - q.lastSample.value.ts) as real / 60000.0 == 1.0;
    assert VelocityOf(i, q, b.now) == 1.0;
  }

  lemma {:induction false} RestsOf(r: Record, q: Record, rests: seq<(Input, Beat)>)
    requires q == r.(level := q.level, reason := q.reason, noProgressBeats := q.noProgressBeats)
    requires |rests| == 3 && forall k :: 0 <= k < 3 ==> rests[k] == (Resting(r), CalmBeat(r))
    ensures forall k :: 0 <= k < 3 ==> Rests(rests[k].0, AfterBeats(q, rests[..k]), rests[k].1)
    ensures var q' := AfterBeats(q, rests);
      q' == r.(level := q'.level, reason := q'.reason, lastSample := Some(LastSeen(r)), noProgressBeats := q.noProgressBeats)
  {
    ThreeBeats(q, rests);
    var q0, q1, q2 := AfterBeats(q, rests[..0]), AfterBeats(q, rests[..1]), AfterBeats(q, rests[..2]);
    RestingRests(r, q0);
    RestLowers(Resting(r), q0, CalmBeat(r));
    RestingRests(r, q1);
    RestLowers(Resting(r), q1, CalmBeat(r));
    RestingRests(r, q2);
    RestLowers(Resting(r), q2, CalmBeat(r));
  }

  lemma {:induction false} SomeBeatsShow(r: Record, s: Record) returns (beats: seq<(Input, Beat)>)
    requires SameSignalsSeen(r, s) && r.noProgressBeats >= 1 && s.noProgressBeats == 0
    ensures Unbudgeted(beats) && Rank(AfterBeats(r, beats).level) > Rank(AfterBeats(s, beats).level)
  {
    var one, idle := (Resting(r), CalmBeat(r)), (Burns(r), CalmBeat(r));
    var rests := [one, one, one];
    RestsOf(r, r, rests);
    RestsOf(r, s, rests);
    BurnsStarts(r, AfterBeats(s, rests));
    MissedStartShows(r, s, rests, idle);
    beats := rests + [idle];
  }

  /**
   The budgeted record can be overtaken, exactly: among records with the same signals behind them, beats to
   come that both have in common and no budget in them keep the second at least as high, whatever they are, if
   and only if it stands as high now and its counter has started if the first's has.
   */
  lemma {:induction false} OvertakenExactly(r: Record, s: Record)
    requires SameSignalsSeen(r, s)
    ensures KeepsUp(r, s)
      <==> forall beats :: Unbudgeted(beats) ==> Rank(AfterBeats(r, beats).level) <= Rank(AfterBeats(s, beats).level)
  {
    if KeepsUp(r, s) {
      forall beats | Unbudgeted(beats) ensures Rank(AfterBeats(r, beats).level) <= Rank(AfterBeats(s, beats).level) {
        CommonBeatsKeepUp(r, s, beats);
      }
    } else if Rank(r.level) <= Rank(s.level) {
      var beats := SomeBeatsShow(r, s);
    } else {
      var none: seq<(Input, Beat)> := [];
      assert Unbudgeted(none) && AfterBeats(r, none) == r && AfterBeats(s, none) == s;
    }
  }

  /**
   So a beat beside a card past its cap lets the budgeted run be overtaken, by beats both have in common and
   without further budgets, if and only if the budget kept the counter from starting.
   */
  lemma {:induction false} OverCapWeakensExactly(i: Input, budget: Option<Budget>, r: Record, s: Record, b: Beat)
    requires i.budget == None && KeepsUp(r, s)
    ensures var j := i.(budget := budget);
      Misses(j, s, b)
      <==> exists beats :: Unbudgeted(beats)
             && Rank(AfterBeats(Beaten(i, r, b), beats).level) > Rank(AfterBeats(Beaten(j, s, b), beats).level)
  {
    KeepsUpExactly(i, budget, r, s, b);
    OvertakenExactly(Beaten(i, r, b), Beaten(i.(budget := budget), s, b));
  }
}
