/**
 What the breaker promises over whole runs: the advisory budget band only ever strengthens it, the
 band alone never gets past steering, and nothing is stopped without the hard-stop opt-in.
 */
module BreakerRuns {
  import opened Options
  import opened Breaker

  function Run(rs: Records, es: seq<Event>): Records {
    if es == [] then rs else Step(Run(rs, es[..|es| - 1]), es[|es| - 1])
  }

  // ---------------------------------------------------------------- who is blamed

  function TotalOf(inputs: seq<Input>, amount: Input -> real): real {
    if inputs == [] then 0.0 else TotalOf(inputs[..|inputs| - 1], amount) + amount(inputs[|inputs| - 1])
  }

  lemma {:induction false} TopIsFirstGreatest(inputs: seq<Input>, amount: Input -> real)
    ensures var (who, total, max) := TopOf(inputs, amount);
      && total == TotalOf(inputs, amount)
      && max >= -1.0
      && (forall k :: 0 <= k < |inputs| ==> amount(inputs[k]) <= max)
      && (who == None <==> max == -1.0)
      && (who.Some? ==> exists k :: 0 <= k < |inputs| && inputs[k].agentId == who.value && amount(inputs[k]) == max
                                   && forall j :: 0 <= j < k ==> amount(inputs[j]) < max)
  {
    if inputs != [] {
      var before, last := inputs[..|inputs| - 1], inputs[|inputs| - 1];
      TopIsFirstGreatest(before, amount);
      var (who, _, max) := TopOf(before, amount);
      if amount(last) > max {
        assert forall j :: 0 <= j < |before| ==> inputs[j] == before[j];
        assert inputs[|inputs| - 1].agentId == last.agentId;
      } else if who.Some? {
        var k :| 0 <= k < |before| && before[k].agentId == who.value && amount(before[k]) == max
          && forall j :: 0 <= j < k ==> amount(before[j]) < max;
        assert inputs[k] == before[k];
        assert forall j :: 0 <= j < k ==> inputs[j] == before[j];
      }
    }
  }

  /**
   Someone is blamed exactly when a positive cap is set, the floor total is past it and some amount is
   above minus one; the blamed agent is that of the first greatest amount.
   */
  lemma {:induction false} BlamedIsBiggestSpender(inputs: seq<Input>, cap: Option<real>, amount: Input -> real)
    ensures Blamed(inputs, cap, amount).Some? <==>
      cap.Some? && 0.0 < cap.value < TotalOf(inputs, amount) && exists k :: 0 <= k < |inputs| && amount(inputs[k]) > -1.0
    ensures Blamed(inputs, cap, amount).Some? ==>
      exists k :: 0 <= k < |inputs| && Blamed(inputs, cap, amount) == Some(inputs[k].agentId)
        && (forall j :: 0 <= j < |inputs| ==> amount(inputs[j]) <= amount(inputs[k]))
        && (forall j :: 0 <= j < k ==> amount(inputs[j]) < amount(inputs[k]))
  {
    TopIsFirstGreatest(inputs, amount);
  }

  // ---------------------------------------------------------------- the ladder

  /** The ladder is monotone: more rank, the same hard trip and no less of a band never end up lower. */
  lemma {:induction false} LadderIsMonotone(low: nat, high: nat, ceiling: nat, hard: bool, softLow: bool, softHigh: bool)
    requires low <= high && ceiling >= 1 && (softLow ==> softHigh)
    ensures NextRank(low, ceiling, hard, softLow) <= NextRank(high, ceiling, hard, softHigh)
  {
  }

  lemma {:induction false} RankOfLevel(k: nat)
    requires k < |LEVELS|
    ensures Rank(LEVELS[k]) == k
  {
    assert LEVELS[k] == Healthy || LEVELS[k] == Steering || LEVELS[k] == Constrained || LEVELS[k] == Stopped;
  }

  /** A beat moves an agent at most one rank and never escalates it past the configured ceiling. */
  lemma {:induction false} OneRankPerBeat(i: Input, r: Record, b: Beat)
    ensures var before, after := Rank(r.level), Rank(Beaten(i, r, b).level);
      && before - 1 <= after <= before + 1
      && after == NextRank(before, Rank(b.cfg.Ceiling()), Hard(i, r, b), Soft(i, r, b))
      && (after > before ==> after <= Rank(b.cfg.Ceiling()) && (Hard(i, r, b) || Soft(i, r, b)))
      && (!Hard(i, r, b) && !Soft(i, r, b) ==> after == Max(before - 1, 0))
      && (Soft(i, r, b) ==> after == Max(before, 1))
  {
    RankOfLevel(Min(NextRank(Rank(r.level), Rank(b.cfg.Ceiling()), Hard(i, r, b), Soft(i, r, b)), 3));
  }

  // ---------------------------------------------------------------- two runs

  /** The same signals, neither card past its cap, and the second in its band whenever the first is. */
  predicate SameSignals(i: Input, j: Input) {
    && i.agentId == j.agentId && i.sample == j.sample && i.progressing == j.progressing
    && !OverCap(i.budget) && !OverCap(j.budget)
    && (InBand(i.budget) ==> InBand(j.budget))
  }

  predicate SameInputs(xs: seq<Input>, ys: seq<Input>) {
    |xs| == |ys| && forall k :: 0 <= k < |xs| ==> SameSignals(xs[k], ys[k])
  }

  predicate SameEvent(e: Event, f: Event) {
    if e.Tick? && f.Tick? then e.cfg == f.cfg && e.now == f.now && SameInputs(e.inputs, f.inputs) else e == f
  }

  predicate SameRun(es: seq<Event>, fs: seq<Event>) {
    |es| == |fs| && forall k :: 0 <= k < |es| ==> SameEvent(es[k], fs[k])
  }

  /** Equal memories, except that the second stands at least as high on the ladder. */
  predicate NoWeaker(r: Record, s: Record) {
    r.(level := s.level, reason := s.reason) == s && Rank(r.level) <= Rank(s.level)
  }

  ghost predicate AllNoWeaker(rs: Records, ss: Records) {
    rs.Keys == ss.Keys && forall a :: a in rs ==> NoWeaker(rs[a], ss[a])
  }

  lemma {:induction false} BeatNoWeaker(i: Input, j: Input, r: Record, s: Record, b: Beat)
    requires SameSignals(i, j) && NoWeaker(r, s)
    ensures Hard(i, r, b) <==> Hard(j, s, b)
    ensures Soft(i, r, b) ==> Soft(j, s, b)
    ensures NoWeaker(Beaten(i, r, b), Beaten(j, s, b))
  {
    assert Burning(i, r, b.now) <==> Burning(j, s, b.now);
    assert TooFast(i, r, b.cfg, b.now) <==> TooFast(j, s, b.cfg, b.now);
    OneRankPerBeat(i, r, b);
    OneRankPerBeat(j, s, b);
    LadderIsMonotone(Rank(r.level), Rank(s.level), Rank(b.cfg.Ceiling()), Hard(i, r, b), Soft(i, r, b), Soft(j, s, b));
  }

  lemma {:induction false} SameTop(xs: seq<Input>, ys: seq<Input>, amount: Input -> real)
    requires SameInputs(xs, ys)
    requires forall i, j :: SameSignals(i, j) ==> amount(i) == amount(j)
    ensures TopOf(xs, amount) == TopOf(ys, amount)
  {
    if xs != [] {
      SameTop(xs[..|xs| - 1], ys[..|ys| - 1], amount);
      assert SameSignals(xs[|xs| - 1], ys[|ys| - 1]);
    }
  }

  /** Both runs agree on who trips hard at every position of a beat, and on the beat after it. */
  /** The last input of a beat, after the others. */
  lemma {:induction false} LastNoWeaker(rs: Records, ss: Records, i: Input, j: Input, b: Beat)
    requires AllNoWeaker(rs, ss) && SameSignals(i, j) && i.agentId == j.agentId
    ensures var r, s := Beaten(i, Of(rs, i.agentId), b), Beaten(j, Of(ss, j.agentId), b);
      Rank(r.level) <= Rank(s.level) && AllNoWeaker(rs[i.agentId := r], ss[j.agentId := s])
  {
    BeatNoWeaker(i, j, Of(rs, i.agentId), Of(ss, j.agentId), b);
  }

  lemma {:induction false} EvaluatedNoWeaker(rs: Records, ss: Records, xs: seq<Input>, ys: seq<Input>, b: Beat)
    requires AllNoWeaker(rs, ss) && SameInputs(xs, ys)
    ensures AllNoWeaker(Evaluated(rs, xs, b).0, Evaluated(ss, ys, b).0)
    ensures |Evaluated(rs, xs, b).1| == |xs| == |Evaluated(ss, ys, b).1|
    ensures forall k :: 0 <= k < |xs| ==> Rank(Evaluated(rs, xs, b).1[k].level) <= Rank(Evaluated(ss, ys, b).1[k].level)
  {
    if xs != [] {
      var n := |xs| - 1;
      EvaluatedNoWeaker(rs, ss, xs[..n], ys[..n], b);
      var r0, s0 := Evaluated(rs, xs[..n], b).0, Evaluated(ss, ys[..n], b).0;
      assert SameSignals(xs[n], ys[n]);
      LastNoWeaker(r0, s0, xs[n], ys[n], b);
    }
  }

  lemma {:induction false} SwitchedOffNoWeaker(rs: Records, ss: Records, xs: seq<Input>, ys: seq<Input>, now: int)
    requires AllNoWeaker(rs, ss) && SameInputs(xs, ys)
    ensures AllNoWeaker(SwitchedOff(rs, xs, now).0, SwitchedOff(ss, ys, now).0)
    ensures |SwitchedOff(rs, xs, now).1| == |xs| == |SwitchedOff(ss, ys, now).1|
    ensures forall k :: 0 <= k < |xs| ==> SwitchedOff(rs, xs, now).1[k].level == SwitchedOff(ss, ys, now).1[k].level == Healthy
  {
    if xs != [] {
      var n := |xs| - 1;
      SwitchedOffNoWeaker(rs, ss, xs[..n], ys[..n], now);
      assert SameSignals(xs[n], ys[n]);
    }
  }

  lemma {:induction false} SameBeat(xs: seq<Input>, ys: seq<Input>, cfg: Config, now: int)
    requires SameInputs(xs, ys)
    ensures BeatOf(xs, cfg, now) == BeatOf(ys, cfg, now)
  {
    SameTop(xs, ys, Usd);
    SameTop(xs, ys, AllTokens);
  }

  lemma {:induction false} StepNoWeaker(rs: Records, ss: Records, e: Event, f: Event)
    requires AllNoWeaker(rs, ss) && SameEvent(e, f)
    ensures AllNoWeaker(Step(rs, e), Step(ss, f))
  {
    match e
    case Tick(xs, cfg, now) =>
      if cfg.enabled {
        SameBeat(xs, f.inputs, cfg, now);
        EvaluatedNoWeaker(rs, ss, xs, f.inputs, BeatOf(xs, cfg, now));
      } else {
        SwitchedOffNoWeaker(rs, ss, xs, f.inputs, now);
      }
    case Forgotten(_) =>
    case _ =>
      assert NoWeaker(Noted(Of(rs, e.agent), e), Noted(Of(ss, e.agent), e));
  }

  /**
   The advisory band only ever strengthens the breaker.  Take two runs from the same kind of start with
   the same configuration and signals, where the second has the first's per-card budgets and more, none
   of them ever past its cap: after every event each agent's level in the second is at least its level in
   the first, and everything else remembered, the no-progress counter included, is the same.
   */
  lemma {:induction false} BandOnlyStrengthens(rs: Records, ss: Records, es: seq<Event>, fs: seq<Event>)
    requires AllNoWeaker(rs, ss) && SameRun(es, fs)
    ensures AllNoWeaker(Run(rs, es), Run(ss, fs))
  {
    if es != [] {
      var n := |es| - 1;
      BandOnlyStrengthens(rs, ss, es[..n], fs[..n]);
      assert SameEvent(es[n], fs[n]);
      StepNoWeaker(Run(rs, es[..n]), Run(ss, fs[..n]), es[n], fs[n]);
    }
  }

  /** At the k-th input of a beat that ends such runs, both trip hard or neither does, and the decisions are ordered. */
  lemma {:induction false} HardTripsAgree(rs: Records, ss: Records, es: seq<Event>, fs: seq<Event>,
                                          xs: seq<Input>, ys: seq<Input>, cfg: Config, now: int, k: nat)
    requires AllNoWeaker(rs, ss) && SameRun(es, fs) && SameInputs(xs, ys) && cfg.enabled && k < |xs|
    ensures BeatOf(xs, cfg, now) == BeatOf(ys, cfg, now)
    ensures var b := BeatOf(xs, cfg, now);
      && (Hard(xs[k], Of(Evaluated(Run(rs, es), xs[..k], b).0, xs[k].agentId), b)
          <==> Hard(ys[k], Of(Evaluated(Run(ss, fs), ys[..k], b).0, ys[k].agentId), b))
      && |Ticked(Run(rs, es), xs, cfg, now).1| == |Ticked(Run(ss, fs), ys, cfg, now).1| == |xs|
      && Rank(Ticked(Run(rs, es), xs, cfg, now).1[k].level) <= Rank(Ticked(Run(ss, fs), ys, cfg, now).1[k].level)
  {
    BandOnlyStrengthens(rs, ss, es, fs);
    SameBeat(xs, ys, cfg, now);
    var b := BeatOf(xs, cfg, now);
    EvaluatedNoWeaker(Run(rs, es), Run(ss, fs), xs[..k], ys[..k], b);
    EvaluatedNoWeaker(Run(rs, es), Run(ss, fs), xs, ys, b);
    assert SameSignals(xs[k], ys[k]);
    BeatNoWeaker(xs[k], ys[k], Of(Evaluated(Run(rs, es), xs[..k], b).0, xs[k].agentId),
                 Of(Evaluated(Run(ss, fs), ys[..k], b).0, ys[k].agentId), b);
  }

  const CALM := Config(true, false, 8, 5, 60000.0, None, None, map[])

  const OVER := Some(Budget("c", 2.0, 1.0))

  function SampleAt(minute: int): Sample {
    Sample(0.0, minute as real, 0.0, 0.0, 0.0, 300000 + 60000 * minute)
  }

  /** An idle agent that burns one output token a minute. */
  function InputAt(minute: int, budget: Option<Budget>): Input {
    Input("w", Some(SampleAt(minute)), false, budget)
  }

  function TickAt(minute: int, budget: Option<Budget>): Event {
    Tick([InputAt(minute, budget)], CALM, 300000 + 60000 * minute)
  }

  function BeatAt(minute: int): Beat {
    Beat(CALM, 300000 + 60000 * minute, None, None)
  }

  lemma {:induction false} OneBeat(rs: Records, minute: int, budget: Option<Budget>)
    ensures Step(rs, TickAt(minute, budget)) == rs["w" := Beaten(InputAt(minute, budget), Of(rs, "w"), BeatAt(minute))]
  {
    var i := InputAt(minute, budget);
    assert [i][..0] == [];
    assert Evaluated(rs, [], BeatAt(minute)) == (rs, []);
    assert BeatOf([i], CALM, 300000 + 60000 * minute) == BeatAt(minute);
  }

  /** One such beat on a record that has seen the previous minute. */
  lemma {:induction false} OneMinute(r: Record, minute: int, budget: Option<Budget>)
    requires minute >= 1 && r.lastSample == Some(SampleAt(minute - 1)) && (budget == None || budget == OVER)
    requires r.repeatCount == r.errorCount == r.compactingUntil == r.lastDistinctToolAt == 0
    ensures var r' := Beaten(InputAt(minute, budget), r, BeatAt(minute));
      && r' == r.(lastSample := Some(SampleAt(minute)), level := r'.level, reason := r'.reason, noProgressBeats := r'.noProgressBeats)
      && r'.noProgressBeats == (if budget == OVER then r.noProgressBeats else r.noProgressBeats + 1)
      && Rank(r'.level) == (if budget == OVER || r.noProgressBeats >= 1 then Min(Rank(r.level) + 1, 2) else Max(Rank(r.level) - 1, 0))
  {
    var i, b := InputAt(minute, budget), BeatAt(minute);
    assert Burning(i, r, b.now);
    assert VelocityOf(i, r, b.now) == 1.0;
    assert Idling(i, r, b.now);
    OneRankPerBeat(i, r, b);
  }

  /** Two runs of enabled beats that differ in the budgets alone, the first having none. */
  predicate OnlyBudgetsDiffer(es: seq<Event>, fs: seq<Event>) {
    |es| == |fs| && forall k :: 0 <= k < |es| ==>
      && es[k].Tick? && fs[k].Tick? && es[k].cfg == fs[k].cfg && es[k].now == fs[k].now
      && |es[k].inputs| == |fs[k].inputs|
      && forall j :: 0 <= j < |es[k].inputs| ==> es[k].inputs[j] == fs[k].inputs[j].(budget := None)
  }

  /** Minutes zero to two, with a budget on the middle one only. */
  function Minutes(budget: Option<Budget>): seq<Event> {
    [TickAt(0, None), TickAt(1, budget), TickAt(2, None)]
  }

  lemma {:induction false} FirstMinute()
    ensures Step(map[], TickAt(0, None)) == map["w" := NEW_RECORD.(lastSample := Some(SampleAt(0)))]
  {
    OneBeat(map[], 0, None);
    assert Beaten(InputAt(0, None), NEW_RECORD, BeatAt(0)) == NEW_RECORD.(lastSample := Some(SampleAt(0)));
  }

  lemma {:induction false} AfterThreeMinutes(budget: Option<Budget>)
    requires budget == None || budget == OVER
    ensures Of(Run(map[], Minutes(budget)), "w").level == if budget == OVER then Healthy else Steering
  {
    RunThree(map[], TickAt(0, None), TickAt(1, budget), TickAt(2, None));
    FirstMinute();
    var r0 := NEW_RECORD.(lastSample := Some(SampleAt(0)));
    OneMinute(r0, 1, budget);
    var r1 := Beaten(InputAt(1, budget), r0, BeatAt(1));
    OneMinute(r1, 2, None);
    OneBeat(map["w" := r0], 1, budget);
    OneBeat(map["w" := r0]["w" := r1], 2, None);
  }

  /**
   The hypothesis about the cap is needed.  A card past its cap trips before the no-progress arm is asked,
   which keeps that counter from advancing, so once the card is gone the budgeted run can stand lower.
   */
  lemma {:induction false} OverCapCanWeaken()
    ensures OnlyBudgetsDiffer(Minutes(None), Minutes(OVER))
    ensures Of(Run(map[], Minutes(None)), "w").level == Steering
    ensures Of(Run(map[], Minutes(OVER)), "w").level == Healthy
  {
    MinutesDifferInBudgets();
    AfterThreeMinutes(None);
    AfterThreeMinutes(OVER);
  }

  lemma {:induction false} MinutesDifferInBudgets()
    ensures OnlyBudgetsDiffer(Minutes(None), Minutes(OVER))
  {
    assert InputAt(1, None) == InputAt(1, OVER).(budget := None);
  }

  lemma {:induction false} RunThree(rs: Records, a: Event, b: Event, c: Event)
    ensures Run(rs, [a]) == Step(rs, a) && Run(rs, [a, b]) == Step(Run(rs, [a]), b) && Run(rs, [a, b, c]) == Step(Run(rs, [a, b]), c)
  {
    assert [a][..0] == [] && [a, b][..1] == [a] && [a, b, c][..2] == [a, b];
  }

  // ---------------------------------------------------------------- what can and cannot be reached

  /** No agent stands above a rank. */
  ghost predicate Below(rs: Records, rank: nat) {
    forall a :: a in rs ==> Rank(rs[a].level) <= rank
  }

  /** Every hard trip of the beat happens under a ceiling of at most `rank`, and `rank` allows steering. */
  ghost predicate BeatStaysUnder(rs: Records, inputs: seq<Input>, b: Beat, rank: nat) {
    rank >= 1 && forall k :: 0 <= k < |inputs| ==>
      Hard(inputs[k], Of(Evaluated(rs, inputs[..k], b).0, inputs[k].agentId), b) ==> Rank(b.cfg.Ceiling()) <= rank
  }

  lemma {:induction false} EvaluatedBelow(rs: Records, inputs: seq<Input>, b: Beat, rank: nat)
    requires Below(rs, rank) && BeatStaysUnder(rs, inputs, b, rank)
    ensures Below(Evaluated(rs, inputs, b).0, rank)
    ensures forall d :: d in Evaluated(rs, inputs, b).1 ==> Rank(d.level) <= rank && d.action in {NoAction, ActionFor(d.level)}
  {
    if inputs != [] {
      var n := |inputs| - 1;
      EarlierInputsStayUnder(rs, inputs, b, rank);
      EvaluatedBelow(rs, inputs[..n], b, rank);
      OneRankPerBeat(inputs[n], Of(Evaluated(rs, inputs[..n], b).0, inputs[n].agentId), b);
    }
  }

  lemma {:induction false} EarlierInputsStayUnder(rs: Records, inputs: seq<Input>, b: Beat, rank: nat)
    requires BeatStaysUnder(rs, inputs, b, rank) && inputs != []
    ensures BeatStaysUnder(rs, inputs[..|inputs| - 1], b, rank)
  {
    var before := inputs[..|inputs| - 1];
    forall k | 0 <= k < |before|
      ensures Hard(before[k], Of(Evaluated(rs, before[..k], b).0, before[k].agentId), b) ==> Rank(b.cfg.Ceiling()) <= rank
    {
      assert before[..k] == inputs[..k] && before[k] == inputs[k];
    }
  }

  lemma {:induction false} SwitchedOffBelow(rs: Records, inputs: seq<Input>, now: int, rank: nat)
    requires Below(rs, rank)
    ensures Below(SwitchedOff(rs, inputs, now).0, rank)
    ensures forall k :: 0 <= k < |SwitchedOff(rs, inputs, now).1| ==> SwitchedOff(rs, inputs, now).1[k].action == NoAction
  {
    if inputs != [] { SwitchedOffBelow(rs, inputs[..|inputs| - 1], now, rank); }
  }

  ghost predicate RunStaysUnder(rs: Records, es: seq<Event>, rank: nat) {
    rank >= 1 && forall past :: past < es && es[|past|].Tick? && es[|past|].cfg.enabled ==>
      BeatStaysUnder(Run(rs, past), es[|past|].inputs, BeatOf(es[|past|].inputs, es[|past|].cfg, es[|past|].now), rank)
  }

  lemma {:induction false} EarlierStaysUnder(rs: Records, es: seq<Event>, n: nat, rank: nat)
    requires n <= |es| && RunStaysUnder(rs, es, rank)
    ensures RunStaysUnder(rs, es[..n], rank)
  {
    var before := es[..n];
    forall past | past < before && before[|past|].Tick? && before[|past|].cfg.enabled
      ensures BeatStaysUnder(Run(rs, past), before[|past|].inputs,
                             BeatOf(before[|past|].inputs, before[|past|].cfg, before[|past|].now), rank)
    {
      assert past < es && es[|past|] == before[|past|];
    }
  }

  lemma {:induction false} StepBelow(rs: Records, e: Event, rank: nat)
    requires Below(rs, rank) && rank >= 1
    requires e.Tick? && e.cfg.enabled ==> BeatStaysUnder(rs, e.inputs, BeatOf(e.inputs, e.cfg, e.now), rank)
    ensures Below(Step(rs, e), rank)
  {
    match e
    case Tick(inputs, cfg, now) =>
      if cfg.enabled { EvaluatedBelow(rs, inputs, BeatOf(inputs, cfg, now), rank); }
      else { SwitchedOffBelow(rs, inputs, now, rank); }
    case _ =>
  }

  lemma {:induction false} RunBelow(rs: Records, es: seq<Event>, rank: nat)
    requires Below(rs, rank) && RunStaysUnder(rs, es, rank)
    ensures Below(Run(rs, es), rank)
  {
    if es != [] {
      var n := |es| - 1;
      EarlierStaysUnder(rs, es, n, rank);
      RunBelow(rs, es[..n], rank);
      assert es[..n] < es;
      StepBelow(Run(rs, es[..n]), es[n], rank);
    }
  }

  /** Without the hard-stop opt-in nothing is ever stopped: no level gets there and no beat asks for it. */
  lemma {:induction false} NoStopWithoutOptIn(es: seq<Event>, inputs: seq<Input>, cfg: Config, now: int)
    requires forall k :: 0 <= k < |es| && es[k].Tick? ==> !es[k].cfg.hardStop
    requires !cfg.hardStop
    ensures forall a :: a in Run(map[], es) ==> Run(map[], es)[a].level != Stopped
    ensures forall k :: 0 <= k < |Ticked(Run(map[], es), inputs, cfg, now).1| ==>
      Ticked(Run(map[], es), inputs, cfg, now).1[k].action != Stop
  {
    RunBelow(map[], es, 2);
    if cfg.enabled { EvaluatedBelow(Run(map[], es), inputs, BeatOf(inputs, cfg, now), 2); }
    else { SwitchedOffBelow(Run(map[], es), inputs, now, 2); }
  }

  /** A card merely near its cap never gets its agent past steering: that takes a hard trip somewhere in the run. */
  lemma {:induction false} BandAloneOnlySteers(es: seq<Event>)
    requires forall past, k :: past < es && es[|past|].Tick? && 0 <= k < |es[|past|].inputs| ==>
      var b := BeatOf(es[|past|].inputs, es[|past|].cfg, es[|past|].now);
      !Hard(es[|past|].inputs[k], Of(Evaluated(Run(map[], past), es[|past|].inputs[..k], b).0, es[|past|].inputs[k].agentId), b)
    ensures forall a :: a in Run(map[], es) ==> Rank(Run(map[], es)[a].level) <= 1
  {
    RunBelow(map[], es, 1);
  }

  /** Recovery: with nothing tripping, an agent beaten often enough is healthy again. */
  lemma {:induction false} QuietBeatsHeal(rs: seq<Record>, xs: seq<Input>, bs: seq<Beat>)
    requires |rs| == |xs| + 1 == |bs| + 1 && |xs| >= 3
    requires forall k :: 0 <= k < |xs| ==>
      rs[k + 1] == Beaten(xs[k], rs[k], bs[k]) && !Hard(xs[k], rs[k], bs[k]) && !Soft(xs[k], rs[k], bs[k])
    ensures rs[|xs|].level == Healthy
  {
    var n := |xs|;
    if n > 3 {
      QuietBeatsHeal(rs[..n], xs[..n - 1], bs[..n - 1]);
      OneRankPerBeat(xs[n - 1], rs[n - 1], bs[n - 1]);
    } else {
      OneRankPerBeat(xs[0], rs[0], bs[0]);
      OneRankPerBeat(xs[1], rs[1], bs[1]);
      OneRankPerBeat(xs[2], rs[2], bs[2]);
    }
  }
}
