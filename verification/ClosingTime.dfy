/**
 The graceful shutdown protocol: the roster is asked to pack up, its acknowledgements are collected,
 and the manager's closing message tears the floor down after a grace period.

 What the outside world answers (the registry, the live terminals, whether mail could be sent) comes in
 with each step. The two timers are flags: armed or not.
 */
module ClosingTime {
  import opened Options

  type Id = string

  datatype Agent = Agent(isGod: bool, archived: bool)
  datatype Registry = Registry(godId: Option<Id>, agents: map<Id, Agent>)

  /** What a step finds around it; `mailed` says whether a mail it tries to send goes out. */
  datatype World = World(registry: Registry, live: set<Id>, mailed: bool)

  /** A routed message: whom it is from, and whether its subject reads as an acknowledgement or as the conclusion. */
  datatype Message = Message(from: Id, saysAck: bool, saysComplete: bool)

  datatype Phase = Started | Progress | Complete | TimedOut | Cancelled
  datatype Event = Event(phase: Phase, acked: nat, total: nat)
  datatype Mail = Brief(workers: set<Id>) | Rejection(missing: set<Id>) | CallOff
  datatype Answer = Accepted | NoOrchestrator | Threw

  datatype State = State(
    active: bool, godId: Id, workers: set<Id>, acked: set<Id>, timeout: bool, teardown: bool,
    told: seq<Event>, mail: seq<Mail>, concluded: nat)

  const START := State(false, "god", {}, {}, false, false, [], [], 0)

  function Told(s: State, phase: Phase): State {
    s.(told := s.told + [Event(phase, |s.acked|, |s.workers|)])
  }

  function GodOf(r: Registry): Id {
    r.godId.GetOr("god")
  }

  /** Who is waited for: everyone with a live terminal that the registry knows, but for the manager. */
  function Roster(w: World): set<Id> {
    set id | id in w.live && id != GodOf(w.registry) && id in w.registry.agents && !w.registry.agents[id].isGod
  }

  predicate CanStart(w: World) {
    GodOf(w.registry) in w.registry.agents && GodOf(w.registry) in w.live
  }

  function StartedBy(s: State, w: World): State {
    if s.active then Told(s.(timeout := true), Progress)
    else if !CanStart(w) then s.(godId := GodOf(w.registry))
    else
      var s1 := s.(godId := GodOf(w.registry), workers := Roster(w), acked := {}, active := true);
      if !w.mailed then s1 else Told(s1.(mail := s.mail + [Brief(Roster(w))], timeout := true), Started)
  }

  function CancelledBy(s: State, mailed: bool): State {
    if !s.active then s
    else
      var s1 := Told(s.(active := false, timeout := false, teardown := false), Cancelled);
      if mailed then s1.(mail := s.mail + [CallOff]) else s1
  }

  /** The workers still owing an acknowledgement that could give one. */
  function Missing(s: State, w: World): set<Id> {
    set id | id in s.workers && id !in s.acked && id in w.live
      && !(id in w.registry.agents && w.registry.agents[id].archived)
  }

  predicate IsAck(s: State, m: Message, targets: seq<Id>) {
    s.active && m.saysAck && m.from in s.workers && s.godId in targets
  }

  predicate IsConclusion(s: State, m: Message, targets: seq<Id>) {
    s.active && !IsAck(s, m, targets) && m.saysComplete && m.from == s.godId
  }

  function RoutedBy(s: State, m: Message, targets: seq<Id>, w: World): State {
    if IsAck(s, m, targets) then
      if m.from in s.acked then s else Told(s.(acked := s.acked + {m.from}), Progress)
    else if !IsConclusion(s, m, targets) then s
    else if Missing(s, w) != {} then
      if w.mailed then Told(s.(mail := s.mail + [Rejection(Missing(s, w))]), Progress) else s
    else Told(s.(timeout := false, teardown := true), Complete)
  }

  function TimeoutFired(s: State): State {
    if !s.timeout then s
    else if s.active then Told(s.(timeout := false), TimedOut)
    else s.(timeout := false)
  }

  function TeardownFired(s: State): State {
    if !s.teardown then s else s.(teardown := false, active := false, concluded := s.concluded + 1)
  }

  datatype Op =
    | Press(world: World)
    | Cancel(mailed: bool)
    | Route(message: Message, targets: seq<Id>, world: World)
    | TimeoutDue
    | TeardownDue

  function Step(s: State, op: Op): State {
    match op
    case Press(w) => StartedBy(s, w)
    case Cancel(mailed) => CancelledBy(s, mailed)
    case Route(m, targets, w) => RoutedBy(s, m, targets, w)
    case TimeoutDue => TimeoutFired(s)
    case TeardownDue => TeardownFired(s)
  }

  /** The state after a run, the last step at the end. */
  function After(ops: seq<Op>): State {
    if ops == [] then START else Step(After(ops[..|ops| - 1]), ops[|ops| - 1])
  }

  class ClosingTimeController {
    var active: bool
    var godId: Id
    var workers: set<Id>
    var acked: set<Id>
    var timeout: bool
    var teardown: bool
    var told: seq<Event>
    var mail: seq<Mail>
    var concluded: nat

    ghost function Model(): State
      reads this
    {
      State(active, godId, workers, acked, timeout, teardown, told, mail, concluded)
    }

    constructor ()
      ensures Model() == START
    {
      active, godId, workers, acked := false, "god", {}, {};
      timeout, teardown, told, mail, concluded := false, false, [], [], 0;
    }

    method EmitState(phase: Phase)
      modifies this`told
      ensures Model() == Told(old(Model()), phase)
    {
      told := told + [Event(phase, |acked|, |workers|)];
    }

    method Cleanup()
      modifies this`timeout, this`teardown, this`active
      ensures Model() == old(Model()).(timeout := false, teardown := false, active := false)
    {
      timeout, teardown, active := false, false, false;
    }

    method Start(w: World) returns (a: Answer)
      modifies this
      ensures Model() == StartedBy(old(Model()), w)
      ensures a == if old(active) then Accepted else if !CanStart(w) then NoOrchestrator else if w.mailed then Accepted else Threw
    {
      if active {
        timeout := true;
        EmitState(Progress);
        return Accepted;
      }
      godId := w.registry.godId.GetOr("god");
      if godId !in w.registry.agents || godId !in w.live { return NoOrchestrator; }
      workers := set id | id in w.live && id != godId && id in w.registry.agents && !w.registry.agents[id].isGod;
      acked := {};
      active := true;
      if !w.mailed { return Threw; }
      mail := mail + [Brief(workers)];
      timeout := true;
      EmitState(Started);
      a := Accepted;
    }

    method CancelRun(mailed: bool)
      modifies this
      ensures Model() == CancelledBy(old(Model()), mailed)
    {
      if !active { return; }
      Cleanup();
      EmitState(Cancelled);
      if mailed { mail := mail + [CallOff]; }
    }

    method OnRouted(m: Message, targets: seq<Id>, w: World)
      modifies this
      ensures Model() == RoutedBy(old(Model()), m, targets, w)
    {
      if !active { return; }
      if m.saysAck && m.from in workers && godId in targets {
        if m.from !in acked {
          acked := acked + {m.from};
          EmitState(Progress);
        }
        return;
      }
      if m.saysComplete && m.from == godId {
        var pending := set id | id in workers && id !in acked && id in w.live
          && !(id in w.registry.agents && w.registry.agents[id].archived);
        if pending != {} {
          if !w.mailed { return; }
          mail := mail + [Rejection(pending)];
          EmitState(Progress);
          return;
        }
        Cleanup();
        active := true;
        EmitState(Complete);
        teardown := true;
      }
    }

    method OnTimeout()
      modifies this
      ensures Model() == TimeoutFired(old(Model()))
    {
      if !timeout { return; }
      timeout := false;
      if active { EmitState(TimedOut); }
    }

    method OnTeardown()
      modifies this
      ensures Model() == TeardownFired(old(Model()))
    {
      if !teardown { return; }
      teardown := false;
      active := false;
      concluded := concluded + 1;
    }
  }
}
