/**
 The message router: whom a message goes to, and where each copy lands: the recipient's inbox, a
 terminal order that main's queue accepted, or, as a bounce, the inbox of the god.

 An inbox is a directory of files named by message id, so a message overwrites one of the same id.
 */
module Routing {
  import opened Options
  import opened Replies

  const HOP_CAP: int := 12

  /** What the registry says of an agent, and what its provider can do. */
  datatype Agent = Agent(assistant: bool, archived: bool, receives: bool, terminal: bool)

  datatype Handed = Handed(message: Message, to: Id)

  datatype Note = HopCapped(id: Id, escalated: bool) | HandedOff(id: Id, to: Id, delivered: bool) | UnknownAgent(id: Id, to: Id) | Sent(id: Id)

  datatype Floor = Floor(
    god: Option<Id>, agents: map<Id, Agent>, roster: seq<Id>,
    boxes: map<Id, map<Id, Message>>, handed: seq<Handed>, replies: State, log: seq<Note>)

  function GodOf(f: Floor): Id {
    f.god.GetOr("god")
  }

  function ResolveTo(f: Floor, to: Id): Id {
    if to == "human" || to == "god" then GodOf(f) else to
  }

  predicate OnRoster(f: Floor, sender: Id, a: Id) {
    a != sender && a in f.agents && !f.agents[a].assistant && !f.agents[a].archived && f.agents[a].receives
  }

  function Filtered(f: Floor, sender: Id, roster: seq<Id>): seq<Id> {
    if roster == [] then []
    else
      var front := Filtered(f, sender, roster[..|roster| - 1]);
      if OnRoster(f, sender, roster[|roster| - 1]) then front + [roster[|roster| - 1]] else front
  }

  function Targets(f: Floor, m: Message): seq<Id> {
    if m.to == "broadcast" then Filtered(f, m.sender, f.roster)
    else if ResolveTo(f, m.to) == m.sender then []
    else [ResolveTo(f, m.to)]
  }

  function Put(f: Floor, a: Id, m: Message): Floor {
    if a in f.boxes then f.(boxes := f.boxes[a := f.boxes[a][m.id := m]]) else f
  }

  datatype Reason = Assistant | Refused | Unknown

  function Label(why: Reason, target: Id): string {
    match why
    case Assistant => "[bounced " + target + "] "
    case Refused => "[refused " + target + "] "
    case Unknown => "[unknown " + target + "] "
  }

  /** The message as the god gets it. */
  function BounceOf(f: Floor, m: Message, why: Reason, target: Id): Message {
    m.(to := GodOf(f), subject := Label(why, target) + m.subject)
  }

  function Bounced(f: Floor, m: Message, why: Reason, target: Id): Floor {
    Put(f, GodOf(f), BounceOf(f, m, why, target))
  }

  predicate IsAssistant(f: Floor, t: Id) {
    t in f.agents && f.agents[t].assistant
  }

  predicate NeedsTerminal(f: Floor, t: Id) {
    t != GodOf(f) && t in f.agents && (!f.agents[t].receives || f.agents[t].terminal)
  }

  function Logged(f: Floor, n: Note): Floor {
    f.(log := f.log + [n])
  }

  function SentTo(f: Floor, m: Message, t: Id, accepts: set<Id>): Floor {
    if IsAssistant(f, t) then Bounced(f, m, Assistant, t)
    else if NeedsTerminal(f, t) then
      var f1 := Logged(f, HandedOff(m.id, t, t in accepts));
      if t in accepts then f1.(handed := f.handed + [Handed(m, t)]) else Bounced(f1, m, Refused, t)
    else if t in f.boxes then Put(f, t, m)
    else Bounced(Logged(f, UnknownAgent(m.id, t)), m, Unknown, t)
  }

  function SentToAll(f: Floor, m: Message, targets: seq<Id>, accepts: set<Id>): Floor {
    if targets == [] then f
    else SentTo(SentToAll(f, m, targets[..|targets| - 1], accepts), m, targets[|targets| - 1], accepts)
  }

  function Capped(f: Floor, m: Message): Floor {
    var e := m.(to := GodOf(f), requiresReply := false, subject := "[hop-cap] " + m.subject);
    Logged(Put(f, GodOf(f), e), HopCapped(m.id, GodOf(f) in f.boxes))
  }

  function Routed(f: Floor, m: Message, accepts: set<Id>, now: int): Floor {
    if m.hops > HOP_CAP then Capped(f, m)
    else
      var targets := Targets(f, m);
      var f1 := Logged(SentToAll(f, m, targets, accepts), Sent(m.id));
      f1.(replies := Tracked(f.replies, m, targets, now))
  }

  class HiveRouter {
    var god: Option<Id>
    var agents: map<Id, Agent>
    var roster: seq<Id>
    var boxes: map<Id, map<Id, Message>>
    var handed: seq<Handed>
    var log: seq<Note>
    const replies: ReplyLedger

    ghost function Model(): Floor
      reads this, replies
    {
      Floor(god, agents, roster, boxes, handed, replies.Model(), log)
    }

    constructor (god: Option<Id>, agents: map<Id, Agent>, roster: seq<Id>, boxes: map<Id, map<Id, Message>>)
      ensures Model() == Floor(god, agents, roster, boxes, [], START, []) && replies.Valid() && fresh(replies)
    {
      this.god, this.agents, this.roster, this.boxes := god, agents, roster, boxes;
      handed, log := [], [];
      replies := new ReplyLedger();
    }

    method Deliver(m: Message, to: Id) returns (ok: bool)
      modifies this`boxes
      ensures Model() == Put(old(Model()), to, m) && ok == (to in old(boxes))
    {
      if to !in boxes { return false; }
      boxes := boxes[to := boxes[to][m.id := m]];
      ok := true;
    }

    method TerminalHandoff(m: Message, t: Id, accepts: set<Id>) returns (delivered: bool)
      modifies this`handed, this`log
      ensures delivered == (t in accepts)
      ensures var f1 := Logged(old(Model()), HandedOff(m.id, t, delivered));
        Model() == if delivered then f1.(handed := old(handed) + [Handed(m, t)]) else f1
    {
      delivered := t in accepts;
      if delivered { handed := handed + [Handed(m, t)]; }
      log := log + [HandedOff(m.id, t, delivered)];
    }

    method SendTo(m: Message, t: Id, accepts: set<Id>)
      modifies this`boxes, this`handed, this`log
      ensures Model() == SentTo(old(Model()), m, t, accepts)
    {
      var godId := god.GetOr("god");
      if t in agents && agents[t].assistant {
        var _ := Deliver(m.(to := godId, subject := Label(Assistant, t) + m.subject), godId);
        return;
      }
      if t != godId && t in agents && !agents[t].receives {
        var taken := TerminalHandoff(m, t, accepts);
        if !taken { var _ := Deliver(m.(to := godId, subject := Label(Refused, t) + m.subject), godId); }
        return;
      }
      if t != godId && t in agents && agents[t].terminal {
        var taken := TerminalHandoff(m, t, accepts);
        if !taken { var _ := Deliver(m.(to := godId, subject := Label(Refused, t) + m.subject), godId); }
        return;
      }
      var ok := Deliver(m, t);
      if !ok {
        log := log + [UnknownAgent(m.id, t)];
        var _ := Deliver(m.(to := godId, subject := Label(Unknown, t) + m.subject), godId);
      }
    }

    method TargetsOf(m: Message) returns (targets: seq<Id>)
      ensures targets == Targets(Model(), m)
    {
      if m.to != "broadcast" {
        var to := if m.to == "human" || m.to == "god" then god.GetOr("god") else m.to;
        return if to == m.sender then [] else [to];
      }
      targets := [];
      for i := 0 to |roster|
        invariant targets == Filtered(Model(), m.sender, roster[..i])
      {
        assert roster[..i + 1][..i] == roster[..i];
        var a := roster[i];
        if a != m.sender && a in agents && !agents[a].assistant && !agents[a].archived && agents[a].receives { targets := targets + [a]; }
      }
      assert roster[..|roster|] == roster;
    }

    method RouteMessage(m: Message, accepts: set<Id>, now: int)
      requires replies.Valid()
      modifies this, replies
      ensures replies.Valid() && Model() == Routed(old(Model()), m, accepts, now)
    {
      var godId := god.GetOr("god");
      if m.hops > HOP_CAP {
        var escalated := Deliver(m.(to := godId, requiresReply := false, subject := "[hop-cap] " + m.subject), godId);
        log := log + [HopCapped(m.id, escalated)];
        return;
      }
      ghost var f := Model();
      var targets := TargetsOf(m);
      for i := 0 to |targets|
        invariant replies.Valid() && Model() == SentToAll(f, m, targets[..i], accepts)
      {
        assert targets[..i + 1][..i] == targets[..i];
        SendTo(m, targets[i], accepts);
      }
      assert targets[..|targets|] == targets;
      SendingIsDelivery(f, m, targets, accepts);
      log := log + [Sent(m.id)];
      replies.TrackReplies(m, targets, now);
    }
  }

  /** Sending changes inboxes, orders and the log, and nothing else of the floor. */
  lemma {:induction false} SendingIsDelivery(f: Floor, m: Message, targets: seq<Id>, accepts: set<Id>)
    ensures var f' := SentToAll(f, m, targets, accepts);
      f' == f.(boxes := f'.boxes, handed := f'.handed, log := f'.log) && f'.boxes.Keys == f.boxes.Keys
  {
    if targets != [] { SendingIsDelivery(f, m, targets[..|targets| - 1], accepts); }
  }
}
