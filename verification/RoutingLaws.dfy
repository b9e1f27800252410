/**
 Where a message goes, in the registry's own words: who a name stands for, who is left out of a broadcast,
 and what the god finds when a message could not be handed on.
 */
module RoutingLaws {
  import opened Options
  import opened Replies
  import opened Routing
  import opened RoutingRuns

  /** The god's id, `god` itself where the registry names none. */
  function Manager(f: Floor): Id {
    match f.god
    case Some(g) => g
    case None => "god"
  }

  /** An agent that only sends. */
  predicate SendOnly(f: Floor, a: Id) {
    a in f.agents && f.agents[a].assistant
  }

  /** Mail for this agent is typed into its terminal: it takes none, or takes it that way; the god is exempt. */
  predicate ByTerminal(f: Floor, a: Id) {
    a in f.agents && a != Manager(f) && !(f.agents[a].receives && !f.agents[a].terminal)
  }

  /** A broadcast reaches this agent. */
  predicate Reached(f: Floor, sender: Id, a: Id) {
    a in f.roster && a != sender && a in f.agents && !f.agents[a].assistant && !f.agents[a].archived && f.agents[a].receives
  }

  /** The inboxes with one file written, where there is an inbox to write to. */
  function Filed(boxes: map<Id, map<Id, Message>>, a: Id, m: Message): map<Id, map<Id, Message>> {
    if a in boxes then boxes[a := boxes[a][m.id := m]] else boxes
  }

  /** The god's copy: addressed to it, and the subject says what went wrong with whom. */
  function Returned(f: Floor, m: Message, what: string, a: Id): Message {
    m.(to := Manager(f), subject := "[" + what + " " + a + "] " + m.subject)
  }

  lemma {:induction false} LabelsSpelledOut(f: Floor, m: Message, a: Id)
    ensures BounceOf(f, m, Assistant, a) == Returned(f, m, "bounced", a)
    ensures BounceOf(f, m, Refused, a) == Returned(f, m, "refused", a)
    ensures BounceOf(f, m, Unknown, a) == Returned(f, m, "unknown", a)
  {
    assert "[" + "bounced" + " " + a + "] " == "[bounced " + a + "] ";
    assert "[" + "refused" + " " + a + "] " == "[refused " + a + "] ";
    assert "[" + "unknown" + " " + a + "] " == "[unknown " + a + "] ";
  }

  /** A message to one agent: the whole floor after it, by who the recipient is and what was accepted. */
  lemma {:induction false} OneRecipient(f: Floor, m: Message, accepts: set<Id>, now: int)
    requires m.hops <= 12 && m.to != "broadcast" && Recipient(f, m.to) != m.sender
    ensures var f', t := Routed(f, m, accepts, now), Recipient(f, m.to);
      && f'.god == f.god && f'.agents == f.agents && f'.roster == f.roster
      && f'.boxes == (
           if SendOnly(f, t) then Filed(f.boxes, Manager(f), Returned(f, m, "bounced", t))
           else if ByTerminal(f, t) then (if t in accepts then f.boxes else Filed(f.boxes, Manager(f), Returned(f, m, "refused", t)))
           else if t in f.boxes then Filed(f.boxes, t, m)
           else Filed(f.boxes, Manager(f), Returned(f, m, "unknown", t)))
      && f'.handed == f.handed + (if !SendOnly(f, t) && ByTerminal(f, t) && t in accepts then [Handed(m, t)] else [])
      && f'.log == f.log + (
           if SendOnly(f, t) then []
           else if ByTerminal(f, t) then [HandedOff(m.id, t, t in accepts)]
           else if t in f.boxes then [] else [UnknownAgent(m.id, t)]) + [Sent(m.id)]
  {
    var t := Recipient(f, m.to);
    assert Targets(f, m) == [t] && [t][..0] == [];
    assert SentToAll(f, m, [], accepts) == f && SentToAll(f, m, [t], accepts) == SentTo(f, m, t, accepts);
    LabelsSpelledOut(f, m, t);
    assert f.handed + [] == f.handed && f.log + [] == f.log;
  }

  /** Mail to oneself, the god's to `human` included, goes nowhere. */
  lemma {:induction false} ToOneself(f: Floor, m: Message, accepts: set<Id>, now: int)
    requires m.hops <= 12 && m.to != "broadcast" && Recipient(f, m.to) == m.sender
    ensures var f' := Routed(f, m, accepts, now);
      f'.boxes == f.boxes && f'.handed == f.handed && f'.log == f.log + [Sent(m.id)]
  {
    assert Targets(f, m) == [];
  }

  /** Past twelve hops only the god hears of it, with the reply called off. */
  lemma {:induction false} PastTwelveHops(f: Floor, m: Message, accepts: set<Id>, now: int)
    requires m.hops > 12
    ensures var f', g := Routed(f, m, accepts, now), Manager(f);
      && f'.boxes == Filed(f.boxes, g, m.(to := g, requiresReply := false, subject := "[hop-cap] " + m.subject))
      && f'.handed == f.handed && f'.replies == f.replies && f'.log == f.log + [HopCapped(m.id, g in f.boxes)]
  {
  }

  /** A broadcast's targets are exactly the agents it reaches, in the order of the registry. */
  lemma {:induction false} BroadcastReaches(f: Floor, m: Message, a: Id)
    requires m.to == "broadcast"
    ensures a in Targets(f, m) <==> Reached(f, m.sender, a)
    ensures InOrder(Targets(f, m), f.roster)
  {
    FilteredIsRoster(f, m.sender, f.roster, a);
    KeptInOrder(f, m.sender, f.roster);
  }

  predicate ComesBefore(roster: seq<Id>, a: Id, b: Id) {
    exists p, q :: 0 <= p < q < |roster| && roster[p] == a && roster[q] == b
  }

  predicate InOrder(kept: seq<Id>, roster: seq<Id>) {
    forall i, j :: 0 <= i < j < |kept| ==> ComesBefore(roster, kept[i], kept[j])
  }

  lemma {:induction false} KeptInOrder(f: Floor, sender: Id, roster: seq<Id>)
    ensures InOrder(Filtered(f, sender, roster), roster)
  {
    if roster != [] {
      var before, last := roster[..|roster| - 1], roster[|roster| - 1];
      var front := Filtered(f, sender, before);
      KeptInOrder(f, sender, before);
      forall a, b | ComesBefore(before, a, b) ensures ComesBefore(roster, a, b) {
        var p, q :| 0 <= p < q < |before| && before[p] == a && before[q] == b;
        assert roster[p] == a && roster[q] == b;
      }
      forall i | 0 <= i < |front| ensures ComesBefore(roster, front[i], last) {
        FilteredIsRoster(f, sender, before, front[i]);
        var p :| 0 <= p < |before| && before[p] == front[i];
        assert roster[p] == front[i];
      }
    }
  }

  /** A broadcast, inbox by inbox but the god's: who is reached and takes mail into its inbox has it, nobody else. */
  lemma {:induction false} BroadcastLands(f: Floor, m: Message, accepts: set<Id>, now: int, a: Id)
    requires m.hops <= 12 && m.to == "broadcast" && Manager(f) in f.boxes && a in f.boxes && a != Manager(f)
    ensures var boxes := Routed(f, m, accepts, now).boxes;
      a in boxes && boxes[a] == if Reached(f, m.sender, a) && !f.agents[a].terminal then f.boxes[a][m.id := m] else f.boxes[a]
  {
    BroadcastReaches(f, m, a);
    OthersGetTheirCopy(f, m, Targets(f, m), accepts, a);
  }

  /** And what it hands to terminals: one order for each agent reached that way whose order was accepted. */
  lemma {:induction false} BroadcastHandsOver(f: Floor, m: Message, accepts: set<Id>, now: int, h: Handed)
    requires m.hops <= 12 && m.to == "broadcast" && h !in f.handed
    ensures h in Routed(f, m, accepts, now).handed
      <==> h.message == m && Reached(f, m.sender, h.to) && h.to != Manager(f) && f.agents[h.to].terminal && h.to in accepts
  {
    BroadcastReaches(f, m, h.to);
    HandedToTargets(f, m, Targets(f, m), accepts, h);
  }

  lemma {:induction false} HandedToTargets(f: Floor, m: Message, targets: seq<Id>, accepts: set<Id>, h: Handed)
    requires h !in f.handed
    ensures h in SentToAll(f, m, targets, accepts).handed
      <==> h.message == m && h.to in targets && h.to in accepts && !SendOnly(f, h.to) && ByTerminal(f, h.to)
  {
    if targets != [] {
      var n := |targets| - 1;
      var g := SentToAll(f, m, targets[..n], accepts);
      HandedToTargets(f, m, targets[..n], accepts, h);
      SendingKeepsFloor(f, m, targets[..n], accepts);
      assert targets == targets[..n] + [targets[n]];
      assert h in SentTo(g, m, targets[n], accepts).handed
        <==> (h in g.handed || (h == Handed(m, targets[n]) && targets[n] in accepts && !SendOnly(f, targets[n]) && ByTerminal(f, targets[n])));
    }
  }

  /** Whether a reply is waited for, and from whom. */
  lemma {:induction false} ReplyIsWaitedFor(f: Floor, m: Message, accepts: set<Id>, now: int)
    requires m.id !in f.replies.pending && m.to != "broadcast"
    ensures var pending := Routed(f, m, accepts, now).replies.pending;
      if m.hops <= 12 && m.requiresReply && Recipient(f, m.to) != m.sender then
        m.id in pending && pending[m.id].sender == m.sender && pending[m.id].to == Recipient(f, m.to)
        && pending[m.id].conversation == m.conversation && pending[m.id].due == now + 900000 && !pending[m.id].redelivered
      else m.id !in pending
  {
    assert Targets(f, m) == if Recipient(f, m.to) != m.sender then [Recipient(f, m.to)] else [];
  }
}
