/** Where messages land: a message to one recipient lands exactly once, and what becomes of a broadcast's bounces. */
module RoutingRuns {
  import opened Options
  import opened Replies
  import opened Routing

  // ---------------------------------------------------------------- one recipient

  /** One file more, or replaced, in one inbox; every other inbox as it was. */
  predicate FileIn(before: Floor, after: Floor, a: Id, m: Message) {
    a in before.boxes && after.boxes == before.boxes[a := before.boxes[a][m.id := m]]
  }

  predicate Inboxed(before: Floor, after: Floor, m: Message, target: Id) {
    FileIn(before, after, target, m) && after.handed == before.handed
  }

  predicate TakenByTerminal(before: Floor, after: Floor, m: Message, target: Id) {
    after.boxes == before.boxes && after.handed == before.handed + [Handed(m, target)]
  }

  /** The god has it: everything but its address and a label before its subject is as it was written. */
  predicate IsBounce(b: Message, m: Message, god: Id) {
    && b == m.(to := god, subject := b.subject)
    && |b.subject| > |m.subject| && b.subject[|b.subject| - |m.subject|..] == m.subject
  }

  ghost predicate BouncedToGod(before: Floor, after: Floor, m: Message) {
    after.handed == before.handed && exists b :: IsBounce(b, m, GodOf(before)) && FileIn(before, after, GodOf(before), b)
  }

  lemma {:induction false} LabelledIsBounce(f: Floor, m: Message, why: Reason, target: Id)
    ensures IsBounce(BounceOf(f, m, why, target), m, GodOf(f))
  {
    assert (Label(why, target) + m.subject)[|Label(why, target)|..] == m.subject;
  }

  /** Whom a name other than `broadcast` stands for: the god for `human` and `god`, and itself otherwise. */
  function Recipient(f: Floor, to: Id): Id {
    if to == "human" || to == "god" then (match f.god case Some(g) => g case None => "god") else to
  }

  /** Where a message to one recipient other than its sender lands when the god has an inbox; no other inbox is touched. */
  lemma {:induction false} LandsSomewhere(f: Floor, m: Message, accepts: set<Id>, now: int)
    requires m.hops <= 12 && m.to != "broadcast" && GodOf(f) in f.boxes && Recipient(f, m.to) != m.sender
    ensures var f', t := Routed(f, m, accepts, now), Recipient(f, m.to);
      if t in f.boxes && !IsAssistant(f, t) && !NeedsTerminal(f, t) then Inboxed(f, f', m, t)
      else if t in accepts && !IsAssistant(f, t) && NeedsTerminal(f, t) then TakenByTerminal(f, f', m, t)
      else BouncedToGod(f, f', m)
  {
    var t := Recipient(f, m.to);
    assert Targets(f, m) == [t] && [t][..0] == [];
    assert SentToAll(f, m, [], accepts) == f;
    var f' := Routed(f, m, accepts, now);
    assert f'.boxes == SentTo(f, m, t, accepts).boxes && f'.handed == SentTo(f, m, t, accepts).handed;
    if IsAssistant(f, t) || (if NeedsTerminal(f, t) then t !in accepts else t !in f.boxes) {
      var why := if IsAssistant(f, t) then Assistant else if NeedsTerminal(f, t) then Refused else Unknown;
      LabelledIsBounce(f, m, why, t);
      assert FileIn(f, f', GodOf(f), BounceOf(f, m, why, t));
    }
  }

  /**
   A message within the hop cap to one recipient other than its sender, with a god that has an inbox and no
   file of that id in it, is never lost and never doubled: it lands in exactly one of three places, and in
   which is decided by who the recipient is and whether main's queue accepted.
   */
  lemma {:induction false} LandsExactlyOnce(f: Floor, m: Message, accepts: set<Id>, now: int)
    requires m.hops <= 12 && m.to != "broadcast" && Recipient(f, m.to) != m.sender
    requires GodOf(f) in f.boxes && m.id !in f.boxes[GodOf(f)]
    ensures var f', t := Routed(f, m, accepts, now), Recipient(f, m.to);
      && (Inboxed(f, f', m, t) <==> t in f.boxes && !IsAssistant(f, t) && !NeedsTerminal(f, t))
      && (TakenByTerminal(f, f', m, t) <==> t in accepts && !IsAssistant(f, t) && NeedsTerminal(f, t))
      && (BouncedToGod(f, f', m) <==> !Inboxed(f, f', m, t) && !TakenByTerminal(f, f', m, t))
  {
    LandsSomewhere(f, m, accepts, now);
    FilesDiffer(f, Routed(f, m, accepts, now), Recipient(f, m.to), m);
  }

  /** A file that holds the message itself holds no bounce of it. */
  lemma {:induction false} FilesDiffer(f: Floor, f': Floor, t: Id, m: Message)
    requires GodOf(f) in f.boxes && m.id !in f.boxes[GodOf(f)]
    ensures FileIn(f, f', t, m) ==> forall b :: IsBounce(b, m, GodOf(f)) ==> !FileIn(f, f', GodOf(f), b)
  {
    forall b | FileIn(f, f', t, m) && IsBounce(b, m, GodOf(f)) ensures !FileIn(f, f', GodOf(f), b) {
      assert f'.boxes[t][m.id] == m && b != m;
      assert t != GodOf(f) ==> m.id !in f'.boxes[GodOf(f)];
    }
  }

  /** Past the cap only the god's inbox may change, nothing is handed over, and no obligation opens or closes. */
  lemma {:induction false} PastTheCapOnlyTheGod(f: Floor, m: Message, accepts: set<Id>, now: int)
    requires m.hops > 12
    ensures var f' := Routed(f, m, accepts, now);
      f'.handed == f.handed && f'.replies == f.replies && forall a :: a in f.boxes && a != GodOf(f) ==> a in f'.boxes && f'.boxes[a] == f.boxes[a]
    ensures var f' := Routed(f, m, accepts, now);
      if GodOf(f) in f.boxes then
        exists e: Message :: IsBounce(e.(requiresReply := m.requiresReply), m, GodOf(f)) && !e.requiresReply && FileIn(f, f', GodOf(f), e)
      else f'.boxes == f.boxes
  {
    var f' := Routed(f, m, accepts, now);
    var e := m.(to := GodOf(f), requiresReply := false, subject := "[hop-cap] " + m.subject);
    assert ("[hop-cap] " + m.subject)[|"[hop-cap] "|..] == m.subject;
    if GodOf(f) in f.boxes { assert FileIn(f, f', GodOf(f), e) && IsBounce(e.(requiresReply := m.requiresReply), m, GodOf(f)); }
  }

  /** An obligation opens for a message within the cap that asks for a reply and resolves to one target, even by broadcast. */
  lemma {:induction false} OpensForOneTarget(f: Floor, m: Message, accepts: set<Id>, now: int)
    requires m.id !in f.replies.pending
    ensures m.id in Routed(f, m, accepts, now).replies.pending <==> m.hops <= 12 && m.requiresReply && |Targets(f, m)| == 1
  {
    if |Targets(f, m)| == 1 { TargetsAreOthers(f, m, 0); }
  }

  lemma {:induction false} FilteredIsRoster(f: Floor, sender: Id, roster: seq<Id>, a: Id)
    ensures a in Filtered(f, sender, roster) <==> a in roster && OnRoster(f, sender, a)
  {
    if roster != [] {
      var n := |roster| - 1;
      FilteredIsRoster(f, sender, roster[..n], a);
      assert roster == roster[..n] + [roster[n]];
    }
  }

  /** No message is ever sent to its sender; a broadcast goes to active agents that take mail, and to all of those. */
  lemma {:induction false} TargetsAreOthers(f: Floor, m: Message, k: nat)
    requires k < |Targets(f, m)|
    ensures Targets(f, m)[k] != m.sender
    ensures m.to == "broadcast" ==> Targets(f, m)[k] in f.roster && OnRoster(f, m.sender, Targets(f, m)[k])
  {
    if m.to == "broadcast" { FilteredIsRoster(f, m.sender, f.roster, Targets(f, m)[k]); }
  }

  // ---------------------------------------------------------------- broadcasts

  predicate Distinct(targets: seq<Id>) {
    forall i, j :: 0 <= i < j < |targets| ==> targets[i] != targets[j]
  }

  /** Sending to this target writes a file into the god's inbox. */
  predicate WritesToGod(f: Floor, t: Id, accepts: set<Id>) {
    t == GodOf(f) || IsAssistant(f, t) || (NeedsTerminal(f, t) && t !in accepts) || (!NeedsTerminal(f, t) && t !in f.boxes)
  }

  function GodsCopy(f: Floor, m: Message, t: Id): Message {
    if IsAssistant(f, t) then BounceOf(f, m, Assistant, t)
    else if NeedsTerminal(f, t) then BounceOf(f, m, Refused, t)
    else if t in f.boxes then m
    else BounceOf(f, m, Unknown, t)
  }

  predicate SameFloor(f: Floor, g: Floor) {
    g.god == f.god && g.agents == f.agents && g.boxes.Keys == f.boxes.Keys
  }

  lemma {:induction false} OneSending(f: Floor, g: Floor, m: Message, t: Id, accepts: set<Id>, a: Id)
    requires SameFloor(f, g) && GodOf(f) in f.boxes && a in f.boxes
    ensures var g' := SentTo(g, m, t, accepts);
      && SameFloor(f, g')
      && g'.boxes[a] ==
           if a == GodOf(f) then (if WritesToGod(f, t, accepts) then g.boxes[a][m.id := GodsCopy(f, m, t)] else g.boxes[a])
           else if a == t && !IsAssistant(f, t) && !NeedsTerminal(f, t) then g.boxes[a][m.id := m]
           else g.boxes[a]
  {
  }

  lemma {:induction false} SendingKeepsFloor(f: Floor, m: Message, targets: seq<Id>, accepts: set<Id>)
    ensures SameFloor(f, SentToAll(f, m, targets, accepts))
  {
    SendingIsDelivery(f, m, targets, accepts);
  }

  /** Everyone but the god: who takes mail and was addressed has the message; nobody else's inbox changed. */
  lemma {:induction false} OthersGetTheirCopy(f: Floor, m: Message, targets: seq<Id>, accepts: set<Id>, a: Id)
    requires GodOf(f) in f.boxes && a in f.boxes && a != GodOf(f)
    ensures var boxes := SentToAll(f, m, targets, accepts).boxes;
      a in boxes && boxes[a] == if a in targets && !IsAssistant(f, a) && !NeedsTerminal(f, a) then f.boxes[a][m.id := m] else f.boxes[a]
  {
    if targets != [] {
      var n := |targets| - 1;
      var g := SentToAll(f, m, targets[..n], accepts);
      OthersGetTheirCopy(f, m, targets[..n], accepts, a);
      SendingKeepsFloor(f, m, targets[..n], accepts);
      OtherAfterOne(f, g, m, targets[n], accepts, a);
      assert a in targets <==> a in targets[..n] || a == targets[n];
    }
  }

  lemma {:induction false} OtherAfterOne(f: Floor, g: Floor, m: Message, t: Id, accepts: set<Id>, a: Id)
    requires SameFloor(f, g) && GodOf(f) in f.boxes && a in f.boxes && a != GodOf(f)
    ensures var boxes := SentTo(g, m, t, accepts).boxes;
      a in boxes && a in g.boxes && boxes[a] == if a == t && !IsAssistant(f, a) && !NeedsTerminal(f, a) then g.boxes[a][m.id := m] else g.boxes[a]
  {
    OneSending(f, g, m, t, accepts, a);
  }

  /** The last target that wrote to the god's inbox, if any did. */
  function LastWriter(f: Floor, targets: seq<Id>, accepts: set<Id>): Option<nat> {
    if targets == [] then None
    else if WritesToGod(f, targets[|targets| - 1], accepts) then Some(|targets| - 1)
    else LastWriter(f, targets[..|targets| - 1], accepts)
  }

  lemma {:induction false} LastWriterIsLast(f: Floor, targets: seq<Id>, accepts: set<Id>)
    ensures var w := LastWriter(f, targets, accepts);
      match w
      case None => forall i :: 0 <= i < |targets| ==> !WritesToGod(f, targets[i], accepts)
      case Some(k) => k < |targets| && WritesToGod(f, targets[k], accepts) && forall i :: k < i < |targets| ==> !WritesToGod(f, targets[i], accepts)
  {
    if targets != [] {
      var n := |targets| - 1;
      LastWriterIsLast(f, targets[..n], accepts);
      forall i | 0 <= i < n ensures targets[..n][i] == targets[i] {}
    }
  }

  /** The god's inbox holds, of this message, what the last of these targets wrote, if any did. */
  predicate HoldsTheLast(f: Floor, boxes: map<Id, map<Id, Message>>, m: Message, targets: seq<Id>, accepts: set<Id>) {
    GodOf(f) in f.boxes && GodOf(f) in boxes
    && match LastWriter(f, targets, accepts)
       case None => boxes[GodOf(f)] == f.boxes[GodOf(f)]
       case Some(k) => k < |targets| && boxes[GodOf(f)] == f.boxes[GodOf(f)][m.id := GodsCopy(f, m, targets[k])]
  }

  lemma {:induction false} LastWriterGrows(f: Floor, boxes: map<Id, map<Id, Message>>, boxes': map<Id, map<Id, Message>>, m: Message, targets: seq<Id>, accepts: set<Id>)
    requires targets != [] && HoldsTheLast(f, boxes, m, targets[..|targets| - 1], accepts) && GodOf(f) in boxes'
    requires var t := targets[|targets| - 1];
      boxes'[GodOf(f)] == if WritesToGod(f, t, accepts) then boxes[GodOf(f)][m.id := GodsCopy(f, m, t)] else boxes[GodOf(f)]
    ensures HoldsTheLast(f, boxes', m, targets, accepts)
  {
    LastWriterIsLast(f, targets[..|targets| - 1], accepts);
  }

  /** All copies meant for the god carry one id: its inbox is left with what the last of them wrote. */
  lemma {:induction false} GodIsLeftTheLast(f: Floor, m: Message, targets: seq<Id>, accepts: set<Id>)
    requires GodOf(f) in f.boxes
    ensures HoldsTheLast(f, SentToAll(f, m, targets, accepts).boxes, m, targets, accepts)
  {
    if targets != [] {
      var n := |targets| - 1;
      var g := SentToAll(f, m, targets[..n], accepts);
      GodIsLeftTheLast(f, m, targets[..n], accepts);
      SendingKeepsFloor(f, m, targets[..n], accepts);
      GodAfterOne(f, g, m, targets[n], accepts);
      LastWriterGrows(f, g.boxes, SentTo(g, m, targets[n], accepts).boxes, m, targets, accepts);
    }
  }

  lemma {:induction false} GodAfterOne(f: Floor, g: Floor, m: Message, t: Id, accepts: set<Id>)
    requires SameFloor(f, g) && GodOf(f) in f.boxes
    ensures var boxes := SentTo(g, m, t, accepts).boxes;
      GodOf(f) in boxes && GodOf(f) in g.boxes
      && boxes[GodOf(f)] == if WritesToGod(f, t, accepts) then g.boxes[GodOf(f)][m.id := GodsCopy(f, m, t)] else g.boxes[GodOf(f)]
  {
    OneSending(f, g, m, t, accepts, GodOf(f));
  }

  lemma {:induction false} SuffixCancels(a: string, b: string, s: string)
    requires a + s == b + s
    ensures a == b
  {
    assert |a| == |b|;
    assert a == (a + s)[..|a|] && b == (b + s)[..|b|];
  }

  lemma {:induction false} LabelsTellTargets(v: Reason, t: Id, w: Reason, u: Id)
    requires Label(v, t) == Label(w, u)
    ensures t == u
  {
    var a, b := Label(v, t), Label(w, u);
    assert t == a[9..|a| - 2] && u == b[9..|b| - 2];
  }

  /** Copies made for different targets can be told apart. */
  lemma {:induction false} CopiesDiffer(f: Floor, m: Message, t: Id, u: Id)
    requires t != u && (GodsCopy(f, m, t) != m || GodsCopy(f, m, u) != m)
    ensures GodsCopy(f, m, t) != GodsCopy(f, m, u)
  {
    var a, b := GodsCopy(f, m, t), GodsCopy(f, m, u);
    if a == b && a.subject != m.subject {
      var v: Reason :| a == BounceOf(f, m, v, t);
      var w: Reason :| b == BounceOf(f, m, w, u);
      assert BounceOf(f, m, v, t).subject == Label(v, t) + m.subject;
      assert BounceOf(f, m, w, u).subject == Label(w, u) + m.subject;
      assert a.subject == Label(v, t) + m.subject && b.subject == Label(w, u) + m.subject;
      SuffixCancels(Label(v, t), Label(w, u), m.subject);
      LabelsTellTargets(v, t, w, u);
    }
  }

  /**
   A broadcast's bounce survives exactly when no later target wrote to the god's inbox: each bounce keeps
   the broadcast's id, so a later bounce, or the god's own copy, takes its file.
   */
  lemma {:induction false} BounceSurvivesIffLast(f: Floor, m: Message, targets: seq<Id>, accepts: set<Id>, k: nat)
    requires GodOf(f) in f.boxes && Distinct(targets) && k < |targets|
    requires targets[k] != GodOf(f) && WritesToGod(f, targets[k], accepts)
    ensures var boxes := SentToAll(f, m, targets, accepts).boxes;
      GodOf(f) in boxes
      && ((m.id in boxes[GodOf(f)] && boxes[GodOf(f)][m.id] == GodsCopy(f, m, targets[k]))
          <==> forall i :: k < i < |targets| ==> !WritesToGod(f, targets[i], accepts))
  {
    GodIsLeftTheLast(f, m, targets, accepts);
    LastWriterIsLast(f, targets, accepts);
    var w := LastWriter(f, targets, accepts).value;
    assert k <= w;
    assert GodsCopy(f, m, targets[k]) != m by {
      assert GodsCopy(f, m, targets[k]).subject != m.subject;
    }
    if k != w {
      assert targets[k] != targets[w];
      CopiesDiffer(f, m, targets[k], targets[w]);
    }
  }
}
