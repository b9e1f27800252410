/**
 Two streams that arrive in pieces: the bounded tail of a terminal's output, and the one line a hook
 connection carries. The tail is the longest stretch of newest chunks that fits. The line is decoded
 piece by piece, so its answer depends on the cuts exactly when one falls inside a character.
 */
module Streams {
  import opened Options
  import opened Utf8

  // ---------------------------------------------------------------- the output tail

  const TAIL_CAP_BYTES: nat := 256 * 1024

  /** A chunk, by what it says and how many bytes that takes. */
  datatype Chunk = Chunk(text: string, bytes: nat)

  function Bytes(chunks: seq<Chunk>): nat {
    if chunks == [] then 0 else chunks[0].bytes + Bytes(chunks[1..])
  }

  /** The newest chunks from `k` on may be kept: they fit, or there is but one. */
  predicate Fits(chunks: seq<Chunk>, k: nat)
    requires k <= |chunks|
  {
    Bytes(chunks[k..]) <= TAIL_CAP_BYTES || k + 1 >= |chunks|
  }

  /** `tail` is the longest stretch of newest chunks that may be kept. */
  ghost predicate IsTailOf(tail: seq<Chunk>, chunks: seq<Chunk>) {
    exists k :: IsTailFrom(tail, chunks, k)
  }

  ghost predicate IsTailFrom(tail: seq<Chunk>, chunks: seq<Chunk>, k: nat) {
    k <= |chunks| && tail == chunks[k..] && Fits(chunks, k) && NoneFitsBefore(chunks, k)
  }

  predicate NoneFitsBefore(chunks: seq<Chunk>, k: nat)
    requires k <= |chunks|
  {
    forall j :: 0 <= j < k ==> !Fits(chunks, j)
  }

  lemma {:induction false} BytesOfSum(a: seq<Chunk>, b: seq<Chunk>)
    ensures Bytes(a + b) == Bytes(a) + Bytes(b)
  {
    if a == [] {
      assert a + b == b;
    } else {
      BytesOfSum(a[1..], b);
      assert (a + b)[1..] == a[1..] + b;
    }
  }

  /** What did not fit before one more chunk does not fit after it. */
  lemma {:induction false} NothingComesBack(chunks: seq<Chunk>, c: Chunk, j: nat)
    requires j <= |chunks| && !Fits(chunks, j)
    ensures !Fits(chunks + [c], j)
  {
    assert (chunks + [c])[j..] == chunks[j..] + [c];
    BytesOfSum(chunks[j..], [c]);
  }

  /** One more chunk: the same stretch with it appended, and nothing older fits again. */
  lemma {:induction false} ChunkArrives(tail: seq<Chunk>, chunks: seq<Chunk>, k: nat, c: Chunk)
    requires IsTailFrom(tail, chunks, k)
    ensures tail + [c] == (chunks + [c])[k..] && Bytes(tail + [c]) == Bytes(tail) + c.bytes
    ensures NoneFitsBefore(chunks + [c], k)
  {
    BytesOfSum(tail, [c]);
    forall j: nat | j < k ensures !Fits(chunks + [c], j) { NothingComesBack(chunks, c, j); }
  }

  /** The oldest chunk goes, as what there is does not fit. */
  lemma {:induction false} OldestGoes(chunks: seq<Chunk>, k: nat)
    requires k < |chunks| && NoneFitsBefore(chunks, k) && !Fits(chunks, k)
    ensures chunks[k..][1..] == chunks[k + 1..] && Bytes(chunks[k + 1..]) == Bytes(chunks[k..]) - chunks[k].bytes
    ensures NoneFitsBefore(chunks, k + 1)
  {
  }

  class OutputTail {
    var tail: seq<Chunk>
    var tailBytes: nat
    ghost var Arrived: seq<Chunk>

    ghost predicate Valid()
      reads this
    {
      tailBytes == Bytes(tail) && IsTailOf(tail, Arrived)
    }

    constructor ()
      ensures Valid() && Arrived == []
    {
      tail, tailBytes, Arrived := [], 0, [];
      new;
      assert IsTailFrom([], [], 0);
    }

    /** However much has arrived, what is kept is the longest stretch of newest chunks that fits. */
    method OnData(c: Chunk)
      requires Valid()
      modifies this
      ensures Valid() && Arrived == old(Arrived) + [c]
    {
      ghost var k: nat :| IsTailFrom(tail, Arrived, k);
      ChunkArrives(tail, Arrived, k, c);
      tail := tail + [c];
      tailBytes := tailBytes + c.bytes;
      Arrived := Arrived + [c];
      while tailBytes > TAIL_CAP_BYTES && |tail| > 1
        invariant k < |Arrived| && tail == Arrived[k..] && tailBytes == Bytes(tail)
        invariant Arrived == old(Arrived) + [c]
        invariant NoneFitsBefore(Arrived, k)
      {
        OldestGoes(Arrived, k);
        tailBytes := tailBytes - tail[0].bytes;
        tail := tail[1..];
        k := k + 1;
      }
      assert IsTailFrom(tail, Arrived, k);
    }
  }

  /** A tail is the one and only: two that are longest are the same, and it holds at most the cap or one chunk. */
  lemma {:induction false} TailIsUnique(a: seq<Chunk>, b: seq<Chunk>, chunks: seq<Chunk>)
    requires IsTailOf(a, chunks) && IsTailOf(b, chunks)
    ensures a == b && (Bytes(a) <= TAIL_CAP_BYTES || |a| == 1)
  {
    var i: nat :| IsTailFrom(a, chunks, i);
    var j: nat :| IsTailFrom(b, chunks, j);
    assert !(i < j) && !(j < i);
    if |a| == 0 { assert Bytes(a) == 0; }
  }

  // ---------------------------------------------------------------- one line per connection

  const HOOK_LINE_MAX: nat := 16 * 1024 * 1024

  const NEWLINE: nat := 10

  datatype Answer = Handled(line: seq<Unit>) | Oversize | Idle

  /** Where the first line ends, of bytes or of text. */
  function LineEnd(s: seq<nat>): (n: Option<nat>)
    ensures n.Some? ==> n.value < |s| && s[n.value] == NEWLINE && forall i :: 0 <= i < n.value ==> s[i] != NEWLINE
    ensures n.None? ==> forall i :: 0 <= i < |s| ==> s[i] != NEWLINE
  {
    if s == [] then None
    else if s[0] == NEWLINE then Some(0)
    else
      var rest := LineEnd(s[1..]);
      if rest.None? then None else Some(rest.value + 1)
  }

  /** What a connection that has read this text altogether has been answered, if anything yet. */
  function AnswerTo(text: seq<Unit>): Option<Answer> {
    match LineEnd(text)
    case Some(n) => Some(if n > HOOK_LINE_MAX then Oversize else Handled(text[..n]))
    case None => if |text| > HOOK_LINE_MAX then Some(Oversize) else None
  }

  lemma {:induction false} LineEndOfSum(a: seq<nat>, b: seq<nat>)
    ensures LineEnd(a).Some? ==> LineEnd(a + b) == LineEnd(a)
    ensures LineEnd(a).None? && LineEnd(a + b).Some? ==> LineEnd(a + b).value >= |a|
  {
    assert forall i :: 0 <= i < |a| ==> (a + b)[i] == a[i];
    assert LineEnd(a).Some? ==> (a + b)[LineEnd(a).value] == NEWLINE;
  }

  /** Once answered, nothing that follows changes the answer. */
  lemma {:induction false} AnswersAreFinal(a: seq<Unit>, b: seq<Unit>)
    requires AnswerTo(a).Some?
    ensures AnswerTo(a + b) == AnswerTo(a)
  {
    LineEndOfSum(a, b);
    if LineEnd(a).Some? { assert (a + b)[..LineEnd(a).value] == a[..LineEnd(a).value]; }
  }

  /** What a connection has answered after these pieces, one at a time. */
  function Reaction(pieces: seq<seq<Byte>>): Option<Answer> {
    if pieces == [] then None
    else
      var before := Reaction(pieces[..|pieces| - 1]);
      if before.Some? then before else AnswerTo(ByPieces(pieces))
  }

  lemma {:induction false} OnePieceMore(pieces: seq<seq<Byte>>, d: seq<Byte>)
    ensures ByPieces(pieces + [d]) == ByPieces(pieces) + Decoded(d)
  {
    var longer := pieces + [d];
    if pieces == [] {
      assert longer == [d] && longer[1..] == [];
    } else {
      OnePieceMore(pieces[1..], d);
      assert longer[1..] == pieces[1..] + [d];
      Associates(Decoded(pieces[0]), ByPieces(pieces[1..]), Decoded(d));
    }
  }

  lemma {:induction false} Associates(a: seq<Unit>, b: seq<Unit>, c: seq<Unit>)
    ensures a + (b + c) == a + b + c
  {
  }

  /** It is that of the text the pieces decode to, and is given once. */
  lemma {:induction false} ReactionIsToTheText(pieces: seq<seq<Byte>>)
    ensures Reaction(pieces) == AnswerTo(ByPieces(pieces))
  {
    if pieces != [] {
      var before, d := pieces[..|pieces| - 1], pieces[|pieces| - 1];
      assert pieces == before + [d];
      OnePieceMore(before, d);
      ReactionIsToTheText(before);
      if Reaction(before).Some? { AnswersAreFinal(ByPieces(before), Decoded(d)); }
    }
  }

  lemma {:induction false} ReactionAfter(pieces: seq<seq<Byte>>, d: seq<Byte>)
    ensures ByPieces(pieces + [d]) == ByPieces(pieces) + Decoded(d)
    ensures Reaction(pieces + [d]) ==
      if Reaction(pieces).Some? then Reaction(pieces) else AnswerTo(ByPieces(pieces) + Decoded(d))
  {
    OnePieceMore(pieces, d);
    assert (pieces + [d])[..|pieces|] == pieces;
  }

  class Connection {
    var buf: seq<Unit>
    var done: bool
    var answers: seq<Answer>
    ghost var Pieces: seq<seq<Byte>>

    /** Until the idle answer, what was said is a function of the pieces so far. */
    ghost predicate Valid()
      reads this
    {
      && done == (answers != [])
      && (!done ==> buf == ByPieces(Pieces) && Reaction(Pieces) == None)
      && (done ==> |answers| == 1 && (answers[0] == Idle || Reaction(Pieces) == Some(answers[0])))
    }

    constructor ()
      ensures Valid() && Pieces == [] && answers == []
    {
      buf, done, answers, Pieces := [], false, [], [];
    }

    method OnData(d: seq<Byte>)
      requires Valid()
      modifies this
      ensures Valid() && Pieces == old(Pieces) + [d] && old(answers) <= answers
      ensures old(answers) == [] ==> answers == (match Reaction(Pieces) case Some(a) => [a] case None => [])
    {
      ReactionAfter(Pieces, d);
      Pieces := Pieces + [d];
      if done { return; }
      buf := buf + Decoded(d);
      var nl := LineEnd(buf);
      if nl.None? {
        if |buf| > HOOK_LINE_MAX { done, answers := true, answers + [Oversize]; }
        return;
      }
      var line := buf[..nl.value];
      buf := buf[nl.value + 1..];
      done := true;
      answers := answers + [if |line| > HOOK_LINE_MAX then Oversize else Handled(line)];
    }

    method OnTimeout()
      requires Valid()
      modifies this`done, this`answers
      ensures Valid() && answers == if old(answers) == [] then [Idle] else old(answers)
    {
      if !done { done, answers := true, answers + [Idle]; }
    }
  }

  // ---------------------------------------------------------------- what cutting does

  /** A newline is a character of its own. */
  lemma {:induction false} BoundaryAtNewline(a: seq<Byte>, rest: seq<Byte>)
    ensures Boundary(a + ([NEWLINE] + rest), |a|)
  {
    var b := [NEWLINE] + rest;
    if a != [] {
      assert !Continues(b[0]);
      if Extent(a + b) > |a| { FirstIsCut(a, b); }
      FirstIsLocal(a, b);
      BoundaryAtNewline(a[Extent(a)..], rest);
    }
  }

  lemma {:induction false} NewlineDecodes(a: seq<Byte>, rest: seq<Byte>)
    ensures Decoded(a + ([NEWLINE] + rest)) == Decoded(a) + ([NEWLINE] + Decoded(rest))
  {
    var b := [NEWLINE] + rest;
    BoundaryAtNewline(a, rest);
    CleanCut(a, b);
    assert Extent(b) == 1 && b[1..] == rest && FirstUnits(b) == [NEWLINE];
  }

  lemma {:induction false} FirstIsNoNewline(bs: seq<Byte>)
    requires bs != [] && bs[0] != NEWLINE
    ensures forall i :: 0 <= i < |FirstUnits(bs)| ==> FirstUnits(bs)[i] != NEWLINE
  {
  }

  /** Only a newline decodes to one. */
  lemma {:induction false} NoNewlineDecodes(bs: seq<Byte>)
    requires LineEnd(bs).None?
    ensures LineEnd(Decoded(bs)).None?
  {
    if bs != [] {
      var rest := bs[Extent(bs)..];
      assert forall i :: 0 <= i < |rest| ==> rest[i] == bs[Extent(bs) + i];
      NoNewlineDecodes(rest);
      FirstIsNoNewline(bs);
    }
  }

  /** What arrived before the first newline, in the pieces it arrived in. */
  function LinePieces(pieces: seq<seq<Byte>>): seq<seq<Byte>> {
    if pieces == [] then []
    else
      match LineEnd(pieces[0])
      case Some(n) => [pieces[0][..n]]
      case None => [pieces[0]] + LinePieces(pieces[1..])
  }

  predicate HasLine(pieces: seq<seq<Byte>>) {
    LineEnd(Joined(pieces)).Some?
  }

  /** A text begins with this line, and ends it if `ended`. */
  ghost predicate Begins(text: seq<nat>, line: seq<nat>, ended: bool) {
    && LineEnd(line).None?
    && if ended then line + [NEWLINE] <= text else text == line
  }

  lemma {:induction false} BeginsEarlier(front: seq<nat>, text: seq<nat>, line: seq<nat>, ended: bool)
    requires LineEnd(front).None? && Begins(text, line, ended)
    ensures Begins(front + text, front + line, ended)
  {
    assert forall i :: 0 <= i < |front + line| ==> (front + line)[i] != NEWLINE;
    if ended {
      assert front + (line + [NEWLINE]) == front + line + [NEWLINE];
      assert front + text == front + line + [NEWLINE] + text[|line| + 1..];
    }
  }

  /** A piece that ends the line. */
  lemma {:induction false} LineEndsIn(first: seq<Byte>, n: nat)
    requires LineEnd(first) == Some(n)
    ensures Begins(first, first[..n], true) && Begins(Decoded(first), Decoded(first[..n]), true)
  {
    var line, rest := first[..n], first[n + 1..];
    assert first == line + ([NEWLINE] + rest);
    NewlineDecodes(line, rest);
    NoNewlineDecodes(line);
    Associates(Decoded(line), [NEWLINE], Decoded(rest));
  }

  lemma {:induction false} BeginsLonger(text: seq<nat>, line: seq<nat>, more: seq<nat>)
    requires Begins(text, line, true)
    ensures Begins(text + more, line, true)
  {
  }

  lemma {:induction false} OneLinePiece(line: seq<Byte>)
    ensures Joined([line]) == line && ByPieces([line]) == Decoded(line)
  {
    var pieces := [line];
    assert pieces[1..] == [];
  }

  /** The line's bytes and its text, as they arrive. */
  lemma {:induction false} LineArrives(pieces: seq<seq<Byte>>)
    ensures Begins(Joined(pieces), Joined(LinePieces(pieces)), HasLine(pieces))
    ensures Begins(ByPieces(pieces), ByPieces(LinePieces(pieces)), HasLine(pieces))
  {
    if pieces != [] {
      var first, rest := pieces[0], pieces[1..];
      match LineEnd(first)
      case Some(n) =>
        LineEndOfSum(first, Joined(rest));
        LineEndsIn(first, n);
        OneLinePiece(first[..n]);
        BeginsLonger(first, first[..n], Joined(rest));
        BeginsLonger(Decoded(first), Decoded(first[..n]), ByPieces(rest));
      case None =>
        LineArrives(rest);
        assert LinePieces(pieces)[1..] == LinePieces(rest);
        SameLine(first, Joined(rest));
        NoNewlineDecodes(first);
        BeginsEarlier(first, Joined(rest), Joined(LinePieces(rest)), HasLine(rest));
        BeginsEarlier(Decoded(first), ByPieces(rest), ByPieces(LinePieces(rest)), HasLine(rest));
    }
  }

  lemma {:induction false} SameLine(a: seq<nat>, b: seq<nat>)
    requires LineEnd(a).None?
    ensures LineEnd(a + b).Some? <==> LineEnd(b).Some?
  {
    if LineEnd(b).Some? { assert (a + b)[|a| + LineEnd(b).value] == NEWLINE; }
    if LineEnd(a + b).Some? {
      var n := LineEnd(a + b).value;
      LineEndOfSum(a, b);
      assert b[n - |a|] == NEWLINE;
    }
  }

  lemma {:induction false} WholeBegins(bs: seq<Byte>, line: seq<Byte>, ended: bool)
    requires Begins(bs, line, ended)
    ensures Begins(Decoded(bs), Decoded(line), ended)
  {
    NoNewlineDecodes(line);
    if ended {
      var rest := bs[|line| + 1..];
      assert bs == line + ([NEWLINE] + rest);
      NewlineDecodes(line, rest);
    }
  }

  /** The answer depends on the line alone. */
  lemma {:induction false} AnswerToLine(text: seq<Unit>, line: seq<Unit>, ended: bool)
    requires Begins(text, line, ended)
    ensures AnswerTo(text) ==
      if |line| > HOOK_LINE_MAX then Some(Oversize) else if ended then Some(Handled(line)) else None
  {
    if ended {
      assert text[|line|] == NEWLINE && forall i :: 0 <= i < |line| ==> text[i] == line[i];
      assert LineEnd(text) == Some(|line|) && text[..|line|] == line;
    }
  }

  /**
   A connection answers as if its bytes had come at once if and only if no piece of the line ends inside a
   character, or the line is too long even undamaged, or nothing is due yet either way.
   */
  lemma {:induction false} CuttingIsInvisibleExactly(pieces: seq<seq<Byte>>)
    ensures var line := LinePieces(pieces);
      Reaction(pieces) == AnswerTo(Decoded(Joined(pieces))) <==>
        || Clean(line)
        || |Decoded(Joined(line))| > HOOK_LINE_MAX
        || (!HasLine(pieces) && |ByPieces(line)| <= HOOK_LINE_MAX)
  {
    var line := LinePieces(pieces);
    ReactionIsToTheText(pieces);
    LineArrives(pieces);
    WholeBegins(Joined(pieces), Joined(line), HasLine(pieces));
    AnswerToLine(ByPieces(pieces), ByPieces(line), HasLine(pieces));
    AnswerToLine(Decoded(Joined(pieces)), Decoded(Joined(line)), HasLine(pieces));
    PiecesAgainstWhole(line);
    PiecesDecodeExactlyIfClean(line);
  }

  lemma {:induction false} NewlineAtEnd(last: seq<Byte>)
    ensures Decoded(last + [NEWLINE]) == Decoded(last) + [NEWLINE]
  {
    var none: seq<Byte> := [];
    NewlineDecodes(last, none);
    assert [NEWLINE] + none == [NEWLINE] && [NEWLINE] + Decoded(none) == [NEWLINE];
  }

  lemma {:induction false} EndedLine(before: seq<seq<Byte>>, last: seq<Byte>, text: seq<Unit>)
    requires LineEnd(text).None? && text == ByPieces(before) + Decoded(last) && |text| <= HOOK_LINE_MAX
    ensures Reaction(before + [last + [NEWLINE]]) == Some(Handled(text))
  {
    ReactionIsToTheText(before + [last + [NEWLINE]]);
    OnePieceMore(before, last + [NEWLINE]);
    NewlineAtEnd(last);
    Associates(ByPieces(before), Decoded(last), [NEWLINE]);
    AnswerToLine(text + [NEWLINE], text, true);
  }

  lemma {:induction false} TwoByteCharacter(lead: Byte, trail: Byte)
    requires Trailing(lead) == 1 && Continues(trail)
    ensures Decoded([lead, trail]) == [(lead as int - 0xC0) * 0x40 + Low(trail)]
    ensures Decoded([lead]) == [REPLACEMENT] == Decoded([trail])
  {
    var a: seq<Byte>, b: seq<Byte>, whole: seq<Byte> := [lead], [trail], [lead, trail];
    assert a[1..] == [] && b[1..] == [] && whole[2..] == [];
    assert Extent(whole) == 2 && !Broken(whole);
    assert UnitsOf(FirstScalar(whole)) == [FirstScalar(whole)];
  }

  /** The same bytes, at once and cut inside their one character: the lines handled are different. */
  lemma {:induction false} CutCharacterChangesTheLine(lead: Byte, trail: Byte)
    requires Trailing(lead) == 1 && Continues(trail)
    ensures Reaction([[lead, trail, NEWLINE]]) == Some(Handled([(lead as int - 0xC0) * 0x40 + Low(trail)]))
    ensures Reaction([[lead], [trail, NEWLINE]]) == Some(Handled([REPLACEMENT, REPLACEMENT]))
  {
    var a: seq<Byte>, b: seq<Byte>, whole: seq<Byte> := [lead], [trail], [lead, trail];
    TwoByteCharacter(lead, trail);
    OneLinePiece(a);
    EndedLine([a], b, [REPLACEMENT, REPLACEMENT]);
    assert b + [NEWLINE] == [trail, NEWLINE];
    assert [a] + [b + [NEWLINE]] == [a, b + [NEWLINE]];
    EndedLine([], whole, Decoded(whole));
    assert whole + [NEWLINE] == [lead, trail, NEWLINE];
    assert [] + [whole + [NEWLINE]] == [whole + [NEWLINE]];
  }
}
