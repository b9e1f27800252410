/**
 UTF-8 as the host decodes it (section 3 of RFC 3629): every stretch of bytes that begins a character and
 does not finish it, and every byte that begins none, reads as one replacement character. Text is a
 sequence of UTF-16 code units, which is what the host counts and compares.
 */
module Utf8 {

  type Byte = n: nat | n < 0x100

  type Unit = n: nat | n < 0x1_0000

  type Scalar = n: nat | n < 0x11_0000 && !(0xD800 <= n < 0xE000)

  const REPLACEMENT: Unit := 0xFFFD

  // ---------------------------------------------------------------- decoding

  predicate Continues(b: Byte) {
    0x80 <= b < 0xC0
  }

  /** How many bytes a character that begins with this one has after it; none for ASCII and for bytes that begin nothing. */
  function Trailing(first: Byte): nat {
    if 0xC2 <= first < 0xE0 then 1 else if 0xE0 <= first < 0xF0 then 2 else if 0xF0 <= first < 0xF5 then 3 else 0
  }

  /** The second byte also rules out overlong forms, surrogates and values past the last character. */
  predicate Seconds(first: Byte, b: Byte) {
    && Continues(b)
    && (first == 0xE0 ==> b >= 0xA0) && (first == 0xED ==> b < 0xA0)
    && (first == 0xF0 ==> b >= 0x90) && (first == 0xF4 ==> b < 0x90)
  }

  /** How many bytes the first character of a text takes, or what there is of it. */
  function Extent(bs: seq<Byte>): (n: nat)
    requires bs != []
    ensures 1 <= n <= |bs| && n <= Trailing(bs[0]) + 1
  {
    var m := Trailing(bs[0]);
    if m == 0 || |bs| == 1 || !Seconds(bs[0], bs[1]) then 1
    else if m == 1 || |bs| == 2 || !Continues(bs[2]) then 2
    else if m == 2 || |bs| == 3 || !Continues(bs[3]) then 3
    else 4
  }

  predicate Broken(bs: seq<Byte>)
    requires bs != []
  {
    bs[0] >= 0x80 && (Trailing(bs[0]) == 0 || Extent(bs) <= Trailing(bs[0]))
  }

  function UnitsOf(c: Scalar): seq<Unit> {
    if c < 0x1_0000 then [c] else [0xD800 + (c - 0x1_0000) / 0x400, 0xDC00 + (c - 0x1_0000) % 0x400]
  }

  /** What a byte after the first adds. */
  function Low(b: Byte): int {
    b - 0x80
  }

  function FirstScalar(bs: seq<Byte>): Scalar
    requires bs != [] && !Broken(bs)
  {
    var lead: int := bs[0];
    match Trailing(bs[0])
    case 0 => lead
    case 1 => (lead - 0xC0) * 0x40 + Low(bs[1])
    case 2 => (lead - 0xE0) * 0x1000 + Low(bs[1]) * 0x40 + Low(bs[2])
    case _ => (lead - 0xF0) * 0x4_0000 + Low(bs[1]) * 0x1000 + Low(bs[2]) * 0x40 + Low(bs[3])
  }

  function FirstUnits(bs: seq<Byte>): seq<Unit>
    requires bs != []
  {
    if Broken(bs) then [REPLACEMENT] else UnitsOf(FirstScalar(bs))
  }

  function Decoded(bs: seq<Byte>): seq<Unit> {
    if bs == [] then [] else FirstUnits(bs) + Decoded(bs[Extent(bs)..])
  }

  /** Position `n` is not inside a character, or inside what there is of one. */
  predicate Boundary(bs: seq<Byte>, n: nat) {
    n == 0 || (bs != [] && n >= Extent(bs) && Boundary(bs[Extent(bs)..], n - Extent(bs)))
  }

  // ---------------------------------------------------------------- encoding

  function EncodedOne(c: Scalar): seq<Byte> {
    if c < 0x80 then [c]
    else if c < 0x800 then [0xC0 + c / 0x40, 0x80 + c % 0x40]
    else if c < 0x1_0000 then [0xE0 + c / 0x1000, 0x80 + c / 0x40 % 0x40, 0x80 + c % 0x40]
    else [0xF0 + c / 0x4_0000, 0x80 + c / 0x1000 % 0x40, 0x80 + c / 0x40 % 0x40, 0x80 + c % 0x40]
  }

  function Encoded(cs: seq<Scalar>): seq<Byte> {
    if cs == [] then [] else EncodedOne(cs[0]) + Encoded(cs[1..])
  }

  function AllUnits(cs: seq<Scalar>): seq<Unit> {
    if cs == [] then [] else UnitsOf(cs[0]) + AllUnits(cs[1..])
  }

  lemma {:induction false} OneOfTwo(c: Scalar, bs: seq<Byte>)
    requires 0x80 <= c < 0x800 && EncodedOne(c) <= bs
    ensures Extent(bs) == 2 && !Broken(bs) && FirstScalar(bs) == c
  {
    assert bs[0] == EncodedOne(c)[0] && bs[1] == EncodedOne(c)[1];
  }

  lemma {:induction false} OneOfThree(c: Scalar, bs: seq<Byte>)
    requires 0x800 <= c < 0x1_0000 && EncodedOne(c) <= bs
    ensures Extent(bs) == 3 && !Broken(bs) && FirstScalar(bs) == c
  {
    var one := EncodedOne(c);
    assert bs[0] == one[0] && bs[1] == one[1] && bs[2] == one[2];
    assert c / 0x40 == c / 0x1000 * 0x40 + c / 0x40 % 0x40;
  }

  lemma {:induction false} OneOfFour(c: Scalar, bs: seq<Byte>)
    requires 0x1_0000 <= c && EncodedOne(c) <= bs
    ensures Extent(bs) == 4 && !Broken(bs) && FirstScalar(bs) == c
  {
    var one := EncodedOne(c);
    assert bs[0] == one[0] && bs[1] == one[1] && bs[2] == one[2] && bs[3] == one[3];
    assert c / 0x40 == c / 0x1000 * 0x40 + c / 0x40 % 0x40;
    assert c / 0x1000 == c / 0x4_0000 * 0x40 + c / 0x1000 % 0x40;
  }

  lemma {:induction false} OneReadsBack(c: Scalar, rest: seq<Byte>)
    ensures var bs := EncodedOne(c) + rest;
      Extent(bs) == |EncodedOne(c)| && !Broken(bs) && FirstScalar(bs) == c && bs[Extent(bs)..] == rest
  {
    var bs := EncodedOne(c) + rest;
    assert EncodedOne(c) <= bs;
    if c < 0x80 {
    } else if c < 0x800 {
      OneOfTwo(c, bs);
    } else if c < 0x1_0000 {
      OneOfThree(c, bs);
    } else {
      OneOfFour(c, bs);
    }
  }

  /** What was encoded is read back, character by character. */
  lemma {:induction false} EncodedReadsBack(cs: seq<Scalar>)
    ensures Decoded(Encoded(cs)) == AllUnits(cs)
  {
    if cs != [] {
      OneReadsBack(cs[0], Encoded(cs[1..]));
      EncodedReadsBack(cs[1..]);
    }
  }

  /** `n` bytes are the encoding of the first so many characters. */
  ghost predicate EndsCharacter(cs: seq<Scalar>, n: nat) {
    exists k: nat :: k <= |cs| && n == |Encoded(cs[..k])|
  }

  lemma {:induction false} EndsLaterCharacter(cs: seq<Scalar>, n: nat)
    requires cs != [] && n > 0
    ensures EndsCharacter(cs, n) <==> n >= |EncodedOne(cs[0])| && EndsCharacter(cs[1..], n - |EncodedOne(cs[0])|)
  {
    var m, rest := |EncodedOne(cs[0])|, cs[1..];
    if EndsCharacter(cs, n) {
      var k: nat :| k <= |cs| && n == |Encoded(cs[..k])|;
      EncodedFirst(cs, k);
      assert n - m == |Encoded(rest[..k - 1])|;
    }
    if n >= m && EndsCharacter(rest, n - m) {
      var k: nat :| k <= |rest| && n - m == |Encoded(rest[..k])|;
      EncodedFirst(cs, k + 1);
    }
  }

  /** And the boundaries are the ends of whole characters. */
  lemma {:induction false} BoundariesAreCharacters(cs: seq<Scalar>, n: nat)
    ensures Boundary(Encoded(cs), n) <==> EndsCharacter(cs, n)
  {
    if n == 0 {
      assert cs[..0] == [];
    } else if cs != [] {
      OneReadsBack(cs[0], Encoded(cs[1..]));
      EndsLaterCharacter(cs, n);
      if n >= |EncodedOne(cs[0])| { BoundariesAreCharacters(cs[1..], n - |EncodedOne(cs[0])|); }
    }
  }

  lemma {:induction false} EncodedFirst(cs: seq<Scalar>, k: nat)
    requires 1 <= k <= |cs|
    ensures Encoded(cs[..k]) == EncodedOne(cs[0]) + Encoded(cs[1..][..k - 1])
  {
    assert cs[..k][1..] == cs[1..][..k - 1];
  }

  // ---------------------------------------------------------------- cutting in two

  /** A first character that ends within the front is the front's own first character. */
  lemma {:induction false} FirstIsLocal(a: seq<Byte>, b: seq<Byte>)
    requires a != [] && Extent(a + b) <= |a|
    ensures Extent(a) == Extent(a + b) && FirstUnits(a) == FirstUnits(a + b)
    ensures (a + b)[Extent(a)..] == a[Extent(a)..] + b
  {
    var n := Extent(a + b);
    assert forall i :: 0 <= i < |a| ==> (a + b)[i] == a[i];
  }

  /** A first character that goes past the front leaves it broken, and the rest of it begins nothing. */
  lemma {:induction false} FirstIsCut(a: seq<Byte>, b: seq<Byte>)
    requires a != [] && Extent(a + b) > |a|
    ensures Extent(a) == |a| && Broken(a)
    ensures forall i :: 0 <= i < Extent(a + b) - |a| ==> Continues(b[i])
  {
    var n := Extent(a + b);
    assert forall i :: 0 <= i < |a| ==> (a + b)[i] == a[i];
    assert forall i :: 0 <= i < n - |a| ==> b[i] == (a + b)[|a| + i];
  }

  function Replacements(t: seq<Unit>): nat {
    if t == [] then 0 else (if t[0] == REPLACEMENT then 1 else 0) + Replacements(t[1..])
  }

  lemma {:induction false} ReplacementsOfSum(a: seq<Unit>, b: seq<Unit>)
    ensures Replacements(a + b) == Replacements(a) + Replacements(b)
  {
    if a == [] {
      assert a + b == b;
    } else {
      ReplacementsOfSum(a[1..], b);
      assert (a + b)[1..] == a[1..] + b;
    }
  }

  /** Bytes that begin nothing are replaced one by one. */
  lemma {:induction false} StrayBytes(b: seq<Byte>, n: nat)
    requires n <= |b| && forall i :: 0 <= i < n ==> Continues(b[i])
    ensures |Decoded(b)| == n + |Decoded(b[n..])| && Replacements(Decoded(b)) == n + Replacements(Decoded(b[n..]))
  {
    if n > 0 {
      assert Extent(b) == 1 && Broken(b);
      StrayBytes(b[1..], n - 1);
      assert b[1..][n - 1..] == b[n..];
      ReplacementsOfSum([REPLACEMENT], Decoded(b[1..]));
    }
  }

  lemma {:induction false} FirstCounts(bs: seq<Byte>)
    requires bs != []
    ensures 1 <= |FirstUnits(bs)| <= 2 && Replacements(FirstUnits(bs)) <= 1
  {
    var u := FirstUnits(bs);
    if |u| == 2 {
      assert u[0] < 0xE000 && u[1] < 0xE000 && u[1..] == [u[1]];
      assert Replacements([u[1]]) == Replacements([]);
    } else {
      assert u[1..] == [];
    }
  }

  /** Decoding in two pieces is decoding at once, if the cut is at a boundary. */
  lemma {:induction false} CleanCut(a: seq<Byte>, b: seq<Byte>)
    requires Boundary(a + b, |a|)
    ensures Decoded(a + b) == Decoded(a) + Decoded(b)
  {
    if a == [] {
      assert a + b == b;
    } else {
      FirstIsLocal(a, b);
      CleanCut(a[Extent(a)..], b);
      assert Decoded(a + b) == FirstUnits(a) + (Decoded(a[Extent(a)..]) + Decoded(b));
    }
  }

  /** A cut inside a character adds replacements, and never shortens the text. */
  lemma {:induction false} UncleanCut(a: seq<Byte>, b: seq<Byte>)
    requires !Boundary(a + b, |a|)
    ensures |Decoded(a + b)| <= |Decoded(a)| + |Decoded(b)|
    ensures Replacements(Decoded(a + b)) < Replacements(Decoded(a)) + Replacements(Decoded(b))
  {
    var whole := a + b;
    if Extent(whole) <= |a| {
      FirstIsLocal(a, b);
      var rest := a[Extent(a)..];
      UncleanCut(rest, b);
      ReplacementsOfSum(FirstUnits(a), Decoded(rest));
      ReplacementsOfSum(FirstUnits(a), Decoded(rest + b));
    } else {
      var n := Extent(whole) - |a|;
      FirstIsCut(a, b);
      StrayBytes(b, n);
      FirstCounts(whole);
      assert whole[Extent(whole)..] == b[n..];
      ReplacementsOfSum(FirstUnits(whole), Decoded(b[n..]));
      assert a[|a|..] == [] && Decoded(a) == [REPLACEMENT];
    }
  }

  /** Boundaries past a boundary are those of what follows it. */
  lemma {:induction false} BoundaryOfRest(a: seq<Byte>, b: seq<Byte>, n: nat)
    requires Boundary(a + b, |a|)
    ensures Boundary(a + b, |a| + n) <==> Boundary(b, n)
  {
    if a == [] {
      assert a + b == b;
    } else {
      FirstIsLocal(a, b);
      var whole, rest := a + b, a[Extent(a)..];
      PastTheFirst(whole, rest + b, |a|);
      BoundaryOfRest(rest, b, n);
      PastTheFirst(whole, rest + b, |a| + n);
    }
  }

  lemma {:induction false} PastTheFirst(bs: seq<Byte>, rest: seq<Byte>, n: nat)
    requires bs != [] && rest == bs[Extent(bs)..] && n >= Extent(bs)
    ensures Boundary(bs, n) <==> Boundary(rest, n - Extent(bs))
  {
  }

  // ---------------------------------------------------------------- cutting in many

  function Joined(pieces: seq<seq<Byte>>): seq<Byte> {
    if pieces == [] then [] else pieces[0] + Joined(pieces[1..])
  }

  /** Each piece decoded by itself. */
  function ByPieces(pieces: seq<seq<Byte>>): seq<Unit> {
    if pieces == [] then [] else Decoded(pieces[0]) + ByPieces(pieces[1..])
  }

  /** No piece ends inside a character. */
  predicate Clean(pieces: seq<seq<Byte>>) {
    forall k :: 0 <= k <= |pieces| ==> Boundary(Joined(pieces), |Joined(pieces[..k])|)
  }

  lemma {:induction false} CleanRest(pieces: seq<seq<Byte>>)
    requires pieces != []
    ensures Clean(pieces) <==> Boundary(Joined(pieces), |pieces[0]|) && Clean(pieces[1..])
  {
    var rest := pieces[1..];
    forall k | 1 <= k <= |pieces| ensures Joined(pieces[..k]) == pieces[0] + Joined(rest[..k - 1]) {
      assert pieces[..k][1..] == rest[..k - 1];
    }
    if Boundary(Joined(pieces), |pieces[0]|) {
      forall k | 0 <= k <= |rest|
        ensures Boundary(Joined(pieces), |Joined(pieces[..k + 1])|) <==> Boundary(Joined(rest), |Joined(rest[..k])|)
      {
        BoundaryOfRest(pieces[0], Joined(rest), |Joined(rest[..k])|);
      }
      assert Boundary(Joined(pieces), |Joined(pieces[..0])|);
      if Clean(rest) {
        forall k | 0 <= k <= |pieces| ensures Boundary(Joined(pieces), |Joined(pieces[..k])|) {
          if k > 0 { assert Boundary(Joined(rest), |Joined(rest[..k - 1])|); }
        }
      }
    } else {
      assert rest[..0] == [] && |Joined(pieces[..1])| == |pieces[0]|;
    }
  }

  /** Clean pieces give the text; others give one that is no shorter and has more replacements in it. */
  lemma {:induction false} PiecesAgainstWhole(pieces: seq<seq<Byte>>)
    ensures |Decoded(Joined(pieces))| <= |ByPieces(pieces)|
    ensures Replacements(Decoded(Joined(pieces))) <= Replacements(ByPieces(pieces))
    ensures Clean(pieces) ==> ByPieces(pieces) == Decoded(Joined(pieces))
    ensures !Clean(pieces) ==> Replacements(Decoded(Joined(pieces))) < Replacements(ByPieces(pieces))
  {
    if pieces != [] {
      var first, rest := pieces[0], pieces[1..];
      PiecesAgainstWhole(rest);
      CleanRest(pieces);
      ReplacementsOfSum(Decoded(first), ByPieces(rest));
      ReplacementsOfSum(Decoded(first), Decoded(Joined(rest)));
      if Boundary(Joined(pieces), |first|) { CleanCut(first, Joined(rest)); } else { UncleanCut(first, Joined(rest)); }
    }
  }

  /** Decoding piece by piece is decoding at once if and only if no piece ends inside a character. */
  lemma {:induction false} PiecesDecodeExactlyIfClean(pieces: seq<seq<Byte>>)
    ensures ByPieces(pieces) == Decoded(Joined(pieces)) <==> Clean(pieces)
  {
    PiecesAgainstWhole(pieces);
  }
}
