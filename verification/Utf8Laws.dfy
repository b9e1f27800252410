/** What is a character and how much of one a replacement stands for, told by what the encoder writes. */
module Utf8Laws {
  import opened Utf8

  /** The text begins with the encoding of this character. */
  predicate Writes(c: Scalar, bs: seq<Byte>) {
    EncodedOne(c) <= bs
  }

  lemma {:induction false} TwoBytes(bs: seq<Byte>)
    requires bs != [] && !Broken(bs) && Trailing(bs[0]) == 1
    ensures EncodedOne(FirstScalar(bs)) == bs[..Extent(bs)]
  {
    var c := FirstScalar(bs);
    assert c / 0x40 == bs[0] - 0xC0 && c % 0x40 == Low(bs[1]);
  }

  lemma {:induction false} ThreeBytes(bs: seq<Byte>)
    requires bs != [] && !Broken(bs) && Trailing(bs[0]) == 2
    ensures EncodedOne(FirstScalar(bs)) == bs[..Extent(bs)]
  {
    var c := FirstScalar(bs);
    assert c / 0x1000 == bs[0] - 0xE0 && c / 0x40 % 0x40 == Low(bs[1]) && c % 0x40 == Low(bs[2]);
  }

  lemma {:induction false} SixBits(a: nat, b: nat, c: nat, d: nat, n: nat)
    requires b < 0x40 && c < 0x40 && d < 0x40 && n == a * 0x4_0000 + b * 0x1000 + c * 0x40 + d
    ensures n / 0x4_0000 == a && n / 0x1000 % 0x40 == b && n / 0x40 % 0x40 == c && n % 0x40 == d
  {
    var ab := a * 0x40 + b;
    var abc := ab * 0x40 + c;
    assert n == abc * 0x40 + d && n / 0x40 == abc && n % 0x40 == d;
    assert abc / 0x40 == ab && abc % 0x40 == c;
    assert n == ab * 0x1000 + (c * 0x40 + d) && n / 0x1000 == ab && ab % 0x40 == b;
    assert n == a * 0x4_0000 + (b * 0x1000 + c * 0x40 + d) && n / 0x4_0000 == a;
  }

  lemma {:induction false} FourBytes(bs: seq<Byte>)
    requires bs != [] && !Broken(bs) && Trailing(bs[0]) == 3
    ensures EncodedOne(FirstScalar(bs)) == bs[..Extent(bs)]
  {
    var c := FirstScalar(bs);
    assert c >= 0x1_0000 && Extent(bs) == 4;
    SixBits(bs[0] - 0xF0, Low(bs[1]), Low(bs[2]), Low(bs[3]), c);
  }

  lemma {:induction false} CharacterIsItsEncoding(bs: seq<Byte>)
    requires bs != [] && !Broken(bs)
    ensures EncodedOne(FirstScalar(bs)) == bs[..Extent(bs)]
  {
    match Trailing(bs[0])
    case 0 =>
    case 1 => TwoBytes(bs);
    case 2 => ThreeBytes(bs);
    case _ => FourBytes(bs);
  }

  lemma {:induction false} WrittenIsRead(c: Scalar, bs: seq<Byte>)
    requires Writes(c, bs)
    ensures bs != [] && Extent(bs) == |EncodedOne(c)| && !Broken(bs) && FirstScalar(bs) == c
  {
    OneReadsBack(c, bs[|EncodedOne(c)|..]);
    assert bs == EncodedOne(c) + bs[|EncodedOne(c)|..];
  }

  /** A text begins with a character exactly if it begins with the encoding of one, and then with that one. */
  lemma {:induction false} CharacterExactly(bs: seq<Byte>, c: Scalar)
    requires bs != []
    ensures !Broken(bs) && FirstScalar(bs) == c <==> Writes(c, bs)
    ensures Broken(bs) <==> forall d :: !Writes(d, bs)
  {
    if Writes(c, bs) { WrittenIsRead(c, bs); }
    if !Broken(bs) {
      CharacterIsItsEncoding(bs);
      assert Writes(FirstScalar(bs), bs);
    } else {
      forall d ensures !Writes(d, bs) { if Writes(d, bs) { WrittenIsRead(d, bs); } }
    }
  }

  /** These bytes begin some character. */
  ghost predicate Begins(bs: seq<Byte>) {
    exists c :: bs <= EncodedOne(c)
  }

  /** Bytes of which only the end is missing. */
  predicate Unfinished(bs: seq<Byte>) {
    bs != [] && |bs| < Trailing(bs[0]) + 1 && Extent(bs) == |bs|
  }

  lemma {:induction false} UnfinishedBegins(bs: seq<Byte>)
    requires Unfinished(bs)
    ensures Begins(bs)
  {
    var second: Byte := if bs[0] == 0xE0 then 0xA0 else if bs[0] == 0xF0 then 0x90 else 0x80;
    var more: seq<Byte> := (if |bs| == 1 then [second] else []) + [0x80, 0x80];
    var full := (bs + more)[..Trailing(bs[0]) + 1];
    assert bs <= full && !Broken(full) && Extent(full) == |full|;
    CharacterIsItsEncoding(full);
    assert bs <= EncodedOne(FirstScalar(full));
  }

  lemma {:induction false} BeginningIsWhole(bs: seq<Byte>, n: nat, c: Scalar)
    requires 1 <= n <= |bs| && bs[..n] <= EncodedOne(c)
    ensures Extent(bs) >= n
  {
    var whole := EncodedOne(c);
    WrittenIsRead(c, whole);
    assert forall i :: 0 <= i < n ==> bs[i] == bs[..n][i] == whole[i];
  }

  /**
   One replacement character stands for as much as begins a character and cannot be gone on with: one byte if
   it begins none, and otherwise the longest stretch that begins one.
   */
  lemma {:induction false} ReplacedExactly(bs: seq<Byte>, n: nat)
    requires bs != [] && Broken(bs) && 1 <= n <= |bs|
    ensures FirstUnits(bs) == [0xFFFD]
    ensures Extent(bs) >= n <==> n == 1 || Begins(bs[..n])
  {
    if n > 1 && Extent(bs) >= n {
      var front := bs[..n];
      assert Extent(front) == n;
      UnfinishedBegins(front);
    }
    if Begins(bs[..n]) {
      var c :| bs[..n] <= EncodedOne(c);
      BeginningIsWhole(bs, n, c);
    }
  }
}
