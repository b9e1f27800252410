/** Which IPv4 destination an address embeds, octet by octet, and what the numerals mean digit by digit. */
module Ipv6Laws {
  import opened Options
  import opened Text
  import opened Ipv6
  import opened Ipv6Spellings

  // ---------------------------------------------------------------- numerals

  const HEX_DIGITS := "0123456789abcdef"

  lemma {:induction false} HexDigitExactly(c: char, n: nat)
    ensures HexDigit(c) == Some(n) <==> n < 16 && HEX_DIGITS[n] == c
  {
  }

  lemma {:induction false} HexLast(s: string, c: char)
    requires IsHex(s) && HexDigit(c).Some?
    ensures IsHex(s + [c]) && HexValue(s + [c]) == HexValue(s) * 16 + HexDigit(c).value
  {
    assert (s + [c])[..|s|] == s;
  }

  /** Four digits, of which the first may be zero, and what any text of digits is worth one digit on. */
  lemma {:induction false} GroupValue(a: nat, b: nat, c: nat, d: nat)
    requires a < 16 && b < 16 && c < 16 && d < 16
    ensures var s := [HEX_DIGITS[a], HEX_DIGITS[b], HEX_DIGITS[c], HEX_DIGITS[d]];
      IsGroup(s) && HexValue(s) == a * 4096 + b * 256 + c * 16 + d
  {
    var none: string := "";
    HexDigitExactly(HEX_DIGITS[a], a);
    HexDigitExactly(HEX_DIGITS[b], b);
    HexDigitExactly(HEX_DIGITS[c], c);
    HexDigitExactly(HEX_DIGITS[d], d);
    HexLast(none, HEX_DIGITS[a]);
    HexLast(none + [HEX_DIGITS[a]], HEX_DIGITS[b]);
    HexLast(none + [HEX_DIGITS[a]] + [HEX_DIGITS[b]], HEX_DIGITS[c]);
    HexLast(none + [HEX_DIGITS[a]] + [HEX_DIGITS[b]] + [HEX_DIGITS[c]], HEX_DIGITS[d]);
    assert [HEX_DIGITS[a], HEX_DIGITS[b], HEX_DIGITS[c], HEX_DIGITS[d]] == none + [HEX_DIGITS[a]] + [HEX_DIGITS[b]] + [HEX_DIGITS[c]] + [HEX_DIGITS[d]];
  }

  lemma {:induction false} LeadingZero(s: string)
    requires IsHex(s)
    ensures IsHex("0" + s) && HexValue("0" + s) == HexValue(s)
  {
    if s == "" {
      HexLast("", '0');
      assert "0" + s == "" + ['0'];
    } else {
      var front, last := s[..|s| - 1], s[|s| - 1];
      LeadingZero(front);
      HexLast("0" + front, last);
      assert "0" + s == ("0" + front) + [last];
    }
  }

  /** A group is at most four digits, so no more than 16 bits. */
  lemma {:induction false} GroupFits(s: string, digits: nat)
    requires IsHex(s) && |s| <= digits
    ensures HexValue(s) < Pow16(digits)
  {
    if s != "" { GroupFits(s[..|s| - 1], digits - 1); }
    else { PowIsPositive(digits); }
  }

  lemma {:induction false} PowIsPositive(k: nat)
    ensures Pow16(k) >= 1
  {
    if k > 0 { PowIsPositive(k - 1); }
  }

  predicate Digits(s: string) {
    forall i :: 0 <= i < |s| ==> '0' <= s[i] <= '9'
  }

  lemma {:induction false} DecimalLast(s: string, c: char)
    requires Digits(s) && '0' <= c <= '9'
    ensures Digits(s + [c]) && DecimalValue(s + [c]) == DecimalValue(s) * 10 + (c - '0') as nat
  {
    assert (s + [c])[..|s|] == s;
  }

  lemma {:induction false} LastDigit(n: nat)
    ensures '0' <= '0' + (n % 10) as char <= '9' && ('0' + (n % 10) as char - '0') as nat == n % 10
    ensures Decimal(n) == (if n < 10 then "" else Decimal(n / 10)) + ['0' + (n % 10) as char]
  {
  }

  /** A number reads as itself. */
  lemma {:induction false} DecimalReadsBack(n: nat)
    ensures DecimalValue(Decimal(n)) == n
  {
    var none: string := "";
    LastDigit(n);
    if n >= 10 { DecimalReadsBack(n / 10); }
    DecimalLast(if n < 10 then none else Decimal(n / 10), '0' + (n % 10) as char);
  }

  /** And is written in its shortest form. */
  lemma {:induction false} DecimalIsShortest(n: nat)
    ensures n > 0 ==> Decimal(n)[0] != '0'
    ensures n < 10 ==> |Decimal(n)| == 1
  {
    LastDigit(n);
    if n >= 10 { DecimalIsShortest(n / 10); }
  }

  lemma {:induction false} ThreeDigits(a: char, b: char, c: char)
    requires '0' <= a <= '9' && '0' <= b <= '9' && '0' <= c <= '9'
    ensures DecimalValue([a, b, c]) == (a - '0') as nat * 100 + (b - '0') as nat * 10 + (c - '0') as nat
  {
    DecimalLast("", a);
    DecimalLast("" + [a], b);
    DecimalLast("" + [a] + [b], c);
    assert [a, b, c] == "" + [a] + [b] + [c];
  }

  // ---------------------------------------------------------------- the embedded destination

  predicate IsWords(g: seq<nat>) {
    |g| == 8 && forall i :: 0 <= i < 8 ==> g[i] < 0x1_0000
  }

  predicate IsOctets(q: Quad) {
    q.a <= 255 && q.b <= 255 && q.c <= 255 && q.d <= 255
  }

  /** The bytes of an address. */
  function ByteAt(g: seq<nat>, i: nat): nat
    requires |g| == 8 && i < 16
  {
    if i % 2 == 0 then g[i / 2] / 256 else g[i / 2] % 256
  }

  predicate BytesAre(g: seq<nat>, from: nat, q: Quad)
    requires |g| == 8 && from <= 12
  {
    ByteAt(g, from) == q.a && ByteAt(g, from + 1) == q.b && ByteAt(g, from + 2) == q.c && ByteAt(g, from + 3) == q.d
  }

  predicate ZeroBytes(g: seq<nat>, from: nat, to: nat)
    requires |g| == 8 && to <= 16
  {
    forall i: nat :: from <= i < to ==> ByteAt(g, i) == 0
  }

  /** The four kinds of address that embed an IPv4 one, by their bytes: mapped, compatible, NAT64 and 6to4. */
  predicate Embeds(g: seq<nat>, q: Quad)
    requires |g| == 8
  {
    || (ZeroBytes(g, 0, 10) && ByteAt(g, 10) == 0xff && ByteAt(g, 11) == 0xff && BytesAre(g, 12, q))
    || (ZeroBytes(g, 0, 12) && !ZeroBytes(g, 12, 16) && BytesAre(g, 12, q))
    || (BytesAre(g, 0, Quad(0, 0x64, 0xff, 0x9b)) && ZeroBytes(g, 4, 12) && BytesAre(g, 12, q))
    || (ByteAt(g, 0) == 0x20 && ByteAt(g, 1) == 0x02 && BytesAre(g, 2, q))
  }

  lemma {:induction false} ZeroWord(g: seq<nat>, i: nat)
    requires IsWords(g) && i < 8
    ensures g[i] == 0 <==> ByteAt(g, 2 * i) == 0 && ByteAt(g, 2 * i + 1) == 0
  {
  }

  lemma {:induction false} ZeroWords(g: seq<nat>, from: nat, to: nat)
    requires IsWords(g) && from <= to <= 8
    ensures ZeroBytes(g, 2 * from, 2 * to) <==> forall i :: from <= i < to ==> g[i] == 0
  {
    if ZeroBytes(g, 2 * from, 2 * to) {
      forall i: nat | from <= i < to ensures g[i] == 0 {
        ZeroWord(g, i);
        assert ByteAt(g, 2 * i) == 0 && ByteAt(g, 2 * i + 1) == 0;
      }
    }
    if forall i :: from <= i < to ==> g[i] == 0 {
      forall i: nat | 2 * from <= i < 2 * to ensures ByteAt(g, i) == 0 { assert g[i / 2] == 0; }
    }
  }

  lemma {:induction false} BytesOfPair(g: seq<nat>, i: nat, q: Quad)
    requires IsWords(g) && i < 7 && IsOctets(q)
    ensures BytesAre(g, 2 * i, q) <==> g[i] == q.a * 256 + q.b && g[i + 1] == q.c * 256 + q.d
  {
  }

  /** The four bytes of two words. */
  function QuadAt(hi: nat, lo: nat): Quad {
    Quad(hi / 256, hi % 256, lo / 256, lo % 256)
  }

  lemma {:induction false} Rejoined(n: nat)
    requires n < 0x1_0000
    ensures n / 256 * 256 + n % 256 == n && n / 256 <= 255 && n % 256 <= 255
  {
  }

  lemma {:induction false} BytesOfWords(g: seq<nat>, i: nat)
    requires |g| == 8 && i < 7
    ensures ByteAt(g, 2 * i) == g[i] / 256 && ByteAt(g, 2 * i + 1) == g[i] % 256
    ensures ByteAt(g, 2 * i + 2) == g[i + 1] / 256 && ByteAt(g, 2 * i + 3) == g[i + 1] % 256
  {
    assert (2 * i) / 2 == i && (2 * i + 1) / 2 == i && (2 * i + 2) / 2 == i + 1 && (2 * i + 3) / 2 == i + 1;
  }

  lemma {:induction false} TextOfPair(hi: nat, lo: nat, q: Quad)
    requires hi < 0x1_0000 && lo < 0x1_0000
    ensures Dotted(hi, lo) == QuadText(q) <==> q == QuadAt(hi, lo)
  {
    var p := QuadAt(hi, lo);
    Rejoined(hi);
    Rejoined(lo);
    DottedIsQuadText(p);
    if QuadText(p) == QuadText(q) { QuadTextIsUnique(p, q); }
  }

  lemma {:induction false} BytesOfText(g: seq<nat>, i: nat, q: Quad)
    requires IsWords(g) && i < 7
    ensures Dotted(g[i], g[i + 1]) == QuadText(q) <==> BytesAre(g, 2 * i, q)
  {
    TextOfPair(g[i], g[i + 1], q);
    BytesOfWords(g, i);
    assert BytesAre(g, 2 * i, q) <==> q == QuadAt(g[i], g[i + 1]);
  }

  /** Different destinations are written differently. */
  lemma {:induction false} QuadTextIsUnique(p: Quad, q: Quad)
    requires QuadText(p) == QuadText(q)
    ensures p == q
  {
    var ps, qs := [Decimal(p.a), Decimal(p.b), Decimal(p.c), Decimal(p.d)], [Decimal(q.a), Decimal(q.b), Decimal(q.c), Decimal(q.d)];
    SplitOfJoined(ps, '.');
    SplitOfJoined(qs, '.');
    SameDecimals(ps, qs, p, q);
  }

  lemma {:induction false} SameDecimals(ps: seq<string>, qs: seq<string>, p: Quad, q: Quad)
    requires ps == qs && ps == [Decimal(p.a), Decimal(p.b), Decimal(p.c), Decimal(p.d)] && qs == [Decimal(q.a), Decimal(q.b), Decimal(q.c), Decimal(q.d)]
    ensures p == q
  {
    assert ps[0] == qs[0] && ps[1] == qs[1] && ps[2] == qs[2] && ps[3] == qs[3];
    DecimalIsOnce(p.a, q.a);
    DecimalIsOnce(p.b, q.b);
    DecimalIsOnce(p.c, q.c);
    DecimalIsOnce(p.d, q.d);
  }

  lemma {:induction false} DecimalIsOnce(a: nat, b: nat)
    requires Decimal(a) == Decimal(b)
    ensures a == b
  {
    DecimalReadsBack(a);
    DecimalReadsBack(b);
  }

  /** Which words an address embeds, if any, by its words. */
  function EmbeddedAt(g: seq<nat>): Option<nat>
    requires |g| == 8
  {
    var five := forall i :: 0 <= i < 5 ==> g[i] == 0;
    if five && (g[5] == 0xffff || (g[5] == 0 && !(g[6] == 0 && g[7] == 0))) then Some(6)
    else if g[0] == 0x64 && g[1] == 0xff9b && forall i :: 2 <= i < 6 ==> g[i] == 0 then Some(6)
    else if g[0] == 0x2002 then Some(1)
    else None
  }

  lemma {:induction false} EmbeddedInWords(g: seq<nat>)
    requires |g| == 8
    ensures EmbeddedIn(g) == match EmbeddedAt(g) case None => None case Some(k) => Some(Dotted(g[k], g[k + 1]))
  {
  }

  lemma {:induction false} EmbedsInWords(g: seq<nat>, q: Quad)
    requires IsWords(g)
    ensures Embeds(g, q) <==> match EmbeddedAt(g) case None => false case Some(k) => BytesAre(g, 2 * k, q)
  {
    ZeroWords(g, 0, 5);
    ZeroWords(g, 0, 6);
    ZeroWords(g, 6, 8);
    ZeroWords(g, 2, 6);
    BytesOfPair(g, 0, Quad(0, 0x64, 0xff, 0x9b));
  }

  /** The destination found is the one the address's bytes embed, and there is none exactly if they embed none. */
  lemma {:induction false} EmbeddedExactly(g: seq<nat>, q: Quad)
    requires IsWords(g)
    ensures EmbeddedIn(g) == Some(QuadText(q)) <==> Embeds(g, q)
  {
    EmbeddedInWords(g);
    EmbedsInWords(g, q);
    BytesOfText(g, 6, q);
    BytesOfText(g, 1, q);
  }

  lemma {:induction false} NoneEmbedded(g: seq<nat>)
    requires IsWords(g)
    ensures EmbeddedIn(g) == None <==> forall q :: !Embeds(g, q)
  {
    EmbeddedInWords(g);
    forall q ensures Embeds(g, q) <==> match EmbeddedAt(g) case None => false case Some(k) => BytesAre(g, 2 * k, q) { EmbedsInWords(g, q); }
    match EmbeddedAt(g)
    case None =>
    case Some(k) => assert BytesAre(g, 2 * k, QuadAt(g[k], g[k + 1])) && Embeds(g, QuadAt(g[k], g[k + 1]));
  }

  lemma {:induction false} ValuesAreWords(groups: seq<string>)
    requires Groups(groups)
    ensures |ValuesOf(groups)| == |groups| && forall i :: 0 <= i < |groups| ==> ValuesOf(groups)[i] == HexValue(groups[i]) < 0x1_0000
  {
    if groups != [] {
      assert Groups(groups[1..]);
      ValuesAreWords(groups[1..]);
      GroupFits(groups[0], 4);
      assert Pow16(4) == 0x1_0000 by { assert Pow16(0) == 1 && Pow16(1) == 16 && Pow16(2) == 256 && Pow16(3) == 4096; }
    }
  }

  lemma {:induction false} AddressIsWords(sp: Spelling)
    requires Legal(sp)
    ensures IsWords(AddressOf(sp))
  {
    ValuesAreWords(sp.head);
    if sp.back.Some? { ValuesAreWords(sp.back.value); }
  }

  /** However an address is spelled, the destination found in its text is the one its bytes embed. */
  lemma {:induction false} DestinationOfText(sp: Spelling, q: Quad, number: Numeral)
    requires Legal(sp) && ReadsDecimals(number)
    ensures IsWords(AddressOf(sp))
    ensures EmbeddedV4(TextOf(sp), number) == Some(QuadText(q)) <==> Embeds(AddressOf(sp), q)
    ensures EmbeddedV4(TextOf(sp), number) == None <==> forall p :: !Embeds(AddressOf(sp), p)
  {
    EverySpellingReads(sp, number);
    AddressIsWords(sp);
    EmbeddedExactly(AddressOf(sp), q);
    NoneEmbedded(AddressOf(sp));
  }
}
