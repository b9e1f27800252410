/** Every legal way to write an IPv6 address (section 2.2 of RFC 4291, with a zone of section 11 of RFC 4007) reads as that address. */
module Ipv6Spellings {
  import opened Options
  import opened Text
  import opened Ipv6

  // ---------------------------------------------------------------- spellings

  /**
   A way to write an address: the groups before the `::` and those after it, if there is one; four decimal
   octets in place of the last two groups, if so written; and a zone.
   */
  datatype Spelling = Spelling(head: seq<string>, back: Option<seq<string>>, quad: Option<seq<string>>, zone: Option<string>)

  predicate Groups(parts: seq<string>) {
    forall i :: 0 <= i < |parts| ==> IsGroup(parts[i])
  }

  predicate IsOctet(s: string) {
    IsDecimal(s) && |s| <= 3 && DecimalValue(s) <= 255
  }

  predicate IsQuad(quad: seq<string>) {
    |quad| == 4 && forall i :: 0 <= i < 4 ==> IsOctet(quad[i])
  }

  /** Eight groups in all, or fewer about a `::`. */
  predicate Legal(sp: Spelling) {
    && Groups(sp.head) && (sp.back.Some? ==> Groups(sp.back.value)) && (sp.quad.Some? ==> IsQuad(sp.quad.value))
    && var n := |sp.head| + (if sp.back.Some? then |sp.back.value| else 0) + (if sp.quad.Some? then 2 else 0);
       if sp.back.Some? then n <= 7 else n == 8
  }

  function Body(head: seq<string>, back: Option<seq<string>>): string {
    Joined(head, ":") + match back case None => "" case Some(b) => "::" + Joined(b, ":")
  }

  function Extended(head: seq<string>, back: Option<seq<string>>, more: seq<string>): (seq<string>, Option<seq<string>>) {
    match back
    case None => (head + more, None)
    case Some(b) => (head, Some(b + more))
  }

  function TextOf(sp: Spelling): string {
    var written := Extended(sp.head, sp.back, if sp.quad.Some? then [Joined(sp.quad.value, ".")] else []);
    Body(written.0, written.1) + match sp.zone case None => "" case Some(z) => "%" + z
  }

  function ValuesOf(groups: seq<string>): seq<nat>
    requires Groups(groups)
  {
    if groups == [] then [] else [HexValue(groups[0])] + ValuesOf(groups[1..])
  }

  function QuadGroups(quad: seq<string>): seq<nat>
    requires IsQuad(quad)
  {
    [DecimalValue(quad[0]) * 256 + DecimalValue(quad[1]), DecimalValue(quad[2]) * 256 + DecimalValue(quad[3])]
  }

  /** The address a spelling stands for. */
  function AddressOf(sp: Spelling): seq<nat>
    requires Legal(sp)
  {
    var tail := if sp.quad.Some? then QuadGroups(sp.quad.value) else [];
    match sp.back
    case None => ValuesOf(sp.head) + tail
    case Some(b) =>
      ValuesOf(sp.head) + seq(8 - |sp.head| - |b| - |tail|, _ => 0) + ValuesOf(b) + tail
  }

  // ---------------------------------------------------------------- what is read

  /** Four parts the host reads as octets, whatever they look like. */
  predicate ReadsQuad(quad: seq<string>, number: Numeral) {
    |quad| == 4 && forall i :: 0 <= i < 4 ==>
      Without(quad[i], '.') && Without(quad[i], ':') && Without(quad[i], '%') && Octet(quad[i], number).Some?
  }

  /** Eight groups in all, or up to eight about a `::`; the host's reading decides what an octet is. */
  predicate Readable(sp: Spelling, number: Numeral) {
    && Groups(sp.head) && (sp.back.Some? ==> Groups(sp.back.value)) && (sp.quad.Some? ==> ReadsQuad(sp.quad.value, number))
    && var n := |sp.head| + (if sp.back.Some? then |sp.back.value| else 0) + (if sp.quad.Some? then 2 else 0);
       if sp.back.Some? then n <= 8 else n == 8
  }

  function HostGroups(quad: seq<string>, number: Numeral): seq<nat>
    requires ReadsQuad(quad, number)
  {
    [Octet(quad[0], number).value * 256 + Octet(quad[1], number).value, Octet(quad[2], number).value * 256 + Octet(quad[3], number).value]
  }

  /** The groups of such a text. */
  function ReadingOf(sp: Spelling, number: Numeral): seq<nat>
    requires Readable(sp, number)
  {
    var tail := if sp.quad.Some? then HostGroups(sp.quad.value, number) else [];
    match sp.back
    case None => ValuesOf(sp.head) + tail
    case Some(b) =>
      ValuesOf(sp.head) + seq(8 - |sp.head| - |b| - |tail|, _ => 0) + ValuesOf(b) + tail
  }

  // ---------------------------------------------------------------- splitting what was joined

  predicate Without(s: string, c: char) {
    forall i :: 0 <= i < |s| ==> s[i] != c
  }

  predicate NoneHas(parts: seq<string>, c: char) {
    forall i :: 0 <= i < |parts| ==> Without(parts[i], c)
  }

  lemma {:induction false} SplitOfWithout(s: string, c: char)
    requires Without(s, c)
    ensures Split(s, c) == [s]
  {
    if s != "" {
      SplitOfWithout(s[1..], c);
      assert s == [s[0]] + s[1..];
    }
  }

  lemma {:induction false} SplitOfSum(a: string, c: char, b: string)
    requires Without(a, c)
    ensures Split(a + [c] + b, c) == [a] + Split(b, c)
  {
    var s := a + [c] + b;
    if a == "" {
      assert s[1..] == b;
    } else {
      SplitOfSum(a[1..], c, b);
      assert s[1..] == a[1..] + [c] + b;
      assert a == [a[0]] + a[1..];
    }
  }

  lemma {:induction false} SplitOfJoined(parts: seq<string>, c: char)
    requires parts != [] && NoneHas(parts, c)
    ensures Split(Joined(parts, [c]), c) == parts
  {
    if |parts| == 1 {
      SplitOfWithout(parts[0], c);
    } else {
      SplitOfJoined(parts[1..], c);
      SplitOfSum(parts[0], c, Joined(parts[1..], [c]));
    }
  }

  lemma {:induction false} JoinedOfSum(a: seq<string>, b: seq<string>, c: char)
    requires a != [] && b != []
    ensures Joined(a + b, [c]) == Joined(a, [c]) + [c] + Joined(b, [c])
  {
    if |a| == 1 {
      assert (a + b)[1..] == b;
    } else {
      JoinedOfSum(a[1..], b, c);
      assert (a + b)[1..] == a[1..] + b;
    }
  }

  /** A text of groups joined by single colons. */
  predicate Plain(s: string) {
    forall i :: 0 <= i < |s| - 1 ==> !DoubledAt(s, i)
  }

  predicate DoubledAt(s: string, i: nat)
    requires i + 1 < |s|
  {
    s[i] == ':' && s[i + 1] == ':'
  }

  lemma {:induction false} PlainTail(s: string)
    requires Plain(s) && s != ""
    ensures Plain(s[1..]) && (|s| >= 2 ==> !DoubledAt(s, 0))
  {
    forall i | 0 <= i < |s[1..]| - 1 ensures !DoubledAt(s[1..], i) { assert !DoubledAt(s, i + 1); }
  }

  lemma {:induction false} SplitDoubleOfPlain(s: string)
    requires Plain(s)
    ensures SplitDouble(s) == [s]
  {
    if s != "" {
      PlainTail(s);
      SplitDoubleOfPlain(s[1..]);
      assert s == [s[0]] + s[1..];
    }
  }

  lemma {:induction false} SplitDoubleOfSum(a: string, b: string)
    requires Plain(a) && (a != "" ==> a[|a| - 1] != ':')
    ensures SplitDouble(a + "::" + b) == [a] + SplitDouble(b)
  {
    var s := a + "::" + b;
    if a == "" {
      assert s[2..] == b;
    } else {
      PlainTail(a);
      SplitDoubleOfSum(a[1..], b);
      assert s[1..] == a[1..] + "::" + b;
      assert a == [a[0]] + a[1..];
      assert |a| >= 2 ==> s[0] == a[0] && s[1] == a[1];
    }
  }

  predicate Filled(parts: seq<string>) {
    forall i :: 0 <= i < |parts| ==> parts[i] != ""
  }

  /** Parts that are neither empty nor hold a colon join into a plain text that starts and ends with no colon. */
  lemma {:induction false} JoinedIsPlain(parts: seq<string>)
    requires NoneHas(parts, ':') && Filled(parts)
    ensures var s := Joined(parts, ":"); Plain(s) && (parts != [] ==> s != "" && s[0] != ':' && s[|s| - 1] != ':')
  {
    if |parts| == 1 {
      assert Without(parts[0], ':') && parts[0] != "";
    } else if |parts| > 1 {
      var p, rest := parts[0], Joined(parts[1..], ":");
      JoinedIsPlain(parts[1..]);
      assert Without(p, ':') && p != "";
      var s := p + ":" + rest;
      forall i | 0 <= i < |s| - 1 ensures !DoubledAt(s, i) {
        if i > |p| { assert !DoubledAt(rest, i - |p| - 1); }
      }
    }
  }

  // ---------------------------------------------------------------- groups

  lemma {:induction false} GroupsAreFilled(parts: seq<string>)
    requires Groups(parts)
    ensures NoneHas(parts, ':') && Filled(parts) && NoneHas(parts, '.') && NoneHas(parts, '%')
  {
    forall i | 0 <= i < |parts| ensures Without(parts[i], ':') && Without(parts[i], '.') && Without(parts[i], '%') {
      assert IsGroup(parts[i]);
    }
  }

  lemma {:induction false} PartsOfJoined(parts: seq<string>)
    requires Groups(parts)
    ensures Parts(Joined(parts, ":")) == parts
  {
    GroupsAreFilled(parts);
    if parts != [] {
      SplitOfJoined(parts, ':');
      JoinedIsPlain(parts);
    }
  }

  lemma {:induction false} ValuesOfGroups(groups: seq<string>)
    requires Groups(groups)
    ensures Values(groups) == Some(ValuesOf(groups)) && |ValuesOf(groups)| == |groups|
  {
    if groups != [] { ValuesOfGroups(groups[1..]); }
  }

  lemma {:induction false} ValuesOfSum(a: seq<string>, b: seq<string>)
    requires Groups(a) && Groups(b)
    ensures Groups(a + b) && ValuesOf(a + b) == ValuesOf(a) + ValuesOf(b)
  {
    if a == [] {
      assert a + b == b;
    } else {
      ValuesOfSum(a[1..], b);
      assert (a + b)[1..] == a[1..] + b && (a + b)[0] == a[0];
      GroupsOfSum(a, b);
    }
  }

  lemma {:induction false} GroupsOfSum(a: seq<string>, b: seq<string>)
    requires Groups(a) && Groups(b)
    ensures Groups(a + b)
  {
  }

  lemma {:induction false} ValuesOfZeros(n: nat)
    ensures Groups(Zeros(n)) && ValuesOf(Zeros(n)) == seq(n, _ => 0)
  {
    if n > 0 {
      ValuesOfZeros(n - 1);
      assert Zeros(n)[1..] == Zeros(n - 1);
      assert HexValue("0") == 0 by { assert "0"[..0] == ""; }
      assert seq(n, _ => 0) == [0] + seq(n - 1, _ => 0);
    }
  }

  /** Without a quad and a zone: the groups come back, the `::` as zeros. */
  lemma {:induction false} PlainBodyExpands(head: seq<string>)
    requires Groups(head)
    ensures Expanded(Joined(head, ":")) == Some(head)
  {
    GroupsAreFilled(head);
    JoinedIsPlain(head);
    PartsOfJoined(head);
    SplitDoubleOfPlain(Joined(head, ":"));
  }

  lemma {:induction false} ShortBodyExpands(head: seq<string>, b: seq<string>)
    requires Groups(head) && Groups(b) && |head| + |b| <= 8
    ensures Expanded(Joined(head, ":") + "::" + Joined(b, ":")) == Some(head + Zeros(8 - |head| - |b|) + b)
  {
    PartsOfJoined(head);
    PartsOfJoined(b);
    SplitsAtTheGap(head, b);
  }

  lemma {:induction false} SplitsAtTheGap(head: seq<string>, b: seq<string>)
    requires Groups(head) && Groups(b)
    ensures SplitDouble(Joined(head, ":") + "::" + Joined(b, ":")) == [Joined(head, ":"), Joined(b, ":")]
  {
    GroupsAreFilled(head);
    GroupsAreFilled(b);
    JoinedIsPlain(head);
    JoinedIsPlain(b);
    SplitDoubleOfSum(Joined(head, ":"), Joined(b, ":"));
    SplitDoubleOfPlain(Joined(b, ":"));
  }

  // ---------------------------------------------------------------- zones and quads

  lemma {:induction false} JoinedWithout(parts: seq<string>, sep: char, c: char)
    requires NoneHas(parts, c) && sep != c
    ensures Without(Joined(parts, [sep]), c)
  {
    if |parts| == 1 {
      assert Without(parts[0], c);
    } else if |parts| > 1 {
      JoinedWithout(parts[1..], sep, c);
      assert Without(parts[0], c);
    }
  }

  lemma {:induction false} ZoneIsDropped(body: string, zone: string)
    requires Without(body, '%') && (zone == "" || zone[0] == '%')
    ensures (body + zone)[..IndexOf(body + zone, '%')] == body
  {
    var s := body + zone;
    assert forall i :: 0 <= i < |body| ==> s[i] == body[i];
    assert zone != "" ==> s[|body|] == '%';
    assert IndexOf(s, '%') == |body|;
  }

  /** The last part of a body that ends in one is what follows its last colon. */
  lemma {:induction false} AfterLastColon(front: string, last: string)
    requires (front == "" || front[|front| - 1] == ':') && Without(last, ':')
    ensures AfterLast(front + last, ':') == |front|
    ensures (front + last)[..|front|] == front && (front + last)[|front|..] == last
  {
    var s, k := front + last, AfterLast(front + last, ':');
    assert front != "" ==> s[|front| - 1] == ':';
    assert forall i :: |front| <= i < |s| ==> s[i] == last[i - |front|];
  }

  /** A body with more written after its last group is the text up to there and the addition. */
  lemma {:induction false} ExtendedBody(head: seq<string>, back: Option<seq<string>>, more: seq<string>)
    requires more != [] && (back.None? ==> head != [])
    ensures var w := Extended(head, back, more);
      var front := Body(head, back) + if back.Some? && back.value == [] then "" else ":";
      Body(w.0, w.1) == front + Joined(more, ":") && front != "" && front[|front| - 1] == ':'
  {
    match back
    case None => JoinedOfSum(head, more, ':');
    case Some(b) =>
      if b == [] { assert b + more == more; }
      else { JoinedOfSum(b, more, ':'); }
  }

  lemma {:induction false} HexReads(n: nat, digits: nat)
    requires digits >= 1 && n < Pow16(digits)
    ensures 1 <= |Hex(n)| <= digits && IsHex(Hex(n)) && HexValue(Hex(n)) == n
  {
    if n < 16 {
      assert [DigitOf(n)][..0] == [];
    } else {
      HexReads(n / 16, digits - 1);
      var h := Hex(n);
      assert h[..|h| - 1] == Hex(n / 16);
    }
  }

  function Pow16(k: nat): nat {
    if k == 0 then 1 else 16 * Pow16(k - 1)
  }

  lemma {:induction false} HexIsGroup(n: nat)
    requires n < 0x10000
    ensures IsGroup(Hex(n)) && HexValue(Hex(n)) == n
  {
    assert Pow16(4) == 0x10000 by { assert Pow16(0) == 1 && Pow16(1) == 16 && Pow16(2) == 256 && Pow16(3) == 4096; }
    HexReads(n, 4);
  }

  lemma {:induction false} QuadReads(quad: seq<string>, number: Numeral)
    requires ReadsQuad(quad, number)
    ensures Octets(Joined(quad, "."), number) ==
      Some(Quad(Octet(quad[0], number).value, Octet(quad[1], number).value, Octet(quad[2], number).value, Octet(quad[3], number).value))
    ensures Without(Joined(quad, "."), ':') && Without(Joined(quad, "."), '%') && '.' in Joined(quad, ".")
  {
    SplitOfJoined(quad, '.');
    JoinedWithout(quad, '.', ':');
    JoinedWithout(quad, '.', '%');
    assert Joined(quad, ".") == quad[0] + "." + Joined(quad[1..], ".");
    assert Joined(quad, ".")[|quad[0]|] == '.';
  }

  function HexPair(quad: seq<string>, number: Numeral): seq<string>
    requires ReadsQuad(quad, number)
  {
    var g := HostGroups(quad, number);
    [Hex(g[0]), Hex(g[1])]
  }

  lemma {:induction false} HexPairReads(quad: seq<string>, number: Numeral)
    requires ReadsQuad(quad, number)
    ensures Groups(HexPair(quad, number)) && ValuesOf(HexPair(quad, number)) == HostGroups(quad, number)
  {
    var g := HostGroups(quad, number);
    HexIsGroup(g[0]);
    HexIsGroup(g[1]);
    var p := HexPair(quad, number);
    assert p[1..] == [Hex(g[1])] && p[1..][1..] == [];
    assert ValuesOf(p[1..]) == [g[1]];
  }

  lemma {:induction false} QuadAtTheEnd(front: string, quad: seq<string>, number: Numeral)
    requires front != "" && front[|front| - 1] == ':' && ReadsQuad(quad, number)
    ensures WithoutQuad(front + Joined(quad, "."), number) == Some(front + Joined(HexPair(quad, number), ":"))
  {
    QuadReads(quad, number);
    AfterLastColon(front, Joined(quad, "."));
    var p := HexPair(quad, number);
    assert p[1..] == [p[1]];
    assert Joined(p, ":") == p[0] + ":" + p[1];
  }

  /** A dotted quad at the end is read as the two groups it stands for. */
  lemma {:induction false} QuadBecomesGroups(head: seq<string>, back: Option<seq<string>>, quad: seq<string>, number: Numeral)
    requires (back.None? ==> head != []) && ReadsQuad(quad, number)
    ensures var w, x := Extended(head, back, [Joined(quad, ".")]), Extended(head, back, HexPair(quad, number));
      WithoutQuad(Body(w.0, w.1), number) == Some(Body(x.0, x.1))
  {
    ExtendedBody(head, back, [Joined(quad, ".")]);
    ExtendedBody(head, back, HexPair(quad, number));
    assert Joined([Joined(quad, ".")], ":") == Joined(quad, ".");
    QuadAtTheEnd(Body(head, back) + if back.Some? && back.value == [] then "" else ":", quad, number);
  }

  /** Without a quad nothing is rewritten: no group holds a dot. */
  lemma {:induction false} NoQuadStays(head: seq<string>, back: Option<seq<string>>, number: Numeral)
    requires Groups(head) && (back.Some? ==> Groups(back.value))
    ensures WithoutQuad(Body(head, back), number) == Some(Body(head, back))
    ensures Without(Body(head, back), '%')
  {
    BodyWithout(head, back, '.');
    BodyWithout(head, back, '%');
    var s := Body(head, back);
    var k := AfterLast(s, ':');
    assert forall i :: 0 <= i < |s[k..]| ==> s[k..][i] == s[k + i];
  }

  lemma {:induction false} BodyWithout(head: seq<string>, back: Option<seq<string>>, c: char)
    requires Groups(head) && (back.Some? ==> Groups(back.value)) && (c == '.' || c == '%')
    ensures Without(Body(head, back), c)
  {
    GroupsAreFilled(head);
    JoinedWithout(head, ':', c);
    if back.Some? {
      GroupsAreFilled(back.value);
      JoinedWithout(back.value, ':', c);
    }
  }

  lemma {:induction false} PlainBodyReads(head: seq<string>)
    requires Groups(head) && |head| == 8
    ensures GroupsOf(Body(head, None)) == Some(ValuesOf(head))
  {
    assert Body(head, None) == Joined(head, ":");
    PlainBodyExpands(head);
    ValuesOfGroups(head);
  }

  lemma {:induction false} ShortBodyReads(head: seq<string>, b: seq<string>)
    requires Groups(head) && Groups(b) && |head| + |b| <= 8
    ensures GroupsOf(Body(head, Some(b))) == Some(ValuesOf(head) + seq(8 - |head| - |b|, _ => 0) + ValuesOf(b))
  {
    var zeros := Zeros(8 - |head| - |b|);
    assert Body(head, Some(b)) == Joined(head, ":") + "::" + Joined(b, ":");
    ShortBodyExpands(head, b);
    ValuesOfZeros(8 - |head| - |b|);
    ValuesOfSum(head, zeros);
    ValuesOfSum(head + zeros, b);
    ValuesOfGroups(head + zeros + b);
  }

  // ---------------------------------------------------------------- the theorems

  function ZoneText(zone: Option<string>): string {
    match zone case None => "" case Some(z) => "%" + z
  }

  lemma {:induction false} QuadlessText(sp: Spelling, number: Numeral)
    requires Readable(sp, number) && sp.quad.None?
    ensures V6Groups(TextOf(sp), number) == GroupsOf(Body(sp.head, sp.back))
  {
    assert sp.head + [] == sp.head && (sp.back.Some? ==> sp.back.value + [] == sp.back.value);
    assert Extended(sp.head, sp.back, []) == (sp.head, sp.back);
    assert TextOf(sp) == Body(sp.head, sp.back) + ZoneText(sp.zone);
    NoQuadStays(sp.head, sp.back, number);
    ZoneIsDropped(Body(sp.head, sp.back), ZoneText(sp.zone));
  }

  lemma {:induction false} QuadlessReads(sp: Spelling, number: Numeral)
    requires Readable(sp, number) && sp.quad.None?
    ensures V6Groups(TextOf(sp), number) == Some(ReadingOf(sp, number))
  {
    QuadlessText(sp, number);
    if sp.back.None? { PlainBodyReads(sp.head); } else { ShortBodyReads(sp.head, sp.back.value); }
    QuadlessAddress(sp, number);
  }

  lemma {:induction false} QuadlessAddress(sp: Spelling, number: Numeral)
    requires Readable(sp, number) && sp.quad.None?
    ensures ReadingOf(sp, number) == match sp.back
      case None => ValuesOf(sp.head)
      case Some(b) => ValuesOf(sp.head) + seq(8 - |sp.head| - |b|, _ => 0) + ValuesOf(b)
  {
    match sp.back
    case None => NothingMore(ValuesOf(sp.head));
    case Some(b) => NothingMore(ValuesOf(sp.head) + seq(8 - |sp.head| - |b|, _ => 0) + ValuesOf(b));
  }

  lemma {:induction false} NothingMore(s: seq<nat>)
    ensures s + [] == s
  {
  }

  lemma {:induction false} DottedText(sp: Spelling, number: Numeral)
    requires Readable(sp, number) && sp.quad.Some?
    ensures var x := Extended(sp.head, sp.back, HexPair(sp.quad.value, number));
      V6Groups(TextOf(sp), number) == GroupsOf(Body(x.0, x.1))
  {
    var quad := sp.quad.value;
    var dotted := Joined(quad, ".");
    var w := Extended(sp.head, sp.back, [dotted]);
    QuadReads(quad, number);
    ExtendedBody(sp.head, sp.back, [dotted]);
    NoQuadStays(sp.head, sp.back, number);
    assert Joined([dotted], ":") == dotted;
    assert Without(Body(w.0, w.1), '%');
    ZoneIsDropped(Body(w.0, w.1), ZoneText(sp.zone));
    QuadBecomesGroups(sp.head, sp.back, quad, number);
    assert TextOf(sp) == Body(w.0, w.1) + ZoneText(sp.zone);
  }

  lemma {:induction false} DottedReads(sp: Spelling, number: Numeral)
    requires Readable(sp, number) && sp.quad.Some?
    ensures V6Groups(TextOf(sp), number) == Some(ReadingOf(sp, number))
  {
    var pair, q := HexPair(sp.quad.value, number), HostGroups(sp.quad.value, number);
    DottedText(sp, number);
    HexPairReads(sp.quad.value, number);
    match sp.back
    case None =>
      ValuesOfSum(sp.head, pair);
      PlainBodyReads(sp.head + pair);
    case Some(b) =>
      ValuesOfSum(b, pair);
      ShortBodyReads(sp.head, b + pair);
      Regroup(ValuesOf(sp.head) + seq(8 - |sp.head| - |b| - 2, _ => 0), ValuesOf(b), q);
  }

  lemma {:induction false} Regroup(a: seq<nat>, b: seq<nat>, c: seq<nat>)
    ensures a + (b + c) == a + b + c
  {
  }

  /** Every readable text is read as its groups. */
  lemma {:induction false} ReadableReads(sp: Spelling, number: Numeral)
    requires Readable(sp, number)
    ensures V6Groups(TextOf(sp), number) == Some(ReadingOf(sp, number)) && |ReadingOf(sp, number)| == 8
  {
    if sp.quad.None? { QuadlessReads(sp, number); } else { DottedReads(sp, number); }
    ValuesOfGroups(sp.head);
    if sp.back.Some? { ValuesOfGroups(sp.back.value); }
  }

  lemma {:induction false} QuadIsRead(quad: seq<string>, number: Numeral)
    requires IsQuad(quad) && ReadsDecimals(number)
    ensures ReadsQuad(quad, number) && HostGroups(quad, number) == QuadGroups(quad)
  {
    forall i | 0 <= i < 4
      ensures Without(quad[i], '.') && Without(quad[i], ':') && Without(quad[i], '%')
      ensures Octet(quad[i], number) == Some(DecimalValue(quad[i]))
    {
      assert IsOctet(quad[i]);
    }
  }

  /** A legal spelling is readable, and its groups are its address. */
  lemma {:induction false} LegalIsReadable(sp: Spelling, number: Numeral)
    requires Legal(sp) && ReadsDecimals(number)
    ensures Readable(sp, number) && ReadingOf(sp, number) == AddressOf(sp)
  {
    if sp.quad.Some? { QuadIsRead(sp.quad.value, number); }
  }

  /** Every legal lower-case spelling of an address is read as its eight groups. */
  lemma {:induction false} EverySpellingReads(sp: Spelling, number: Numeral)
    requires Legal(sp) && ReadsDecimals(number)
    ensures V6Groups(TextOf(sp), number) == Some(AddressOf(sp)) && |AddressOf(sp)| == 8
  {
    LegalIsReadable(sp, number);
    ReadableReads(sp, number);
  }

  /** So the embedded destination depends on the address and not on how it is spelled. */
  lemma {:induction false} EmbeddedIsOfTheAddress(a: Spelling, b: Spelling, number: Numeral)
    requires Legal(a) && Legal(b) && AddressOf(a) == AddressOf(b) && ReadsDecimals(number)
    ensures EmbeddedV4(TextOf(a), number) == EmbeddedV4(TextOf(b), number)
  {
    EverySpellingReads(a, number);
    EverySpellingReads(b, number);
  }

  // ---------------------------------------------------------------- upper case

  /** The same spelling in lower case. */
  function LowerAll(parts: seq<string>): seq<string> {
    if parts == [] then [] else [Lower(parts[0])] + LowerAll(parts[1..])
  }

  function LowerSpelling(sp: Spelling): Spelling {
    Spelling(LowerAll(sp.head), if sp.back.Some? then Some(LowerAll(sp.back.value)) else None, sp.quad,
             if sp.zone.Some? then Some(Lower(sp.zone.value)) else None)
  }

  lemma {:induction false} LowerOfSum(a: string, b: string)
    ensures Lower(a + b) == Lower(a) + Lower(b)
  {
    if a == "" {
      assert a + b == b;
    } else {
      LowerOfSum(a[1..], b);
      assert (a + b)[1..] == a[1..] + b;
    }
  }

  lemma {:induction false} LowerOfJoined(parts: seq<string>)
    ensures Lower(Joined(parts, ":")) == Joined(LowerAll(parts), ":")
  {
    if |parts| == 1 {
      assert LowerAll(parts[1..]) == [];
    } else if |parts| > 1 {
      LowerOfJoined(parts[1..]);
      assert Lower(":") == ":" by { assert ":"[1..] == ""; }
      LowerOfSum(parts[0] + ":", Joined(parts[1..], ":"));
      LowerOfSum(parts[0], ":");
      assert LowerAll(parts)[1..] == LowerAll(parts[1..]);
    }
  }

  lemma {:induction false} LowerAllOfSum(a: seq<string>, b: seq<string>)
    ensures LowerAll(a + b) == LowerAll(a) + LowerAll(b)
  {
    if a == [] {
      assert a + b == b;
    } else {
      LowerAllOfSum(a[1..], b);
      assert (a + b)[1..] == a[1..] + b;
    }
  }

  /** A text with no capital letter is its own lower case. */
  lemma {:induction false} LowerStays(s: string)
    requires forall i :: 0 <= i < |s| ==> !('A' <= s[i] <= 'Z')
    ensures Lower(s) == s
  {
    if s != "" {
      LowerStays(s[1..]);
      assert s == [s[0]] + s[1..];
    }
  }

  lemma {:induction false} QuadStays(quad: seq<string>)
    requires IsQuad(quad)
    ensures LowerAll([Joined(quad, ".")]) == [Joined(quad, ".")]
  {
    var s := Joined(quad, ".");
    assert s == quad[0] + "." + Joined(quad[1..], ".");
    assert Joined(quad[1..], ".") == quad[1] + "." + Joined(quad[2..], ".") by { assert quad[1..][1..] == quad[2..]; }
    assert Joined(quad[2..], ".") == quad[2] + "." + quad[3] by { assert quad[2..][1..] == [quad[3]]; }
    assert IsOctet(quad[0]) && IsOctet(quad[1]) && IsOctet(quad[2]) && IsOctet(quad[3]);
    LowerStays(s);
    assert [s][1..] == [];
  }

  lemma {:induction false} LowerOfBody(head: seq<string>, back: Option<seq<string>>)
    ensures Lower(Body(head, back)) == Body(LowerAll(head), if back.Some? then Some(LowerAll(back.value)) else None)
  {
    LowerOfJoined(head);
    match back
    case None => assert Body(head, back) == Joined(head, ":");
    case Some(b) =>
      LowerOfJoined(b);
      LowerStays("::");
      LowerOfSum("::", Joined(b, ":"));
      LowerOfSum(Joined(head, ":"), "::" + Joined(b, ":"));
  }

  /** Lowering a text is lowering what it spells. */
  lemma {:induction false} LowerOfText(sp: Spelling)
    requires sp.quad.Some? ==> IsQuad(sp.quad.value)
    ensures Lower(TextOf(sp)) == TextOf(LowerSpelling(sp))
  {
    var more := if sp.quad.Some? then [Joined(sp.quad.value, ".")] else [];
    var w := Extended(sp.head, sp.back, more);
    if sp.quad.Some? { QuadStays(sp.quad.value); }
    assert LowerAll(more) == more;
    LowerAllOfSum(sp.head, more);
    if sp.back.Some? { LowerAllOfSum(sp.back.value, more); }
    LowerOfBody(w.0, w.1);
    LowerOfSum(Body(w.0, w.1), ZoneText(sp.zone));
    if sp.zone.Some? {
      LowerStays("%");
      LowerOfSum("%", sp.zone.value);
    }
  }

  /** Every spelling that is legal but for its case: the text is lowered before it is read. */
  lemma {:induction false} AnyCaseReads(sp: Spelling, number: Numeral)
    requires Legal(LowerSpelling(sp)) && ReadsDecimals(number)
    ensures V6Groups(Lower(TextOf(sp)), number) == Some(AddressOf(LowerSpelling(sp)))
  {
    LowerOfText(sp);
    EverySpellingReads(LowerSpelling(sp), number);
  }

  // ---------------------------------------------------------------- mapped addresses

  /** The groups of `::ffff:a.b.c.d`. */
  function MappedAddress(q: Quad): seq<nat> {
    [0, 0, 0, 0, 0, 0xffff, q.a * 256 + q.b, q.c * 256 + q.d]
  }

  function QuadText(q: Quad): string {
    Joined([Decimal(q.a), Decimal(q.b), Decimal(q.c), Decimal(q.d)], ".")
  }

  lemma {:induction false} SplitsIntoBytes(a: nat, b: nat)
    requires a <= 255 && b <= 255
    ensures (a * 256 + b) / 256 % 256 == a && (a * 256 + b) % 256 == b
  {
  }

  lemma {:induction false} DottedIsQuadText(q: Quad)
    requires q.a <= 255 && q.b <= 255 && q.c <= 255 && q.d <= 255
    ensures Dotted(q.a * 256 + q.b, q.c * 256 + q.d) == QuadText(q)
  {
    SplitsIntoBytes(q.a, q.b);
    SplitsIntoBytes(q.c, q.d);
    JoinedFour(Decimal(q.a), Decimal(q.b), Decimal(q.c), Decimal(q.d));
  }

  lemma {:induction false} JoinedFour(a: string, b: string, c: string, d: string)
    ensures Joined([a, b, c, d], ".") == a + "." + b + "." + c + "." + d
  {
    assert [a, b, c, d][1..] == [b, c, d] && [b, c, d][1..] == [c, d] && [c, d][1..] == [d];
    assert Joined([c, d], ".") == c + "." + d;
    assert Joined([b, c, d], ".") == b + "." + (c + "." + d);
  }

  /** An IPv4-mapped address gives back its dotted tail byte for byte, however it is spelled. */
  lemma {:induction false} MappedComesBack(q: Quad, sp: Spelling, number: Numeral)
    requires q.a <= 255 && q.b <= 255 && q.c <= 255 && q.d <= 255
    requires Legal(sp) && AddressOf(sp) == MappedAddress(q) && ReadsDecimals(number)
    ensures EmbeddedV4(TextOf(sp), number) == Some(QuadText(q))
  {
    EverySpellingReads(sp, number);
    DottedIsQuadText(q);
    MappedEmbeds(q);
  }

  lemma {:induction false} MappedEmbeds(q: Quad)
    ensures EmbeddedIn(MappedAddress(q)) == Some(Dotted(q.a * 256 + q.b, q.c * 256 + q.d))
  {
  }

  /** `::` may stand for no group at all: the code also reads eight groups about one, which section 2.2 of RFC 4291 does not allow. */
  lemma {:induction false} EmptyGapIsRead(head: seq<string>, b: seq<string>, number: Numeral)
    requires Groups(head) && Groups(b) && |head| + |b| == 8
    ensures V6Groups(Joined(head, ":") + "::" + Joined(b, ":"), number) == Some(ValuesOf(head) + ValuesOf(b))
  {
    NoQuadStays(head, Some(b), number);
    var body := Body(head, Some(b));
    assert body == Joined(head, ":") + "::" + Joined(b, ":") && body + "" == body;
    ZoneIsDropped(body, "");
    ShortBodyReads(head, b);
    assert ValuesOf(head) + seq(0, _ => 0) == ValuesOf(head);
  }
}
