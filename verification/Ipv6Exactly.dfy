/** Exactly which texts are read as IPv6 addresses: those made of groups, a gap, a dotted quad and a zone, and no other. */
module Ipv6Exactly {
  import opened Options
  import opened Text
  import opened Ipv6
  import opened Ipv6Spellings

  // ---------------------------------------------------------------- joining what was split

  lemma {:induction false} JoinedOfSplit(s: string, c: char)
    ensures Joined(Split(s, c), [c]) == s && NoneHas(Split(s, c), c)
  {
    if s != "" {
      JoinedOfSplit(s[1..], c);
      var rest := Split(s[1..], c);
      assert s == [s[0]] + s[1..];
      if s[0] == c { assert ([""] + rest)[1..] == rest; } else { JoinedCons(s[0], rest, [c]); }
    }
  }

  lemma {:induction false} JoinedCons(x: char, parts: seq<string>, separator: string)
    requires parts != []
    ensures Joined([[x] + parts[0]] + parts[1..], separator) == [x] + Joined(parts, separator)
  {
    var longer := [[x] + parts[0]] + parts[1..];
    assert longer[1..] == parts[1..];
    if |parts| > 1 {
      var rest := separator + Joined(parts[1..], separator);
      assert Joined(parts, separator) == parts[0] + rest && Joined(longer, separator) == ([x] + parts[0]) + rest;
    }
  }

  lemma {:induction false} JoinedOfSplitDouble(s: string)
    ensures Joined(SplitDouble(s), "::") == s
  {
    if s == "" {
    } else if |s| >= 2 && s[0] == ':' && s[1] == ':' {
      JoinedOfSplitDouble(s[2..]);
      assert ([""] + SplitDouble(s[2..]))[1..] == SplitDouble(s[2..]);
      assert s == "::" + s[2..];
    } else {
      JoinedOfSplitDouble(s[1..]);
      JoinedCons(s[0], SplitDouble(s[1..]), "::");
      assert s == [s[0]] + s[1..];
    }
  }

  lemma {:induction false} JoinedOfParts(s: string)
    ensures Joined(Parts(s), ":") == s
  {
    if s != "" { JoinedOfSplit(s, ':'); }
  }

  // ---------------------------------------------------------------- groups

  lemma {:induction false} ValuesAreGroups(groups: seq<string>)
    requires Values(groups).Some?
    ensures Groups(groups)
  {
    if groups != [] { ValuesAreGroups(groups[1..]); }
  }

  lemma {:induction false} GroupsInSum(a: seq<string>, b: seq<string>, c: seq<string>)
    requires Groups(a + b + c)
    ensures Groups(a) && Groups(c)
  {
    assert forall i :: 0 <= i < |a| ==> a[i] == (a + b + c)[i];
    assert forall i :: 0 <= i < |c| ==> c[i] == (a + b + c)[|a| + |b| + i];
  }

  /** What is read without a quad and a zone is a body of groups. */
  lemma {:induction false} ReadBodies(s: string) returns (head: seq<string>, back: Option<seq<string>>)
    requires GroupsOf(s).Some?
    ensures Body(head, back) == s && Groups(head) && (back.Some? ==> Groups(back.value))
    ensures if back.Some? then |head| + |back.value| <= 8 else |head| == 8
  {
    var halves := SplitDouble(s);
    JoinedOfSplitDouble(s);
    if |halves| == 1 {
      head, back := Parts(s), None;
      JoinedOfParts(s);
      ValuesAreGroups(head);
      assert Body(head, back) == Joined(head, ":");
    } else {
      var b := Parts(halves[1]);
      head, back := Parts(halves[0]), Some(b);
      JoinedOfParts(halves[0]);
      JoinedOfParts(halves[1]);
      assert halves[1..] == [halves[1]];
      ValuesAreGroups(head + Zeros(8 - |head| - |b|) + b);
      GroupsInSum(head, Zeros(8 - |head| - |b|), b);
    }
  }

  // ---------------------------------------------------------------- taking the last group off

  /** The list a body ends in. */
  function LastList(head: seq<string>, back: Option<seq<string>>): seq<string> {
    match back case None => head case Some(b) => b
  }

  function Shortened(head: seq<string>, back: Option<seq<string>>): (seq<string>, Option<seq<string>>)
    requires LastList(head, back) != []
  {
    match back
    case None => (head[..|head| - 1], None)
    case Some(b) => (head, Some(b[..|b| - 1]))
  }

  /** A body and the colon that one more group would follow. */
  function Front(head: seq<string>, back: Option<seq<string>>): string {
    Body(head, back) + if LastList(head, back) == [] then "" else ":"
  }

  lemma {:induction false} JoinedLast(parts: seq<string>)
    requires parts != []
    ensures var short := parts[..|parts| - 1];
      Joined(parts, ":") == Joined(short, ":") + (if short == [] then "" else ":") + parts[|parts| - 1]
  {
    var short, last := parts[..|parts| - 1], parts[|parts| - 1];
    assert parts == short + [last];
    if short != [] { JoinedOfSum(short, [last], ':'); }
  }

  lemma {:induction false} AfterGap(a: string, b: string, colon: string, last: string)
    ensures a + ("::" + (b + colon + last)) == a + ("::" + b) + colon + last
  {
  }

  lemma {:induction false} BodyIsFrontAndLast(head: seq<string>, back: Option<seq<string>>)
    requires LastList(head, back) != []
    ensures var w := Shortened(head, back); var l := LastList(head, back);
      Body(head, back) == Front(w.0, w.1) + l[|l| - 1]
  {
    match back
    case None => JoinedLast(head);
    case Some(b) =>
      JoinedLast(b);
      var short := b[..|b| - 1];
      AfterGap(Joined(head, ":"), Joined(short, ":"), if short == [] then "" else ":", b[|b| - 1]);
  }

  lemma {:induction false} FrontEndsInColon(head: seq<string>, back: Option<seq<string>>)
    ensures Front(head, back) == "" || Front(head, back)[|Front(head, back)| - 1] == ':'
    ensures LastList(head, back) == [] && Front(head, back) != "" ==> |Front(head, back)| >= 2 && Front(head, back)[|Front(head, back)| - 2] == ':'
  {
    match back
    case None =>
    case Some(b) => if b == [] { assert Body(head, back) == Joined(head, ":") + "::" + ""; }
  }

  /** A body that ends in some text without a colon, after a colon or at the start: its last group is that text. */
  lemma {:induction false} LastIsLast(head: seq<string>, back: Option<seq<string>>, front: string, last: string)
    requires Groups(head) && (back.Some? ==> Groups(back.value)) && Body(head, back) == front + last
    requires (front == "" || front[|front| - 1] == ':') && last != "" && Without(last, ':')
    ensures var l := LastList(head, back);
      l != [] && l[|l| - 1] == last && Front(Shortened(head, back).0, Shortened(head, back).1) == front
  {
    var l := LastList(head, back);
    assert (front + last)[|front + last| - 1] == last[|last| - 1];
    FrontEndsInColon(head, back);
    if l != [] {
      var w := Shortened(head, back);
      BodyIsFrontAndLast(head, back);
      FrontEndsInColon(w.0, w.1);
      GroupsAreFilled(l);
      AfterLastColon(front, last);
      AfterLastColon(Front(w.0, w.1), l[|l| - 1]);
    }
  }

  // ---------------------------------------------------------------- putting the quad back

  lemma {:induction false} ShortenedGroups(head: seq<string>, back: Option<seq<string>>)
    requires Groups(head) && (back.Some? ==> Groups(back.value)) && LastList(head, back) != []
    ensures var w := Shortened(head, back);
      Groups(w.0) && (w.1.Some? ==> Groups(w.1.value)) && (w.1.Some? <==> back.Some?)
      && |w.0| + (if w.1.Some? then |w.1.value| else 0) + 1 == |head| + (if back.Some? then |back.value| else 0)
  {
  }

  lemma {:induction false} GroupHasNoColon(g: string)
    requires IsGroup(g)
    ensures Without(g, ':')
  {
  }

  /** A body that ends in two groups, and what comes before them. */
  lemma {:induction false} TwoTakenOff(h: seq<string>, b: Option<seq<string>>, front: string, hi: string, lo: string)
    returns (head: seq<string>, back: Option<seq<string>>)
    requires Groups(h) && (b.Some? ==> Groups(b.value)) && Body(h, b) == front + hi + ":" + lo && IsGroup(hi) && IsGroup(lo)
    requires front == "" || front[|front| - 1] == ':'
    ensures Groups(head) && (back.Some? ==> Groups(back.value)) && (back.Some? <==> b.Some?) && Front(head, back) == front
    ensures |head| + (if back.Some? then |back.value| else 0) + 2 == |h| + (if b.Some? then |b.value| else 0)
  {
    GroupHasNoColon(hi);
    GroupHasNoColon(lo);
    LastIsLast(h, b, front + hi + ":", lo);
    ShortenedGroups(h, b);
    var w := Shortened(h, b);
    SecondLast(w.0, w.1, front, hi);
    LastIsLast(w.0, w.1, front, hi);
    ShortenedGroups(w.0, w.1);
    head, back := Shortened(w.0, w.1).0, Shortened(w.0, w.1).1;
  }

  lemma {:induction false} QuadWritten(head: seq<string>, back: Option<seq<string>>, tail: string)
    requires back.None? ==> head != []
    ensures var w := Extended(head, back, [tail]); Body(w.0, w.1) == Front(head, back) + tail
  {
    ExtendedBody(head, back, [tail]);
    assert Joined([tail], ":") == tail;
  }

  /** A body in which the last two groups stand for a quad, and the same with the quad written. */
  lemma {:induction false} QuadRestored(text: string, front: string, hi: string, lo: string, tail: string)
    returns (head: seq<string>, back: Option<seq<string>>)
    requires GroupsOf(text).Some? && text == front + hi + ":" + lo
    requires IsGroup(hi) && IsGroup(lo) && (front == "" || front[|front| - 1] == ':')
    ensures Groups(head) && (back.Some? ==> Groups(back.value))
    ensures if back.Some? then |head| + |back.value| + 2 <= 8 else |head| + 2 == 8
    ensures var w := Extended(head, back, [tail]); Body(w.0, w.1) == front + tail
  {
    var h, b := ReadBodies(text);
    head, back := TwoTakenOff(h, b, front, hi, lo);
    QuadWritten(head, back, tail);
  }

  lemma {:induction false} SecondLast(head: seq<string>, back: Option<seq<string>>, front: string, hi: string)
    requires Front(head, back) == front + hi + ":" && IsGroup(hi)
    ensures LastList(head, back) != [] && Body(head, back) == front + hi
  {
    FrontEndsInColon(head, back);
    var f := front + hi + ":";
    assert f[|f| - 2] == hi[|hi| - 1];
    assert HexDigit(hi[|hi| - 1]).Some?;
    if LastList(head, back) != [] {
      assert f[..|f| - 1] == front + hi;
      assert Front(head, back)[..|f| - 1] == Body(head, back);
    }
  }

  lemma {:induction false} TailIsQuad(tail: string, number: Numeral)
    requires Octets(tail, number).Some? && Without(tail, ':') && Without(tail, '%')
    ensures var quad := Split(tail, '.');
      ReadsQuad(quad, number) && Joined(quad, ".") == tail
      && var o := Octets(tail, number).value; HexPair(quad, number) == [Hex(o.a * 256 + o.b), Hex(o.c * 256 + o.d)]
  {
    var quad := Split(tail, '.');
    JoinedOfSplit(tail, '.');
    PartsWithout(tail, '.', ':');
    PartsWithout(tail, '.', '%');
  }

  lemma {:induction false} PartsWithout(s: string, sep: char, c: char)
    requires Without(s, c)
    ensures NoneHas(Split(s, sep), c)
  {
    if s != "" {
      PartsWithout(s[1..], sep, c);
      var rest := Split(s[1..], sep);
      assert Without(rest[0], c);
      if s[0] != sep {
        forall i | 0 <= i < |rest| ensures Without(([[s[0]] + rest[0]] + rest[1..])[i], c) { if i > 0 { assert Without(rest[i], c); } }
      } else {
        forall i | 0 <= i < |rest| + 1 ensures Without(([""] + rest)[i], c) { if i > 0 { assert Without(rest[i - 1], c); } }
      }
    }
  }

  // ---------------------------------------------------------------- the theorem

  /** A text before its zone: what is read of it, without a quad or with one. */
  lemma {:induction false} ReadPlain(s: string, number: Numeral, zone: Option<string>) returns (sp: Spelling)
    requires GroupsOf(s).Some?
    ensures Readable(sp, number) && TextOf(sp) == s + ZoneText(zone)
  {
    var head, back := ReadBodies(s);
    sp := Spelling(head, back, None, zone);
    assert head + [] == head && (back.Some? ==> back.value + [] == back.value);
    assert Extended(head, back, []) == (head, back);
  }

  lemma {:induction false} ReadDotted(text: string, front: string, tail: string, number: Numeral, zone: Option<string>)
    returns (sp: Spelling)
    requires (front == "" || front[|front| - 1] == ':') && Without(tail, ':') && Without(tail, '%') && Octets(tail, number).Some?
    requires var o := Octets(tail, number).value; text == front + Hex(o.a * 256 + o.b) + ":" + Hex(o.c * 256 + o.d)
    requires GroupsOf(text).Some?
    ensures Readable(sp, number) && TextOf(sp) == front + tail + ZoneText(zone)
  {
    var quad := Split(tail, '.');
    TailIsQuad(tail, number);
    HexPairReads(quad, number);
    var p := HexPair(quad, number);
    assert IsGroup(p[0]) && IsGroup(p[1]);
    var head, back := QuadRestored(text, front, p[0], p[1], tail);
    sp := Spelling(head, back, Some(quad), zone);
  }

  /** What comes before the zone, and the zone. */
  lemma {:induction false} ZoneSplits(text: string) returns (zone: Option<string>)
    ensures var n := IndexOf(text, '%'); text == text[..n] + ZoneText(zone) && Without(text[..n], '%')
  {
    var n := IndexOf(text, '%');
    zone := if n == |text| then None else Some(text[n + 1..]);
    if n < |text| { assert text[n..] == "%" + text[n + 1..]; }
    assert text == text[..n] + text[n..];
  }

  predicate EndsDotted(s: string) {
    '.' in s[AfterLast(s, ':')..]
  }

  lemma {:induction false} NothingRead(s: string, number: Numeral)
    requires !EndsDotted(s)
    ensures WithoutQuad(s, number) == Some(s)
  {
  }

  lemma {:induction false} Regrouped(front: string, hi: string, lo: string)
    ensures front + (hi + ":" + lo) == front + hi + ":" + lo
  {
  }

  lemma {:induction false} LastPart(s: string)
    ensures var k := AfterLast(s, ':');
      s[..k] + s[k..] == s && (k == 0 || s[..k][k - 1] == ':') && Without(s[k..], ':')
  {
  }

  lemma {:induction false} QuadValue(s: string, number: Numeral)
    requires WithoutQuad(s, number).Some? && EndsDotted(s)
    ensures var k := AfterLast(s, ':');
      && Octets(s[k..], number).Some?
      && var o := Octets(s[k..], number).value;
         WithoutQuad(s, number).value == s[..k] + (Hex(o.a * 256 + o.b) + ":" + Hex(o.c * 256 + o.d))
  {
  }

  /** Where a quad was read, and what its two groups then stand after. */
  lemma {:induction false} QuadWasRead(s: string, number: Numeral) returns (front: string, tail: string)
    requires WithoutQuad(s, number).Some? && EndsDotted(s)
    ensures front + tail == s && (front == "" || front[|front| - 1] == ':') && Without(tail, ':') && Octets(tail, number).Some?
    ensures var o := Octets(tail, number).value;
      WithoutQuad(s, number).value == front + Hex(o.a * 256 + o.b) + ":" + Hex(o.c * 256 + o.d)
  {
    var k := AfterLast(s, ':');
    front, tail := s[..k], s[k..];
    LastPart(s);
    QuadValue(s, number);
    var o := Octets(tail, number).value;
    Regrouped(front, Hex(o.a * 256 + o.b), Hex(o.c * 256 + o.d));
  }

  lemma {:induction false} TailIsWithout(front: string, tail: string, c: char)
    requires Without(front + tail, c)
    ensures Without(tail, c)
  {
    assert forall i :: 0 <= i < |tail| ==> tail[i] == (front + tail)[|front| + i];
  }

  lemma {:induction false} ReadBody(s: string, number: Numeral, zone: Option<string>) returns (sp: Spelling)
    requires WithoutQuad(s, number).Some? && GroupsOf(WithoutQuad(s, number).value).Some? && Without(s, '%')
    ensures Readable(sp, number) && TextOf(sp) == s + ZoneText(zone)
  {
    if EndsDotted(s) {
      var front, tail := QuadWasRead(s, number);
      TailIsWithout(front, tail, '%');
      sp := ReadDotted(WithoutQuad(s, number).value, front, tail, number, zone);
    } else {
      NothingRead(s, number);
      sp := ReadPlain(s, number, zone);
    }
  }

  lemma {:induction false} ReadText(text: string, number: Numeral) returns (sp: Spelling)
    requires V6Groups(text, number).Some?
    ensures Readable(sp, number) && TextOf(sp) == text
  {
    var zone := ZoneSplits(text);
    sp := ReadBody(text[..IndexOf(text, '%')], number, zone);
  }

  /**
   Exactly which texts are read, and as what: those made of groups of one to four lower-case hexadecimal digits,
   eight in all or up to eight about one `::`, the last two of which may be four dotted parts the host reads as
   octets, with or without a zone; and such a text is read as its groups.
   */
  lemma {:induction false} ReadsExactlyTheReadable(text: string, number: Numeral)
    ensures V6Groups(text, number).Some? <==> exists sp :: Readable(sp, number) && TextOf(sp) == text
    ensures forall sp :: Readable(sp, number) && TextOf(sp) == text ==> V6Groups(text, number) == Some(ReadingOf(sp, number))
  {
    forall sp | Readable(sp, number) && TextOf(sp) == text ensures V6Groups(text, number) == Some(ReadingOf(sp, number)) {
      ReadableReads(sp, number);
    }
    if V6Groups(text, number).Some? { var sp := ReadText(text, number); }
  }

  // ---------------------------------------------------------------- one spelling to a text

  /** Parts that can be told apart once joined with colons. */
  predicate Apart(parts: seq<string>) {
    NoneHas(parts, ':') && Filled(parts)
  }

  lemma {:induction false} PartsOfApart(parts: seq<string>)
    requires Apart(parts)
    ensures Parts(Joined(parts, ":")) == parts
  {
    if parts != [] {
      SplitOfJoined(parts, ':');
      JoinedIsPlain(parts);
    }
  }

  lemma {:induction false} HalvesOfBody(head: seq<string>, back: Option<seq<string>>)
    requires Apart(head) && (back.Some? ==> Apart(back.value))
    ensures SplitDouble(Body(head, back)) == [Joined(head, ":")] + if back.Some? then [Joined(back.value, ":")] else []
  {
    var h := Joined(head, ":");
    JoinedIsPlain(head);
    match back
    case None =>
      SplitDoubleOfPlain(h);
      assert Body(head, back) == h;
    case Some(b) =>
      JoinedIsPlain(b);
      SplitDoubleOfSum(h, Joined(b, ":"));
      SplitDoubleOfPlain(Joined(b, ":"));
      assert Body(head, back) == h + "::" + Joined(b, ":");
  }

  lemma {:induction false} BodyIsUnique(h: seq<string>, b: Option<seq<string>>, h': seq<string>, b': Option<seq<string>>)
    requires Apart(h) && (b.Some? ==> Apart(b.value)) && Apart(h') && (b'.Some? ==> Apart(b'.value))
    requires Body(h, b) == Body(h', b')
    ensures h == h' && b == b'
  {
    HalvesOfBody(h, b);
    HalvesOfBody(h', b');
    var halves := SplitDouble(Body(h, b));
    assert halves[0] == Joined(h, ":") == Joined(h', ":");
    PartsOfApart(h);
    PartsOfApart(h');
    if b.Some? {
      assert halves[1] == Joined(b.value, ":") == Joined(b'.value, ":");
      PartsOfApart(b.value);
      PartsOfApart(b'.value);
    }
  }

  /** What a readable text is made of before its zone. */
  function Written(sp: Spelling): (seq<string>, Option<seq<string>>) {
    Extended(sp.head, sp.back, if sp.quad.Some? then [Joined(sp.quad.value, ".")] else [])
  }

  lemma {:induction false} DottedIsApart(parts: seq<string>, quad: seq<string>, number: Numeral)
    requires Groups(parts) && ReadsQuad(quad, number)
    ensures Apart(parts + [Joined(quad, ".")]) && NoneHas(parts + [Joined(quad, ".")], '%')
  {
    QuadReads(quad, number);
    GroupsAreFilled(parts);
  }

  lemma {:induction false} WrittenIsApart(sp: Spelling, number: Numeral)
    requires Readable(sp, number)
    ensures var w := Written(sp); Apart(w.0) && (w.1.Some? ==> Apart(w.1.value)) && Without(Body(w.0, w.1), '%')
  {
    var w := Written(sp);
    GroupsAreFilled(sp.head);
    if sp.back.Some? { GroupsAreFilled(sp.back.value); }
    if sp.quad.Some? { DottedIsApart(LastList(sp.head, sp.back), sp.quad.value, number); }
    JoinedWithout(w.0, ':', '%');
    if w.1.Some? { JoinedWithout(w.1.value, ':', '%'); }
  }

  lemma {:induction false} BodyAndZone(sp: Spelling, number: Numeral)
    requires Readable(sp, number)
    ensures var w, n := Written(sp), IndexOf(TextOf(sp), '%');
      TextOf(sp)[..n] == Body(w.0, w.1) && sp.zone == if n == |TextOf(sp)| then None else Some(TextOf(sp)[n + 1..])
  {
    var w := Written(sp);
    var body, zone := Body(w.0, w.1), ZoneText(sp.zone);
    WrittenIsApart(sp, number);
    ZoneIsDropped(body, zone);
    assert TextOf(sp) == body + zone;
    assert |body| == IndexOf(body + zone, '%');
    if sp.zone.Some? { assert (body + zone)[|body| + 1..] == sp.zone.value; }
  }

  /** The quad, if there is one, is the last part. */
  lemma {:induction false} QuadIsLast(sp: Spelling, number: Numeral)
    requires Readable(sp, number)
    ensures var w := Written(sp); var l := LastList(w.0, w.1);
      if sp.quad.Some? then
        l != [] && '.' in l[|l| - 1] && sp.quad == Some(Split(l[|l| - 1], '.')) && (sp.head, sp.back) == Shortened(w.0, w.1)
      else NoneHas(l, '.') && (sp.head, sp.back) == w
  {
    GroupsAreFilled(sp.head);
    if sp.back.Some? { GroupsAreFilled(sp.back.value); }
    match sp.quad
    case Some(quad) =>
      QuadReads(quad, number);
      SplitOfJoined(quad, '.');
      assert (LastList(sp.head, sp.back) + [Joined(quad, ".")])[..|LastList(sp.head, sp.back)|] == LastList(sp.head, sp.back);
    case None =>
      assert LastList(sp.head, sp.back) + [] == LastList(sp.head, sp.back);
  }

  /** A text is read in one way: two readable spellings of it are the same. */
  lemma {:induction false} SpellingIsUnique(a: Spelling, b: Spelling, number: Numeral)
    requires Readable(a, number) && Readable(b, number) && TextOf(a) == TextOf(b)
    ensures a == b
  {
    BodyAndZone(a, number);
    BodyAndZone(b, number);
    WrittenIsApart(a, number);
    WrittenIsApart(b, number);
    var w, x := Written(a), Written(b);
    BodyIsUnique(w.0, w.1, x.0, x.1);
    QuadIsLast(a, number);
    QuadIsLast(b, number);
    var l := LastList(w.0, w.1);
    assert l != [] && '.' in l[|l| - 1] ==> !NoneHas(l, '.');
  }

  // ---------------------------------------------------------------- against the standard

  predicate GapIsEmpty(sp: Spelling) {
    sp.back.Some? && |sp.head| + |sp.back.value| + (if sp.quad.Some? then 2 else 0) == 8
  }

  ghost predicate LegalText(text: string) {
    exists sp :: Legal(sp) && TextOf(sp) == text
  }

  /**
   Where the reader goes beyond section 2.2 of RFC 4291, exactly: a text that is read, in its one way, is one
   the standard allows if and only if no `::` in it stands for nothing and its quad, if any, is of decimal
   octets of up to three digits.
   */
  lemma {:induction false} LegalExactlyIf(sp: Spelling, number: Numeral)
    requires Readable(sp, number) && ReadsDecimals(number)
    ensures LegalText(TextOf(sp)) <==> !GapIsEmpty(sp) && (sp.quad.Some? ==> IsQuad(sp.quad.value))
  {
    assert Legal(sp) <==> !GapIsEmpty(sp) && (sp.quad.Some? ==> IsQuad(sp.quad.value));
    if LegalText(TextOf(sp)) {
      var other :| Legal(other) && TextOf(other) == TextOf(sp);
      LegalIsReadable(other, number);
      SpellingIsUnique(sp, other, number);
    }
  }

  /** And what the standard allows is read. */
  lemma {:induction false} LegalIsRead(text: string, number: Numeral)
    requires LegalText(text) && ReadsDecimals(number)
    ensures V6Groups(text, number).Some?
  {
    var sp :| Legal(sp) && TextOf(sp) == text;
    EverySpellingReads(sp, number);
  }

  /**
   The other family: a host that reads some text other than a decimal octet as one, as JavaScript reads `0x7f`
   and the empty text, has it read wherever a quad may stand, for instance at the end of a mapped address.
   */
  lemma {:induction false} OddOctetIsRead(odd: string, number: Numeral)
    requires ReadsDecimals(number) && Octet(odd, number).Some? && !IsOctet(odd)
    requires Without(odd, '.') && Without(odd, ':') && Without(odd, '%')
    ensures var text := "::ffff:" + odd + ".0.0.1";
      V6Groups(text, number) == Some([0, 0, 0, 0, 0, 0xffff, Octet(odd, number).value * 256, 1]) && !LegalText(text)
  {
    var quad := [odd, "0", "0", "1"];
    var sp := Spelling([], Some(["ffff"]), Some(quad), None);
    DigitsAreRead(number);
    assert IsGroup("ffff");
    assert ReadsQuad(quad, number);
    OddText(odd);
    ReadableReads(sp, number);
    OddReading(sp, odd, number);
    assert !IsOctet(quad[0]);
    LegalExactlyIf(sp, number);
  }

  lemma {:induction false} DigitsAreRead(number: Numeral)
    requires ReadsDecimals(number)
    ensures Octet("0", number) == Some(0) && Octet("1", number) == Some(1)
  {
    assert "0"[..0] == "" && "1"[..0] == "";
    assert IsDecimal("0") && IsDecimal("1") && DecimalValue("0") == 0 && DecimalValue("1") == 1;
  }

  lemma {:induction false} OddText(odd: string)
    ensures TextOf(Spelling([], Some(["ffff"]), Some([odd, "0", "0", "1"]), None)) == "::ffff:" + odd + ".0.0.1"
  {
    var dotted := odd + ".0.0.1";
    var quad := [odd, "0", "0", "1"];
    JoinedFour(odd, "0", "0", "1");
    assert Joined(quad, ".") == dotted;
    var more := ["ffff"] + [dotted];
    assert more[1..] == [dotted];
    assert Joined(more, ":") == "ffff:" + dotted;
  }

  lemma {:induction false} OddReading(sp: Spelling, odd: string, number: Numeral)
    requires sp == Spelling([], Some(["ffff"]), Some([odd, "0", "0", "1"]), None) && Readable(sp, number)
    requires Octet(odd, number).Some? && Octet("0", number) == Some(0) && Octet("1", number) == Some(1)
    ensures ReadingOf(sp, number) == [0, 0, 0, 0, 0, 0xffff, Octet(odd, number).value * 256, 1]
  {
    var f := "ffff";
    assert f[..3] == "fff" && f[..3][..2] == "ff" && f[..3][..2][..1] == "f" && f[..3][..2][..1][..0] == "";
    assert HexValue("f") == 15 && HexValue("ff") == 255 && HexValue("fff") == 4095 && HexValue(f) == 0xffff;
    var back := [f];
    assert back[1..] == [] && ValuesOf(back) == [0xffff];
    assert seq(5, _ => 0) == [0, 0, 0, 0, 0];
  }
}
