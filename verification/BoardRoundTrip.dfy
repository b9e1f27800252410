/**
 Condensing and verifying a board: splitting loses nothing and is the only way to cut a text at its
 headings, and a condensed board splits back into exactly what was kept.
 */
module BoardRoundTrip {
  import opened Options
  import opened Text
  import opened Board

  // ---------------------------------------------------------------- lines and text

  lemma {:induction false} UnlinesCons(c: char, ls: seq<string>)
    requires ls != []
    ensures Unlines([[c] + ls[0]] + ls[1..]) == [c] + Unlines(ls)
  {
    var longer := [[c] + ls[0]] + ls[1..];
    assert longer[1..] == ls[1..];
    if |ls| > 1 { assert ([c] + ls[0]) + "\n" + Joined(ls[1..], "\n") == [c] + (ls[0] + "\n" + Joined(ls[1..], "\n")); }
  }

  lemma {:induction false} UnlinesOfLines(text: string)
    ensures Unlines(Lines(text)) == text
  {
    if text != "" {
      var rest := Lines(text[1..]);
      UnlinesOfLines(text[1..]);
      assert text == [text[0]] + text[1..];
      if text[0] != '\n' { UnlinesCons(text[0], rest); } else { UnlinesOfSum([""], rest); }
    }
  }

  lemma {:induction false} LinesOfSum(a: string, b: string)
    ensures Lines(a + "\n" + b) == Lines(a) + Lines(b)
  {
    var text := a + "\n" + b;
    if a == "" {
      assert text[1..] == b;
    } else {
      LinesOfSum(a[1..], b);
      assert text[1..] == a[1..] + "\n" + b;
      var ra := Lines(a[1..]);
      if a[0] != '\n' { ConsFirst(a[0], ra, Lines(b)); }
      else { assert [""] + (ra + Lines(b)) == [""] + ra + Lines(b); }
    }
  }

  lemma {:induction false} ConsFirst(c: char, a: seq<string>, b: seq<string>)
    requires a != []
    ensures [[c] + (a + b)[0]] + (a + b)[1..] == [[c] + a[0]] + a[1..] + b
  {
    assert (a + b)[0] == a[0] && (a + b)[1..] == a[1..] + b;
  }

  predicate OneLine(s: string) {
    '\n' !in s
  }

  lemma {:induction false} LinesOfOneLine(s: string)
    requires OneLine(s)
    ensures Lines(s) == [s]
  {
    if s != "" {
      LinesOfOneLine(s[1..]);
      assert s == [s[0]] + s[1..];
    }
  }

  lemma {:induction false} UnlinesWithBlank(ls: seq<string>)
    requires ls != []
    ensures Unlines(ls + [""]) == Unlines(ls) + "\n"
  {
    var grown := ls + [""];
    if |ls| == 1 {
      assert grown[1..] == [""];
      assert Unlines(grown) == ls[0] + "\n" + Joined([""], "\n");
      assert Joined([""], "\n") == "";
    } else {
      UnlinesWithBlank(ls[1..]);
      assert grown[1..] == ls[1..] + [""];
    }
  }

  lemma {:induction false} UnlinesOfSum(a: seq<string>, b: seq<string>)
    requires a != [] && b != []
    ensures Unlines(a + b) == Unlines(a) + "\n" + Unlines(b)
  {
    if |a| == 1 {
      assert (a + b)[1..] == b;
    } else {
      UnlinesOfSum(a[1..], b);
      assert (a + b)[1..] == a[1..] + b;
    }
  }

  // ---------------------------------------------------------------- layouts

  predicate NoHeadings(ls: seq<string>) {
    forall i :: 0 <= i < |ls| ==> !IsHeading(ls[i])
  }

  predicate IsSection(ls: seq<string>) {
    ls != [] && IsHeading(ls[0]) && NoHeadings(ls[1..])
  }

  predicate WellFormed(l: Layout) {
    NoHeadings(l.preamble) && forall i :: 0 <= i < |l.sections| ==> IsSection(l.sections[i])
  }

  function Flat(blocks: seq<seq<string>>): seq<string> {
    if blocks == [] then [] else Flat(blocks[..|blocks| - 1]) + blocks[|blocks| - 1]
  }

  /** A section grows by a line that opens no other. */
  lemma {:induction false} SectionGrows(section: seq<string>, line: string)
    requires IsSection(section) && !IsHeading(line)
    ensures IsSection(section + [line])
  {
    assert (section + [line])[1..] == section[1..] + [line];
  }

  lemma {:induction false} FlatOfMore(blocks: seq<seq<string>>, last: seq<string>)
    ensures Flat(blocks + [last]) == Flat(blocks) + last
  {
    assert (blocks + [last])[..|blocks|] == blocks;
  }

  lemma {:induction false} GrowIsFaithful(l: Layout, line: string)
    requires WellFormed(l)
    ensures var l' := Grow(l, line); WellFormed(l') && l'.preamble + Flat(l'.sections) == l.preamble + Flat(l.sections) + [line]
  {
    if IsHeading(line) {
      FlatOfMore(l.sections, [line]);
    } else if l.sections == [] {
      assert Flat(l.sections) == [];
    } else {
      var n := |l.sections| - 1;
      var done, last := l.sections[..n], l.sections[n];
      assert l.sections == done + [last];
      assert Grow(l, line).sections == done + [last + [line]];
      FlatOfMore(done, last);
      FlatOfMore(done, last + [line]);
      SectionGrows(last, line);
    }
  }

  /** Splitting drops, adds and reorders nothing, and cuts exactly at the headings. */
  lemma {:induction false} LayoutIsFaithful(ls: seq<string>)
    ensures var l := LayoutOf(ls); WellFormed(l) && l.preamble + Flat(l.sections) == ls
  {
    if ls != [] {
      var before, line := ls[..|ls| - 1], ls[|ls| - 1];
      LayoutIsFaithful(before);
      GrowIsFaithful(LayoutOf(before), line);
      assert ls == before + [line];
    }
  }

  lemma {:induction false} PlainLinesGrow(l: Layout, ls: seq<string>, plain: seq<string>)
    requires LayoutOf(ls) == l && NoHeadings(plain)
    ensures LayoutOf(ls + plain) ==
      if l.sections == [] then Layout(l.preamble + plain, [])
      else Layout(l.preamble, l.sections[|l.sections| - 1 := l.sections[|l.sections| - 1] + plain])
  {
    if plain == [] {
      assert ls + plain == ls;
      if l.sections == [] { assert l.preamble + plain == l.preamble; }
      else { assert l.sections[|l.sections| - 1] + plain == l.sections[|l.sections| - 1]; }
    } else {
      var front, line := plain[..|plain| - 1], plain[|plain| - 1];
      PlainLinesGrow(l, ls, front);
      assert (ls + plain)[..|ls + plain| - 1] == ls + front;
      assert front + [line] == plain;
      if l.sections == [] {
        assert l.preamble + front + [line] == l.preamble + plain;
      } else {
        var last := l.sections[|l.sections| - 1];
        assert last + front + [line] == last + plain;
      }
    }
  }

  /** There is one way to read a text: any preamble without headings and any sections come back as they were. */
  lemma {:induction false} LayoutIsUnique(l: Layout)
    requires WellFormed(l)
    ensures LayoutOf(l.preamble + Flat(l.sections)) == l
    decreases |l.sections|
  {
    if l.sections == [] {
      PreambleAlone(l.preamble);
      assert l.preamble + Flat([]) == l.preamble;
    } else {
      var n := |l.sections| - 1;
      var fewer := Layout(l.preamble, l.sections[..n]);
      LayoutIsUnique(fewer);
      OneMoreSection(fewer, fewer.preamble + Flat(fewer.sections), l.sections[n]);
      assert l.sections == l.sections[..n] + [l.sections[n]];
      Regroup(l.preamble, Flat(l.sections[..n]), l.sections[n]);
    }
  }

  lemma {:induction false} Regroup(a: seq<string>, b: seq<string>, c: seq<string>)
    ensures a + (b + c) == a + b + c
  {
  }

  lemma {:induction false} PreambleAlone(pre: seq<string>)
    requires NoHeadings(pre)
    ensures LayoutOf(pre) == Layout(pre, [])
  {
    assert LayoutOf([]) == Layout([], []);
    PlainLinesGrow(Layout([], []), [], pre);
    assert [] + pre == pre;
  }

  lemma {:induction false} OneMoreSection(l: Layout, ls: seq<string>, section: seq<string>)
    requires LayoutOf(ls) == l && IsSection(section)
    ensures LayoutOf(ls + section) == Layout(l.preamble, l.sections + [section])
  {
    var heading, plain := section[0], section[1..];
    var l1 := Layout(l.preamble, l.sections + [[heading]]);
    assert (ls + [heading])[..|ls|] == ls;
    PlainLinesGrow(l1, ls + [heading], plain);
    assert [heading] + plain == section;
    assert ls + section == ls + [heading] + plain;
    assert l1.sections[|l1.sections| - 1 := section] == l.sections + [section];
  }

  function Headings(ls: seq<string>): nat {
    if ls == [] then 0 else Headings(ls[..|ls| - 1]) + if IsHeading(ls[|ls| - 1]) then 1 else 0
  }

  lemma {:induction false} HeadingsOfSum(a: seq<string>, b: seq<string>)
    ensures Headings(a + b) == Headings(a) + Headings(b)
  {
    if b == [] {
      assert a + b == a;
    } else {
      HeadingsOfSum(a, b[..|b| - 1]);
      assert (a + b)[..|a + b| - 1] == a + b[..|b| - 1];
    }
  }

  lemma {:induction false} NoHeadingsNone(ls: seq<string>)
    requires NoHeadings(ls)
    ensures Headings(ls) == 0
  {
    if ls != [] { NoHeadingsNone(ls[..|ls| - 1]); }
  }

  /** A board has as many sections as lines that open one. */
  lemma {:induction false} SectionsAreHeadings(ls: seq<string>)
    ensures |LayoutOf(ls).sections| == Headings(ls)
  {
    if ls != [] { SectionsAreHeadings(ls[..|ls| - 1]); }
  }

  // ---------------------------------------------------------------- trimming

  lemma {:induction false} TrimEndOfMark(s: string)
    requires s != "" && !IsSpace(s[|s| - 1])
    ensures TrimEnd(s) == s && TrimEnd(s + "\n") == s
  {
    assert (s + "\n")[..|s|] == s;
  }

  lemma {:induction false} TrimEndTwice(s: string)
    ensures TrimEnd(TrimEnd(s)) == TrimEnd(s)
    ensures TrimEnd(TrimEnd(s) + "\n") == TrimEnd(s)
  {
    if TrimEnd(s) == "" {
      assert TrimEnd("" + "\n") == "" by { assert ("\n")[..0] == ""; assert "" + "\n" == "\n"; }
    } else {
      TrimEndOfMark(TrimEnd(s));
    }
  }

  /** Line by line, the first text is a prefix of the second. */
  predicate Within(a: seq<string>, b: seq<string>) {
    |a| <= |b| && forall i :: 0 <= i < |a| ==> a[i] <= b[i]
  }

  /** One more character before both texts. */
  lemma {:induction false} WithinGrows(x: char, a: seq<string>, b: seq<string>)
    requires Within(a, b) && a != [] && b != []
    ensures Within([""] + a, [""] + b) && Within([[x] + a[0]] + a[1..], [[x] + b[0]] + b[1..])
  {
    var a', b' := [[x] + a[0]] + a[1..], [[x] + b[0]] + b[1..];
    assert a[0] <= b[0];
    forall i | 0 <= i < |a'| ensures a'[i] <= b'[i] {
      if i > 0 { assert a'[i] == a[i] && b'[i] == b[i]; }
    }
  }

  lemma {:induction false} LinesOfPrefix(text: string, n: nat)
    requires n <= |text|
    ensures Within(Lines(text[..n]), Lines(text))
  {
    if n > 0 {
      LinesOfPrefix(text[1..], n - 1);
      assert text[..n][1..] == text[1..][..n - 1] && text[..n][0] == text[0];
      WithinGrows(text[0], Lines(text[1..][..n - 1]), Lines(text[1..]));
    }
  }

  lemma {:induction false} HeadingOfPrefix(a: string, b: string)
    requires a <= b && IsHeading(a)
    ensures IsHeading(b)
  {
  }

  /** A trimmed text without headings has none either. */
  lemma {:induction false} TrimKeepsNoHeadings(text: string, n: nat)
    requires n <= |text| && NoHeadings(Lines(text))
    ensures NoHeadings(Lines(text[..n]))
  {
    LinesOfPrefix(text, n);
    var a, b := Lines(text[..n]), Lines(text);
    forall i | 0 <= i < |a| ensures !IsHeading(a[i]) {
      if IsHeading(a[i]) { HeadingOfPrefix(a[i], b[i]); }
    }
  }

  /** There is something to read after the mark of a section. */
  predicate HasBody(section: string) {
    |section| >= 2 && !IsBlank(section[2..])
  }

  lemma {:induction false} TrimEndKeeps(s: string, i: nat)
    requires i < |s| && !IsSpace(s[i])
    ensures |TrimEnd(s)| > i
  {
    var n := |TrimEnd(s)|;
    assert forall j :: n <= j < |s| ==> s[j] == s[n..][j - n];
  }

  lemma {:induction false} NoLaterHeading(t: seq<string>, ls: seq<string>)
    requires IsSection(ls) && Within(t, ls)
    ensures forall i :: 1 <= i < |t| ==> !IsHeading(t[i])
  {
    forall i | 1 <= i < |t| ensures !IsHeading(t[i]) {
      assert !IsHeading(ls[1..][i - 1]);
      if IsHeading(t[i]) { HeadingOfPrefix(t[i], ls[i]); }
    }
  }

  /** Trimming a section keeps it one exactly when it has a body; otherwise no heading is left of it. */
  lemma {:induction false} TrimmedSection(ls: seq<string>)
    requires IsSection(ls) && Lines(Unlines(ls)) == ls
    ensures var t := Lines(TrimEnd(Unlines(ls)));
      if HasBody(Unlines(ls)) then IsSection(t) else NoHeadings(t)
  {
    var text := Unlines(ls);
    var n := |TrimEnd(text)|;
    assert text[..n] == TrimEnd(text);
    LinesOfPrefix(text, n);
    var t := Lines(TrimEnd(text));
    StartsWithFirstLine(text);
    assert text[0] == '#' && text[1] == '#' && IsSpace(text[2]);
    TrimEndKeeps(text, 1);
    NoLaterHeading(t, ls);
    StartsWithFirstLine(TrimEnd(text));
    if HasBody(text) {
      var i :| 0 <= i < |text[2..]| && !IsSpace(text[2..][i]);
      TrimEndKeeps(text, i + 2);
      FirstLineKept(text, n);
    } else {
      assert forall j :: 2 <= j < |text| ==> text[j] == text[2..][j - 2];
      assert n == 2;
      assert |t[0]| <= 2;
    }
  }

  lemma {:induction false} StartsWithFirstLine(text: string)
    ensures Lines(text)[0] <= text
    ensures OneLine(Lines(text)[0])
  {
    if text != "" && text[0] != '\n' {
      StartsWithFirstLine(text[1..]);
      assert text == [text[0]] + text[1..];
    }
  }

  /** A prefix that goes past the third character still opens with a heading. */
  lemma {:induction false} FirstLineKept(text: string, n: nat)
    requires 3 <= n <= |text| && IsHeading(Lines(text)[0])
    ensures IsHeading(Lines(text[..n])[0])
  {
    StartsWithFirstLine(text);
    assert text[0] == '#' && text[1] == '#' && text[2] == Lines(text)[0][2];
    assert text[2] != '\n';
    var a := text[..n];
    assert a[1..][1..][1..] == a[3..];
    var l3 := Lines(a[3..]);
    assert a[1..][1..][0] == text[2];
    assert Lines(a[1..][1..])[0] == [text[2]] + l3[0];
    assert Lines(a[1..])[0] == [text[1]] + ([text[2]] + l3[0]);
    assert Lines(a)[0] == [text[0]] + ([text[1]] + ([text[2]] + l3[0]));
  }

  // ---------------------------------------------------------------- the condensed text

  predicate AllOneLine(ls: seq<string>) {
    forall i :: 0 <= i < |ls| ==> OneLine(ls[i])
  }

  lemma {:induction false} LinesAreOneLine(text: string)
    ensures AllOneLine(Lines(text))
  {
    if text != "" { LinesAreOneLine(text[1..]); }
  }

  lemma {:induction false} LinesOfUnlines(ls: seq<string>)
    requires ls != [] && AllOneLine(ls)
    ensures Lines(Unlines(ls)) == ls
  {
    LinesOfOneLine(ls[0]);
    if |ls| > 1 {
      LinesOfUnlines(ls[1..]);
      LinesOfSum(ls[0], Unlines(ls[1..]));
      assert ls == [ls[0]] + ls[1..];
      assert Unlines(ls) == ls[0] + "\n" + Unlines(ls[1..]);
    }
  }

  /** The lines of a part and the blank line after it. */
  function Block(part: string): seq<string> {
    Lines(part) + [""]
  }

  function Blocks(parts: seq<string>): seq<string> {
    if parts == [] then [] else Block(parts[0]) + Blocks(parts[1..])
  }

  lemma {:induction false} BlocksOfSum(a: seq<string>, b: seq<string>)
    ensures Blocks(a + b) == Blocks(a) + Blocks(b)
  {
    if a == [] {
      assert a + b == b;
    } else {
      BlocksOfSum(a[1..], b);
      assert (a + b)[1..] == a[1..] + b;
    }
  }

  lemma {:induction false} LinesOfPart(part: string, rest: string)
    ensures Lines(part + "\n\n" + rest) == Block(part) + Lines(rest)
  {
    LinesOfSum("", rest);
    LinesOfSum(part, "" + "\n" + rest);
    assert part + "\n\n" + rest == part + "\n" + ("" + "\n" + rest);
    assert Lines("") == [""];
  }

  /** A text of parts with a blank line between any two has the lines of each, in order. */
  lemma {:induction false} LinesOfParts(parts: seq<string>)
    requires parts != []
    ensures Lines(Joined(parts, "\n\n") + "\n") == Blocks(parts)
  {
    if |parts| == 1 {
      LinesOfSum(parts[0], "");
      assert Joined(parts, "\n\n") + "\n" == parts[0] + "\n" + "";
      assert parts[1..] == [];
    } else {
      var rest := Joined(parts[1..], "\n\n");
      LinesOfParts(parts[1..]);
      LinesOfPart(parts[0], rest + "\n");
      assert parts[0] + "\n\n" + (rest + "\n") == parts[0] + "\n\n" + rest + "\n";
    }
  }

  /** Joining after the empty preamble, if it is, has been left out. */
  lemma {:induction false} NothingElseIsEmpty(parts: seq<string>)
    requires forall i :: 0 <= i < |parts| ==> parts[i] != ""
    ensures NonEmpty(parts) == parts
  {
    if parts != [] { NothingElseIsEmpty(parts[1..]); }
  }

  lemma {:induction false} OnlyTheHeadCanBeEmpty(preamble: string, note: string, kept: seq<string>)
    requires note != "" && forall i :: 0 <= i < |kept| ==> kept[i] != ""
    ensures NonEmpty([preamble, note] + kept) == NonEmpty([preamble, note]) + kept
    ensures NonEmpty([preamble, note]) == if preamble == "" then [note] else [preamble, note]
  {
    assert ([preamble, note] + kept)[1..] == [note] + kept && [preamble, note][1..] == [note];
    NothingElseIsEmpty([note] + kept);
    NothingElseIsEmpty([note]);
  }

  // ---------------------------------------------------------------- what the kept sections become

  /** The sections of a board, as lines, and the text of each. */
  predicate AreSections(ls: seq<seq<string>>) {
    forall i :: 0 <= i < |ls| ==> IsSection(ls[i]) && AllOneLine(ls[i])
  }

  predicate HasBodies(sections: seq<string>) {
    forall i :: 0 <= i < |sections| ==> HasBody(sections[i])
  }

  lemma {:induction false} SectionsOfText(text: string)
    ensures var l := LayoutOf(Lines(text));
      AreSections(l.sections) && NoHeadings(l.preamble) && AllOneLine(l.preamble)
  {
    LinesAreOneLine(text);
    LayoutIsFaithful(Lines(text));
    LayoutOneLine(Lines(text));
  }

  lemma {:induction false} LayoutOneLine(ls: seq<string>)
    requires AllOneLine(ls)
    ensures var l := LayoutOf(ls); AllOneLine(l.preamble) && forall i :: 0 <= i < |l.sections| ==> AllOneLine(l.sections[i])
  {
    if ls != [] { LayoutOneLine(ls[..|ls| - 1]); }
  }

  /** The trimmed text of a section: a section again if it has a body, and no heading otherwise. */
  lemma {:induction false} KeptBlock(ls: seq<string>)
    requires IsSection(ls) && AllOneLine(ls)
    ensures TrimEnd(Unlines(ls)) != ""
    ensures HasBody(Unlines(ls)) ==> IsSection(Block(TrimEnd(Unlines(ls))))
    ensures !HasBody(Unlines(ls)) ==> NoHeadings(Block(TrimEnd(Unlines(ls))))
  {
    LinesOfUnlines(ls);
    TrimmedSection(ls);
    var s := Unlines(ls);
    StartsWithFirstLine(s);
    assert s[0] == '#';
    TrimEndKeeps(s, 0);
    var t := Lines(TrimEnd(s));
    assert Block(TrimEnd(s))[1..] == t[1..] + [""];
  }

  function Bodies(sections: seq<string>): nat {
    if sections == [] then 0 else (if HasBody(sections[0]) then 1 else 0) + Bodies(sections[1..])
  }

  lemma {:induction false} BodiesOfAll(sections: seq<string>)
    ensures Bodies(sections) <= |sections|
    ensures Bodies(sections) == |sections| <==> HasBodies(sections)
  {
    if sections != [] {
      BodiesOfAll(sections[1..]);
      assert HasBodies(sections) <==> HasBody(sections[0]) && HasBodies(sections[1..]);
    }
  }

  lemma {:induction false} HeadingsOfSection(ls: seq<string>)
    requires IsSection(ls)
    ensures Headings(ls) == 1
  {
    assert ls == ls[..1] + ls[1..];
    HeadingsOfSum(ls[..1], ls[1..]);
    NoHeadingsNone(ls[1..]);
    assert ls[..1][..0] == [];
  }

  /** A trimmed section keeps its heading line exactly when it has a body. */
  lemma {:induction false} HeadingsOfOne(ls: seq<string>)
    requires IsSection(ls) && AllOneLine(ls)
    ensures TrimEnd(Unlines(ls)) != ""
    ensures Headings(Block(TrimEnd(Unlines(ls)))) == if HasBody(Unlines(ls)) then 1 else 0
  {
    KeptBlock(ls);
    var b := Block(TrimEnd(Unlines(ls)));
    if HasBody(Unlines(ls)) { HeadingsOfSection(b); } else { NoHeadingsNone(b); }
  }

  lemma {:induction false} FirstKept(ls: seq<seq<string>>)
    requires ls != []
    ensures Blocks(TrimmedAll(Texts(ls))) == Block(TrimEnd(Unlines(ls[0]))) + Blocks(TrimmedAll(Texts(ls[1..])))
    ensures Bodies(Texts(ls)) == (if HasBody(Unlines(ls[0])) then 1 else 0) + Bodies(Texts(ls[1..]))
  {
    assert Texts(ls)[1..] == Texts(ls[1..]);
    assert TrimmedAll(Texts(ls))[1..] == TrimmedAll(Texts(ls[1..]));
  }

  lemma {:induction false} HeadingsOfKept(ls: seq<seq<string>>)
    requires AreSections(ls)
    ensures Headings(Blocks(TrimmedAll(Texts(ls)))) == Bodies(Texts(ls))
  {
    if ls != [] {
      HeadingsOfKept(ls[1..]);
      HeadingsOfOne(ls[0]);
      FirstKept(ls);
      HeadingsOfSum(Block(TrimEnd(Unlines(ls[0]))), Blocks(TrimmedAll(Texts(ls[1..]))));
    }
  }

  function EachBlock(parts: seq<string>): seq<seq<string>> {
    seq(|parts|, i requires 0 <= i < |parts| => Block(parts[i]))
  }

  lemma {:induction false} BlocksAreFlat(parts: seq<string>)
    ensures Blocks(parts) == Flat(EachBlock(parts))
  {
    if parts != [] {
      var n := |parts| - 1;
      BlocksAreFlat(parts[..n]);
      BlocksOfSum(parts[..n], [parts[n]]);
      assert parts == parts[..n] + [parts[n]];
      assert EachBlock(parts)[..n] == EachBlock(parts[..n]);
      assert [parts[n]][1..] == [];
      assert Blocks([parts[n]]) == Block(parts[n]);
    }
  }

  /** What stands before the first heading only grows with what follows. */
  lemma {:induction false} PreambleStarts(pre: seq<string>, rest: seq<string>)
    requires NoHeadings(pre)
    ensures pre <= LayoutOf(pre + rest).preamble
  {
    if rest == [] {
      assert pre + rest == [] + pre && LayoutOf([]) == Layout([], []);
      PlainLinesGrow(Layout([], []), [], pre);
    } else {
      PreambleStarts(pre, rest[..|rest| - 1]);
      assert (pre + rest)[..|pre + rest| - 1] == pre + rest[..|rest| - 1];
    }
  }

  lemma {:induction false} UnlinesStarts(a: seq<string>, b: seq<string>)
    requires a != [] && a <= b
    ensures Unlines(a) <= Unlines(b)
  {
    var rest := b[|a|..];
    assert b == a + rest;
    if rest == [] { assert b == a; } else { UnlinesOfSum(a, rest); }
  }

  // ---------------------------------------------------------------- the theorems

  /** The lines a condensed board has before its first section, at the least. */
  function Head(preamble: string, note: string): seq<string> {
    Blocks(NonEmpty([TrimEnd(preamble), note]))
  }

  lemma {:induction false} NoteIsOneLine(evicted: nat, archiveRef: string)
    requires OneLine(archiveRef)
    ensures OneLine(ArchiveNote(evicted, archiveRef)) && NoHeadings(Block(ArchiveNote(evicted, archiveRef)))
    ensures ArchiveNote(evicted, archiveRef) != ""
  {
    var p := ArchiveNote(evicted, archiveRef);
    assert p[0] == '_';
    assert '\n' !in Decimal(evicted);
    LinesOfOneLine(p);
  }

  lemma {:induction false} HeadOf(pre: seq<string>, note: string)
    requires NoHeadings(pre) && AllOneLine(pre) && note != "" && NoHeadings(Block(note))
    ensures var h := Head(Unlines(pre), note);
      h != [] && NoHeadings(h) && TrimEnd(Unlines(pre)) <= Unlines(h)
  {
    var p := Unlines(pre);
    var q := TrimEnd(p);
    OnlyTheHeadCanBeEmpty(q, note, []);
    assert [note][1..] == [] && [q, note][1..] == [note];
    assert Blocks([note]) == Block(note);
    if q != "" {
      assert pre != [];
      LinesOfUnlines(pre);
      TrimKeepsNoHeadings(p, |q|);
      assert p[..|q|] == q;
      UnlinesOfLines(q);
      UnlinesStarts(Lines(q), Block(q) + Block(note));
    }
  }

  lemma {:induction false} HeadHasNoHeadings(text: string, evicted: nat, archiveRef: string)
    requires OneLine(archiveRef)
    ensures var p := SplitSections(text).preamble; var h := Head(p, ArchiveNote(evicted, archiveRef));
      h != [] && NoHeadings(h) && TrimEnd(p) <= Unlines(h)
  {
    NoteIsOneLine(evicted, archiveRef);
    SectionsOfText(text);
    HeadOf(LayoutOf(Lines(text)).preamble, ArchiveNote(evicted, archiveRef));
  }

  lemma {:induction false} LinesOfAll(q: string, note: string, kept: seq<string>)
    requires note != "" && forall i :: 0 <= i < |kept| ==> kept[i] != ""
    ensures Lines(Assembled(q, note, kept)) == Blocks(NonEmpty([q, note])) + Blocks(kept)
  {
    OnlyTheHeadCanBeEmpty(q, note, kept);
    LinesOfParts(NonEmpty([q, note]) + kept);
    BlocksOfSum(NonEmpty([q, note]), kept);
  }

  function NewestLines(ls: seq<seq<string>>, keep: nat): seq<seq<string>>
    requires 1 <= keep <= |ls|
  {
    ls[|ls| - keep..]
  }

  lemma {:induction false} KeptAreNotEmpty(text: string, keep: nat)
    requires 1 <= keep <= |SplitSections(text).sections|
    ensures var ls := NewestLines(LayoutOf(Lines(text)).sections, keep);
      Newest(SplitSections(text).sections, keep) == Texts(ls) && AreSections(ls)
    ensures var kept := TrimmedAll(Newest(SplitSections(text).sections, keep));
      |kept| == keep && forall i :: 0 <= i < keep ==> kept[i] != ""
  {
    var ls := NewestLines(LayoutOf(Lines(text)).sections, keep);
    SectionsOfText(text);
    assert Newest(SplitSections(text).sections, keep) == Texts(ls);
    forall i | 0 <= i < keep ensures TrimmedAll(Texts(ls))[i] != "" { KeptBlock(ls[i]); }
  }

  lemma {:induction false} CountOf(head: seq<string>, ls: seq<seq<string>>)
    requires head != [] && NoHeadings(head) && AreSections(ls)
    ensures var l := LayoutOf(head + Blocks(TrimmedAll(Texts(ls))));
      |l.sections| == Bodies(Texts(ls)) <= |ls| && Unlines(head) <= Unlines(l.preamble)
  {
    var rest := Blocks(TrimmedAll(Texts(ls)));
    HeadingsOfKept(ls);
    NoHeadingsNone(head);
    HeadingsOfSum(head, rest);
    SectionsAreHeadings(head + rest);
    BodiesOfAll(Texts(ls));
    PreambleStarts(head, rest);
    UnlinesStarts(head, LayoutOf(head + rest).preamble);
  }

  lemma {:induction false} CondensedForm(text: string, archiveRef: string, keep: nat)
    requires keep >= 1 && Condensed(text, archiveRef, keep).Some?
    ensures var b := SplitSections(text);
      |b.sections| > keep && Condensed(text, archiveRef, keep).value
        == Assembled(TrimEnd(b.preamble), ArchiveNote(|b.sections| - keep, archiveRef), TrimmedAll(Newest(b.sections, keep)))
  {
  }

  lemma {:induction false} AssembledIs(text: string, evicted: nat, archiveRef: string, keep: nat, cond: string)
    returns (head: seq<string>, ls: seq<seq<string>>)
    requires 1 <= keep <= |SplitSections(text).sections| && OneLine(archiveRef)
    requires var b := SplitSections(text);
      cond == Assembled(TrimEnd(b.preamble), ArchiveNote(evicted, archiveRef), TrimmedAll(Newest(b.sections, keep)))
    ensures var b := SplitSections(text);
      && Lines(cond) == head + Blocks(TrimmedAll(Texts(ls)))
      && AreSections(ls) && |ls| == keep && Texts(ls) == Newest(b.sections, keep)
      && head != [] && NoHeadings(head) && TrimEnd(b.preamble) <= Unlines(head)
  {
    var preamble, note := SplitSections(text).preamble, ArchiveNote(evicted, archiveRef);
    KeptAreNotEmpty(text, keep);
    ls := NewestLines(LayoutOf(Lines(text)).sections, keep);
    head := Head(preamble, note);
    HeadHasNoHeadings(text, evicted, archiveRef);
    NoteIsOneLine(evicted, archiveRef);
    LinesOfAll(TrimEnd(preamble), note, TrimmedAll(Texts(ls)));
  }

  /** A condensed board, line by line: the old preamble and the note, then the trimmed kept sections. */
  lemma {:induction false} CondensedIs(text: string, archiveRef: string, keep: nat) returns (head: seq<string>, ls: seq<seq<string>>)
    requires keep >= 1 && OneLine(archiveRef) && Condensed(text, archiveRef, keep).Some?
    ensures Lines(Condensed(text, archiveRef, keep).value) == head + Blocks(TrimmedAll(Texts(ls)))
    ensures AreSections(ls) && |ls| == keep && Texts(ls) == Newest(SplitSections(text).sections, keep)
    ensures head != [] && NoHeadings(head) && TrimEnd(SplitSections(text).preamble) <= Unlines(head)
  {
    CondensedForm(text, archiveRef, keep);
    var cond, evicted := Condensed(text, archiveRef, keep).value, |SplitSections(text).sections| - keep;
    head, ls := AssembledIs(text, evicted, archiveRef, keep, cond);
  }

  /** A condensed board has as many sections as were kept exactly when each of those has a body. */
  lemma {:induction false} CondensedCount(text: string, archiveRef: string, keep: nat)
    requires keep >= 1 && OneLine(archiveRef) && Condensed(text, archiveRef, keep).Some?
    ensures var kept := Newest(SplitSections(text).sections, keep);
      |SplitSections(Condensed(text, archiveRef, keep).value).sections| == Bodies(kept) <= keep
    ensures TrimEnd(SplitSections(text).preamble) <= SplitSections(Condensed(text, archiveRef, keep).value).preamble
  {
    var head, ls := CondensedIs(text, archiveRef, keep);
    CountOf(head, ls);
  }

  lemma {:induction false} BlocksAreSections(head: seq<string>, ls: seq<seq<string>>)
    requires NoHeadings(head) && AreSections(ls) && HasBodies(Texts(ls))
    ensures LayoutOf(head + Blocks(TrimmedAll(Texts(ls)))).sections == EachBlock(TrimmedAll(Texts(ls)))
  {
    var kept := TrimmedAll(Texts(ls));
    var l := Layout(head, EachBlock(kept));
    forall i | 0 <= i < |ls| ensures IsSection(l.sections[i]) {
      assert HasBody(Texts(ls)[i]);
      KeptBlock(ls[i]);
    }
    BlocksAreFlat(kept);
    LayoutIsUnique(l);
  }

  lemma {:induction false} LayoutOfCondensed(text: string, archiveRef: string, keep: nat)
    requires keep >= 1 && OneLine(archiveRef) && Condensed(text, archiveRef, keep).Some?
    requires HasBodies(Newest(SplitSections(text).sections, keep))
    ensures LayoutOf(Lines(Condensed(text, archiveRef, keep).value)).sections
      == EachBlock(TrimmedAll(Newest(SplitSections(text).sections, keep)))
  {
    var head, ls := CondensedIs(text, archiveRef, keep);
    BlocksAreSections(head, ls);
  }

  lemma {:induction false} TextOfBlock(part: string)
    ensures Unlines(Block(part)) == part + "\n"
  {
    UnlinesWithBlank(Lines(part));
    UnlinesOfLines(part);
  }

  /** A board condensed while every kept section has a body splits back into those sections, and no further condensing is due. */
  lemma {:induction false} CondensedSplitsBack(text: string, archiveRef: string, keep: nat)
    requires keep >= 1 && OneLine(archiveRef) && Condensed(text, archiveRef, keep).Some?
    requires HasBodies(Newest(SplitSections(text).sections, keep))
    ensures var b, kept := SplitSections(Condensed(text, archiveRef, keep).value), Newest(SplitSections(text).sections, keep);
      |b.sections| == keep && forall i :: 0 <= i < keep ==> b.sections[i] == TrimEnd(kept[i]) + "\n"
    ensures forall other :: Condensed(Condensed(text, archiveRef, keep).value, other, keep) == None
  {
    LayoutOfCondensed(text, archiveRef, keep);
    var kept := TrimmedAll(Newest(SplitSections(text).sections, keep));
    forall i | 0 <= i < keep
      ensures SplitSections(Condensed(text, archiveRef, keep).value).sections[i] == kept[i] + "\n"
    {
      TextOfBlock(kept[i]);
    }
  }

  lemma {:induction false} NotBlankNotTrimmedAway(s: string, i: nat)
    requires i < |s| && !IsSpace(s[i])
    ensures Trim(s) != ""
  {
    if IsSpace(s[0]) {
      NotBlankNotTrimmedAway(s[1..], i - 1);
    } else {
      TrimEndKeeps(s, 0);
    }
  }

  lemma {:induction false} AssembledIsNotBlank(preamble: string, note: string, kept: seq<string>)
    requires (preamble == "" || !IsSpace(preamble[|preamble| - 1])) && note != "" && !IsSpace(note[0])
    ensures Trim(Assembled(preamble, note, kept)) != ""
  {
    var parts := [preamble, note] + kept;
    var all := Assembled(preamble, note, kept);
    assert parts[1..][0] == note;
    assert NonEmpty(parts[1..]) != [] && NonEmpty(parts[1..])[0] == note;
    var first := NonEmpty(parts)[0];
    assert first == if preamble == "" then note else preamble;
    assert first <= all;
    if preamble == "" { NotBlankNotTrimmedAway(all, 0); } else { NotBlankNotTrimmedAway(all, |preamble| - 1); }
  }

  lemma {:induction false} CondensedIsNotBlank(text: string, archiveRef: string, keep: nat)
    requires keep >= 1 && OneLine(archiveRef) && Condensed(text, archiveRef, keep).Some?
    ensures Trim(Condensed(text, archiveRef, keep).value) != ""
  {
    CondensedForm(text, archiveRef, keep);
    var b := SplitSections(text);
    var note := ArchiveNote(|b.sections| - keep, archiveRef);
    assert note[0] == '_';
    AssembledIsNotBlank(TrimEnd(b.preamble), note, TrimmedAll(Newest(b.sections, keep)));
  }

  /**
   The gate's answer on a condensed board, in full: it is turned down for its size, or accepted when
   every kept section has something to read, and otherwise turned down for a missing section.
   */
  lemma {:induction false} VerdictOnCondensed(text: string, archiveRef: string, keep: nat)
    requires keep >= 1 && OneLine(archiveRef) && Condensed(text, archiveRef, keep).Some?
    ensures var cond := Condensed(text, archiveRef, keep).value;
      Verified(cond, text, keep) ==
        if !Smaller(cond, text) then NotSmaller
        else if HasBodies(Newest(SplitSections(text).sections, keep)) then Accepted
        else SectionCountMismatch
  {
    var cond := Condensed(text, archiveRef, keep).value;
    var kept := Newest(SplitSections(text).sections, keep);
    CondensedIsNotBlank(text, archiveRef, keep);
    CondensedCount(text, archiveRef, keep);
    BodiesOfAll(kept);
    if HasBodies(kept) {
      CondensedSplitsBack(text, archiveRef, keep);
      forall i | 0 <= i < keep ensures TrimEnd(SplitSections(cond).sections[i]) == TrimEnd(kept[i]) {
        TrimEndTwice(kept[i]);
      }
    }
  }

  /** What the gate lets through keeps the old preamble and the newest sections, up to blanks at their ends. */
  lemma {:induction false} AcceptedKeepsTheBoard(rebuilt: string, original: string, keep: nat)
    requires keep >= 1 && Verified(rebuilt, original, keep) == Accepted
    ensures var before, after := SplitSections(original), SplitSections(rebuilt);
      TrimEnd(before.preamble) <= after.preamble && |before.sections| >= keep
      && TrimmedAll(after.sections) == TrimmedAll(before.sections[|before.sections| - keep..])
  {
    var before, after := SplitSections(original), SplitSections(rebuilt);
    var e := Newest(before.sections, keep);
    assert |e| == keep;
    forall i | 0 <= i < keep ensures TrimmedAll(after.sections)[i] == TrimmedAll(e)[i] {
      assert TrimEnd(after.sections[i]) == TrimEnd(e[i]);
    }
  }
}
