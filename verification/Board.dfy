/**
 The size policy of `board.md`: splitting a board into its preamble and `## ` sections, condensing it
 to its newest sections, and the check every rewrite has to pass.
 */
module Board {
  import opened Options
  import opened Text

  // ---------------------------------------------------------------- lines

  function Lines(text: string): (ls: seq<string>)
    ensures ls != []
  {
    if text == "" then [""]
    else
      var rest := Lines(text[1..]);
      if text[0] == '\n' then [""] + rest else [[text[0]] + rest[0]] + rest[1..]
  }

  /** A line that opens a section. */
  predicate IsHeading(line: string) {
    |line| >= 3 && line[0] == '#' && line[1] == '#' && IsSpace(line[2])
  }

  // ---------------------------------------------------------------- preamble and sections

  /** The lines before the first heading, and the lines of each section. */
  datatype Layout = Layout(preamble: seq<string>, sections: seq<seq<string>>)

  function Grow(l: Layout, line: string): Layout {
    if IsHeading(line) then Layout(l.preamble, l.sections + [[line]])
    else if l.sections == [] then Layout(l.preamble + [line], [])
    else
      var n := |l.sections| - 1;
      Layout(l.preamble, l.sections[n := l.sections[n] + [line]])
  }

  function LayoutOf(ls: seq<string>): Layout {
    if ls == [] then Layout([], []) else Grow(LayoutOf(ls[..|ls| - 1]), ls[|ls| - 1])
  }

  lemma {:induction false} OneLineMore(ls: seq<string>, i: nat)
    requires i < |ls|
    ensures LayoutOf(ls[..i + 1]) == Grow(LayoutOf(ls[..i]), ls[i])
  {
    assert ls[..i + 1][..i] == ls[..i];
  }

  /** The layout so far: the finished sections and the one being read. */
  function WithCurrent(preamble: seq<string>, done: seq<seq<string>>, cur: Option<seq<string>>): Layout {
    Layout(preamble, if cur == None then done else done + [cur.value])
  }

  lemma {:induction false} CurrentGrows(preamble: seq<string>, done: seq<seq<string>>, cur: Option<seq<string>>, line: string)
    requires cur == None ==> done == []
    ensures Grow(WithCurrent(preamble, done, cur), line) ==
      if IsHeading(line) then WithCurrent(preamble, WithCurrent(preamble, done, cur).sections, Some([line]))
      else match cur
        case None => WithCurrent(preamble + [line], done, None)
        case Some(c) => WithCurrent(preamble, done, Some(c + [line]))
  {
    if cur.Some? && !IsHeading(line) {
      assert (done + [cur.value])[|done| := cur.value + [line]] == done + [cur.value + [line]];
    }
  }

  datatype Sections = Sections(preamble: string, sections: seq<string>)

  function Texts(sections: seq<seq<string>>): seq<string> {
    seq(|sections|, i requires 0 <= i < |sections| => Unlines(sections[i]))
  }

  function SplitSections(text: string): Sections {
    var l := LayoutOf(Lines(text));
    Sections(Unlines(l.preamble), Texts(l.sections))
  }

  method SplitBoardSections(text: string) returns (r: Sections)
    ensures r == SplitSections(text)
  {
    var lines := Lines(text);
    var preamble: seq<string> := [];
    var sections: seq<string> := [];
    ghost var done: seq<seq<string>> := [];
    var cur: Option<seq<string>> := None;
    for i := 0 to |lines|
      invariant LayoutOf(lines[..i]) == WithCurrent(preamble, done, cur)
      invariant cur == None ==> done == []
      invariant sections == Texts(done)
    {
      OneLineMore(lines, i);
      var line := lines[i];
      CurrentGrows(preamble, done, cur, line);
      if IsHeading(line) {
        if cur.Some? {
          sections := sections + [Unlines(cur.value)];
          done := done + [cur.value];
        }
        cur := Some([line]);
      } else if cur.Some? {
        cur := Some(cur.value + [line]);
      } else {
        preamble := preamble + [line];
      }
    }
    assert lines[..|lines|] == lines;
    if cur.Some? { sections := sections + [Unlines(cur.value)]; }
    r := Sections(Unlines(preamble), sections);
  }

  // ---------------------------------------------------------------- condensing

  /** The one line that stands for what was archived. */
  function ArchiveNote(evicted: nat, archiveRef: string): string {
    "_[condensed] " + Decimal(evicted) + " older section(s) archived to `" + archiveRef + "`._"
  }

  function TrimmedAll(parts: seq<string>): seq<string> {
    seq(|parts|, i requires 0 <= i < |parts| => TrimEnd(parts[i]))
  }

  function NonEmpty(parts: seq<string>): seq<string> {
    if parts == [] then []
    else if parts[0] == "" then NonEmpty(parts[1..])
    else [parts[0]] + NonEmpty(parts[1..])
  }

  /** The newest `keep` of a list; asking for none gives them all. */
  function Newest(sections: seq<string>, keep: nat): seq<string> {
    if |sections| <= keep || keep == 0 then sections else sections[|sections| - keep..]
  }

  function Assembled(preamble: string, note: string, kept: seq<string>): string {
    Joined(NonEmpty([preamble, note] + kept), "\n\n") + "\n"
  }

  function Condensed(text: string, archiveRef: string, keep: nat): Option<string> {
    var b := SplitSections(text);
    if |b.sections| <= keep then None
    else
      var kept := Newest(b.sections, keep);
      Some(Assembled(TrimEnd(b.preamble), ArchiveNote(|b.sections| - |kept|, archiveRef), TrimmedAll(kept)))
  }

  // ---------------------------------------------------------------- the gate

  function Utf8Length(s: string): nat {
    if s == "" then 0
    else (if s[0] < '\U{80}' then 1 else if s[0] < '\U{800}' then 2 else if s[0] < '\U{10000}' then 3 else 4) + Utf8Length(s[1..])
  }

  /** `Broken`: the comparison ran past the sections of the original and threw. */
  datatype Verdict = Accepted | Empty | NotSmaller | PreambleAltered | SectionCountMismatch | SectionAltered | Broken

  predicate Smaller(rebuilt: string, original: string) {
    Utf8Length(rebuilt) as real < Utf8Length(original) as real * 0.95
  }

  function Verified(rebuilt: string, original: string, keep: nat): Verdict {
    var before, after := SplitSections(original), SplitSections(rebuilt);
    if Trim(rebuilt) == "" then Empty
    else if !Smaller(rebuilt, original) then NotSmaller
    else if !(TrimEnd(before.preamble) <= after.preamble) then PreambleAltered
    else if |after.sections| != keep then SectionCountMismatch
    else SectionsAgree(after.sections, Newest(before.sections, keep))
  }

  function SectionsAgree(found: seq<string>, expected: seq<string>): Verdict {
    var n := if |found| <= |expected| then |found| else |expected|;
    if exists i :: 0 <= i < n && TrimEnd(found[i]) != TrimEnd(expected[i]) then SectionAltered
    else if n < |found| then Broken
    else Accepted
  }

  method VerifyBoard(rebuilt: string, original: string, keep: nat) returns (v: Verdict)
    ensures v == Verified(rebuilt, original, keep)
  {
    if Trim(rebuilt) == "" { return Empty; }
    if !(Utf8Length(rebuilt) as real < Utf8Length(original) as real * 0.95) { return NotSmaller; }
    var before := SplitBoardSections(original);
    var after := SplitBoardSections(rebuilt);
    if !(TrimEnd(before.preamble) <= after.preamble) { return PreambleAltered; }
    if |after.sections| != keep { return SectionCountMismatch; }
    v := CompareSections(after.sections, Newest(before.sections, keep));
  }

  method CompareSections(found: seq<string>, expected: seq<string>) returns (v: Verdict)
    ensures v == SectionsAgree(found, expected)
  {
    for i := 0 to |found|
      invariant i <= |expected|
      invariant forall j :: 0 <= j < i ==> TrimEnd(found[j]) == TrimEnd(expected[j])
    {
      if |expected| <= i { return Broken; }
      if TrimEnd(found[i]) != TrimEnd(expected[i]) { return SectionAltered; }
    }
    v := Accepted;
  }
}
