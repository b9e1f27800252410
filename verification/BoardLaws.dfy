/** What a condensed board says and what the gate asks, told in characters and bytes. */
module BoardLaws {
  import opened Options
  import opened Text
  import opened TextLaws
  import Utf8
  import opened Board
  import opened BoardRoundTrip

  /** A heading begins with two hashes and white space. */
  lemma {:induction false} HeadingExactly(line: string)
    ensures IsHeading(line) <==> "##" <= line && |line| > 2 && IsSpace(line[2])
  {
  }

  // ---------------------------------------------------------------- condensing

  /** Each section behind an empty line, without the white space at its end. */
  function Appended(sections: seq<string>): string {
    if sections == [] then "" else "\n\n" + TrimEnd(sections[0]) + Appended(sections[1..])
  }

  lemma {:induction false} JoinedWithEmptyLines(first: string, sections: seq<string>)
    ensures Joined([first] + TrimmedAll(sections), "\n\n") == first + Appended(sections)
    decreases |sections|
  {
    var parts := [first] + TrimmedAll(sections);
    if sections != [] {
      assert parts[1..] == [TrimEnd(sections[0])] + TrimmedAll(sections[1..]);
      JoinedWithEmptyLines(TrimEnd(sections[0]), sections[1..]);
      Rejoined(first, "\n\n", TrimEnd(sections[0]), Appended(sections[1..]));
    }
  }

  lemma {:induction false} Rejoined(a: string, b: string, c: string, d: string)
    ensures a + b + (c + d) == a + (b + c + d)
  {
  }

  function NoteText(evicted: nat, archiveRef: string): string {
    "_[condensed] " + Decimal(evicted) + " older section(s) archived to `" + archiveRef + "`._"
  }

  lemma {:induction false} AssembledInWords(pre: string, note: string, sections: seq<string>)
    requires note != "" && forall i :: 0 <= i < |sections| ==> TrimmedAll(sections)[i] != ""
    ensures Assembled(pre, note, TrimmedAll(sections)) == (if pre == "" then "" else pre + "\n\n") + (note + Appended(sections)) + "\n"
  {
    var kept := TrimmedAll(sections);
    OnlyTheHeadCanBeEmpty(pre, note, kept);
    JoinedWithEmptyLines(note, sections);
    if pre != "" {
      assert [pre, note] + kept == [pre] + ([note] + kept);
      assert ([pre] + ([note] + kept))[1..] == [note] + kept;
    }
  }

  lemma {:induction false} NotesAgree(evicted: nat, archiveRef: string)
    ensures NoteText(evicted, archiveRef) == ArchiveNote(evicted, archiveRef) != ""
  {
  }

  lemma {:induction false} NewestAreNotEmpty(text: string, keep: nat)
    requires 1 <= keep <= |SplitSections(text).sections|
    ensures var b := SplitSections(text).sections; var last := b[|b| - keep..];
      Newest(b, keep) == last && forall i :: 0 <= i < |last| ==> TrimmedAll(last)[i] != ""
  {
    KeptAreNotEmpty(text, keep);
  }

  /**
   A board of more than `keep` sections is condensed to its preamble, one line about the rest and the last
   `keep` sections, the white space at their ends dropped and an empty line between them.
   */
  lemma {:induction false} CondensedInWords(text: string, archiveRef: string, keep: nat)
    requires keep >= 1
    ensures Condensed(text, archiveRef, keep).Some? <==> |SplitSections(text).sections| > keep
    ensures |SplitSections(text).sections| > keep ==>
      var b := SplitSections(text); var n := |b.sections| - keep;
      Condensed(text, archiveRef, keep).value ==
        (if TrimEnd(b.preamble) == "" then "" else TrimEnd(b.preamble) + "\n\n")
        + (NoteText(n, archiveRef) + Appended(b.sections[n..])) + "\n"
  {
    var b := SplitSections(text);
    if |b.sections| > keep {
      var n := |b.sections| - keep;
      CondensedForm(text, archiveRef, keep);
      NotesAgree(n, archiveRef);
      NewestAreNotEmpty(text, keep);
      AssembledInWords(TrimEnd(b.preamble), NoteText(n, archiveRef), b.sections[n..]);
    }
  }

  // ---------------------------------------------------------------- the gate

  /** The characters of a text, as the encoder takes them. */
  function Scalars(s: string): seq<Utf8.Scalar> {
    seq(|s|, i requires 0 <= i < |s| => s[i] as int)
  }

  /** Sizes are those of the texts in UTF-8. */
  lemma {:induction false} LengthInBytes(s: string)
    ensures Utf8Length(s) == |Utf8.Encoded(Scalars(s))|
  {
    if s != "" {
      LengthInBytes(s[1..]);
      assert Scalars(s)[1..] == Scalars(s[1..]);
    }
  }

  lemma {:induction false} TrimsToNothing(s: string)
    ensures Trim(s) == "" <==> IsBlank(s)
  {
    var before, after := TrimTakesEnds(s);
    if Trim(s) == "" {
      assert s == before + after;
    }
    if IsBlank(s) {
      assert s == s + "" + "";
      TrimIsTheMiddle(s, s, "", "");
    }
  }

  /** At least a twentieth shorter, in bytes. */
  predicate Shrinks(rebuilt: string, original: string) {
    20 * |Utf8.Encoded(Scalars(rebuilt))| < 19 * |Utf8.Encoded(Scalars(original))|
  }

  lemma {:induction false} SmallerExactly(rebuilt: string, original: string)
    ensures Smaller(rebuilt, original) <==> Shrinks(rebuilt, original)
  {
    LengthInBytes(rebuilt);
    LengthInBytes(original);
    var a, b := |Utf8.Encoded(Scalars(rebuilt))|, |Utf8.Encoded(Scalars(original))|;
    assert 20.0 * (b as real * 0.95) == (19 * b) as real;
    assert 20.0 * a as real == (20 * a) as real;
  }

  predicate SameEnd(after: seq<string>, before: seq<string>, keep: nat, i: nat)
    requires i < |after| && keep <= |before| + i && i < keep
  {
    TrimEnd(after[i]) == TrimEnd(before[|before| - keep + i])
  }

  predicate SomeDiffers(after: seq<string>, before: seq<string>, keep: nat)
    requires |after| == keep <= |before|
  {
    exists i :: 0 <= i < keep && !SameEnd(after, before, keep, i)
  }

  /** The board passes exactly if it is not blank, shrank, begins with the old preamble and ends in the last `keep` old sections, and has no others. */
  lemma {:induction false} AcceptedExactly(rebuilt: string, original: string, keep: nat)
    requires keep >= 1
    ensures var before, after := SplitSections(original), SplitSections(rebuilt);
      Verified(rebuilt, original, keep) == Accepted <==>
        && !IsBlank(rebuilt) && Shrinks(rebuilt, original)
        && TrimEnd(before.preamble) <= after.preamble
        && |after.sections| == keep <= |before.sections|
        && forall i :: 0 <= i < keep ==> SameEnd(after.sections, before.sections, keep, i)
  {
    TrimsToNothing(rebuilt);
    SmallerExactly(rebuilt, original);
    var before, after := SplitSections(original), SplitSections(rebuilt);
    if |after.sections| == keep { AgreeExactly(after.sections, before.sections, keep); }
  }

  lemma {:induction false} AgreeExactly(after: seq<string>, before: seq<string>, keep: nat)
    requires |after| == keep >= 1
    ensures SectionsAgree(after, Newest(before, keep)) == Accepted <==>
      keep <= |before| && forall i :: 0 <= i < keep ==> SameEnd(after, before, keep, i)
    ensures keep <= |before| ==> (SectionsAgree(after, Newest(before, keep)) == SectionAltered <==> SomeDiffers(after, before, keep))
  {
    if keep <= |before| {
      var e := Newest(before, keep);
      assert forall i :: 0 <= i < keep ==> e[i] == before[|before| - keep + i];
      assert forall i :: 0 <= i < keep ==> (SameEnd(after, before, keep, i) <==> TrimEnd(after[i]) == TrimEnd(e[i]));
    }
  }

  /** Each refusal, exactly. */
  lemma {:induction false} RefusedExactly(rebuilt: string, original: string, keep: nat)
    requires keep >= 1
    ensures var v, before, after := Verified(rebuilt, original, keep), SplitSections(original), SplitSections(rebuilt);
      var blank, shrinks, begins := IsBlank(rebuilt), Shrinks(rebuilt, original), TrimEnd(before.preamble) <= after.preamble;
      && (v == Empty <==> blank)
      && (v == NotSmaller <==> !blank && !shrinks)
      && (v == PreambleAltered <==> !blank && shrinks && !begins)
      && (v == SectionCountMismatch <==> !blank && shrinks && begins && |after.sections| != keep)
      && (|before.sections| >= keep ==>
            (v == SectionAltered <==> !blank && shrinks && begins && |after.sections| == keep && SomeDiffers(after.sections, before.sections, keep)))
      && (v == Broken ==> |before.sections| < keep)
  {
    TrimsToNothing(rebuilt);
    SmallerExactly(rebuilt, original);
    if |SplitSections(rebuilt).sections| == keep { AgreeExactly(SplitSections(rebuilt).sections, SplitSections(original).sections, keep); }
  }

  /** With too few old sections the comparison runs past them unless an earlier one differs. */
  lemma {:induction false} RunsPastExactly(rebuilt: string, original: string, keep: nat)
    requires keep >= 1 && |SplitSections(original).sections| < keep == |SplitSections(rebuilt).sections|
    requires !IsBlank(rebuilt) && Shrinks(rebuilt, original) && TrimEnd(SplitSections(original).preamble) <= SplitSections(rebuilt).preamble
    ensures var before, after := SplitSections(original).sections, SplitSections(rebuilt).sections;
      Verified(rebuilt, original, keep) ==
        if forall i :: 0 <= i < |before| ==> TrimEnd(after[i]) == TrimEnd(before[i]) then Broken else SectionAltered
  {
    TrimsToNothing(rebuilt);
    SmallerExactly(rebuilt, original);
  }
}
