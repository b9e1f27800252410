/** What trimming does, told by what it takes away. */
module TextLaws {
  import opened Text

  /** The white space there is. */
  const SPACES := "\t\n\U{000B}\U{000C}\r \U{00A0}\U{1680}\U{2000}\U{2001}\U{2002}\U{2003}\U{2004}\U{2005}\U{2006}\U{2007}\U{2008}\U{2009}\U{200A}\U{2028}\U{2029}\U{202F}\U{205F}\U{3000}\U{FEFF}"

  lemma {:induction false} SpaceExactly(c: char)
    ensures IsSpace(c) <==> c in SPACES
  {
    if IsSpace(c) {
      var i: nat := if c <= '\r' then (c - '\t') as nat else if c == ' ' then 5 else if c == '\U{00A0}' then 6 else if c == '\U{1680}' then 7
        else if c <= '\U{200A}' then 8 + (c - '\U{2000}') as nat else if c == '\U{2028}' then 19 else if c == '\U{2029}' then 20
        else if c == '\U{202F}' then 21 else if c == '\U{205F}' then 22 else if c == '\U{3000}' then 23 else 24;
      assert SPACES[i] == c;
    }
  }

  lemma {:induction false} TrimStartTakes(s: string)
    ensures var r := TrimStart(s); |r| <= |s| && r == s[|s| - |r|..] && IsBlank(s[..|s| - |r|])
  {
    if s != "" && IsSpace(s[0]) {
      TrimStartTakes(s[1..]);
      var n := |s| - |TrimStart(s)|;
      assert s[..n] == [s[0]] + s[1..][..n - 1] && s[1..][n - 1..] == s[n..];
    }
  }

  /** Trimming takes white space off both ends and nothing else, and leaves none there. */
  lemma {:induction false} TrimTakesEnds(s: string) returns (before: string, after: string)
    ensures s == before + Trim(s) + after && IsBlank(before) && IsBlank(after)
    ensures Trim(s) == "" || (!IsSpace(Trim(s)[0]) && !IsSpace(Trim(s)[|Trim(s)| - 1]))
  {
    var t, r := TrimStart(s), Trim(s);
    TrimStartTakes(s);
    before, after := s[..|s| - |t|], t[|r|..];
    assert s == before + t && t == r + after;
  }

  lemma {:induction false} TrimStartDrops(before: string, rest: string)
    requires IsBlank(before) && (rest == "" || !IsSpace(rest[0]))
    ensures TrimStart(before + rest) == rest
  {
    if before == "" {
      assert before + rest == rest;
    } else {
      TrimStartDrops(before[1..], rest);
      assert (before + rest)[1..] == before[1..] + rest;
    }
  }

  /** White space at the end of a text is at the end of what it is appended to. */
  lemma {:induction false} TrimEndPasses(front: string, after: string)
    requires front == "" || !IsSpace(front[|front| - 1])
    ensures TrimEnd(front + after) == front + TrimEnd(after)
  {
    if after == "" {
      assert front + after == front && front + "" == front;
    } else {
      var shorter, last := after[..|after| - 1], after[|after| - 1];
      LastOfSum(front, after);
      if IsSpace(last) { TrimEndPasses(front, shorter); }
    }
  }

  lemma {:induction false} LastOfSum(front: string, after: string)
    requires after != ""
    ensures var s := front + after; s[|s| - 1] == after[|after| - 1] && s[..|s| - 1] == front + after[..|after| - 1]
    ensures TrimEnd(after) == if IsSpace(after[|after| - 1]) then TrimEnd(after[..|after| - 1]) else after
    ensures TrimEnd(front + after) == if IsSpace(after[|after| - 1]) then TrimEnd(front + after[..|after| - 1]) else front + after
  {
    var s := front + after;
    assert s[..|s| - 1] == front + after[..|after| - 1];
  }

  lemma {:induction false} BlankTrimsAway(after: string)
    requires IsBlank(after)
    ensures TrimEnd(after) == ""
  {
    if after != "" { BlankTrimsAway(after[..|after| - 1]); }
  }

  /** There is but one text to trim to. */
  lemma {:induction false} TrimIsTheMiddle(s: string, before: string, middle: string, after: string)
    requires s == before + middle + after && IsBlank(before) && IsBlank(after)
    requires middle == "" || (!IsSpace(middle[0]) && !IsSpace(middle[|middle| - 1]))
    ensures Trim(s) == middle
  {
    if middle == "" {
      TrimStartDrops(before + after, "");
      assert s == before + after + "";
    } else {
      TrimStartDrops(before, middle + after);
      assert s == before + (middle + after);
      TrimEndPasses(middle, after);
      BlankTrimsAway(after);
    }
  }
}
