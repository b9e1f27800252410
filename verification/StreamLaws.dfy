/** The bounds of the two streams, in bytes and units. */
module StreamLaws {
  import opened Options
  import opened Utf8
  import opened Streams

  function Sum(sizes: seq<nat>): nat {
    if sizes == [] then 0 else Sum(sizes[..|sizes| - 1]) + sizes[|sizes| - 1]
  }

  function Sizes(chunks: seq<Chunk>): seq<nat> {
    seq(|chunks|, i requires 0 <= i < |chunks| => chunks[i].bytes)
  }

  lemma {:induction false} BytesAreSummed(chunks: seq<Chunk>)
    ensures Bytes(chunks) == Sum(Sizes(chunks))
  {
    if chunks != [] {
      var n := |chunks| - 1;
      assert chunks == chunks[..n] + [chunks[n]] && Sizes(chunks)[..n] == Sizes(chunks[..n]);
      var none: seq<Chunk> := [];
      assert [chunks[n]][1..] == none;
      BytesOfSum(chunks[..n], [chunks[n]]);
      BytesAreSummed(chunks[..n]);
    }
  }

  /**
   The tail is the newest chunks; it is no more than 256 KiB or one chunk, and with the chunk before it, unless
   there is none, it would be neither.
   */
  lemma {:induction false} TailInBytes(tail: seq<Chunk>, chunks: seq<Chunk>) returns (k: nat)
    requires IsTailOf(tail, chunks)
    ensures k <= |chunks| && tail == chunks[k..]
    ensures chunks != [] ==> tail != []
    ensures Sum(Sizes(tail)) <= 262144 || |tail| == 1
    ensures k > 0 ==> Sum(Sizes(chunks[k - 1..])) > 262144
  {
    k :| IsTailFrom(tail, chunks, k);
    BytesAreSummed(tail);
    if k > 0 {
      assert !Fits(chunks, k - 1);
      BytesAreSummed(chunks[k - 1..]);
    }
    if |tail| == 0 { assert Sizes(tail) == []; }
  }

  predicate NoNewline(text: seq<Unit>) {
    forall i :: 0 <= i < |text| ==> text[i] != 10
  }

  /** A line is handled, or turned down past 16 Mi units, as soon as it is ended, and turned down at once when that long without an end. */
  lemma {:induction false} AnswerInUnits(line: seq<Unit>, rest: seq<Unit>)
    requires NoNewline(line)
    ensures AnswerTo(line + [10] + rest) == Some(if |line| > 16777216 then Oversize else Handled(line))
    ensures AnswerTo(line) == if |line| > 16777216 then Some(Oversize) else None
  {
    AnswerToLine(line + [10] + rest, line, true);
    AnswerToLine(line, line, false);
  }
}
