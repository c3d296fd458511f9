// The specification of the pretty JSON-array emitter of
// RandomNumbersController#stream_json_array, stated over the records' already
// serialised texts. The emitter keeps a string buffer that starts as the
// opening bracket; for each record i it appends a separator (unless i is 0)
// and the record's text, and after record i it hands the buffer to the
// deflater and empties it whenever i is a multiple of the flush cadence.
// After the last record it appends the closing bracket and hands over the
// rest.

module JsonArray {
  import opened Sinks

  const OpenBracket: string := "[\n  "
  const Separator: string := ",\n  "
  const CloseBracket: string := "\n]\n"

  /** Reference definition: the texts with `sep` between consecutive ones. */
  function Join(texts: seq<string>, sep: string): string
  {
    if |texts| == 0 then ""
    else if |texts| == 1 then texts[0]
    else texts[0] + sep + Join(texts[1..], sep)
  }

  /** What the emitter appends to its buffer for record i. */
  function Piece(texts: seq<string>, i: nat): string
    requires i < |texts|
  {
    (if i == 0 then "" else Separator) + texts[i]
  }

  /** The pieces of records lo up to (not including) hi, in order. */
  function Segment(texts: seq<string>, lo: nat, hi: nat): string
    requires lo <= hi <= |texts|
    decreases hi - lo
  {
    if lo == hi then "" else Segment(texts, lo, hi - 1) + Piece(texts, hi - 1)
  }

  /** The emitter's state: the data chunks handed over so far and the buffer. */
  datatype Emitter = Emitter(sent: seq<string>, buffer: string)

  /**
   * One pass of the loop body, for record i whose text is `text`: one more
   * chunk is handed over exactly when i is a multiple of the cadence, and
   * the buffer is left empty exactly when it was handed over.
   */
  function Step(e: Emitter, i: nat, text: string, flushEvery: nat): (r: Emitter)
    requires flushEvery > 0
    ensures |r.sent| == |e.sent| + (if i % flushEvery == 0 then 1 else 0)
    ensures r.buffer == "" <==> i % flushEvery == 0
  {
    var buffer := e.buffer + (if i == 0 then "" else Separator) + text;
    if i % flushEvery == 0 then
      Emitter(e.sent + [buffer], "")
    else
      assert |buffer| >= |Separator|;
      Emitter(e.sent, buffer)
  }

  /**
   * The emitter's state after the first i records: one chunk handed over per
   * record index below i that is a multiple of the cadence, and an empty
   * buffer exactly when the last record seen caused a write.
   */
  function RunTo(texts: seq<string>, i: nat, flushEvery: nat): (r: Emitter)
    requires i <= |texts| && flushEvery > 0
    ensures |r.sent| == FlushCount(i, flushEvery)
    ensures r.buffer == "" <==> i > 0 && (i - 1) % flushEvery == 0
  {
    if i == 0 then Emitter([], OpenBracket)
    else Step(RunTo(texts, i - 1, flushEvery), i - 1, texts[i - 1], flushEvery)
  }

  /**
   * Every string handed to the deflater as data, in order: the chunks
   * flushed inside the loop, then the rest of the buffer with the closing
   * bracket, so one more than the number of flushes, the last one ending
   * with the closing bracket.
   */
  function DataChunks(texts: seq<string>, flushEvery: nat): (r: seq<string>)
    requires flushEvery > 0
    ensures |r| == FlushCount(|texts|, flushEvery) + 1
    ensures |r[|r| - 1]| >= |CloseBracket| && r[|r| - 1][|r[|r| - 1]| - |CloseBracket|..] == CloseBracket
  {
    var e := RunTo(texts, |texts|, flushEvery);
    var last := e.buffer + CloseBracket;
    assert last[|e.buffer|..] == CloseBracket;
    e.sent + [last]
  }

  /** How many of the record indices 0 .. n-1 are multiples of k. */
  function FlushCount(n: nat, k: nat): nat
    requires k > 0
  {
    if n == 0 then 0 else FlushCount(n - 1, k) + (if (n - 1) % k == 0 then 1 else 0)
  }

  /** The first record whose piece is in data chunk m: 0, then 1, k+1, 2k+1, ... */
  function ChunkStart(m: nat, k: nat): nat
  {
    if m == 0 then 0 else ChunkEnd(m - 1, k)
  }

  /**
   * One past the last record of data chunk m: 1, k+1, 2k+1, ... (see
   * ChunkEndClosed), so chunk m is flushed right after record m * k.
   */
  function ChunkEnd(m: nat, k: nat): nat
  {
    if m == 0 then 1 else ChunkEnd(m - 1, k) + k
  }

  lemma {:induction false} ChunkEndClosed(m: nat, k: nat)
    ensures ChunkEnd(m, k) == m * k + 1
  {
    if m > 0 {
      ChunkEndClosed(m - 1, k);
      assert (m - 1) * k + k == m * k;
    }
  }

  lemma {:induction false} SegmentSplit(texts: seq<string>, lo: nat, mid: nat, hi: nat)
    requires lo <= mid <= hi <= |texts|
    ensures Segment(texts, lo, hi) == Segment(texts, lo, mid) + Segment(texts, mid, hi)
    decreases hi - mid
  {
    if mid < hi {
      SegmentSplit(texts, lo, mid, hi - 1);
    }
  }

  /** The pieces of all records are the texts joined by the separator. */
  lemma {:induction false} SegmentIsJoin(texts: seq<string>)
    ensures Segment(texts, 0, |texts|) == Join(texts, Separator)
    decreases |texts|
  {
    if |texts| >= 2 {
      var rest := texts[1..];
      SegmentIsJoin(rest);
      SegmentSplit(texts, 0, 1, |texts|);
      SegmentShift(texts, 1, |texts|);
      assert Segment(texts, 0, 1) == texts[0];
      assert Segment(texts, 1, |texts|) == Separator + Segment(rest, 0, |rest|);
    } else if |texts| == 1 {
      assert Segment(texts, 0, 1) == Segment(texts, 0, 0) + Piece(texts, 0);
    }
  }

  /** Dropping the first text shifts positions by one and adds the first separator. */
  lemma {:induction false} SegmentShift(texts: seq<string>, lo: nat, hi: nat)
    requires 1 <= lo <= hi <= |texts|
    ensures lo == 1 ==> Segment(texts, lo, hi) == (if hi == 1 then "" else Separator) + Segment(texts[1..], 0, hi - 1)
    ensures lo > 1 ==> Segment(texts, lo, hi) == Segment(texts[1..], lo - 1, hi - 1)
    decreases hi - lo
  {
    if lo < hi {
      SegmentShift(texts, lo, hi - 1);
    }
  }

  /**
   * Record i triggers a data write exactly when i is a multiple of the
   * cadence, record 0 included, and the buffer is empty right after the
   * record exactly when that write happened.
   */
  lemma FlushAfter(texts: seq<string>, i: nat, flushEvery: nat)
    requires i < |texts| && flushEvery > 0
    ensures var before := RunTo(texts, i, flushEvery);
      var after := RunTo(texts, i + 1, flushEvery);
      && (i % flushEvery == 0 ==> after.sent == before.sent + [before.buffer + Piece(texts, i)])
      && (i % flushEvery != 0 ==> after.sent == before.sent)
      && (after.buffer == "" <==> i % flushEvery == 0)
  {
    var before := RunTo(texts, i, flushEvery);
    assert before.buffer + (if i == 0 then "" else Separator) + texts[i] == before.buffer + Piece(texts, i);
    if i % flushEvery != 0 {
      assert |before.buffer + Separator + texts[i]| >= |Separator|;
    }
  }

  /**
   * Whatever the cadence, the data handed over so far followed by the
   * buffer is the opening bracket and the pieces of the records seen: no
   * separator is lost or doubled at a flush boundary.
   */
  lemma {:induction false} RunToConcat(texts: seq<string>, i: nat, flushEvery: nat)
    requires i <= |texts| && flushEvery > 0
    ensures Concat(RunTo(texts, i, flushEvery).sent) + RunTo(texts, i, flushEvery).buffer
            == OpenBracket + Segment(texts, 0, i)
  {
    if i > 0 {
      RunToConcat(texts, i - 1, flushEvery);
      var e := RunTo(texts, i - 1, flushEvery);
      StepConcat(e, i - 1, texts[i - 1], flushEvery);
      calc {
        OpenBracket + Segment(texts, 0, i);
        OpenBracket + (Segment(texts, 0, i - 1) + Piece(texts, i - 1));
        (OpenBracket + Segment(texts, 0, i - 1)) + Piece(texts, i - 1);
        (Concat(e.sent) + e.buffer) + Piece(texts, i - 1);
      }
    }
  }

  /** One pass of the loop body loses no text and duplicates none, whether it flushes or not. */
  lemma StepConcat(e: Emitter, i: nat, text: string, flushEvery: nat)
    requires flushEvery > 0
    ensures Concat(Step(e, i, text, flushEvery).sent) + Step(e, i, text, flushEvery).buffer
            == (Concat(e.sent) + e.buffer) + ((if i == 0 then "" else Separator) + text)
  {
    var b := e.buffer + (if i == 0 then "" else Separator) + text;
    assert b == e.buffer + ((if i == 0 then "" else Separator) + text);
    if i % flushEvery == 0 {
      ConcatSnoc(e.sent, b);
    }
  }

  /**
   * The headline property: the data handed to the deflater concatenates to
   * the opening bracket, the record texts joined by the separator, and the
   * closing bracket, for every flush cadence.
   */
  lemma DataChunksConcat(texts: seq<string>, flushEvery: nat)
    requires flushEvery > 0
    ensures Concat(DataChunks(texts, flushEvery)) == OpenBracket + Join(texts, Separator) + CloseBracket
  {
    var e := RunTo(texts, |texts|, flushEvery);
    var chunks := e.sent + [e.buffer + CloseBracket];
    calc {
      Concat(chunks);
      { ConcatSnoc(e.sent, e.buffer + CloseBracket); }
      Concat(e.sent) + (e.buffer + CloseBracket);
      (Concat(e.sent) + e.buffer) + CloseBracket;
      { RunToConcat(texts, |texts|, flushEvery); }
      (OpenBracket + Segment(texts, 0, |texts|)) + CloseBracket;
      { SegmentIsJoin(texts); }
      OpenBracket + Join(texts, Separator) + CloseBracket;
    }
  }

  /** With no records the only data chunk is the empty array. */
  lemma DataChunksEmpty(flushEvery: nat)
    requires flushEvery > 0
    ensures DataChunks([], flushEvery) == ["[\n  \n]\n"]
  {
    assert OpenBracket + CloseBracket == "[\n  \n]\n";
  }

  lemma MulAtLeast(d: int, k: int)
    requires d >= 1 && k > 0
    ensures d * k >= k
  {
  }

  /** Quotient and remainder are unique. */
  lemma DivUnique(a: int, k: int, q: int, r: int)
    requires k > 0 && 0 <= r < k && a == q * k + r
    ensures a / k == q && a % k == r
  {
    var q', r' := a / k, a % k;
    assert a == q' * k + r';
    if q' > q {
      assert (q' - q) * k == q' * k - q * k;
      MulAtLeast(q' - q, k);
    } else if q' < q {
      assert (q - q') * k == q * k - q' * k;
      MulAtLeast(q - q', k);
    }
  }

  /** Stepping j down by one lowers j / k exactly when j is a multiple of k. */
  lemma DivPred(j: nat, k: nat)
    requires j > 0 && k > 0
    ensures (j - 1) / k + (if j % k == 0 then 1 else 0) == j / k
  {
    var q, r := j / k, j % k;
    assert j == q * k + r;
    if r == 0 {
      assert j - 1 == (q - 1) * k + (k - 1);
      DivUnique(j - 1, k, q - 1, k - 1);
    } else {
      DivUnique(j - 1, k, q, r - 1);
    }
  }

  /** Among 0 .. n-1 the multiples of k are 0, k, ..., ((n-1)/k)*k. */
  lemma {:induction false} FlushCountClosed(n: nat, k: nat)
    requires k > 0
    ensures FlushCount(n, k) == if n == 0 then 0 else (n - 1) / k + 1
  {
    if n > 1 {
      FlushCountClosed(n - 1, k);
      DivPred(n - 1, k);
    }
  }

  /** The flush after record j, a multiple of k, closes the chunk that ends after record j. */
  lemma FlushStep(j: nat, k: nat)
    requires k > 0 && j % k == 0
    ensures ChunkEnd(FlushCount(j, k), k) == j + 1
  {
    FlushCountClosed(j, k);
    var q := j / k;
    assert j == q * k;
    ChunkEndClosed(q, k);
    if j > 0 {
      DivPred(j, k);
    }
  }

  /**
   * Where the flushes fall after i records: one data chunk has been handed
   * over per record index below i that is a multiple of the cadence k;
   * chunk m holds exactly the pieces of records ChunkStart(m) up to
   * ChunkEnd(m) (the opening bracket in front of chunk 0), so it was handed
   * over right after record m * k; and the buffer holds the pieces of the
   * records since the last flush.
   */
  ghost predicate Shaped(texts: seq<string>, i: nat, k: nat)
    requires i <= |texts| && k > 0
  {
    var e := RunTo(texts, i, k);
    && |e.sent| == FlushCount(i, k)
    && (forall m :: 0 <= m < FlushCount(i, k) ==> ChunkEnd(m, k) <= i && e.sent[m] == ChunkText(texts, m, k))
    && ChunkStart(FlushCount(i, k), k) <= i
    && e.buffer == (if i == 0 then OpenBracket else Segment(texts, ChunkStart(FlushCount(i, k), k), i))
  }

  /** The text of data chunk m, which ends with the piece of record m * k. */
  function ChunkText(texts: seq<string>, m: nat, k: nat): string
    requires ChunkEnd(m, k) <= |texts|
  {
    (if m == 0 then OpenBracket else "") + Segment(texts, ChunkStart(m, k), ChunkEnd(m, k))
  }

  /** Appending the text of chunk f to the first f chunks gives the first f + 1. */
  lemma AppendChunk(texts: seq<string>, sent: seq<string>, b: string, k: nat, i: nat)
    requires i <= |texts|
    requires forall m :: 0 <= m < |sent| ==> ChunkEnd(m, k) <= i && sent[m] == ChunkText(texts, m, k)
    requires ChunkEnd(|sent|, k) == i && b == ChunkText(texts, |sent|, k)
    ensures forall m :: 0 <= m < |sent| + 1 ==>
      ChunkEnd(m, k) <= i && (sent + [b])[m] == ChunkText(texts, m, k)
  {
    forall m | 0 <= m < |sent| + 1
      ensures ChunkEnd(m, k) <= i && (sent + [b])[m] == ChunkText(texts, m, k)
    {
      if m < |sent| {
        assert (sent + [b])[m] == sent[m];
      }
    }
  }

  lemma NextChunkStart(f: nat, f': nat, k: nat)
    requires f' == f + 1
    ensures ChunkStart(f', k) == ChunkEnd(f, k)
  {
  }

  /**
   * When record j is flushed, the buffer with its piece is the text of the
   * next data chunk, and that chunk ends right after record j.
   */
  lemma FlushedChunk(texts: seq<string>, j: nat, k: nat)
    requires j < |texts| && k > 0 && j % k == 0
    ensures ChunkEnd(FlushCount(j, k), k) == j + 1
    ensures RunTo(texts, j, k).buffer + Piece(texts, j) == ChunkText(texts, FlushCount(j, k), k)
    decreases j + 1, 0
  {
    FlushStep(j, k);
    var f := FlushCount(j, k);
    var buffer := RunTo(texts, j, k).buffer;
    if j == 0 {
      assert buffer == OpenBracket;
      assert Segment(texts, 0, 1) == Piece(texts, 0);
    } else {
      var lo := ChunkStart(f, k);
      assert lo <= j && buffer == Segment(texts, lo, j) by { RunToShape(texts, j, k); }
      assert f > 0 by { FlushCountClosed(j, k); }
      assert Segment(texts, lo, j + 1) == buffer + Piece(texts, j);
    }
  }

  /** Record j keeps the shape: the case where it is flushed. */
  lemma ShapeStepFlush(texts: seq<string>, j: nat, k: nat)
    requires j < |texts| && k > 0 && j % k == 0
    ensures Shaped(texts, j + 1, k)
    decreases j + 1, 1
  {
    var e := RunTo(texts, j, k);
    var f := FlushCount(j, k);
    var b := e.buffer + Piece(texts, j);
    assert |e.sent| == f && forall m :: 0 <= m < f ==> ChunkEnd(m, k) <= j && e.sent[m] == ChunkText(texts, m, k) by {
      RunToShape(texts, j, k);
    }
    FlushedChunk(texts, j, k);
    assert RunTo(texts, j + 1, k) == Emitter(e.sent + [b], "") by {
      assert e.buffer + (if j == 0 then "" else Separator) + texts[j] == b;
    }
    AppendChunk(texts, e.sent, b, k, j + 1);
    NextChunkStart(f, FlushCount(j + 1, k), k);
    assert Segment(texts, j + 1, j + 1) == "";
  }

  /** Record j keeps the shape: the case where it stays in the buffer. */
  lemma ShapeStepHold(texts: seq<string>, j: nat, k: nat)
    requires j < |texts| && k > 0 && j % k != 0
    ensures Shaped(texts, j + 1, k)
    decreases j + 1, 1
  {
    RunToShape(texts, j, k);
    var i := j + 1;
    var e := RunTo(texts, j, k);
    var f := FlushCount(j, k);
    var b := e.buffer + Piece(texts, j);
    assert e.buffer + (if j == 0 then "" else Separator) + texts[j] == b;
    assert RunTo(texts, i, k) == Emitter(e.sent, b);
    assert Segment(texts, ChunkStart(f, k), i) == Segment(texts, ChunkStart(f, k), j) + Piece(texts, j);
  }

  /** Every prefix of the run has the shape that `Shaped` describes. */
  lemma {:induction false} RunToShape(texts: seq<string>, i: nat, k: nat)
    requires i <= |texts| && k > 0
    ensures Shaped(texts, i, k)
    decreases i, 2
  {
    if i > 0 {
      if (i - 1) % k == 0 {
        ShapeStepFlush(texts, i - 1, k);
      } else {
        ShapeStepHold(texts, i - 1, k);
      }
    }
  }

  /**
   * The data chunks of the whole run: one per record index that is a
   * multiple of the cadence, each with the pieces of the records since the
   * previous flush, and a final one with the pieces since the last flush
   * and the closing bracket.
   */
  lemma DataChunksShape(texts: seq<string>, k: nat)
    requires k > 0
    ensures |DataChunks(texts, k)| == FlushCount(|texts|, k) + 1
    ensures forall m :: 0 <= m < FlushCount(|texts|, k) ==>
      ChunkEnd(m, k) <= |texts| && DataChunks(texts, k)[m] == ChunkText(texts, m, k)
    ensures ChunkStart(FlushCount(|texts|, k), k) <= |texts|
    ensures DataChunks(texts, k)[FlushCount(|texts|, k)]
      == (if |texts| == 0 then OpenBracket else Segment(texts, ChunkStart(FlushCount(|texts|, k), k), |texts|))
         + CloseBracket
  {
    RunToShape(texts, |texts|, k);
    var e := RunTo(texts, |texts|, k);
    assert DataChunks(texts, k) == e.sent + [e.buffer + CloseBracket];
  }
}
