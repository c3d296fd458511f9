// RandomNumbers2Controller: the first ten records of the generator, sent as
// newline-delimited JSON, one `response.stream.write` per record.
//
// `JSON.dump(object)` is the parameter `dump`. The compact form it produces
// escapes control characters inside strings and puts no line break between
// tokens, so a dumped record never contains a raw newline; the round-trip
// lemma takes that as its precondition.

module RandomNumbers2 {
  import opened Records
  import opened Sinks

  /** How many records one response carries. */
  const LINES_COUNT: nat := 10

  const Newline: char := '\n'

  /** The chunks written for `records`: each record's dump followed by a newline, in order. */
  function Lines(dump: Record -> string, records: seq<Record>): seq<string>
  {
    seq(|records|, k requires 0 <= k < |records| => dump(records[k]) + [Newline])
  }

  /** The dumps of `records`, in order: what a line-by-line reader should get back. */
  function Dumps(dump: Record -> string, records: seq<Record>): seq<string>
  {
    seq(|records|, k requires 0 <= k < |records| => dump(records[k]))
  }

  /**
   * A newline-delimited reader: the lines of `s`, each without its
   * terminating newline, with `pending` the part of the current line read so
   * far. Text after the last newline is a final line when it is not empty.
   */
  function SplitFrom(s: string, pending: string): seq<string>
    decreases |s|
  {
    if |s| == 0 then (if |pending| == 0 then [] else [pending])
    else if s[0] == Newline then [pending] + SplitFrom(s[1..], "")
    else SplitFrom(s[1..], pending + [s[0]])
  }

  function SplitLines(s: string): seq<string>
  {
    SplitFrom(s, "")
  }

  /** Reading a line with no newline in it, then its newline, completes the pending line. */
  lemma {:induction false} SplitLine(line: string, rest: string, pending: string)
    requires Newline !in line
    ensures SplitFrom(line + [Newline] + rest, pending) == [pending + line] + SplitFrom(rest, "")
    decreases |line|
  {
    var s := line + [Newline] + rest;
    if |line| == 0 {
      assert s[0] == Newline && s[1..] == rest;
      assert pending + line == pending;
    } else {
      assert s[0] == line[0] && s[0] != Newline;
      assert s[1..] == line[1..] + [Newline] + rest;
      assert Newline !in line[1..] by {
        assert forall c :: c in line[1..] ==> c in line;
      }
      SplitLine(line[1..], rest, pending + [line[0]]);
      assert pending + [line[0]] + line[1..] == pending + line;
    }
  }

  /** Lines seen from the front. */
  lemma LinesCons(dump: Record -> string, records: seq<Record>)
    requires |records| > 0
    ensures Lines(dump, records) == [dump(records[0]) + [Newline]] + Lines(dump, records[1..])
    ensures Dumps(dump, records) == [dump(records[0])] + Dumps(dump, records[1..])
  {
  }

  /**
   * The body a client receives splits back, line by line, into exactly the
   * dumped records, provided no dump contains a raw newline.
   */
  lemma {:induction false} LinesRoundTrip(dump: Record -> string, records: seq<Record>)
    requires forall k :: 0 <= k < |records| ==> Newline !in dump(records[k])
    ensures SplitLines(Concat(Lines(dump, records))) == Dumps(dump, records)
    decreases |records|
  {
    if |records| == 0 {
      assert Lines(dump, records) == [];
      assert Dumps(dump, records) == [];
    } else {
      var first := dump(records[0]);
      var rest := Lines(dump, records[1..]);
      LinesCons(dump, records);
      ConcatCons(first + [Newline], rest);
      assert Concat(Lines(dump, records)) == first + [Newline] + Concat(rest);
      SplitLine(first, Concat(rest), "");
      assert "" + first == first;
      LinesRoundTrip(dump, records[1..]);
    }
  }

  class RandomNumbers2Controller {
    /** `response.stream`. */
    const stream: ResponseStream

    constructor (stream: ResponseStream)
      ensures this.stream == stream
    {
      this.stream := stream;
    }

    /**
     * `index`: one write per record of the first LINES_COUNT records, each
     * the record's dump and a newline, then the stream is closed.
     */
    method Index(numbers: nat -> Word128, clock: nat -> string, dump: Record -> string)
      requires !stream.closed
      modifies stream
      ensures stream.closed
      ensures stream.chunks == old(stream.chunks) + Lines(dump, Take(RandomNumberObjects(numbers, clock), LINES_COUNT))
    {
      var lazyEnum := Take(RandomNumberObjects(numbers, clock), LINES_COUNT);
      var i := 0;
      while i < |lazyEnum|
        invariant 0 <= i <= |lazyEnum|
        invariant !stream.closed
        invariant stream.chunks == old(stream.chunks) + Lines(dump, lazyEnum[..i])
      {
        var record := lazyEnum[i];
        assert Lines(dump, lazyEnum[..i + 1]) == Lines(dump, lazyEnum[..i]) + [dump(record) + [Newline]];
        stream.Write(dump(record) + [Newline]);
        i := i + 1;
      }
      assert lazyEnum[..i] == lazyEnum;
      stream.Close();
    }
  }

  /**
   * What `index` sends: ten lines, the k-th the dump of the record with
   * index k, draw k and timestamp k, and a reader splitting the body at
   * newlines gets back exactly those ten dumps.
   */
  lemma IndexOutput(numbers: nat -> Word128, clock: nat -> string, dump: Record -> string)
    requires forall r :: Newline !in dump(r)
    ensures var lines := Lines(dump, Take(RandomNumberObjects(numbers, clock), LINES_COUNT));
      |lines| == 10 &&
      (forall k :: 0 <= k < 10 ==> lines[k] == dump(Record(k, clock(k), numbers(k))) + "\n")
    ensures var records := Take(RandomNumberObjects(numbers, clock), LINES_COUNT);
      SplitLines(Concat(Lines(dump, records))) == Dumps(dump, records)
  {
    var records := Take(RandomNumberObjects(numbers, clock), LINES_COUNT);
    TakeObjects(numbers, clock, LINES_COUNT);
    LinesRoundTrip(dump, records);
  }
}
