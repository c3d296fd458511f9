// RandomNumbersController: a million records, sent as one pretty-printed JSON
// array through a zlib deflater, with a data write to the deflater after
// every FLUSH_EVERY-th record.
//
// `JSON.pretty_generate(object, depth: 1)` is the parameter `pretty`, the
// deflater's output is the parameter `zlib` (see Sinks.Deflater), and the
// random draws and timestamps are the parameters `numbers` and `clock` (see
// Records).

module RandomNumbers {
  import opened Records
  import opened Sinks
  import opened JsonArray

  /** How many records one response carries. */
  const NUMBERS_COUNT: nat := 1_000_000

  /** The flush cadence: a data write to the deflater after every record i with i % FLUSH_EVERY == 0. */
  const FLUSH_EVERY: nat := 2_000

  /** The pretty text of each record, in order. */
  function PrettyTexts(pretty: Record -> string, records: seq<Record>): seq<string>
  {
    seq(|records|, k requires 0 <= k < |records| => pretty(records[k]))
  }

  /**
   * The chunks the response stream receives for the data writes `data`:
   * one chunk per call, the deflater's output for that call, in call order.
   */
  function DeflateOutputs(zlib: (seq<string>, bool) -> string, data: seq<string>): seq<string>
  {
    seq(|data|, j requires 0 <= j < |data| => zlib(data[..j + 1], false))
  }

  /** One more data write adds exactly one chunk, the deflater's output for that write. */
  lemma DeflateOutputsSnoc(zlib: (seq<string>, bool) -> string, data: seq<string>, x: string)
    ensures DeflateOutputs(zlib, data + [x]) == DeflateOutputs(zlib, data) + [zlib(data + [x], false)]
  {
    var longer := data + [x];
    forall j | 0 <= j < |data|
      ensures DeflateOutputs(zlib, longer)[j] == DeflateOutputs(zlib, data)[j]
    {
      assert longer[..j + 1] == data[..j + 1];
    }
    assert longer[..|longer|] == longer;
  }

  /** The whole response body: the outputs of the data writes, then the output of the finishing write. */
  function StreamOutput(zlib: (seq<string>, bool) -> string, data: seq<string>): seq<string>
  {
    DeflateOutputs(zlib, data) + [zlib(data, true)]
  }

  /**
   * The response: 500 writes inside the loop (after records 0, 2000, ...,
   * 998000), one data write with the closing bracket, and one finishing
   * write, whatever the records' texts are.
   */
  lemma IndexWriteCount(zlib: (seq<string>, bool) -> string, texts: seq<string>)
    requires |texts| == NUMBERS_COUNT
    ensures FlushCount(|texts|, FLUSH_EVERY) == 500
    ensures |StreamOutput(zlib, DataChunks(texts, FLUSH_EVERY))| == 502
  {
    DataChunksShape(texts, FLUSH_EVERY);
    FlushCountClosed(|texts|, FLUSH_EVERY);
    assert (NUMBERS_COUNT - 1) / FLUSH_EVERY == 499;
  }

  /**
   * What `index` hands to the deflater, joined up, is one JSON array: the
   * opening bracket, the pretty texts of the records with index 0 .. 999999
   * (record k built from draw k and timestamp k) separated by commas, and the
   * closing bracket.
   */
  lemma IndexDocument(numbers: nat -> Word128, clock: nat -> string, pretty: Record -> string)
    ensures var texts := PrettyTexts(pretty, Take(RandomNumberObjects(numbers, clock), NUMBERS_COUNT));
      |texts| == NUMBERS_COUNT &&
      (forall k :: 0 <= k < NUMBERS_COUNT ==> texts[k] == pretty(Record(k, clock(k), numbers(k)))) &&
      Concat(DataChunks(texts, FLUSH_EVERY)) == OpenBracket + Join(texts, Separator) + CloseBracket
  {
    var texts := PrettyTexts(pretty, Take(RandomNumberObjects(numbers, clock), NUMBERS_COUNT));
    TakeObjects(numbers, clock, NUMBERS_COUNT);
    DataChunksConcat(texts, FLUSH_EVERY);
  }

  /** After the last record, the buffer with the closing bracket completes the data chunks. */
  lemma FinalChunk(texts: seq<string>, k: nat, data: seq<string>, buffer: string)
    requires k > 0
    requires Emitter(data, buffer) == RunTo(texts, |texts|, k)
    ensures data + [buffer + CloseBracket] == DataChunks(texts, k)
  {
  }

  class RandomNumbersController {
    /** `response.stream`. */
    const stream: ResponseStream

    constructor (stream: ResponseStream)
      ensures this.stream == stream
    {
      this.stream := stream;
    }

    /**
     * `index`: the first NUMBERS_COUNT records of the generator, sent as a
     * pretty JSON array through the deflater, after which the stream is
     * closed.
     */
    method Index(numbers: nat -> Word128, clock: nat -> string, pretty: Record -> string,
                 zlib: (seq<string>, bool) -> string)
      requires !stream.closed
      modifies stream
      ensures stream.closed
      ensures stream.chunks == old(stream.chunks) + StreamOutput(zlib,
        DataChunks(PrettyTexts(pretty, Take(RandomNumberObjects(numbers, clock), NUMBERS_COUNT)), FLUSH_EVERY))
    {
      var lazyEnum := Take(RandomNumberObjects(numbers, clock), NUMBERS_COUNT);
      StreamJsonArray(lazyEnum, pretty, zlib);
    }

    /**
     * `stream_json_array`: the data written to a fresh deflater is
     * DataChunks of the records' pretty texts, followed by exactly one
     * finishing write, after which the stream is closed. The stream receives
     * one chunk per write, in order.
     */
    method StreamJsonArray(enum: seq<Record>, pretty: Record -> string, zlib: (seq<string>, bool) -> string)
      requires !stream.closed
      modifies stream
      ensures stream.closed
      ensures stream.chunks == old(stream.chunks) + StreamOutput(zlib, DataChunks(PrettyTexts(pretty, enum), FLUSH_EVERY))
    {
      var deflate := new Deflater(zlib);
      ghost var texts := PrettyTexts(pretty, enum);

      var buffer := OpenBracket;
      var i := 0;
      ghost var e := RunTo(texts, 0, FLUSH_EVERY);
      while i < |enum|
        invariant 0 <= i <= |enum|
        invariant fresh(deflate) && deflate.zlib == zlib && !deflate.finished
        invariant !stream.closed
        invariant e == RunTo(texts, i, FLUSH_EVERY)
        invariant deflate.data == e.sent && buffer == e.buffer
        invariant stream.chunks == old(stream.chunks) + DeflateOutputs(zlib, deflate.data)
      {
        var record := enum[i];
        if i != 0 {
          buffer := buffer + Separator;
        }
        buffer := buffer + pretty(record);
        assert buffer == e.buffer + (if i == 0 then "" else Separator) + texts[i];
        e := Step(e, i, texts[i], FLUSH_EVERY);

        if i % FLUSH_EVERY == 0 {
          DeflateOutputsSnoc(zlib, deflate.data, buffer);
          Write(deflate, Some(buffer));
          buffer := "";
        }
        i := i + 1;
      }
      FinalChunk(texts, FLUSH_EVERY, deflate.data, buffer);
      buffer := buffer + CloseBracket;

      DeflateOutputsSnoc(zlib, deflate.data, buffer);
      Write(deflate, Some(buffer));
      Write(deflate, None);
      stream.Close();
    }

    /** `write`: one deflate call, whose output goes to the stream as one chunk. */
    method Write(deflate: Deflater, data: Option<string>)
      requires !deflate.finished && !stream.closed
      modifies deflate, stream
      ensures data.Some? ==> deflate.data == old(deflate.data) + [data.value] && !deflate.finished
      ensures data.None? ==> deflate.data == old(deflate.data) && deflate.finished
      ensures stream.chunks == old(stream.chunks) + [deflate.zlib(deflate.data, deflate.finished)]
      ensures !stream.closed
    {
      var deflated := deflate.Deflate(data);
      stream.Write(deflated);
    }
  }
}
