# stream_json_demo, modelled in Dafny

This project models a small Rails demo that streams large JSON responses.
Two controllers take records from an infinite, lazily built sequence. Each
record is `{index, time, number}`: a 0-based position, a timestamp, and a
random number below 2^128. The controllers bound the sequence with `take(n)`
and write it to the client as they go:

- `RandomNumbersController#index` sends one million records as a single
  pretty-printed JSON array. The text is built in a string buffer. The
  buffer goes to a zlib deflater after record 0 and after every 2000th
  record. The closing bracket is followed by a final data write, then a
  finishing `deflate(nil)`, then the stream is closed.
- `RandomNumbers2Controller#index` sends ten records as newline-delimited
  JSON. Each record gets its own write of compact JSON plus `"\n"`. The
  stream is closed afterwards.

Files:

- `records.dfy` (module `Records`): the record datatype, the infinite
  generator as a function `nat -> Record`, and `take`.
- `sinks.dfy` (module `Sinks`): the two stateful collaborators as classes.
  - `Deflater` keeps an ordered log of the data it was given and a
    `finished` flag. Nothing may be submitted after the finish.
  - `ResponseStream` is an append-only chunk log with a `closed` flag.
- `json_array.dfy` (module `JsonArray`): the buffer/separator/flush state
  machine of `stream_json_array`, stated over the records' serialised
  texts, with its end-to-end properties.
- `random_numbers_controller.dfy` (module `RandomNumbers`): the controller
  as a class. It has the imperative loop of `stream_json_array`, `write`
  and `index`. The loop is proved against `JsonArray`.
- `random_numbers2_controller.dfy` (module `RandomNumbers2`): the
  line-delimited controller as a class. It also has a newline splitter and
  a round-trip lemma for what the client receives.

Some things are not modelled byte for byte. They are parameters of the
model instead:

- the serialisers `JSON.pretty_generate(object, depth: 1)` (`pretty`) and
  `JSON.dump` (`dump`);
- the random draws (`numbers`), each below 2^128;
- the timestamps `Time.current.xmlschema(3)` (`clock`);
- the deflater's compressed output (`zlib`). This maps the data submitted
  so far, and whether the stream is finished, to the bytes that call
  returns.

The buffer starts as `"[\n  "` and gets `"\n]\n"` appended, so with no
records the one data chunk is `"[\n  \n]\n"`, with two spaces on the middle
line (`JsonArray.DataChunksEmpty`).

## Model

| member | source | states |
|---|---|---|
| Records.RandomNumberObjects | app/controllers/random_numbers_controller.rb:22-30 | element i of the infinite record sequence is the record with index i, timestamp `clock(i)` and draw `numbers(i)` |
| Records.Take | app/controllers/random_numbers_controller.rb:11 | `take(n)` of an infinite sequence has exactly n elements, and element k is the sequence's element k |
| Records.TakeReadsOnlyPrefix | app/controllers/random_numbers_controller.rb:11 | `take(n)` depends only on the first n elements: two sequences that agree below n give the same prefix |
| Records.TakeObjects | app/controllers/random_numbers_controller.rb:18-30 | the first n generated records: there are exactly n, and record k has index k, timestamp k and draw k (the datatype declares the fields in the source's key order: index, time, number); the range [0, 2^128) of each number is carried over from the type of the draws |
| Sinks.Deflater.constructor | app/controllers/random_numbers_controller.rb:39 | a new deflater has received no data and is not finished |
| Sinks.Deflater.Deflate | app/controllers/random_numbers_controller.rb:59 | a string is appended to the data log; `nil` finishes the stream and appends nothing; submitting after the finish is excluded; the output is the zlib output for the data so far and the finished flag |
| Sinks.ResponseStream.Write | app/controllers/random_numbers_controller.rb:60 | one chunk is appended to the stream, and a closed stream accepts no writes |
| Sinks.ResponseStream.Close | app/controllers/random_numbers_controller.rb:55 | closing leaves the chunks written so far unchanged and marks the stream closed |
| JsonArray.Step | app/controllers/random_numbers_controller.rb:43-49 | one pass of the loop body for record i: it hands the buffer over as one more data chunk exactly when `i % FLUSH_EVERY == 0` (record 0 included), and leaves the buffer empty exactly then; what the pass appends is stated by `JsonArray.StepConcat` |
| JsonArray.RunTo | app/controllers/random_numbers_controller.rb:41-50 | the emitter after the first i records, starting from the buffer `"[\n  "`: it has handed over one data chunk per record index below i that is a multiple of the cadence, and its buffer is empty exactly when record i - 1 caused a write |
| JsonArray.DataChunks | app/controllers/random_numbers_controller.rb:41-53 | every string given to the deflater as data, in order: the chunks flushed in the loop, then the rest of the buffer with `"\n]\n"`; one more than the number of flushes, the last ending with `"\n]\n"` |
| JsonArray.StepConcat | app/controllers/random_numbers_controller.rb:43-49 | one pass of the loop body keeps "data handed over, then the buffer" equal to what it was, followed by the record's separator and text, whether or not it flushes |
| JsonArray.RunToConcat | app/controllers/random_numbers_controller.rb:41-49 | after any number of records, the data handed over so far followed by the buffer is the opening bracket plus every record's piece; a flush boundary loses no text and duplicates none |
| JsonArray.SegmentIsJoin | app/controllers/random_numbers_controller.rb:43-44 | "separator unless i == 0, then the text", applied to every record, gives exactly the texts joined by `",\n  "` |
| JsonArray.DataChunksConcat | app/controllers/random_numbers_controller.rb:41-53 | for every flush cadence, all data given to the deflater concatenates to `"[\n  "`, then the record texts joined by `",\n  "`, then `"\n]\n"` |
| JsonArray.FlushAfter | app/controllers/random_numbers_controller.rb:46-49 | record i causes a data write, of the buffer plus record i's piece, exactly when `i % FLUSH_EVERY == 0` (record 0 included); otherwise nothing is handed over; the buffer is empty right after record i exactly when that write happened |
| JsonArray.FlushCountClosed | app/controllers/random_numbers_controller.rb:46 | among record indices 0 .. n-1, the number that trigger a write is `(n - 1) / k + 1` when n > 0, and 0 when n = 0 |
| JsonArray.ChunkEndClosed | app/controllers/random_numbers_controller.rb:46 | data chunk m ends just after record `m * k` |
| JsonArray.RunToShape | app/controllers/random_numbers_controller.rb:42-50 | after i records, the emitter has handed over exactly one chunk per flush point passed; chunk m holds the pieces of the records since the previous flush up to record `m * k` (chunk 0 also holds the opening bracket); the buffer holds the pieces since the last flush |
| JsonArray.DataChunksShape | app/controllers/random_numbers_controller.rb:41-53 | the whole run gives one data chunk per flush point plus one final chunk; each chunk's exact text is fixed, and the final chunk is the pieces since the last flush followed by `"\n]\n"` |
| JsonArray.DataChunksEmpty | app/controllers/random_numbers_controller.rb:51-53 | with no records, the only data chunk is `"[\n  \n]\n"` |
| RandomNumbers.DeflateOutputsSnoc | app/controllers/random_numbers_controller.rb:58-61 | each further data write adds exactly one stream chunk: the deflater's output for the data so far |
| RandomNumbers.IndexWriteCount | app/controllers/random_numbers_controller.rb:46-54 | for a million records, the loop makes 500 data writes, and the response has 502 chunks: those 500, the closing data write and the finishing write |
| RandomNumbers.IndexDocument | app/controllers/random_numbers_controller.rb:10-13 | `index` serialises exactly NUMBERS_COUNT records, the k-th being record k, and its data is one JSON array of their pretty texts |
| RandomNumbers.RandomNumbersController.StreamJsonArray | app/controllers/random_numbers_controller.rb:34-56 | the stream receives one chunk per deflate call, in order: one per data chunk of DataChunks (the loop's flushes, then the rest with the closing bracket), then exactly one finishing write; then the stream is closed |
| RandomNumbers.RandomNumbersController.Index | app/controllers/random_numbers_controller.rb:10-14 | the response is the stream output of `stream_json_array` over the first NUMBERS_COUNT generated records, and the stream ends closed |
| RandomNumbers.RandomNumbersController.Write | app/controllers/random_numbers_controller.rb:58-61 | one deflate call whose output goes to the stream as exactly one chunk; a string is logged as data, `nil` finishes the deflater |
| RandomNumbers2.SplitLine | app/controllers/random_numbers2_controller.rb:9 | a reader that splits at newlines reads a written line, which has no newline of its own, as exactly one line |
| RandomNumbers2.LinesRoundTrip | app/controllers/random_numbers2_controller.rb:8-11 | if no dump contains a raw newline, splitting the concatenated body at newlines gives back exactly the dumped records, in order, with no extra or missing lines |
| RandomNumbers2.RandomNumbers2Controller.Index | app/controllers/random_numbers2_controller.rb:4-14 | the stream receives one chunk per record of the first ten, each `dump(record) + "\n"`, in order, and is then closed |
| RandomNumbers2.IndexOutput | app/controllers/random_numbers2_controller.rb:6-11 | exactly 10 lines are written; line k is the dump of the record with index k, draw k and timestamp k, plus `"\n"`; and the body splits back into those ten dumps |

## Left out

- The DEFLATE algorithm (zlib format of RFC 1950 around RFC 1951) is not modelled. A call's compressed output is the parameter `zlib`, a function of the data submitted so far and the finished flag. Properties of the compressed bytes, for example that they decompress to the data, are not stated.
- `JSON.pretty_generate` and `JSON.dump` are parameters. The round trip of the line-delimited body assumes that a dump contains no raw newline, which compact JSON output guarantees.
- `SecureRandom.random_number(2**128)` and `Time.current.xmlschema(3)` are parameters (`numbers`, `clock`). The model keeps only the range bound on the draw. It assumes nothing about the timestamps, such as their being non-decreasing.
- `(0..Float::INFINITY).lazy` is a function from `nat` to records. `take(n)` is its first n values, so laziness is modelled as the result depending only on the first n values, not as evaluation order.
- The response headers (`Content-Disposition`, `Content-Type`, `Content-Encoding`) are not modelled, because they do not affect the body.
- `sleep 0.5` between writes is not modelled, because it is timing only.
- The live-streaming thread and transport of `ActionController::Live` are not modelled. A write to a broken connection, and the abandonment of the rest of the response, are not modelled either. A write always succeeds.
- RandomNumbers.RandomNumbersController.StreamJsonArray: the buffer is a value reassigned on each append, not one string mutated in place with `<<`. No other code holds the buffer, so the model does not lose anything by this.
