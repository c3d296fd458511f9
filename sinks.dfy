// The two stateful collaborators of the controllers: the zlib deflater and
// the response stream. Neither is modelled byte for byte. The deflater is an
// ordered log of the data it was given plus a single terminal finish, and
// its output for a call is taken from the function `zlib`, which maps the
// data submitted so far and whether the stream is finished to the bytes that
// call returns. The response stream is an append-only log of the chunks
// written to the client plus a closed flag.

module Sinks {

  datatype Option<T> = None | Some(value: T)

  /** What a client receives from a sequence of chunks: their concatenation. */
  function Concat(chunks: seq<string>): string
  {
    if |chunks| == 0 then "" else Concat(chunks[..|chunks| - 1]) + chunks[|chunks| - 1]
  }

  lemma ConcatSnoc(chunks: seq<string>, x: string)
    ensures Concat(chunks + [x]) == Concat(chunks) + x
  {
    assert (chunks + [x])[..|chunks|] == chunks;
  }

  /** Concatenation seen from the front. */
  lemma {:induction false} ConcatCons(x: string, chunks: seq<string>)
    ensures Concat([x] + chunks) == x + Concat(chunks)
  {
    if |chunks| == 0 {
      assert [x] + chunks == [x];
      assert [x][..0] == [];
    } else {
      var last := |chunks| - 1;
      assert ([x] + chunks)[..last + 1] == [x] + chunks[..last];
      ConcatCons(x, chunks[..last]);
    }
  }

  /** A `Zlib::Deflate` stream. */
  class Deflater {
    /** The bytes returned by a call, given the data so far and the finished flag after it. */
    const zlib: (seq<string>, bool) -> string
    /** The data strings submitted, in call order. */
    var data: seq<string>
    /** True once `deflate(nil)` has finished the stream. */
    var finished: bool

    constructor (zlib: (seq<string>, bool) -> string)
      ensures this.zlib == zlib
      ensures data == [] && !finished
    {
      this.zlib := zlib;
      data := [];
      finished := false;
    }

    /**
     * `deflate(chunk)`: a string is appended to the compressed stream, `nil`
     * finishes it. Nothing may be submitted after the finish.
     */
    method Deflate(chunk: Option<string>) returns (out: string)
      requires !finished
      modifies this
      ensures chunk.Some? ==> data == old(data) + [chunk.value] && !finished
      ensures chunk.None? ==> data == old(data) && finished
      ensures out == zlib(data, finished)
    {
      match chunk {
        case Some(s) => data := data + [s];
        case None => finished := true;
      }
      out := zlib(data, finished);
    }
  }

  /** `response.stream` of a live-streaming controller. */
  class ResponseStream {
    /** The chunks written, in order. */
    var chunks: seq<string>
    var closed: bool

    constructor ()
      ensures chunks == [] && !closed
    {
      chunks := [];
      closed := false;
    }

    /** Sends one chunk to the client; a closed stream refuses writes. */
    method Write(s: string)
      requires !closed
      modifies this
      ensures chunks == old(chunks) + [s] && !closed
    {
      chunks := chunks + [s];
    }

    /** Ends the response. */
    method Close()
      modifies this
      ensures chunks == old(chunks) && closed
    {
      closed := true;
    }
  }
}
