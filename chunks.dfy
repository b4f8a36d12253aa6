/**
 * The encoded audio a recording produces: the fragments the recorder
 * delivers, the buffer that keeps the non-empty ones in arrival order,
 * and the clip built from that buffer when the recorder stops.
 */
module Chunks {

  /** One fragment of encoded audio, the bytes of one `dataavailable` Blob. */
  type Chunk = seq<bv8>

  /** The type the finished clip is tagged with. */
  const MIME_TYPE: string := "audio/webm"

  /** A finished recording: `new Blob(chunks, { type })`. */
  datatype Clip = Clip(data: seq<bv8>, mimeType: string)

  /** The bytes of a Blob built from a list of parts: the parts one after another. */
  function Concat(cs: seq<Chunk>): seq<bv8> {
    if cs == [] then [] else Concat(cs[..|cs| - 1]) + cs[|cs| - 1]
  }

  /** The clip the stop handler builds from the buffered fragments. */
  function MakeClip(cs: seq<Chunk>): (c: Clip)
    ensures c.mimeType == MIME_TYPE
    ensures |c.data| == TotalSize(cs)
  {
    ConcatSize(cs);
    Clip(Concat(cs), MIME_TYPE)
  }

  /** The number of bytes in a list of fragments. */
  function TotalSize(cs: seq<Chunk>): nat {
    if cs == [] then 0 else TotalSize(cs[..|cs| - 1]) + |cs[|cs| - 1]|
  }

  /**
   * The buffer after fragments `fs` arrived in this order, starting from
   * an empty buffer: a fragment is appended when its size is positive
   * and ignored otherwise.
   */
  function Buffered(fs: seq<Chunk>): (b: seq<Chunk>)
    ensures |b| <= |fs|
    ensures forall i :: 0 <= i < |b| ==> |b[i]| > 0
  {
    if fs == [] then []
    else
      var b := Buffered(fs[..|fs| - 1]);
      var c := fs[|fs| - 1];
      if |c| > 0 then b + [c] else b
  }

  lemma {:induction false} ConcatSize(cs: seq<Chunk>)
    ensures |Concat(cs)| == TotalSize(cs)
  {
    if cs != [] {
      ConcatSize(cs[..|cs| - 1]);
    }
  }

  lemma {:induction false} ConcatAppend(a: seq<Chunk>, b: seq<Chunk>)
    ensures Concat(a + b) == Concat(a) + Concat(b)
    decreases |b|
  {
    if b == [] {
      assert a + b == a;
    } else {
      var b' := b[..|b| - 1];
      assert (a + b)[..|a + b| - 1] == a + b';
      ConcatAppend(a, b');
    }
  }

  /** Dropping the empty fragments does not change the recorded bytes. */
  lemma {:induction false} BufferedConcat(fs: seq<Chunk>)
    ensures Concat(Buffered(fs)) == Concat(fs)
  {
    if fs != [] {
      var init, c := fs[..|fs| - 1], fs[|fs| - 1];
      BufferedConcat(init);
      if |c| > 0 {
        ConcatAppend(Buffered(init), [c]);
        assert [c][..0] == [];
      } else {
        assert c == [];
      }
    }
  }

  /** The buffer keeps arrival order: buffering two batches is buffering each in turn. */
  lemma {:induction false} BufferedAppend(a: seq<Chunk>, b: seq<Chunk>)
    ensures Buffered(a + b) == Buffered(a) + Buffered(b)
    decreases |b|
  {
    if b == [] {
      assert a + b == a;
    } else {
      var b' := b[..|b| - 1];
      assert (a + b)[..|a + b| - 1] == a + b';
      BufferedAppend(a, b');
    }
  }

  /** A fragment is in the buffer exactly when it arrived and is not empty. */
  lemma {:induction false} BufferedMembers(fs: seq<Chunk>, c: Chunk)
    ensures c in Buffered(fs) <==> c in fs && |c| > 0
  {
    if fs != [] {
      var init := fs[..|fs| - 1];
      BufferedMembers(init, c);
      assert fs == init + [fs[|fs| - 1]];
    }
  }

  /** Fragments that are all non-empty are buffered unchanged. */
  lemma {:induction false} BufferedAllNonEmpty(fs: seq<Chunk>)
    requires forall i :: 0 <= i < |fs| ==> |fs[i]| > 0
    ensures Buffered(fs) == fs
  {
    if fs != [] {
      BufferedAllNonEmpty(fs[..|fs| - 1]);
      assert fs == fs[..|fs| - 1] + [fs[|fs| - 1]];
    }
  }
}
