/**
 * The embedding blob codec: a vector of binary32 values stored as the
 * concatenation of each value's four little-endian bytes.  A value is
 * modelled by its 32-bit pattern, which `to_le_bytes`/`from_le_bytes`
 * carry unchanged.
 */
module Blob {
  type byte = bv8
  type word = bv32

  /** `f32::to_le_bytes`: least-significant byte first. */
  function LeBytes(w: word): (b: seq<byte>)
    ensures |b| == 4
    ensures b[0] == (w & 0xFF) as byte
  {
    [(w & 0xFF) as byte, ((w >> 8) & 0xFF) as byte, ((w >> 16) & 0xFF) as byte, ((w >> 24) & 0xFF) as byte]
  }

  /** `f32::from_le_bytes`. */
  function FromLe(b0: byte, b1: byte, b2: byte, b3: byte): word {
    (b0 as word) | ((b1 as word) << 8) | ((b2 as word) << 16) | ((b3 as word) << 24)
  }

  /** The four bytes of a word put it back together. */
  lemma FromLeOfLeBytes(w: word)
    ensures var b := LeBytes(w); FromLe(b[0], b[1], b[2], b[3]) == w
  {
  }

  /** The blob a vector is stored as. */
  function Encoded(v: seq<word>): seq<byte> {
    if |v| == 0 then [] else LeBytes(v[0]) + Encoded(v[1..])
  }

  lemma {:induction false} EncodedLength(v: seq<word>)
    ensures |Encoded(v)| == 4 * |v|
  {
    if |v| > 0 {
      EncodedLength(v[1..]);
    }
  }

  /** Encoding distributes over concatenation. */
  lemma {:induction false} EncodedAppend(a: seq<word>, b: seq<word>)
    ensures Encoded(a + b) == Encoded(a) + Encoded(b)
  {
    if |a| > 0 {
      assert (a + b)[1..] == a[1..] + b;
      EncodedAppend(a[1..], b);
    } else {
      assert a + b == b;
    }
  }

  /** Bytes 4i .. 4i+3 of the blob are element i, least-significant first. */
  lemma {:induction false} EncodedLayout(v: seq<word>, i: nat, k: nat)
    requires i < |v| && k < 4
    ensures |Encoded(v)| == 4 * |v|
    ensures Encoded(v)[4 * i + k] == LeBytes(v[i])[k]
  {
    EncodedLength(v);
    if i > 0 {
      EncodedLayout(v[1..], i - 1, k);
      assert 4 * i + k == 4 + (4 * (i - 1) + k);
    }
  }

  /** `vector_to_blob`: extend a byte buffer with each value's bytes. */
  method VectorToBlob(vector: seq<word>) returns (bytes: seq<byte>)
    ensures bytes == Encoded(vector)
    ensures |bytes| == 4 * |vector|
  {
    bytes := [];
    var i := 0;
    while i < |vector|
      invariant i <= |vector|
      invariant bytes == Encoded(vector[..i])
    {
      EncodedAppend(vector[..i], [vector[i]]);
      assert vector[..i + 1] == vector[..i] + [vector[i]];
      assert Encoded([vector[i]]) == LeBytes(vector[i]) + Encoded([]);
      bytes := bytes + LeBytes(vector[i]);
      i := i + 1;
    }
    assert vector[..i] == vector;
    EncodedLength(vector);
  }

  /** `blob_to_vector`: every whole 4-byte chunk, trailing bytes ignored. */
  function BlobToVector(blob: seq<byte>): (v: seq<word>)
    ensures |v| == |blob| / 4
  {
    if |blob| < 4 then []
    else [FromLe(blob[0], blob[1], blob[2], blob[3])] + BlobToVector(blob[4..])
  }

  /** Element i of the decoded vector is read from bytes 4i .. 4i+3. */
  lemma {:induction false} BlobToVectorLayout(blob: seq<byte>, i: nat)
    requires i < |blob| / 4
    ensures 4 * i + 3 < |blob|
    ensures BlobToVector(blob)[i] == FromLe(blob[4 * i], blob[4 * i + 1], blob[4 * i + 2], blob[4 * i + 3])
  {
    if i > 0 {
      BlobToVectorLayout(blob[4..], i - 1);
    }
  }

  /** Decoding an encoded vector gives back every bit pattern. */
  lemma {:induction false} RoundTrip(v: seq<word>)
    ensures BlobToVector(Encoded(v)) == v
  {
    if |v| > 0 {
      var b := Encoded(v);
      assert b[..4] == LeBytes(v[0]);
      assert b[4..] == Encoded(v[1..]);
      FromLeOfLeBytes(v[0]);
      RoundTrip(v[1..]);
    }
  }

  /** Trailing bytes beyond the last whole chunk do not change the vector. */
  lemma {:induction false} TrailingBytesIgnored(blob: seq<byte>, extra: seq<byte>)
    requires |blob| % 4 == 0 && |extra| < 4
    ensures BlobToVector(blob + extra) == BlobToVector(blob)
  {
    if |blob| >= 4 {
      assert (blob + extra)[4..] == blob[4..] + extra;
      TrailingBytesIgnored(blob[4..], extra);
    }
  }
}
