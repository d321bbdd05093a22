/** Ingestion of the image encoder's compressed embeddings
    (`setImageEmbeddings` in app/SAM2.js): each stream is base64 text of a
    zlib-compressed buffer of little-endian binary16 words. */
module Embeddings {
  import opened Wrappers
  import opened Half
  import opened Tensors

  /** One stream of the encoder's reply: `{ data, dims }`. */
  datatype Embedding = Embedding(data: string, dims: seq<int>)

  /** The foreign decoders: the global `atob` and `pako.inflate`. Each either
      returns its output or throws. */
  datatype Codec = Codec(atob: string -> Result<string>, inflate: seq<byte> -> Result<seq<byte>>)

  /** The three decoder inputs that depend only on the image (`image_encoded`). */
  datatype EncodedImage = EncodedImage(highResFeats0: Tensor, highResFeats1: Tensor, imageEmbed: Tensor)

  const HighResFeats0: string := "high_res_feats_0"
  const HighResFeats1: string := "high_res_feats_1"
  const ImageEmbed: string := "image_embed"

  /** Storing a character code in a `Uint8Array` keeps its low 8 bits. */
  function ToUint8(c: char): (b: byte)
    ensures c as int < 256 ==> b as int == c as int
  {
    (c as int % 256) as byte
  }

  /** The bytes of a binary string, one per character. */
  function CharBytes(binary: string): (bytes: seq<byte>)
    ensures |bytes| == |binary|
  {
    seq(|binary|, i requires 0 <= i < |binary| => ToUint8(binary[i]))
  }

  /** The `Uint8Array` filled from `binaryString.charCodeAt(i)` (app/SAM2.js:221-224). */
  method BinaryToBytes(binary: string) returns (bytes: array<byte>)
    ensures bytes.Length == |binary|
    ensures forall i :: 0 <= i < |binary| && binary[i] as int < 256 ==> bytes[i] as int == binary[i] as int
    ensures bytes[..] == CharBytes(binary)
  {
    bytes := new byte[|binary|](_ => 0);
    for i := 0 to |binary|
      invariant forall k :: 0 <= k < i ==> bytes[k] == ToUint8(binary[k])
    {
      bytes[i] := ToUint8(binary[i]);
    }
  }

  /** What decoding one stream yields: the error of the first foreign step
      that throws, or a float32 tensor of the decoded words with the
      declared dimensions. */
  function Decoded(e: Embedding, codec: Codec): Result<Tensor>
  {
    var binary :- codec.atob(e.data);
    var raw :- codec.inflate(CharBytes(binary));
    Ok(Tensor(Float32, DecodeHalves(raw), e.dims))
  }

  /** `decodeEmbedding` (app/SAM2.js:216-233). */
  method DecodeEmbedding(e: Embedding, codec: Codec) returns (r: Result<Tensor>)
    ensures r == Decoded(e, codec)
  {
    var binary := codec.atob(e.data);
    if binary.Err? {
      return Err(binary.message);
    }
    var bytes := BinaryToBytes(binary.value);
    var decompressed := codec.inflate(bytes[..]);
    if decompressed.Err? {
      return Err(decompressed.message);
    }
    var raw := decompressed.value;
    var buffer := new byte[|raw|](i requires 0 <= i < |raw| => raw[i]);
    assert buffer[..] == raw;
    var float32 := FromBuffer(buffer);
    r := Ok(Tensor(Float32, float32[..], e.dims));
  }

  /** A successfully decoded stream holds, in order, the IEEE 754 binary16
      value of every complete little-endian word of the inflated bytes, and
      nothing else; it fails exactly when `atob` or `inflate` throws. */
  lemma DecodedIsBinary16(e: Embedding, codec: Codec)
    ensures Decoded(e, codec).Ok? <==>
              codec.atob(e.data).Ok? && codec.inflate(CharBytes(codec.atob(e.data).value)).Ok?
    ensures Decoded(e, codec).Ok? ==>
              var raw := codec.inflate(CharBytes(codec.atob(e.data).value)).value;
              var t := Decoded(e, codec).value;
              t.dtype == Float32 && t.dims == e.dims && |t.data| == |raw| / 2 &&
              forall i :: 0 <= i < |t.data| ==> t.data[i] == Binary16(Uint16LE(raw[2 * i], raw[2 * i + 1]))
  {
    if Decoded(e, codec).Ok? {
      var raw := codec.inflate(CharBytes(codec.atob(e.data).value)).value;
      forall i | 0 <= i < |raw| / 2
        ensures DecodeHalves(raw)[i] == Binary16(Uint16LE(raw[2 * i], raw[2 * i + 1]))
      {
        DecodeMatchesBinary16(Uint16LE(raw[2 * i], raw[2 * i + 1]));
      }
    }
  }

  /** Decoding is lossless on words that are not NaN: two streams whose
      inflated bytes decode to the same values, with no NaN, had the same
      complete words. */
  lemma DecodedFaithful(raw1: seq<byte>, raw2: seq<byte>)
    requires |raw1| / 2 == |raw2| / 2
    requires DecodeHalves(raw1) == DecodeHalves(raw2)
    requires forall i :: 0 <= i < |raw1| / 2 ==> !DecodeHalves(raw1)[i].NaN?
    ensures forall i :: 0 <= i < |raw1| / 2 ==>
              Uint16LE(raw1[2 * i], raw1[2 * i + 1]) == Uint16LE(raw2[2 * i], raw2[2 * i + 1])
  {
    forall i | 0 <= i < |raw1| / 2
      ensures Uint16LE(raw1[2 * i], raw1[2 * i + 1]) == Uint16LE(raw2[2 * i], raw2[2 * i + 1])
    {
      assert DecodeHalves(raw1)[i] == DecodeHalves(raw2)[i];
      DecodeInjective(Uint16LE(raw1[2 * i], raw1[2 * i + 1]), Uint16LE(raw2[2 * i], raw2[2 * i + 1]));
    }
  }

  /** The stream under one key; a missing key is `undefined`, and reading
      its `data` throws. */
  function Entry(embeddings: map<string, Embedding>, key: string, codec: Codec): Result<Tensor>
  {
    if key in embeddings then Decoded(embeddings[key], codec)
    else Err(CannotRead("data", "undefined"))
  }

  /** The object assigned to `image_encoded` (app/SAM2.js:235-239): the three
      streams decoded in property order, the first failure aborting. */
  function Ingested(embeddings: map<string, Embedding>, codec: Codec): Result<EncodedImage>
  {
    var f0 :- Entry(embeddings, HighResFeats0, codec);
    var f1 :- Entry(embeddings, HighResFeats1, codec);
    var ie :- Entry(embeddings, ImageEmbed, codec);
    Ok(EncodedImage(f0, f1, ie))
  }

  /** Ingestion is all or nothing: it succeeds exactly when all three
      streams decode, then holds each stream under its own name, and
      otherwise reports the first stream's error in property order. */
  lemma IngestedAllOrNothing(embeddings: map<string, Embedding>, codec: Codec)
    ensures var r := Ingested(embeddings, codec);
            var e0, e1, e2 := Entry(embeddings, HighResFeats0, codec),
                              Entry(embeddings, HighResFeats1, codec),
                              Entry(embeddings, ImageEmbed, codec);
            (r.Ok? <==> e0.Ok? && e1.Ok? && e2.Ok?) &&
            (r.Ok? ==> r.value == EncodedImage(e0.value, e1.value, e2.value)) &&
            (r.Err? ==> r.message == (if e0.Err? then e0.message else if e1.Err? then e1.message else e2.message))
  {
  }
}
