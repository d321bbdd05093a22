/** The `SAM2` class of app/SAM2.js: it owns the decoder model's bytes, its
    inference session and the current image's embeddings, and runs the
    decoder on a prompt. */
module SamModel {
  import opened Wrappers
  import opened Tensors
  import opened Embeddings
  import opened Sessions
  import opened ModelFetch
  import opened Prompt

  /** The named output tensors of one decoder run. */
  type RunOutput = map<string, Tensor>

  /** The inference engine: session creation, and `session.run(inputs)`. */
  datatype Ort = Ort(create: Create, run: (Session, DecoderInputs) -> Result<RunOutput>)

  /** What `createSessions` resolves to: `{ success, device }`. The pair is
      always truthy, since a failed acquisition throws instead. */
  datatype Report = Report(success: Choice, device: string)

  const NoProvider: string := "Failed to initialize decoder session with any provider"

  /** The session `getDecoderSession` hands out: the memoised one if there is
      one, otherwise the first provider the engine accepts for the model,
      otherwise an error. */
  function Acquired(current: Option<Choice>, model: Model, create: Create): (r: Result<Choice>)
    ensures current.Some? ==> r == Ok(current.value)
    ensures current.None? ==> (r.Ok? <==> FirstAvailable(model, create, Ranked).Some?)
    ensures current.None? && r.Ok? ==> r.value == FirstAvailable(model, create, Ranked).value
    ensures r.Err? ==> r.message == NoProvider
  {
    if current.Some? then Ok(current.value)
    else match FirstAvailable(model, create, Ranked)
      case None => Err(NoProvider)
      case Some(c) => Ok(c)
  }

  /** What `decode` resolves to (app/SAM2.js:242-291): acquiring the session
      comes first, so its error wins; then reading `image_encoded` throws if
      no embeddings were set, before anything is run; otherwise the engine
      runs the session on the built inputs. */
  function Decoding(current: Option<Choice>, model: Model, image: Option<EncodedImage>,
                    points: seq<Point>, masks: Option<Tensor>, ort: Ort): Result<RunOutput>
  {
    var c :- Acquired(current, model, ort.create);
    if image.None? then Err(CannotRead(ImageEmbed, "null"))
    else ort.run(c.session, BuildInputs(points, masks, image.value))
  }

  /** Without embeddings the decoder is never run: the call fails with the
      session error, or with the read of `image_embed` on null. */
  lemma DecodingNeedsEmbeddings(current: Option<Choice>, model: Model, points: seq<Point>,
                                masks: Option<Tensor>, ort: Ort)
    ensures var r := Decoding(current, model, None, points, masks, ort);
            r.Err? && r.message in {NoProvider, CannotRead(ImageEmbed, "null")}
  {
  }

  class Sam2 {
    /** The persistent model cache shared by every instance. */
    const db: ModelStore
    /** `DECODER_URL`. */
    const decoderUrl: string
    var bufferDecoder: Model
    var sessionDecoder: Option<Choice>
    var imageEncoded: Option<EncodedImage>

    constructor(db: ModelStore)
      ensures this.db == db && decoderUrl == DecoderUrl
      ensures bufferDecoder == None && sessionDecoder == None && imageEncoded == None
    {
      this.db := db;
      decoderUrl := DecoderUrl;
      bufferDecoder := None;
      sessionDecoder := None;
      imageEncoded := None;
    }

    /** `downloadModel` (app/SAM2.js:51-88), following the cache policy. */
    method DownloadModel(url: string, faults: StoreFaults, fetch: Fetch)
      returns (buffer: Option<Buffer>, ghost fetched: bool)
      modifies db
      ensures var o := Download(old(db.entries), url, faults, fetch);
              buffer == o.buffer && db.entries == o.entries && fetched == o.fetched
    {
      fetched := false;
      var filename := Filename(url);
      var cached := db.Get(filename, faults);
      if cached.Ok? && cached.value.Some? {
        return cached.value, fetched;
      }
      fetched := true;
      var response := fetch(url);
      if response.Err? {
        return None, fetched;
      }
      var saved := db.Put(filename, response.value, faults);
      return Some(response.value), fetched;
    }

    /** `downloadModels` (app/SAM2.js:47-49): the decoder model's bytes, or
        null, replace `bufferDecoder`. */
    method DownloadModels(faults: StoreFaults, fetch: Fetch)
      modifies this`bufferDecoder, db
      ensures var o := Download(old(db.entries), decoderUrl, faults, fetch);
              bufferDecoder == o.buffer && db.entries == o.entries
    {
      ghost var fetched;
      bufferDecoder, fetched := DownloadModel(decoderUrl, faults, fetch);
    }

    /** `getDecoderSession` (app/SAM2.js:203-212): a session is created at
        most once and then reused; a failed attempt is not remembered, so
        the next call tries again. */
    method GetDecoderSession(create: Create) returns (r: Result<Choice>, ghost tried: seq<Provider>)
      modifies this`sessionDecoder
      ensures r == Acquired(old(sessionDecoder), bufferDecoder, create)
      ensures sessionDecoder == if r.Ok? then Some(r.value) else old(sessionDecoder)
      ensures tried == if old(sessionDecoder).Some? then [] else Tried(bufferDecoder, create, Ranked)
    {
      tried := [];
      if sessionDecoder.None? {
        var result;
        result, tried := GetOrtSession(bufferDecoder, create);
        if result.None? {
          return Err(NoProvider), tried;
        }
        sessionDecoder := result;
      }
      return Ok(sessionDecoder.value), tried;
    }

    /** `createSessions` (app/SAM2.js:138-144): the session and the name of
        its provider. */
    method CreateSessions(create: Create) returns (r: Result<Report>)
      modifies this`sessionDecoder
      ensures var a := Acquired(old(sessionDecoder), bufferDecoder, create);
              (r.Ok? <==> a.Ok?) &&
              (r.Ok? ==> r.value == Report(a.value, a.value.device.Name())) &&
              (r.Err? ==> r.message == a.message)
      ensures sessionDecoder == if r.Ok? then Some(r.value.success) else old(sessionDecoder)
    {
      ghost var tried;
      var success;
      success, tried := GetDecoderSession(create);
      if success.Err? {
        return Err(success.message);
      }
      return Ok(Report(success.value, sessionDecoder.value.device.Name()));
    }

    /** `setImageEmbeddings` (app/SAM2.js:214-240): the three streams are
        decoded and replace `image_encoded` together, or, when any of them
        throws, nothing changes. */
    method SetImageEmbeddings(embeddings: map<string, Embedding>, codec: Codec) returns (r: Result<()>)
      modifies this`imageEncoded
      ensures var i := Ingested(embeddings, codec);
              (r.Ok? <==> i.Ok?) && (r.Err? ==> r.message == i.message) &&
              imageEncoded == if i.Ok? then Some(i.value) else old(imageEncoded)
    {
      var f0 := DecodeStream(embeddings, HighResFeats0, codec);
      if f0.Err? {
        return Err(f0.message);
      }
      var f1 := DecodeStream(embeddings, HighResFeats1, codec);
      if f1.Err? {
        return Err(f1.message);
      }
      var ie := DecodeStream(embeddings, ImageEmbed, codec);
      if ie.Err? {
        return Err(ie.message);
      }
      imageEncoded := Some(EncodedImage(f0.value, f1.value, ie.value));
      return Ok(());
    }

    /** `decodeEmbedding(embeddings[key])`. */
    static method DecodeStream(embeddings: map<string, Embedding>, key: string, codec: Codec) returns (r: Result<Tensor>)
      ensures r == Entry(embeddings, key, codec)
    {
      if key !in embeddings {
        return Err(CannotRead("data", "undefined"));
      }
      r := DecodeEmbedding(embeddings[key], codec);
    }

    /** `decode(points, masks)` (app/SAM2.js:242-291). */
    method Decode(points: seq<Point>, masks: Option<Tensor>, ort: Ort) returns (r: Result<RunOutput>)
      modifies this`sessionDecoder
      ensures r == Decoding(old(sessionDecoder), bufferDecoder, imageEncoded, points, masks, ort)
      ensures var a := Acquired(old(sessionDecoder), bufferDecoder, ort.create);
              sessionDecoder == if a.Ok? then Some(a.value) else old(sessionDecoder)
    {
      ghost var tried;
      var session;
      session, tried := GetDecoderSession(ort.create);
      if session.Err? {
        return Err(session.message);
      }
      if imageEncoded.None? {
        return Err(CannotRead(ImageEmbed, "null"));
      }
      var inputs := BuildInputs(points, masks, imageEncoded.value);
      r := ort.run(session.value.session, inputs);
    }
  }
}
