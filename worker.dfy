/** The web worker of app/worker.js: one `SAM2` instance and a `stats`
    record, driven by the messages the page posts. Each message is handled
    to completion; what it posts back is appended to `posted`. */
module Worker {
  import opened Wrappers
  import opened Half
  import opened Tensors
  import opened Embeddings
  import opened Sessions
  import opened ModelFetch
  import opened Prompt
  import opened SamModel

  /** A copy of the `stats` record, as `postMessage` clones it. */
  datatype StatsRecord = StatsRecord(device: string, downloadModelsTime: seq<real>,
                                     decodeTimes: seq<real>, lastError: Option<string>)

  /** The `data` payload of an incoming message; a field that is absent is
      None (`undefined`). An `embeddings` map holds only its truthy entries. */
  datatype Data = Data(imageData: Option<seq<byte>>, embeddings: Option<map<string, Embedding>>,
                       points: Option<seq<Point>>, maskArray: Option<seq<real>>, maskShape: seq<int>)

  /** An incoming message `{ type, data }` (`type` is reserved in Dafny). */
  datatype InMessage = InMessage(kind: string, data: Option<Data>)

  /** The messages the worker posts, one constructor per `type`. */
  datatype OutMessage =
    | DownloadInProgress
    | LoadingInProgress
    | Pong(report: Report)
    | StatsMessage(stats: StatsRecord)
    | EncodeImageDone
    | SetImageEmbeddingsDone
    | DecodeMaskResult(output: RunOutput, durationMs: real)
    | ErrorMessage(error: string, errorStats: StatsRecord)

  /** The embeddings endpoint behind the proxy (`${SERVER_URL}/segmentation_embeddings`). */
  const EmbeddingsUrl: string := "/api/segmentation_embeddings"

  /** Everything outside the worker that one message's handling consults:
      the model's network fetch and the cache's faults, the inference
      engine, the encoder server (a POST of the image, then `response.json()`;
      None when the reply is falsy), the base64 and zlib decoders, and the
      time `performance.now()` advances by over the measured interval. */
  datatype Env = Env(fetch: Fetch, faults: StoreFaults, ort: Ort,
                     post: (string, Option<seq<byte>>) -> Result<Option<map<string, Embedding>>>,
                     codec: Codec, elapsedMs: real)

  const FailedToEncode: string := "Failed to encode image on server"
  const InvalidEmbeddings: string := "Invalid embeddings format received from server"
  const FailedToProcess: string := "Failed to process server embeddings"
  const NoPoints: string := "No points provided for mask generation"
  const FailedToGenerate: string := "Failed to generate mask"

  /** The check of worker.js:73 and :96: an object with all three streams. */
  predicate WellFormed(embeddings: Option<map<string, Embedding>>)
  {
    embeddings.Some? &&
    HighResFeats0 in embeddings.value && HighResFeats1 in embeddings.value && ImageEmbed in embeddings.value
  }

  /** The previous mask sent with a prompt, as `new Tensor("float32", maskArray, maskShape)`. */
  function MaskTensor(data: Data): (masks: Option<Tensor>)
    ensures masks.Some? <==> data.maskArray.Some?
    ensures masks.Some? ==>
              masks.value.dtype == Float32 && masks.value.dims == data.maskShape &&
              |masks.value.data| == |data.maskArray.value| &&
              forall i :: 0 <= i < |data.maskArray.value| ==> masks.value.data[i] == FromReal(data.maskArray.value[i])
  {
    if data.maskArray.None? then None
    else
      var values := data.maskArray.value;
      Some(Tensor(Float32, seq(|values|, i requires 0 <= i < |values| => FromReal(values[i])), data.maskShape))
  }

  /** The durations of the decoder results among the posted messages, in order. */
  function DecodeDurations(posted: seq<OutMessage>): seq<real>
    decreases |posted|
  {
    if |posted| == 0 then []
    else
      var last := posted[|posted| - 1];
      DecodeDurations(posted[..|posted| - 1]) + (if last.DecodeMaskResult? then [last.durationMs] else [])
  }

  /** The number of "loadingInProgress" messages posted. */
  function Loadings(posted: seq<OutMessage>): nat
    decreases |posted|
  {
    if |posted| == 0 then 0
    else Loadings(posted[..|posted| - 1]) + (if posted[|posted| - 1].LoadingInProgress? then 1 else 0)
  }

  // ---- What one message does, as a function of the state before it ----

  /** What the worker's handling of a message can observe and change: the
      `SAM2` fields, the model cache, the `stats` record and the messages
      posted so far. */
  datatype State = State(bufferDecoder: Model, sessionDecoder: Option<Choice>,
                         imageEncoded: Option<EncodedImage>, entries: map<string, Buffer>,
                         stats: StatsRecord, posted: seq<OutMessage>)

  /** The state after a handler, and whether it returned or threw. */
  datatype Handled = Handled(state: State, result: Result<()>)

  /** What the worker keeps true between messages: the device in the stats
      is "unknown" or the name of the provider of the session in use; there
      is one download time per "loadingInProgress" message, and the decode
      times are exactly the durations posted with the decoder's results. */
  predicate Consistent(s: State)
  {
    (s.stats.device == "unknown" ||
     (s.sessionDecoder.Some? && s.stats.device == s.sessionDecoder.value.device.Name())) &&
    |s.stats.downloadModelsTime| == Loadings(s.posted) &&
    s.stats.decodeTimes == DecodeDurations(s.posted)
  }

  /** worker.js:19-32: "downloadInProgress", the download (which never
      throws), one more download time, "loadingInProgress". */
  function Loaded(s: State, env: Env, decoderUrl: string): State
  {
    var o := Download(s.entries, decoderUrl, env.faults, env.fetch);
    s.(bufferDecoder := o.buffer, entries := o.entries,
       stats := s.stats.(downloadModelsTime := s.stats.downloadModelsTime + [env.elapsedMs]),
       posted := s.posted + [DownloadInProgress, LoadingInProgress])
  }

  /** worker.js:39-43, with the session c in use. */
  function Connected(s: State, c: Choice): State
  {
    var stats := s.stats.(device := c.device.Name(), lastError := None);
    s.(sessionDecoder := Some(c), stats := stats,
       posted := s.posted + [Pong(Report(c, c.device.Name())), StatsMessage(stats)])
  }

  /** The "ping" branch (worker.js:18-43). */
  function OnPing(s: State, env: Env, decoderUrl: string): Handled
  {
    var loaded := Loaded(s, env, decoderUrl);
    match Acquired(loaded.sessionDecoder, loaded.bufferDecoder, env.ort.create)
    case Err(m) => Handled(loaded, Err(m))
    case Ok(c) => Handled(Connected(loaded, c), Ok(()))
  }

  /** The "encodeImage" branch (worker.js:45-91); its catch turns every
      failure into one message. */
  function OnEncodeImage(s: State, data: Option<Data>, env: Env): Handled
  {
    var reply := if data.None? then Err("") else env.post(EmbeddingsUrl, data.value.imageData);
    if reply.Err? || !WellFormed(reply.value) then Handled(s, Err(FailedToEncode))
    else match Ingested(reply.value.value, env.codec)
      case Err(_) => Handled(s, Err(FailedToEncode))
      case Ok(image) => Handled(s.(imageEncoded := Some(image), posted := s.posted + [EncodeImageDone]), Ok(()))
  }

  /** The "setImageEmbeddings" branch (worker.js:93-110). */
  function OnSetImageEmbeddings(s: State, data: Option<Data>, env: Env): Handled
  {
    if data.None? then Handled(s, Err(CannotDestructure("embeddings", "data")))
    else if !WellFormed(data.value.embeddings) then Handled(s, Err(InvalidEmbeddings))
    else match Ingested(data.value.embeddings.value, env.codec)
      case Err(_) => Handled(s, Err(FailedToProcess))
      case Ok(image) =>
        Handled(s.(imageEncoded := Some(image), stats := s.stats.(lastError := None),
                   posted := s.posted + [SetImageEmbeddingsDone]), Ok(()))
  }

  /** The "decodeMask" branch (worker.js:112-142). Acquiring the session may
      memoise it even when decoding then fails. */
  function OnDecodeMask(s: State, data: Option<Data>, env: Env): Handled
  {
    if data.None? then Handled(s, Err(CannotDestructure("points", "data")))
    else if data.value.points.None? || |data.value.points.value| == 0 then Handled(s, Err(NoPoints))
    else
      var a := Acquired(s.sessionDecoder, s.bufferDecoder, env.ort.create);
      var session := if a.Ok? then Some(a.value) else s.sessionDecoder;
      match Decoding(s.sessionDecoder, s.bufferDecoder, s.imageEncoded, data.value.points.value,
                     MaskTensor(data.value), env.ort)
      case Err(_) => Handled(s.(sessionDecoder := session), Err(FailedToGenerate))
      case Ok(output) =>
        var stats := s.stats.(decodeTimes := s.stats.decodeTimes + [env.elapsedMs], lastError := None);
        Handled(s.(sessionDecoder := session, stats := stats,
                   posted := s.posted + [DecodeMaskResult(output, env.elapsedMs)]), Ok(()))
  }

  /** The `if` chain on the message type (worker.js:18-148). */
  function Routed(s: State, msg: InMessage, env: Env, decoderUrl: string): Handled
  {
    if msg.kind == "ping" then OnPing(s, env, decoderUrl)
    else if msg.kind == "encodeImage" then OnEncodeImage(s, msg.data, env)
    else if msg.kind == "setImageEmbeddings" then OnSetImageEmbeddings(s, msg.data, env)
    else if msg.kind == "decodeMask" then OnDecodeMask(s, msg.data, env)
    else if msg.kind == "stats" then Handled(s.(posted := s.posted + [StatsMessage(s.stats)]), Ok(()))
    else Handled(s, Err("Unknown message type: " + msg.kind))
  }

  /** `self.onmessage` (worker.js:14-158): the branch, then the outer catch,
      which records the error and posts it with the stats. */
  function Handle(s: State, msg: InMessage, env: Env, decoderUrl: string): Handled
  {
    var h := Routed(s, msg, env, decoderUrl);
    if h.result.Ok? then h
    else
      var stats := h.state.stats.(lastError := Some(h.result.message));
      Handled(h.state.(stats := stats, posted := h.state.posted + [ErrorMessage(h.result.message, stats)]), h.result)
  }

  // ---- What the handler promises ----

  /** The branches (everything but the outer catch) only append, never post
      an error themselves, and post something whenever they return. */
  lemma RoutedPostsNoError(s: State, msg: InMessage, env: Env, decoderUrl: string)
    ensures var t := Routed(s, msg, env, decoderUrl);
            s.posted <= t.state.posted &&
            (t.result.Ok? ==> |t.state.posted| > |s.posted|) &&
            forall i :: |s.posted| <= i < |t.state.posted| ==> !t.state.posted[i].ErrorMessage?
  {
    var t := Routed(s, msg, env, decoderUrl);
    if msg.kind == "ping" {
      var loaded := Loaded(s, env, decoderUrl);
      assert loaded.posted == s.posted + [DownloadInProgress, LoadingInProgress];
      if t.result.Ok? {
        var c := Acquired(loaded.sessionDecoder, loaded.bufferDecoder, env.ort.create).value;
        assert t.state.posted == s.posted + [DownloadInProgress, LoadingInProgress] +
                                 [Pong(Report(c, c.device.Name())), StatsMessage(t.state.stats)];
      }
    }
  }

  /** Every message posts at least one reply and rewrites none. A thrown
      error ends in exactly one `error` message, the last one, carrying the
      error's message and the stats whose last error it now is; a handler
      that returns posts no `error` message at all. */
  lemma ErrorsFunnelIntoOneMessage(s: State, msg: InMessage, env: Env, decoderUrl: string)
    ensures var h := Handle(s, msg, env, decoderUrl);
            var p := h.state.posted;
            s.posted <= p && |p| > |s.posted| &&
            (h.result.Err? <==> p[|p| - 1].ErrorMessage?) &&
            (h.result.Err? ==> p[|p| - 1] == ErrorMessage(h.result.message, h.state.stats) &&
                               h.state.stats.lastError == Some(h.result.message)) &&
            forall i :: |s.posted| <= i < |p| - 1 ==> !p[i].ErrorMessage?
  {
    RoutedPostsNoError(s, msg, env, decoderUrl);
  }

  /** "ping": on success, "downloadInProgress", "loadingInProgress", "pong"
      with the report and "stats", in that order, after exactly one more
      download time, with the device recorded and the last error cleared;
      when no provider can be used, the two progress messages and then the
      error. Either way the model is downloaded as the cache policy says. */
  lemma PingReplies(s: State, msg: InMessage, env: Env, decoderUrl: string)
    requires msg.kind == "ping"
    ensures var h := Handle(s, msg, env, decoderUrl);
            var o := Download(s.entries, decoderUrl, env.faults, env.fetch);
            var a := Acquired(s.sessionDecoder, o.buffer, env.ort.create);
            h.state.bufferDecoder == o.buffer && h.state.entries == o.entries &&
            h.state.stats.downloadModelsTime == s.stats.downloadModelsTime + [env.elapsedMs] &&
            h.state.stats.decodeTimes == s.stats.decodeTimes && h.state.imageEncoded == s.imageEncoded &&
            (h.result.Ok? <==> a.Ok?) &&
            (a.Ok? ==>
               h.state.sessionDecoder == Some(a.value) &&
               h.state.stats.device == a.value.device.Name() && h.state.stats.lastError == None &&
               h.state.posted == s.posted + [DownloadInProgress, LoadingInProgress,
                                             Pong(Report(a.value, a.value.device.Name())),
                                             StatsMessage(h.state.stats)]) &&
            (a.Err? ==>
               h.result == Err(NoProvider) && h.state.sessionDecoder == s.sessionDecoder &&
               h.state.stats.device == s.stats.device &&
               h.state.posted == s.posted + [DownloadInProgress, LoadingInProgress,
                                             ErrorMessage(NoProvider, h.state.stats)])
  {
    var loaded := Loaded(s, env, decoderUrl);
    var h := Handle(s, msg, env, decoderUrl);
    var a := Acquired(loaded.sessionDecoder, loaded.bufferDecoder, env.ort.create);
    if a.Ok? {
      var c := a.value;
      assert h.state.posted == s.posted + [DownloadInProgress, LoadingInProgress] +
                               [Pong(Report(c, c.device.Name())), StatsMessage(h.state.stats)];
    } else {
      assert h.state.posted == s.posted + [DownloadInProgress, LoadingInProgress] +
                               [ErrorMessage(NoProvider, h.state.stats)];
    }
  }

  /** "encodeImage": it succeeds exactly when the server replies with all
      three streams and they ingest; then only the embeddings change and
      "encodeImageDone" is posted, the stats untouched. Any failure leaves
      the embeddings alone and is reported as "Failed to encode image on
      server". */
  lemma EncodeImageReplies(s: State, msg: InMessage, env: Env, decoderUrl: string)
    requires msg.kind == "encodeImage"
    ensures var h := Handle(s, msg, env, decoderUrl);
            var reply := if msg.data.None? then Err("") else env.post(EmbeddingsUrl, msg.data.value.imageData);
            var ok := reply.Ok? && WellFormed(reply.value) && Ingested(reply.value.value, env.codec).Ok?;
            (h.result.Ok? <==> ok) &&
            (ok ==> h.state == s.(imageEncoded := Some(Ingested(reply.value.value, env.codec).value),
                                  posted := s.posted + [EncodeImageDone])) &&
            (!ok ==> h.result == Err(FailedToEncode) && h.state.imageEncoded == s.imageEncoded &&
                     h.state.stats == s.stats.(lastError := Some(FailedToEncode)) &&
                     h.state.posted == s.posted + [ErrorMessage(FailedToEncode, h.state.stats)])
  {
  }

  /** "setImageEmbeddings": a reply without all three streams is refused
      before anything is ingested; streams that do not ingest are reported
      as "Failed to process server embeddings"; success installs the
      embeddings, clears the last error and posts "setImageEmbeddingsDone". */
  lemma SetImageEmbeddingsReplies(s: State, msg: InMessage, env: Env, decoderUrl: string)
    requires msg.kind == "setImageEmbeddings"
    ensures var h := Handle(s, msg, env, decoderUrl);
            (msg.data.None? ==> h.result == Err(CannotDestructure("embeddings", "data"))) &&
            (msg.data.Some? && !WellFormed(msg.data.value.embeddings) ==> h.result == Err(InvalidEmbeddings)) &&
            (h.result.Err? ==> h.state.imageEncoded == s.imageEncoded &&
                               h.state.posted == s.posted + [ErrorMessage(h.result.message, h.state.stats)]) &&
            (msg.data.Some? && WellFormed(msg.data.value.embeddings) ==>
               var i := Ingested(msg.data.value.embeddings.value, env.codec);
               (h.result.Ok? <==> i.Ok?) &&
               (i.Err? ==> h.result == Err(FailedToProcess)) &&
               (i.Ok? ==> h.state == s.(imageEncoded := Some(i.value), stats := s.stats.(lastError := None),
                                        posted := s.posted + [SetImageEmbeddingsDone])))
  {
  }

  /** "decodeMask": without points it fails before decoding, leaving the
      session and the decode times alone. Otherwise it succeeds exactly when
      the decoder does, and then records exactly one decode time, clears the
      last error and posts one result; a failure is reported as "Failed to
      generate mask" and records no time. */
  lemma DecodeMaskReplies(s: State, msg: InMessage, env: Env, decoderUrl: string)
    requires msg.kind == "decodeMask"
    ensures var h := Handle(s, msg, env, decoderUrl);
            (msg.data.None? ==> h.result == Err(CannotDestructure("points", "data"))) &&
            (msg.data.Some? && (msg.data.value.points.None? || |msg.data.value.points.value| == 0) ==>
               h.result == Err(NoPoints) && h.state.sessionDecoder == s.sessionDecoder) &&
            (h.result.Err? ==> h.state.stats.decodeTimes == s.stats.decodeTimes &&
                               h.state.posted == s.posted + [ErrorMessage(h.result.message, h.state.stats)]) &&
            (msg.data.Some? && msg.data.value.points.Some? && |msg.data.value.points.value| > 0 ==>
               var d := Decoding(s.sessionDecoder, s.bufferDecoder, s.imageEncoded,
                                 msg.data.value.points.value, MaskTensor(msg.data.value), env.ort);
               var a := Acquired(s.sessionDecoder, s.bufferDecoder, env.ort.create);
               (h.result.Ok? <==> d.Ok?) &&
               h.state.sessionDecoder == (if a.Ok? then Some(a.value) else s.sessionDecoder) &&
               (d.Err? ==> h.result == Err(FailedToGenerate)) &&
               (d.Ok? ==> h.state.stats.decodeTimes == s.stats.decodeTimes + [env.elapsedMs] &&
                          h.state.stats.lastError == None &&
                          h.state.posted == s.posted + [DecodeMaskResult(d.value, env.elapsedMs)]))
  {
  }

  /** "stats" posts the record and changes nothing; any other unknown type
      fails with "Unknown message type: <type>". */
  lemma StatsAndUnknownReplies(s: State, msg: InMessage, env: Env, decoderUrl: string)
    ensures var h := Handle(s, msg, env, decoderUrl);
            (msg.kind == "stats" ==>
               h.result.Ok? && h.state == s.(posted := s.posted + [StatsMessage(s.stats)])) &&
            (msg.kind !in {"ping", "encodeImage", "setImageEmbeddings", "decodeMask", "stats"} ==>
               var m := "Unknown message type: " + msg.kind;
               h.result == Err(m) &&
               h.state == s.(stats := s.stats.(lastError := Some(m)),
                             posted := s.posted + [ErrorMessage(m, s.stats.(lastError := Some(m)))]))
  {
  }

  /** Each branch changes only its own part of the state: only "ping"
      touches the model and the download times, only "ping" and
      "decodeMask" the session and the device record, only the two
      embedding branches the embeddings, and only "decodeMask" the decode
      times. */
  lemma BranchesKeepToTheirState(s: State, msg: InMessage, env: Env, decoderUrl: string)
    ensures var t := Handle(s, msg, env, decoderUrl).state;
            (msg.kind != "ping" ==>
               t.bufferDecoder == s.bufferDecoder && t.entries == s.entries &&
               t.stats.downloadModelsTime == s.stats.downloadModelsTime && t.stats.device == s.stats.device) &&
            (msg.kind != "ping" && msg.kind != "decodeMask" ==> t.sessionDecoder == s.sessionDecoder) &&
            (msg.kind != "encodeImage" && msg.kind != "setImageEmbeddings" ==> t.imageEncoded == s.imageEncoded) &&
            (msg.kind != "decodeMask" ==> t.stats.decodeTimes == s.stats.decodeTimes)
  {
  }

  /** Counting the messages a branch adds. */
  lemma CountsOfOne(p: seq<OutMessage>, m: OutMessage)
    ensures Loadings(p + [m]) == Loadings(p) + (if m.LoadingInProgress? then 1 else 0)
    ensures DecodeDurations(p + [m]) == DecodeDurations(p) + (if m.DecodeMaskResult? then [m.durationMs] else [])
  {
    assert (p + [m])[..|p|] == p;
  }

  lemma CountsOfPair(p: seq<OutMessage>, m1: OutMessage, m2: OutMessage)
    requires !m1.DecodeMaskResult? && !m2.DecodeMaskResult?
    ensures Loadings(p + [m1, m2]) == Loadings(p) + (if m1.LoadingInProgress? then 1 else 0) +
                                      (if m2.LoadingInProgress? then 1 else 0)
    ensures DecodeDurations(p + [m1, m2]) == DecodeDurations(p)
  {
    CountsOfOne(p, m1);
    CountsOfOne(p + [m1], m2);
    assert p + [m1, m2] == (p + [m1]) + [m2];
  }

  lemma PingKeepsConsistent(s: State, env: Env, decoderUrl: string)
    requires Consistent(s)
    ensures Consistent(OnPing(s, env, decoderUrl).state)
  {
    var loaded := Loaded(s, env, decoderUrl);
    CountsOfPair(s.posted, DownloadInProgress, LoadingInProgress);
    var a := Acquired(loaded.sessionDecoder, loaded.bufferDecoder, env.ort.create);
    if a.Ok? {
      var c := a.value;
      CountsOfPair(loaded.posted, Pong(Report(c, c.device.Name())), StatsMessage(Connected(loaded, c).stats));
    }
  }

  lemma EncodeImageKeepsConsistent(s: State, data: Option<Data>, env: Env)
    requires Consistent(s)
    ensures Consistent(OnEncodeImage(s, data, env).state)
  {
    CountsOfOne(s.posted, EncodeImageDone);
  }

  lemma SetImageEmbeddingsKeepsConsistent(s: State, data: Option<Data>, env: Env)
    requires Consistent(s)
    ensures Consistent(OnSetImageEmbeddings(s, data, env).state)
  {
    CountsOfOne(s.posted, SetImageEmbeddingsDone);
  }

  lemma DecodeMaskKeepsConsistent(s: State, data: Option<Data>, env: Env)
    requires Consistent(s)
    ensures Consistent(OnDecodeMask(s, data, env).state)
  {
    var t := OnDecodeMask(s, data, env);
    if t.result.Ok? {
      CountsOfOne(s.posted, t.state.posted[|t.state.posted| - 1]);
    }
  }

  /** Handling any message keeps the worker consistent. */
  lemma HandleKeepsConsistent(s: State, msg: InMessage, env: Env, decoderUrl: string)
    requires Consistent(s)
    ensures Consistent(Handle(s, msg, env, decoderUrl).state)
  {
    var t := Routed(s, msg, env, decoderUrl);
    if msg.kind == "ping" {
      PingKeepsConsistent(s, env, decoderUrl);
    } else if msg.kind == "encodeImage" {
      EncodeImageKeepsConsistent(s, msg.data, env);
    } else if msg.kind == "setImageEmbeddings" {
      SetImageEmbeddingsKeepsConsistent(s, msg.data, env);
    } else if msg.kind == "decodeMask" {
      DecodeMaskKeepsConsistent(s, msg.data, env);
    } else if msg.kind == "stats" {
      CountsOfOne(s.posted, StatsMessage(s.stats));
    }
    if t.result.Err? {
      CountsOfOne(t.state.posted, ErrorMessage(t.result.message, t.state.stats.(lastError := Some(t.result.message))));
    }
  }

  /** The worker's `stats` object. */
  class Stats {
    var device: string
    var downloadModelsTime: seq<real>
    var decodeTimes: seq<real>
    var lastError: Option<string>

    /** The initial record (worker.js:7-12). */
    constructor()
      ensures device == "unknown" && downloadModelsTime == [] && decodeTimes == [] && lastError == None
    {
      device := "unknown";
      downloadModelsTime := [];
      decodeTimes := [];
      lastError := None;
    }

    function Snapshot(): StatsRecord
      reads this
    {
      StatsRecord(device, downloadModelsTime, decodeTimes, lastError)
    }
  }

  class Worker {
    const sam: Sam2
    const stats: Stats
    /** Every message posted so far, oldest first. */
    var posted: seq<OutMessage>

    /** The state the handlers are specified over. */
    function Current(): State
      reads this, stats, sam, sam.db
    {
      State(sam.bufferDecoder, sam.sessionDecoder, sam.imageEncoded, sam.db.entries, stats.Snapshot(), posted)
    }

    ghost predicate Valid()
      reads this, stats, sam, sam.db
    {
      Consistent(Current())
    }

    /** The worker as loaded: a fresh `SAM2`, the initial stats, nothing posted. */
    constructor(db: ModelStore)
      ensures Valid() && fresh(sam) && fresh(stats) && sam.db == db && sam.decoderUrl == DecoderUrl
      ensures Current() == State(None, None, None, db.entries, StatsRecord("unknown", [], [], None), [])
    {
      sam := new Sam2(db);
      stats := new Stats();
      posted := [];
    }

    /** `self.postMessage(m)`. */
    method Post(m: OutMessage)
      modifies this`posted
      ensures posted == old(posted) + [m]
      ensures DecodeDurations(posted) ==
                DecodeDurations(old(posted)) + (if m.DecodeMaskResult? then [m.durationMs] else [])
      ensures Loadings(posted) == Loadings(old(posted)) + (if m.LoadingInProgress? then 1 else 0)
    {
      CountsOfOne(posted, m);
      posted := posted + [m];
    }

    /** The first half of the "ping" branch (worker.js:19-32). */
    method FetchModel(env: Env)
      modifies this`posted, stats`downloadModelsTime, sam`bufferDecoder, sam.db
      ensures Current() == Loaded(old(Current()), env, sam.decoderUrl)
    {
      Post(DownloadInProgress);
      sam.DownloadModels(env.faults, env.fetch);
      stats.downloadModelsTime := stats.downloadModelsTime + [env.elapsedMs];
      Post(LoadingInProgress);
      assert posted == old(posted) + [DownloadInProgress, LoadingInProgress];
    }

    /** The end of the "ping" branch (worker.js:39-43), for the session in use. */
    method Announce(report: Report)
      requires sam.sessionDecoder == Some(report.success) && report.device == report.success.device.Name()
      modifies this`posted, stats`device, stats`lastError
      ensures Current() == Connected(old(Current()), report.success)
    {
      stats.device := report.device;
      stats.lastError := None;
      var snapshot := stats.Snapshot();
      Post(Pong(report));
      Post(StatsMessage(snapshot));
      assert posted == old(posted) + [Pong(report), StatsMessage(snapshot)];
    }

    /** The "ping" branch (worker.js:18-43). */
    method Ping(env: Env) returns (r: Result<()>)
      modifies this`posted, stats, sam`bufferDecoder, sam`sessionDecoder, sam.db
      ensures Handled(Current(), r) == OnPing(old(Current()), env, sam.decoderUrl)
    {
      FetchModel(env);
      var report := sam.CreateSessions(env.ort.create);
      if report.Err? {
        return Err(report.message);
      }
      Announce(report.value);
      return Ok(());
    }

    /** The "encodeImage" branch (worker.js:45-91). */
    method EncodeImage(data: Option<Data>, env: Env) returns (r: Result<()>)
      modifies this`posted, sam`imageEncoded
      ensures Handled(Current(), r) == OnEncodeImage(old(Current()), data, env)
    {
      if data.None? {
        return Err(FailedToEncode);
      }
      var reply := env.post(EmbeddingsUrl, data.value.imageData);
      if reply.Err? || !WellFormed(reply.value) {
        return Err(FailedToEncode);
      }
      var ingested := sam.SetImageEmbeddings(reply.value.value, env.codec);
      if ingested.Err? {
        return Err(FailedToEncode);
      }
      Post(EncodeImageDone);
      return Ok(());
    }

    /** The "setImageEmbeddings" branch (worker.js:93-110). */
    method SetImageEmbeddings(data: Option<Data>, env: Env) returns (r: Result<()>)
      modifies this`posted, stats`lastError, sam`imageEncoded
      ensures Handled(Current(), r) == OnSetImageEmbeddings(old(Current()), data, env)
    {
      if data.None? {
        return Err(CannotDestructure("embeddings", "data"));
      }
      var embeddings := data.value.embeddings;
      if !WellFormed(embeddings) {
        return Err(InvalidEmbeddings);
      }
      var ingested := sam.SetImageEmbeddings(embeddings.value, env.codec);
      if ingested.Err? {
        return Err(FailedToProcess);
      }
      stats.lastError := None;
      Post(SetImageEmbeddingsDone);
      return Ok(());
    }

    /** The "decodeMask" branch (worker.js:112-142). */
    method DecodeMask(data: Option<Data>, env: Env) returns (r: Result<()>)
      modifies this`posted, stats`decodeTimes, stats`lastError, sam`sessionDecoder
      ensures Handled(Current(), r) == OnDecodeMask(old(Current()), data, env)
    {
      if data.None? {
        return Err(CannotDestructure("points", "data"));
      }
      var points := data.value.points;
      if points.None? || |points.value| == 0 {
        return Err(NoPoints);
      }
      var output := sam.Decode(points.value, MaskTensor(data.value), env.ort);
      if output.Err? {
        return Err(FailedToGenerate);
      }
      stats.decodeTimes := stats.decodeTimes + [env.elapsedMs];
      stats.lastError := None;
      Post(DecodeMaskResult(output.value, env.elapsedMs));
      return Ok(());
    }

    /** The `if` chain of `self.onmessage` (worker.js:18-148). */
    method Dispatch(msg: InMessage, env: Env) returns (r: Result<()>)
      modifies this`posted, stats, sam`bufferDecoder, sam`sessionDecoder, sam`imageEncoded, sam.db
      ensures Handled(Current(), r) == Routed(old(Current()), msg, env, sam.decoderUrl)
    {
      if msg.kind == "ping" {
        r := Ping(env);
      } else if msg.kind == "encodeImage" {
        r := EncodeImage(msg.data, env);
      } else if msg.kind == "setImageEmbeddings" {
        r := SetImageEmbeddings(msg.data, env);
      } else if msg.kind == "decodeMask" {
        r := DecodeMask(msg.data, env);
      } else if msg.kind == "stats" {
        Post(StatsMessage(stats.Snapshot()));
        r := Ok(());
      } else {
        r := Err("Unknown message type: " + msg.kind);
      }
    }

    /** `self.onmessage` (worker.js:14-158): the branch, then the outer catch;
        `r` is whether the branch returned or threw. */
    method OnMessage(msg: InMessage, env: Env) returns (ghost r: Result<()>)
      requires Valid()
      modifies this`posted, stats, sam`bufferDecoder, sam`sessionDecoder, sam`imageEncoded, sam.db
      ensures Valid()
      ensures Handled(Current(), r) == Handle(old(Current()), msg, env, sam.decoderUrl)
      ensures old(posted) <= posted && |posted| > |old(posted)|
      ensures r.Err? <==> posted[|posted| - 1].ErrorMessage?
      ensures r.Err? ==> posted[|posted| - 1] == ErrorMessage(r.message, stats.Snapshot()) &&
                         stats.lastError == Some(r.message)
      ensures forall i :: |old(posted)| <= i < |posted| - 1 ==> !posted[i].ErrorMessage?
      ensures msg.kind != "ping" ==>
                sam.bufferDecoder == old(sam.bufferDecoder) && sam.db.entries == old(sam.db.entries) &&
                stats.downloadModelsTime == old(stats.downloadModelsTime) && stats.device == old(stats.device)
      ensures msg.kind != "ping" && msg.kind != "decodeMask" ==> sam.sessionDecoder == old(sam.sessionDecoder)
      ensures msg.kind != "encodeImage" && msg.kind != "setImageEmbeddings" ==> sam.imageEncoded == old(sam.imageEncoded)
      ensures msg.kind != "decodeMask" ==> stats.decodeTimes == old(stats.decodeTimes)
    {
      ghost var before := Current();
      var result := Dispatch(msg, env);
      if result.Err? {
        stats.lastError := Some(result.message);
        Post(ErrorMessage(result.message, stats.Snapshot()));
      }
      r := result;
      HandleKeepsConsistent(before, msg, env, sam.decoderUrl);
      ErrorsFunnelIntoOneMessage(before, msg, env, sam.decoderUrl);
      BranchesKeepToTheirState(before, msg, env, sam.decoderUrl);
    }
  }
}
