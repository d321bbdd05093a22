# SAM2 browser decode pipeline, modelled in Dafny

This project models the browser side of a Segment-Anything-2 demo.
- `app/SAM2.js` holds the `SAM2` class. It downloads the mask decoder's ONNX model through a persistent cache and opens an inference session on the best execution provider available. It ingests the image embeddings that a remote encoder computed (base64, zlib, then IEEE 754 half precision) and builds the decoder's input tensors from the user's clicks.
- `app/worker.js` is the web worker around it. It routes the page's messages (`ping`, `encodeImage`, `setImageEmbeddings`, `decodeMask`, `stats`), keeps a `stats` record and posts replies.

Modules, one per part of the pipeline:

- `Wrappers` (wrappers.dfy): `Option` and `Result`. A JavaScript exception is an `Err` carrying the error's `message`.
- `Half` (half.dfy): the `Float16Array.fromBuffer` polyfill.
  - It is imperative: the loop fills a fresh `array`.
  - The bit operations `&` and `>>` are modelled as arithmetic on naturals.
  - It is proved equal to the binary16 datum of section 3.4 of IEEE 754-2008, with the parameters of section 3.6.
  - Powers of two are applied exactly by `Scale(e, x)`, which is x·2^e.
- `Tensors` (tensors.dfy): the descriptor `new ort.Tensor(type, data, dims)` records.
- `Embeddings` (embeddings.dfy): decoding one stream (`decodeEmbedding`, with its byte loop as a method over an `array`). Also ingesting the three streams, all or nothing.
- `Sessions` (sessions.dfy): `getORTSession`'s fallback chain WebGL → WASM → CPU.
- `ModelFetch` (modelfetch.dfy): `downloadModel`'s cache policy. The cache key is the URL's last `/`-segment, computed by a model of `String.prototype.split`. The IndexedDB store is a class whose reads and writes may fail.
- `Prompt` (prompt.dfy): the `inputs` object `decode` builds.
- `SamModel` (sam2.dfy): the `SAM2` class.
  - Its fields `bufferDecoder`, `sessionDecoder` and `image_encoded` are updated in place by its methods.
  - Each method is proved against a specification function: `Download`, `Acquired`, `Ingested` or `Decoding`.
- `Worker` (worker.dfy): the worker, as a class holding the `SAM2` instance, the `stats` object and the sequence of posted messages.
  - `State` collects what a message can observe and change. `OnPing`, `OnEncodeImage`, `OnSetImageEmbeddings` and `OnDecodeMask` say what each branch does to it, `Routed` is the `if` chain on the type, and `Handle` adds the outer `catch`.
  - Each branch is a method proved to do exactly what its function says; `OnMessage` is proved to do what `Handle` says. The lemmas about `Handle` state what every message, and each type, posts and changes.
  - `Valid()` (the predicate `Consistent` of the current state) is the invariant every message preserves.
    - The device is "unknown" or the current session's provider.
    - There is one download time per `loadingInProgress` message.
    - The decode times are exactly the durations posted with the decoder's results.

Foreign code appears as function-typed parameters with nothing assumed beyond their type. This covers:
- `ort.InferenceSession.create`/`session.run`, `fetch`, IndexedDB failure, `atob`, `pako.inflate`;
- the encoder server's JSON reply, and `performance.now` differences.

Points where the model follows the code's actual behaviour:
- A buffer with an odd number of bytes is not rejected. `new Float32Array(byteLength / 2)` truncates the length, so the trailing byte is ignored (`Half.FromBuffer`).
- `createSessions` always reports a truthy `success`: a failed acquisition throws "Failed to initialize decoder session with any provider". So the `!report.success` branch of worker.js:35-37 cannot run, and a failed `ping` reports that message instead.
- `downloadModels` never throws, since `downloadModel` catches everything. So worker.js:24-27 cannot run either.
- Only `decodeMask` in worker.js checks that there is at least one point; `SAM2.decode` itself accepts an empty list.

## Model

| member | source | states |
|---|---|---|
| Half.FromBuffer | app/SAM2.js:16-34 | the result has one element per complete byte pair (an odd trailing byte is dropped), and element i is the decoding of the little-endian word of bytes 2i and 2i+1 |
| Half.PairDecoded | app/SAM2.js:19-20 | pair i of an n-byte buffer, for i < n/2, lies inside the buffer, and element i of the decoded sequence depends only on `getUint16(2i, true)` |
| Half.FieldsOfWord | app/SAM2.js:21-23 | `(w & 0x8000) >> 15`, `(w & 0x7C00) >> 10` and `w & 0x03FF` are exactly the sign bit, the 5-bit biased exponent and the 10-bit trailing significand of w |
| Half.HalfValueIsDatum | app/SAM2.js:25-31 | the polyfill's three cases give the IEEE 754 datum of the fields: exponent 0 gives ±2^-14·f/1024, exponents 1 to 30 give ±2^(e-15)·(1+f/1024), and exponent 31 gives NaN when f ≠ 0 and ±Infinity by sign otherwise |
| Half.DecodeMatchesBinary16 | app/SAM2.js:20-31 | decoding any 16-bit word yields the value IEEE 754 binary16 assigns to that encoding |
| Half.MagnitudeInUnits | app/SAM2.js:26-30 | every finite decoded value is a whole number of units of 2^-24 (the least subnormal), determined by exponent and fraction |
| Half.DecodeInjective | app/SAM2.js:20-31 | two words that decode to the same value which is not NaN are the same word; -0 and +0 stay distinct, so only NaN payloads are lost |
| Tensors.FromReal | app/SAM2.js:277-285 | a number stored in a float32 tensor is a finite value with that sign and magnitude |
| Embeddings.ToUint8 | app/SAM2.js:223 | storing a character code below 256 in a `Uint8Array` keeps it unchanged |
| Embeddings.BinaryToBytes | app/SAM2.js:221-224 | the filled array has one byte per character of the binary string, equal to its code when it is below 256 |
| Embeddings.DecodeEmbedding | app/SAM2.js:216-233 | decoding one stream fails with the error of `atob` or of `inflate`, else yields a float32 tensor of the decoded words with the declared dims |
| Embeddings.DecodedIsBinary16 | app/SAM2.js:218-232 | a stream decodes exactly when both foreign decoders succeed, and then element i is the binary16 value of word i of the inflated bytes, one element per complete byte pair |
| Embeddings.DecodedFaithful | app/SAM2.js:230 | equal decoded values with no NaN imply equal words, so nothing but NaN payloads is lost in the conversion |
| Embeddings.IngestedAllOrNothing | app/SAM2.js:235-239 | ingestion succeeds exactly when all three streams decode; it then holds each under its own name, and otherwise reports the first failure in property order |
| Sessions.Provider.Name | app/SAM2.js:148-152 | a provider's name is one of "webgl", "wasm", "cpu" |
| Sessions.GetOrtSession | app/SAM2.js:146-201 | the result is the session of the first provider in the order webgl, wasm, cpu that the engine accepts, or null; the providers tried are exactly those up to the first success |
| Sessions.TriedIsPrefixUpToSuccess | app/SAM2.js:154-195 | the tried providers are a prefix of the ranking; all but the last were refused; a session is found exactly when the last attempt succeeded, and it is that attempt's session and provider; on failure every provider was tried |
| Sessions.NoneIffAllRefused | app/SAM2.js:190-200 | no session is returned if and only if every provider is refused |
| Sessions.FirstAvailableIsBestRanked | app/SAM2.js:155-195 | whenever some provider is accepted, the chosen one was accepted, is ranked no lower than it, and every provider ranked above the chosen one was refused |
| ModelFetch.SplitJoin | app/SAM2.js:52 | `split('/')` loses nothing: joining the pieces gives the URL back, and no piece contains '/' |
| ModelFetch.FilenameIsLastSegment | app/SAM2.js:52 | the cache key is a suffix of the URL containing no '/', preceded by '/' unless it is the whole URL |
| ModelFetch.DecoderFilename | app/SAM2.js:37-38 | the decoder model is cached under "sam2.1_hiera_tiny_decoder.onnx" |
| ModelFetch.ModelStore.Get | app/SAM2.js:90-112 | a read rejects exactly when the store fails, and otherwise yields the stored buffer or undefined for an absent key |
| ModelFetch.ModelStore.Put | app/SAM2.js:114-136 | a write rejects exactly when the store fails; otherwise the key now maps to the buffer and nothing else changes |
| ModelFetch.Download | app/SAM2.js:51-88 | the URL is fetched exactly when the cache read fails or misses; a hit returns the cached bytes and leaves the store alone; a fetch failure gives null; a fetched buffer is returned and is stored unless the write fails |
| ModelFetch.SecondDownloadHitsCache | app/SAM2.js:55-59 | after a stored download, downloading the same URL again is served from the cache with the same bytes, whatever the network does |
| ModelFetch.SameFilenameSharesEntry | app/SAM2.js:52-59 | two URLs with the same last segment share one cache entry: the second is answered from the cache without fetching |
| ModelFetch.StoreFaultsAreHarmless | app/SAM2.js:79-87 | a failing store never makes a successful fetch yield null |
| Prompt.FlatCoords | app/SAM2.js:245-247 | the coordinates of point i are elements 2i and 2i+1 of the flattened list, which has two per point |
| Prompt.BuildInputs | app/SAM2.js:259-288 | the inputs are as follows: the three embedding tensors are passed through verbatim; `point_coords` has dims [1,P,2] with point i at 2i and 2i+1; `point_labels` has dims [1,P] with label i at i; a supplied mask is `mask_input` with `has_mask_input` = [1], and otherwise the 256×256 zero placeholder with [0], dims [1] |
| Prompt.BuiltTensorsMatchTheirShape | app/SAM2.js:259-285 | every tensor `decode` builds itself holds exactly as many elements as its dims describe |
| SamModel.Acquired | app/SAM2.js:203-212 | a memoised session is handed out as is; otherwise the first accepted provider's session, and the one error "Failed to initialize decoder session with any provider" when none is |
| SamModel.DecodingNeedsEmbeddings | app/SAM2.js:273-274 | without ingested embeddings `decode` fails, with the session error or the read of `image_embed` on null, before the decoder is run |
| SamModel.Sam2.constructor | app/SAM2.js:40-45 | a new instance holds no model, no session and no embeddings |
| SamModel.Sam2.DownloadModel | app/SAM2.js:51-88 | the returned buffer and the new store contents are those of the cache policy `Download`, and the ghost `fetched` says whether `fetch` was called, exactly when `Download` says the URL is fetched |
| SamModel.Sam2.DownloadModels | app/SAM2.js:47-49 | `bufferDecoder` becomes the decoder model's bytes, or null, as `Download` of `DECODER_URL` gives |
| SamModel.Sam2.GetDecoderSession | app/SAM2.js:203-212 | the result is `Acquired` of the session held before the call; a success is memoised and a failure leaves `sessionDecoder` as it was; the ghost `tried` is empty when a session was held and otherwise lists the providers `getORTSession` asked for |
| SamModel.Sam2.CreateSessions | app/SAM2.js:138-144 | the report carries the acquired pair and its provider's name, and a failed acquisition throws its error |
| SamModel.Sam2.SetImageEmbeddings | app/SAM2.js:214-240 | `image_encoded` becomes the three decoded streams when all decode and is untouched otherwise; the error is that of the first failing stream |
| SamModel.Sam2.DecodeStream | app/SAM2.js:236-238 | a missing stream fails with the read of `data` on undefined, and a present one decodes as `decodeEmbedding` |
| SamModel.Sam2.Decode | app/SAM2.js:242-291 | the result is `Decoding`: first the session error, then the read of `image_embed` on null, otherwise `session.run` on `BuildInputs`; the session is memoised as in `getDecoderSession` |
| Worker.MaskTensor | app/worker.js:123-124 | a mask tensor exists exactly when `maskArray` is sent; it is a float32 tensor with `maskShape` as dims whose i-th element is the i-th entry of `maskArray` |
| Worker.Stats.constructor | app/worker.js:7-12 | the stats record starts with device "unknown", no times and no error |
| Worker.Worker.constructor | app/worker.js:4-12 | the worker starts with a fresh `SAM2` holding no model, session or embeddings, the initial stats and nothing posted, satisfying `Valid()` |
| Worker.Worker.Post | app/worker.js:19 | a posted message is appended to the outbound sequence, and the invariant's counts grow accordingly |
| Worker.Worker.FetchModel | app/worker.js:19-32 | the new state is `Loaded` of the old: the worker posts `downloadInProgress`, downloads the model as `Download` gives, appends one download duration and posts `loadingInProgress`; nothing else changes |
| Worker.Worker.Announce | app/worker.js:39-43 | the new state is `Connected` of the old: `stats.device` becomes the reported device and `lastError` is cleared; `pong` carrying the report is posted, then a snapshot of the stats; nothing else changes |
| Worker.Worker.Ping | app/worker.js:18-43 | the new state and the outcome are exactly those of `OnPing`: the download, then the acquisition of the session, whose error is thrown (what this posts is stated by `Worker.PingReplies`) |
| Worker.Worker.EncodeImage | app/worker.js:45-91 | the new state and the outcome are exactly those of `OnEncodeImage`: the server's reply, its three streams and their ingestion, every failure caught as one error (stated by `Worker.EncodeImageReplies`) |
| Worker.Worker.SetImageEmbeddings | app/worker.js:93-110 | the new state and the outcome are exactly those of `OnSetImageEmbeddings`: destructuring, the check for three streams, then ingestion (stated by `Worker.SetImageEmbeddingsReplies`) |
| Worker.Worker.DecodeMask | app/worker.js:112-142 | the new state and the outcome are exactly those of `OnDecodeMask`: the points check, then `SAM2.decode`, with the session memoised even when decoding fails (stated by `Worker.DecodeMaskReplies`) |
| Worker.Worker.Dispatch | app/worker.js:16-148 | the new state and the outcome are exactly those of `Routed`: each type runs its own branch, `stats` posts the record and any other type throws |
| Worker.Worker.OnMessage | app/worker.js:14-158 | the new state and the outcome are exactly those of `Handle`. Every message posts at least one reply and rewrites none. The outcome is an error exactly when the last message posted is `error`, which carries the error's message and the stats whose `lastError` it now is, and no earlier new message is an error. Each type changes only its own part of the state, as in `Worker.BranchesKeepToTheirState`. `Valid()` is preserved |
| Worker.RoutedPostsNoError | app/worker.js:16-148 | the branches only append messages, post at least one when they return, and never post `error` themselves |
| Worker.ErrorsFunnelIntoOneMessage | app/worker.js:14-158 | under `Handle` at least one message is posted and none rewritten; a thrown error ends in exactly one `error` message, the last one, with the error's message and the stats recording it as `lastError`; a handler that returns posts no `error` |
| Worker.PingReplies | app/worker.js:18-43 | `ping` downloads the model as `Download` says and adds one download time. With a session it posts `downloadInProgress`, `loadingInProgress`, `pong` with the report and `stats`, in that order, setting the device and clearing `lastError`. Without one it posts the two progress messages, then the error "Failed to initialize decoder session with any provider", and the session and device stay |
| Worker.EncodeImageReplies | app/worker.js:45-91 | `encodeImage` succeeds exactly when the reply arrives with three streams that ingest; then only the embeddings change and `encodeImageDone` is posted, the stats untouched; every failure is "Failed to encode image on server" and leaves the embeddings alone |
| Worker.SetImageEmbeddingsReplies | app/worker.js:93-110 | absent data fails destructuring; a reply without the three streams fails with "Invalid embeddings format received from server" before ingestion; an ingestion error becomes "Failed to process server embeddings"; success installs the embeddings, clears `lastError` and posts `setImageEmbeddingsDone`; a failure leaves the embeddings alone |
| Worker.DecodeMaskReplies | app/worker.js:112-142 | absent data fails destructuring; missing or empty points fail with "No points provided for mask generation" and leave the session alone; otherwise the outcome follows `Decoding`, and the session is memoised whenever it is acquired. Success adds exactly one decode time, clears `lastError` and posts one `decodeMaskResult`. A failure is "Failed to generate mask" and adds no time |
| Worker.StatsAndUnknownReplies | app/worker.js:144-157 | `stats` posts the record and changes nothing else; any other unknown type throws "Unknown message type: <type>", which is recorded as `lastError` and posted |
| Worker.BranchesKeepToTheirState | app/worker.js:16-148 | only `ping` touches the model, the cache, the download times and the device; only `ping` and `decodeMask` touch the session; only the two embedding branches touch the embeddings; only `decodeMask` touches the decode times |
| Worker.HandleKeepsConsistent | app/worker.js:7-158 | handling any message keeps the stats consistent with the session in use and with the messages posted so far |
| Worker.PingKeepsConsistent | app/worker.js:18-43 | the `ping` branch keeps the invariant: one more download time for the one more `loadingInProgress`, and a device that names the session's provider |
| Worker.EncodeImageKeepsConsistent | app/worker.js:45-91 | the `encodeImage` branch keeps the invariant |
| Worker.SetImageEmbeddingsKeepsConsistent | app/worker.js:93-110 | the `setImageEmbeddings` branch keeps the invariant |
| Worker.DecodeMaskKeepsConsistent | app/worker.js:112-142 | the `decodeMask` branch keeps the invariant: one decode time for each posted `decodeMaskResult`, with its duration |

## Left out

- The IndexedDB plumbing (opening the database, the upgrade handler, transactions) is replaced by a key/value store. Each read or write either fails or acts on the map; what makes it fail is a parameter.
- `fetch` of the model and of the embeddings, `response.arrayBuffer()` and `response.json()` are parameters returning bytes, a decoded JSON map or an error; HTTP status codes are not examined, exactly as in the code. JSON shapes other than `{ data, dims }` per stream are not modelled.
- `atob` and `pako.inflate` (base64 of RFC 4648 section 4, zlib of RFC 1950/1951) are parameters. The model also takes `decompressed.buffer` to be exactly the inflated bytes.
- `ort.InferenceSession.create`, `session.run` and the `ort.Tensor` constructor are foreign. A session and a run output are uninterpreted, and the tensor constructor's own length-versus-dims validation is not modelled.
- `ort.env` settings (app/SAM2.js:6-7), the provider options passed to `create`, and all `console` logging have no effect on the model.
- `performance.now()`: each measured duration is an arbitrary number handed to the message handler.
- Interleaving of concurrently running `onmessage` invocations across `await` points: each message is handled to completion before the next.
- `postMessage` structured-clone failures; a message whose `e.data` is null or not an object; a `type` that is not a string.
- app/page.jsx (the React UI) is not part of this model.
- Tensors.FromReal: the rounding of a JavaScript number to binary32 is not modelled. Coordinates, labels and mask values keep their exact value, so the contracts about them are about values before rounding.
- Prompt.BuiltTensorsMatchTheirShape: no claim is made for a previous mask supplied by the page, whose size is whatever the page sent.
- The wording of engine `TypeError` messages (reading a property of null or undefined, destructuring undefined) follows V8's; other engines word them differently.
