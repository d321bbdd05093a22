/** Creation of the decoder's inference session (`getORTSession` in
    app/SAM2.js): execution providers are tried in a fixed rank order and
    the first one the engine accepts wins. */
module Sessions {
  import opened Wrappers
  import opened Half

  /** An execution provider of the inference engine. */
  datatype Provider = WebGL | Wasm | Cpu {
    /** The name the engine (and the UI) knows the provider by. */
    function Name(): (name: string)
      ensures name in {"webgl", "wasm", "cpu"}
    {
      match this
      case WebGL => "webgl"
      case Wasm => "wasm"
      case Cpu => "cpu"
    }
  }

  /** The providers in the order they are tried (app/SAM2.js:148-152). */
  const Ranked: seq<Provider> := [WebGL, Wasm, Cpu]

  /** A session the engine created; its internals are foreign. */
  datatype Session = Session(id: nat)

  /** The model bytes handed to the engine; `null` when the download failed. */
  type Model = Option<seq<byte>>

  /** `ort.InferenceSession.create(model, { executionProviders: [p], ... })`:
      a session, or the error the engine threw. */
  type Create = (Model, Provider) -> Result<Session>

  /** The pair `[session, device]`. */
  datatype Choice = Choice(session: Session, device: Provider)

  /** The session of the first provider the engine accepts, if any. */
  function FirstAvailable(model: Model, create: Create, providers: seq<Provider>): Option<Choice>
  {
    if |providers| == 0 then None
    else match create(model, providers[0])
      case Ok(s) => Some(Choice(s, providers[0]))
      case Err(_) => FirstAvailable(model, create, providers[1..])
  }

  /** The providers the engine is asked for, in order: up to and including
      the first that is accepted. */
  function Tried(model: Model, create: Create, providers: seq<Provider>): seq<Provider>
  {
    if |providers| == 0 then []
    else if create(model, providers[0]).Ok? then [providers[0]]
    else [providers[0]] + Tried(model, create, providers[1..])
  }

  /** `getORTSession` (app/SAM2.js:146-201): WebGL, then WASM, then CPU;
      an error from the last attempt is caught and turned into `null`.
      `tried` lists the providers the engine was asked for. */
  method GetOrtSession(model: Model, create: Create) returns (result: Option<Choice>, tried: seq<Provider>)
    ensures result == FirstAvailable(model, create, Ranked)
    ensures tried == Tried(model, create, Ranked)
  {
    assert Ranked[1..] == [Wasm, Cpu] && [Wasm, Cpu][1..] == [Cpu] && [Cpu][1..] == [];
    tried := [WebGL];
    var webgl := create(model, WebGL);
    if webgl.Ok? {
      return Some(Choice(webgl.value, WebGL)), tried;
    }
    tried := tried + [Wasm];
    var wasm := create(model, Wasm);
    if wasm.Ok? {
      return Some(Choice(wasm.value, Wasm)), tried;
    }
    assert FirstAvailable(model, create, Ranked) == FirstAvailable(model, create, [Cpu]);
    assert Tried(model, create, Ranked) == [WebGL, Wasm] + Tried(model, create, [Cpu]);
    tried := tried + [Cpu];
    var cpu := create(model, Cpu);
    if cpu.Err? {
      assert FirstAvailable(model, create, [Cpu]) == FirstAvailable(model, create, []);
      return None, tried;
    }
    return Some(Choice(cpu.value, Cpu)), tried;
  }

  /** The attempts stop at the first success: every provider tried before
      the last one was refused, the tried providers are a prefix of the
      ranking, a session is found exactly when the last attempt succeeded,
      and that session and provider are the result. */
  lemma {:induction false} TriedIsPrefixUpToSuccess(model: Model, create: Create, providers: seq<Provider>)
    ensures var t := Tried(model, create, providers);
            var r := FirstAvailable(model, create, providers);
            |t| <= |providers| && t == providers[..|t|] &&
            (|providers| > 0 ==> |t| > 0) &&
            (forall i :: 0 <= i < |t| - 1 ==> create(model, t[i]).Err?) &&
            (r.Some? <==> |t| > 0 && create(model, t[|t| - 1]).Ok?) &&
            (r.Some? ==> r.value == Choice(create(model, t[|t| - 1]).value, t[|t| - 1])) &&
            (r.None? ==> t == providers)
    decreases |providers|
  {
    if |providers| > 0 && create(model, providers[0]).Err? {
      var rest := providers[1..];
      TriedIsPrefixUpToSuccess(model, create, rest);
      var t' := Tried(model, create, rest);
      var t := Tried(model, create, providers);
      assert t == [providers[0]] + t';
      assert providers[..|t|] == [providers[0]] + rest[..|t'|];
      forall i | 0 <= i < |t| - 1
        ensures create(model, t[i]).Err?
      {
        if i > 0 {
          assert t[i] == t'[i - 1];
        }
      }
    }
  }

  /** No session at all exactly when every provider is refused. */
  lemma {:induction false} NoneIffAllRefused(model: Model, create: Create, providers: seq<Provider>)
    ensures FirstAvailable(model, create, providers).None? <==>
              forall i :: 0 <= i < |providers| ==> create(model, providers[i]).Err?
    decreases |providers|
  {
    if |providers| > 0 {
      NoneIffAllRefused(model, create, providers[1..]);
      if create(model, providers[0]).Err? {
        forall i | 0 <= i < |providers| && (forall j :: 0 <= j < |providers| - 1 ==> create(model, providers[1..][j]).Err?)
          ensures create(model, providers[i]).Err?
        {
          if i > 0 {
            assert providers[i] == providers[1..][i - 1];
          }
        }
      }
    }
  }

  /** The chosen provider is the best-ranked one the engine accepts: it was
      accepted, and every provider ranked above it was refused. */
  lemma {:induction false} FirstAvailableIsBestRanked(model: Model, create: Create, providers: seq<Provider>, i: nat)
    requires i < |providers|
    requires FirstAvailable(model, create, providers).Some?
    requires create(model, providers[i]).Ok?
    ensures var c := FirstAvailable(model, create, providers).value;
            create(model, c.device) == Ok(c.session) &&
            (exists k :: 0 <= k <= i && providers[k] == c.device &&
                         forall j :: 0 <= j < k ==> create(model, providers[j]).Err?)
    decreases |providers|
  {
    var c := FirstAvailable(model, create, providers).value;
    if create(model, providers[0]).Ok? {
      assert providers[0] == c.device;
    } else {
      assert i > 0;
      var rest := providers[1..];
      assert rest[i - 1] == providers[i];
      FirstAvailableIsBestRanked(model, create, rest, i - 1);
      var k' :| 0 <= k' <= i - 1 && rest[k'] == c.device &&
                forall j :: 0 <= j < k' ==> create(model, rest[j]).Err?;
      assert providers[k' + 1] == c.device;
      forall j | 0 <= j < k' + 1
        ensures create(model, providers[j]).Err?
      {
        if j > 0 {
          assert providers[j] == rest[j - 1];
        }
      }
    }
  }
}
