/**
 * Speech recognisers behind one interface, and the plugin registry that
 * maps engine names to the factories creating them. The two built-in
 * engines are the only factories: a registered name maps to one of them.
 */
module EngineRegistry {
  import opened Base
  import opened CoreTypes
  import opened Toml
  import opened Channels
  import NullEngine
  import WhisperEngine

  /** A factory: which engine a name creates. */
  datatype EngineKind = NullKind | WhisperKind

  /** A boxed engine. */
  datatype Engine =
    | Null(nullEngine: NullEngine.NullEngine)
    | Whisper(whisper: WhisperEngine.WhisperEngine)

  function Kind(e: Engine): EngineKind
  {
    match e
    case Null(_) => NullKind
    case Whisper(_) => WhisperKind
  }

  /** The name every engine a factory creates reports. */
  function KindName(k: EngineKind): (n: string)
    ensures n == if k == NullKind then NullEngine.NAME else WhisperEngine.NAME
  {
    match k
    case NullKind => NullEngine.NAME
    case WhisperKind => WhisperEngine.NAME
  }

  /** The object holding an engine's state. */
  function Obj(e: Engine): object
  {
    match e
    case Null(n) => n
    case Whisper(w) => w
  }

  /** The sender an engine reports its results on. */
  function ResultSender(e: Engine): Option<Channel<RecognitionResult>>
    reads Obj(e)
  {
    match e
    case Null(n) => n.resultSender
    case Whisper(w) => w.resultSender
  }

  /** Whether `initialize` of an engine of kind `k` accepts `config`. */
  function InitAccepts(k: EngineKind, config: TomlValue): bool
  {
    match k
    case NullKind => true
    case WhisperKind => GetStr(config, "model_path").Some?
  }

  /** What feeding one chunk sends on the engine's result channel: one result from the null engine, nothing from the stub. */
  function FeedOutput(k: EngineKind, chunk: AudioChunk): (out: seq<RecognitionResult>)
    ensures k == NullKind ==> out == [NullEngine.ResultFor(chunk)]
    ensures k == WhisperKind ==> out == []
  {
    if k == NullKind then [NullEngine.ResultFor(chunk)] else []
  }

  /** Calling a factory: a new engine of kind `k` with no sender. */
  method Make(k: EngineKind) returns (e: Engine)
    ensures Kind(e) == k && fresh(Obj(e)) && ResultSender(e) == None
    ensures e.Null? ==> e.nullEngine.feedCount == 0
  {
    match k
    case NullKind =>
      var n := new NullEngine.NullEngine();
      e := Null(n);
    case WhisperKind =>
      var w := new WhisperEngine.WhisperEngine();
      e := Whisper(w);
  }

  method SetResultSender(e: Engine, sender: Channel<RecognitionResult>)
    modifies Obj(e)
    ensures ResultSender(e) == Some(sender)
    ensures e.Null? ==> e.nullEngine.feedCount == old(e.nullEngine.feedCount)
  {
    match e
    case Null(n) => n.SetResultSender(sender);
    case Whisper(w) => w.SetResultSender(sender);
  }

  /** `initialize` of either engine: succeeds exactly when the engine accepts `config`; the sender is kept. */
  method Initialize(e: Engine, config: TomlValue) returns (r: Result<Unit, AsrError>)
    modifies Obj(e)
    ensures r.Ok? <==> InitAccepts(Kind(e), config)
    ensures r.Err? ==> r.error.AsrInitializationFailed?
    ensures ResultSender(e) == old(ResultSender(e))
    ensures e.Null? ==> e.nullEngine.feedCount == old(e.nullEngine.feedCount)
  {
    match e
    case Null(n) => r := n.Initialize(config);
    case Whisper(w) => r := w.Initialize(config);
  }

  /**
   * `feed_audio` of either engine, whose result sender is `tx`: always
   * succeeds, and sends `FeedOutput` on `tx` unless its receiver is gone.
   */
  method FeedAudio(e: Engine, tx: Channel<RecognitionResult>, chunk: AudioChunk) returns (r: Result<Unit, AsrError>)
    requires ResultSender(e) == Some(tx)
    modifies Obj(e), tx
    ensures r == Ok(Unit)
    ensures ResultSender(e) == Some(tx) && tx.receiverAlive == old(tx.receiverAlive)
    ensures tx.queue == old(tx.queue) + if old(tx.receiverAlive) then FeedOutput(Kind(e), chunk) else []
    ensures e.Null? ==> e.nullEngine.feedCount == WrappingIncrement(old(e.nullEngine.feedCount))
  {
    match e
    case Null(n) => r := n.FeedAudio(chunk, false);
    case Whisper(w) => r := w.FeedAudio(chunk);
  }

  method Shutdown(e: Engine) returns (r: Result<Unit, AsrError>)
    ensures r == Ok(Unit)
  {
    match e
    case Null(n) => r := n.Shutdown();
    case Whisper(w) => r := w.Shutdown();
  }

  /** The factories registered by `new`: "null", and "whisper" when that feature is built. */
  function BuiltIn(whisperFeature: bool): (m: map<string, EngineKind>)
    ensures NullEngine.NAME in m && m[NullEngine.NAME] == NullKind
    ensures WhisperEngine.NAME in m <==> whisperFeature
    ensures whisperFeature ==> m[WhisperEngine.NAME] == WhisperKind
    ensures |m.Keys| == if whisperFeature then 2 else 1
  {
    var m := map[NullEngine.NAME := NullKind];
    if whisperFeature then m[WhisperEngine.NAME := WhisperKind] else m
  }

  class PluginRegistry {
    var factories: map<string, EngineKind>

    /** `PluginRegistry::new`, built with or without the `whisper` feature. */
    constructor (whisperFeature: bool)
      ensures factories == BuiltIn(whisperFeature)
    {
      factories := BuiltIn(whisperFeature);
    }

    /** `register`: adds the name, replacing an earlier factory of that name. */
    method Register(name: string, k: EngineKind)
      modifies this
      ensures factories == old(factories)[name := k]
    {
      factories := factories[name := k];
    }

    /** `create`: a new engine from the named factory, or `EngineNotFound` carrying the name. */
    method Create(name: string) returns (r: Result<Engine, AsrError>)
      ensures name !in factories ==> r == Err(EngineNotFound(name))
      ensures name in factories ==>
        r.Ok? && Kind(r.value) == factories[name] && fresh(Obj(r.value)) && ResultSender(r.value) == None
    {
      if name !in factories {
        return Err(EngineNotFound(name));
      }
      var e := Make(factories[name]);
      r := Ok(e);
    }

    /** `list_engines`: every registered name once, in an unspecified order. */
    method ListEngines() returns (names: seq<string>)
      ensures forall n :: n in names <==> n in factories
      ensures |names| == |factories.Keys|
      ensures forall i, j :: 0 <= i < j < |names| ==> names[i] != names[j]
    {
      names := [];
      var left := factories.Keys;
      while left != {}
        invariant left <= factories.Keys
        invariant forall n :: n in names <==> n in factories && n !in left
        invariant |names| + |left| == |factories.Keys|
        invariant forall i, j :: 0 <= i < j < |names| ==> names[i] != names[j]
        decreases |left|
      {
        var n :| n in left;
        names := names + [n];
        left := left - {n};
      }
    }
  }
}
