/**
 * The data exchanged between the components of the router: audio chunks
 * sent to speech recognisers, recognition results, the metadata given to
 * text destinations, and the error kinds of each component.
 */
module CoreTypes {
  import opened Base

  /** A block of captured samples, as sent on an input's recogniser tap. */
  datatype AudioChunk = AudioChunk(samples: seq<real>, sampleRate: u32, channels: u16)

  /** One recognised utterance; `isFinal` marks a committed transcript. */
  datatype RecognitionResult = RecognitionResult(text: string, inputId: string, timestamp: real, isFinal: bool)

  /** What a destination is told about the text it receives. */
  datatype TextMetadata = TextMetadata(inputId: string, prefix: string)

  /** Errors of configuration loading (file and parse errors carry the library's message). */
  datatype ConfigError = FileRead(message: string) | TomlParse(message: string) | EnvVarNotFound(name: string)

  datatype AsrError = AsrInitializationFailed(message: string) | ProcessingFailed(message: string) | EngineNotFound(name: string)

  datatype DestinationError =
    | InitializationFailed(message: string)
    | SendFailed(message: string)
    | NotFound(name: string)
    | ConnectionLost(message: string)

  /** The health a capture device reports to the dashboard. */
  datatype InputStatus = StatusOk | StatusError | StatusDisabled
}

/**
 * The part of a parsed TOML document the router inspects: plugin
 * configuration tables and the values looked up in them.
 */
module Toml {
  import opened Base

  datatype TomlValue =
    | TString(s: string)
    | TInteger(i: i64)
    | TFloat(f: real)
    | TBoolean(b: bool)
    | TArray(items: seq<TomlValue>)
    | TTable(entries: map<string, TomlValue>)

  const EmptyTable: TomlValue := TTable(map[])

  /** `value.get(key)`: a key of a table; any other value has no keys. */
  function Get(v: TomlValue, key: string): (r: Option<TomlValue>)
    ensures r.Some? <==> v.TTable? && key in v.entries
    ensures r.Some? ==> r.value == v.entries[key]
  {
    if v.TTable? && key in v.entries then Some(v.entries[key]) else None
  }

  /** `value.get(key).and_then(|v| v.as_str())`. */
  function GetStr(v: TomlValue, key: string): (r: Option<string>)
    ensures r.Some? <==> Get(v, key).Some? && Get(v, key).value.TString?
    ensures r.Some? ==> Get(v, key) == Some(TString(r.value))
  {
    match Get(v, key)
    case Some(TString(s)) => Some(s)
    case _ => None
  }

  /** `value.get(key).and_then(|v| v.as_integer())`. */
  function GetInt(v: TomlValue, key: string): (r: Option<i64>)
    ensures r.Some? <==> Get(v, key).Some? && Get(v, key).value.TInteger?
    ensures r.Some? ==> Get(v, key) == Some(TInteger(r.value))
  {
    match Get(v, key)
    case Some(TInteger(i)) => Some(i)
    case _ => None
  }
}

/**
 * An unbounded multi-producer channel. The queue holds what was sent and
 * not yet received; a send fails once the receiving half is dropped.
 */
module Channels {
  import opened Base

  class Channel<T> {
    var queue: seq<T>
    var receiverAlive: bool

    constructor ()
      ensures queue == [] && receiverAlive
    {
      queue := [];
      receiverAlive := true;
    }

    /** `tx.send(x)`: `true` is `Ok`, `false` the error of a dropped receiver. */
    method Send(x: T) returns (ok: bool)
      modifies this
      ensures ok == old(receiverAlive)
      ensures queue == if ok then old(queue) + [x] else old(queue)
      ensures receiverAlive == old(receiverAlive)
    {
      ok := receiverAlive;
      if ok {
        queue := queue + [x];
      }
    }

    /**
     * `rx.recv()` on a channel whose senders are gone once it is drained:
     * the oldest queued item, or `None` when nothing is queued.
     */
    method Recv() returns (r: Option<T>)
      modifies this
      ensures old(queue) == [] ==> r == None && queue == []
      ensures old(queue) != [] ==> r == Some(old(queue)[0]) && queue == old(queue)[1..]
      ensures receiverAlive == old(receiverAlive)
    {
      if queue == [] {
        return None;
      }
      r := Some(queue[0]);
      queue := queue[1..];
    }

    /** Dropping the receiving half: later sends fail. */
    method DropReceiver()
      modifies this
      ensures !receiverAlive && queue == old(queue)
    {
      receiverAlive := false;
    }
  }
}
