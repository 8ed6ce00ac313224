/**
 * A capture node: the flags its handle exposes (enabled, status) and the
 * body of the device's data and error callbacks. The device stream itself
 * is not modelled; a callback invocation is a method call on the state the
 * callback closes over.
 */
module Capture {
  import opened Base
  import opened CoreTypes
  import opened RingBuffer
  import opened Channels

  /** The status code stored for each status. */
  function EncodeStatus(s: InputStatus): (code: u8)
    ensures code <= 2
    ensures DecodeStatus(code) == s
  {
    match s
    case StatusOk => 0
    case StatusError => 1
    case StatusDisabled => 2
  }

  /** `CaptureHandle::status`: 1 is an error, 2 disabled, any other code ok. */
  function DecodeStatus(code: u8): (s: InputStatus)
    ensures s == StatusError <==> code == 1
    ensures s == StatusDisabled <==> code == 2
    ensures s == StatusOk <==> code != 1 && code != 2
  {
    if code == 1 then StatusError
    else if code == 2 then StatusDisabled
    else StatusOk
  }

  /** The two atomics shared by every clone of a handle and by the callbacks. */
  class CaptureFlags {
    var enabled: bool
    var status: u8

    /** A new node starts enabled with status code 0. */
    constructor ()
      ensures enabled && status == 0
    {
      enabled := true;
      status := 0;
    }
  }

  class CaptureHandle {
    const flags: CaptureFlags
    const id: string

    /** The handle `CaptureNode::new` returns for input `id`. */
    constructor (flags: CaptureFlags, id: string)
      ensures this.flags == flags && this.id == id
    {
      this.flags := flags;
      this.id := id;
    }

    /** `clone`: a second handle over the same flags. */
    method Clone() returns (h: CaptureHandle)
      ensures fresh(h) && h.flags == flags && h.id == id
    {
      h := new CaptureHandle(flags, id);
    }

    function IsEnabled(): (b: bool)
      reads flags
      ensures b == flags.enabled
    {
      flags.enabled
    }

    method SetEnabled(v: bool)
      modifies flags
      ensures IsEnabled() == v && flags.status == old(flags.status)
    {
      flags.enabled := v;
    }

    function Status(): (s: InputStatus)
      reads flags
      ensures s == DecodeStatus(flags.status)
    {
      DecodeStatus(flags.status)
    }

    method SetStatus(s: InputStatus)
      modifies flags
      ensures Status() == s && flags.status == EncodeStatus(s)
      ensures flags.enabled == old(flags.enabled)
    {
      flags.status := EncodeStatus(s);
    }
  }

  /** The error callback: records code 1, read back as an error. */
  method OnStreamError(flags: CaptureFlags)
    modifies flags
    ensures flags.status == 1 && DecodeStatus(flags.status) == StatusError
    ensures flags.enabled == old(flags.enabled)
  {
    flags.status := 1;
  }

  /**
   * The data callback. A disabled node does nothing. An enabled one pushes
   * what fits into the producer, drops the rest, and sends the whole block
   * as one chunk on the tap, if there is one (a failed send is ignored).
   * When the producer's mutex is poisoned (`poisoned`) nothing is pushed,
   * but the chunk is still sent on the tap.
   */
  method OnData(flags: CaptureFlags, producer: SampleRing, tap: Option<Channel<AudioChunk>>,
                data: seq<real>, sampleRate: u32, channels: u16, poisoned: bool) returns (pushed: nat)
    requires producer.Valid()
    modifies producer, producer.data, if tap.Some? then {tap.value} else {}
    ensures producer.Valid()
    ensures !(flags.enabled && !poisoned) ==> pushed == 0 && producer.Contents == old(producer.Contents)
    ensures flags.enabled && !poisoned ==> pushed == Min(|data|, producer.capacity - |old(producer.Contents)|)
    ensures producer.Contents == old(producer.Contents) + data[..pushed]
    ensures tap.Some? ==> tap.value.receiverAlive == old(tap.value.receiverAlive)
    ensures tap.Some? && flags.enabled && old(tap.value.receiverAlive) ==>
      tap.value.queue == old(tap.value.queue) + [AudioChunk(data, sampleRate, channels)]
    ensures tap.Some? && !(flags.enabled && old(tap.value.receiverAlive)) ==>
      tap.value.queue == old(tap.value.queue)
  {
    if !flags.enabled {
      return 0;
    }
    if poisoned {
      pushed := 0;
    } else {
      pushed := producer.PushSlice(data);
    }
    if tap.Some? {
      var _ := tap.value.Send(AudioChunk(data, sampleRate, channels));
    }
  }
}
