/**
 * An output node: the flags its handle exposes (playing, status) and the
 * body of the device's data and error callbacks, which drain the mixed
 * FIFO into the device's block.
 */
module Output {
  import opened Base
  import opened CoreTypes
  import opened RingBuffer

  const STATUS_OK: u8 := 0
  const STATUS_ERROR: u8 := 1

  /** `OutputHandle::status`: only `STATUS_ERROR` is an error; there is no disabled output. */
  function DecodeStatus(code: u8): (s: InputStatus)
    ensures s == StatusError <==> code == STATUS_ERROR
    ensures s != StatusDisabled
  {
    if code == STATUS_ERROR then StatusError else StatusOk
  }

  /** The two atomics shared by every clone of a handle and by the callbacks. */
  class OutputFlags {
    var playing: bool
    var status: u8

    /** A new node starts playing with status `STATUS_OK`. */
    constructor ()
      ensures playing && status == STATUS_OK
      ensures DecodeStatus(status) == StatusOk
    {
      playing := true;
      status := STATUS_OK;
    }
  }

  class OutputHandle {
    const flags: OutputFlags

    constructor (flags: OutputFlags)
      ensures this.flags == flags
    {
      this.flags := flags;
    }

    /** `clone`: a second handle over the same flags. */
    method Clone() returns (h: OutputHandle)
      ensures fresh(h) && h.flags == flags
    {
      h := new OutputHandle(flags);
    }

    function IsPlaying(): (b: bool)
      reads flags
      ensures b == flags.playing
    {
      flags.playing
    }

    method SetPlaying(v: bool)
      modifies flags
      ensures IsPlaying() == v && flags.status == old(flags.status)
    {
      flags.playing := v;
    }

    function Status(): (s: InputStatus)
      reads flags
      ensures s == DecodeStatus(flags.status)
    {
      DecodeStatus(flags.status)
    }
  }

  /** The error callback: records `STATUS_ERROR`. */
  method OnStreamError(flags: OutputFlags)
    modifies flags
    ensures flags.status == STATUS_ERROR && DecodeStatus(flags.status) == StatusError
    ensures flags.playing == old(flags.playing)
  {
    flags.status := STATUS_ERROR;
  }

  /**
   * What a playing node writes into a block of `len` slots from a FIFO
   * holding `c`: the next unread sample in each slot, silence once the
   * FIFO runs dry.
   */
  function PlayedBlock(c: seq<real>, len: nat): (b: seq<real>)
    ensures |b| == len
    ensures forall j :: 0 <= j < len ==> b[j] == if j < |c| then c[j] else 0.0
  {
    seq(len, j requires 0 <= j < len => if j < |c| then c[j] else 0.0)
  }

  /**
   * The data callback. When not playing the block is silenced and the FIFO
   * left alone; otherwise every slot takes `try_pop`'s sample, or 0.0 once
   * it has none, so exactly `min(available, block)` samples are consumed.
   * When the consumer's mutex is poisoned (`poisoned`) the block is
   * silenced as well.
   */
  method OnData(flags: OutputFlags, consumer: SampleRing, data: array<real>, poisoned: bool)
    requires consumer.Valid() && data != consumer.data
    modifies consumer, data
    ensures consumer.Valid()
    ensures !(flags.playing && !poisoned) ==>
      consumer.Contents == old(consumer.Contents) &&
      forall j :: 0 <= j < data.Length ==> data[j] == 0.0
    ensures flags.playing && !poisoned ==>
      data[..] == PlayedBlock(old(consumer.Contents), data.Length) &&
      consumer.Contents == old(consumer.Contents)[Min(data.Length, |old(consumer.Contents)|)..]
  {
    if !flags.playing || poisoned {
      Silence(data);
      return;
    }
    ghost var c0 := consumer.Contents;
    var j := 0;
    while j < data.Length
      invariant 0 <= j <= data.Length
      invariant consumer.Valid()
      invariant consumer.Contents == c0[Min(j, |c0|)..]
      invariant forall i :: 0 <= i < j ==> data[i] == if i < |c0| then c0[i] else 0.0
    {
      var s := consumer.TryPop();
      data[j] := if s.Some? then s.value else 0.0;
      j := j + 1;
    }
    assert data[..] == PlayedBlock(c0, data.Length);
  }

  /** `data.fill(0.0)`. */
  method Silence(data: array<real>)
    modifies data
    ensures forall j :: 0 <= j < data.Length ==> data[j] == 0.0
  {
    var j := 0;
    while j < data.Length
      invariant 0 <= j <= data.Length
      invariant forall i :: 0 <= i < j ==> data[i] == 0.0
    {
      data[j] := 0.0;
      j := j + 1;
    }
  }
}
