/**
 * The mixer: every cycle it drains up to one block from each input FIFO,
 * scales each unmuted input by its volume, sums the inputs sample by
 * sample and writes the sum to the output FIFO. Volume and mute live in
 * per-input controls that the mixer shares with the handles given to the
 * rest of the program, so a change through a handle is seen by the next
 * cycle.
 */
module Mixer {
  import opened Base
  import opened RingBuffer

  /** Per-input gain and mute, shared between the mixer and every handle of the input. */
  class InputControls {
    var volume: real
    var muted: bool
    const id: string

    constructor (id: string, volume: real, muted: bool)
      ensures this.id == id && this.volume == volume && this.muted == muted
    {
      this.id := id;
      this.volume := volume;
      this.muted := muted;
    }

    /** Stores the volume exactly as given (no clamping at this level). */
    method SetVolume(v: real)
      modifies this
      ensures volume == v && muted == old(muted)
    {
      volume := v;
    }

    method SetMuted(m: bool)
      modifies this
      ensures muted == m && volume == old(volume)
    {
      muted := m;
    }
  }

  /** The volume a handle stores: `v.max(0.0)`, so negative requests become silence. */
  function ClampVolume(v: real): (r: real)
    ensures r >= 0.0
    ensures v >= 0.0 ==> r == v
    ensures v < 0.0 ==> r == 0.0
  {
    MaxReal(v, 0.0)
  }

  /** A cheap, clonable reference to one input's controls. */
  class InputHandle {
    const controls: InputControls

    constructor FromArc(controls: InputControls)
      ensures this.controls == controls
    {
      this.controls := controls;
    }

    /** Cloning shares the controls: a change through either handle is seen through both. */
    method Clone() returns (h: InputHandle)
      ensures fresh(h) && h.controls == controls
    {
      h := new InputHandle.FromArc(controls);
    }

    method SetVolume(v: real)
      modifies controls
      ensures controls.volume == ClampVolume(v) && controls.muted == old(controls.muted)
    {
      controls.SetVolume(ClampVolume(v));
    }

    method SetMuted(m: bool)
      modifies controls
      ensures controls.muted == m && controls.volume == old(controls.volume)
    {
      controls.SetMuted(m);
    }

    function Volume(): (v: real)
      reads controls
      ensures v == controls.volume
    {
      controls.volume
    }

    function IsMuted(): (m: bool)
      reads controls
      ensures m == controls.muted
    {
      controls.muted
    }

    /** The id of the input the handle controls; it never changes. */
    function Id(): (id: string)
      ensures id == controls.id
    {
      controls.id
    }
  }

  // ── The mixing arithmetic, on values ──────────────────────────

  /**
   * What one input offers to a cycle: the samples drained from its FIFO
   * (at most one block) with the volume and mute read during the cycle.
   */
  datatype Lane = Lane(read: seq<real>, volume: real, muted: bool)

  /** The amount lane `l` adds to mix sample `i`. */
  function Contribution(l: Lane, i: nat): real
  {
    if !l.muted && i < |l.read| then l.read[i] * l.volume else 0.0
  }

  /** Mix sample `i` after the lanes were accumulated in order onto a zeroed buffer. */
  function MixAt(lanes: seq<Lane>, i: nat): real
  {
    if lanes == [] then 0.0 else MixAt(lanes[..|lanes| - 1], i) + Contribution(lanes[|lanes| - 1], i)
  }

  /** The largest number of samples drained from any lane, muted lanes included. */
  function MaxRead(lanes: seq<Lane>): nat
  {
    if lanes == [] then 0 else Max(MaxRead(lanes[..|lanes| - 1]), |lanes[|lanes| - 1].read|)
  }

  /** The whole mix buffer of a cycle. */
  function MixBlock(lanes: seq<Lane>, block: nat): (m: seq<real>)
    ensures |m| == block
    ensures forall i :: 0 <= i < block ==> m[i] == MixAt(lanes, i)
  {
    seq(block, i requires 0 <= i < block => MixAt(lanes, i))
  }

  /** Mixing a concatenation of lanes adds the two partial mixes. */
  lemma {:induction false} MixAtSplit(a: seq<Lane>, b: seq<Lane>, i: nat)
    ensures MixAt(a + b, i) == MixAt(a, i) + MixAt(b, i)
    decreases |b|
  {
    if b == [] {
      assert a + b == a;
    } else {
      var b' := b[..|b| - 1];
      assert (a + b)[..|a + b| - 1] == a + b';
      MixAtSplit(a, b', i);
    }
  }

  /**
   * A lane that is muted, or that drained fewer than `i + 1` samples, does
   * not affect mix sample `i`: removing it gives the same sample, whatever
   * its volume and samples are.
   */
  lemma SilentLaneRemovable(lanes: seq<Lane>, k: nat, i: nat)
    requires k < |lanes|
    requires lanes[k].muted || i >= |lanes[k].read|
    ensures MixAt(lanes, i) == MixAt(lanes[..k] + lanes[k + 1..], i)
  {
    assert lanes == lanes[..k] + [lanes[k]] + lanes[k + 1..];
    MixAtSplit(lanes[..k] + [lanes[k]], lanes[k + 1..], i);
    MixAtSplit(lanes[..k], [lanes[k]], i);
    MixAtSplit(lanes[..k], lanes[k + 1..], i);
    assert [lanes[k]][..0] == [];
  }

  /** The same sample summed head first: the mix does not depend on the order of the inputs. */
  function SumFromFront(lanes: seq<Lane>, i: nat): real
  {
    if lanes == [] then 0.0 else Contribution(lanes[0], i) + SumFromFront(lanes[1..], i)
  }

  lemma {:induction false} MixAtIsSumFromFront(lanes: seq<Lane>, i: nat)
    ensures MixAt(lanes, i) == SumFromFront(lanes, i)
    decreases |lanes|
  {
    if lanes != [] {
      MixAtIsSumFromFront(lanes[1..], i);
      MixAtSplit([lanes[0]], lanes[1..], i);
      assert [lanes[0]] + lanes[1..] == lanes;
      assert [lanes[0]][..0] == [];
    }
  }

  /** `MaxRead` is the maximum of the drained lengths, and 0 exactly when every lane drained nothing. */
  lemma {:induction false} MaxReadIsMaximum(lanes: seq<Lane>)
    ensures forall k :: 0 <= k < |lanes| ==> |lanes[k].read| <= MaxRead(lanes)
    ensures lanes != [] ==> exists k :: 0 <= k < |lanes| && |lanes[k].read| == MaxRead(lanes)
    ensures MaxRead(lanes) == 0 <==> forall k :: 0 <= k < |lanes| ==> lanes[k].read == []
    decreases |lanes|
  {
    if lanes != [] {
      var init := lanes[..|lanes| - 1];
      MaxReadIsMaximum(init);
      assert forall k :: 0 <= k < |init| ==> init[k] == lanes[k];
      if init != [] && MaxRead(init) >= |lanes[|lanes| - 1].read| {
        var k :| 0 <= k < |init| && |init[k].read| == MaxRead(init);
        assert |lanes[k].read| == MaxRead(lanes);
      } else {
        assert |lanes[|lanes| - 1].read| == MaxRead(lanes);
      }
    }
  }

  /** Beyond the longest drained lane the mix is silent. */
  lemma {:induction false} MixAtBeyondMaxRead(lanes: seq<Lane>, i: nat)
    requires i >= MaxRead(lanes)
    ensures MixAt(lanes, i) == 0.0
    decreases |lanes|
  {
    if lanes != [] {
      MixAtBeyondMaxRead(lanes[..|lanes| - 1], i);
    }
  }

  /** With every lane muted the mix is silent even where samples were drained. */
  lemma {:induction false} AllMutedIsSilent(lanes: seq<Lane>, i: nat)
    requires forall k :: 0 <= k < |lanes| ==> lanes[k].muted
    ensures MixAt(lanes, i) == 0.0
    decreases |lanes|
  {
    if lanes != [] {
      AllMutedIsSilent(lanes[..|lanes| - 1], i);
    }
  }

  // ── The mixer object ──────────────────────────────────────────

  datatype MixerInput = MixerInput(consumer: SampleRing, controls: InputControls)

  /** The lane an input offers when `block` samples may be drained. */
  ghost function LaneOf(inp: MixerInput, block: nat): Lane
    reads inp.consumer, inp.controls
  {
    Lane(inp.consumer.Contents[..Min(block, |inp.consumer.Contents|)], inp.controls.volume, inp.controls.muted)
  }

  ghost function LanesOf(ins: seq<MixerInput>, block: nat, R: set<object>): (ls: seq<Lane>)
    requires forall k :: 0 <= k < |ins| ==> ins[k].consumer in R && ins[k].controls in R
    reads R
    ensures |ls| == |ins|
    ensures forall k :: 0 <= k < |ins| ==> ls[k] == LaneOf(ins[k], block)
  {
    if ins == [] then [] else LanesOf(ins[..|ins| - 1], block, R) + [LaneOf(ins[|ins| - 1], block)]
  }

  ghost function BacklogsOf(ins: seq<MixerInput>, R: set<object>): (cs: seq<seq<real>>)
    requires forall k :: 0 <= k < |ins| ==> ins[k].consumer in R
    reads R
    ensures |cs| == |ins|
    ensures forall k :: 0 <= k < |ins| ==> cs[k] == ins[k].consumer.Contents
  {
    if ins == [] then [] else BacklogsOf(ins[..|ins| - 1], R) + [ins[|ins| - 1].consumer.Contents]
  }

  class Mixer {
    var inputs: seq<MixerInput>
    const output: SampleRing
    const block: nat
    const mixBuffer: array<real>
    const readBuffer: array<real>
    /** The input FIFOs and their storage. */
    ghost var Rings: set<object>
    /** The controls of the inputs. */
    ghost var Controls: set<object>

    ghost predicate Valid()
      reads this, Rings, output, output.data
    {
      mixBuffer.Length == block && readBuffer.Length == block && mixBuffer != readBuffer &&
      output.Valid() && output.data != mixBuffer && output.data != readBuffer &&
      this !in Rings && output !in Rings && output.data !in Rings && mixBuffer !in Rings && readBuffer !in Rings &&
      (forall k :: 0 <= k < |inputs| ==>
        inputs[k].consumer in Rings && inputs[k].consumer.data in Rings &&
        inputs[k].controls in Controls && inputs[k].controls !in Rings && inputs[k].consumer.Valid()) &&
      (forall j, k :: 0 <= j < k < |inputs| ==>
        inputs[j].consumer != inputs[k].consumer && inputs[j].consumer.data != inputs[k].consumer.data)
    }

    /** The lanes the inputs would offer to a cycle started now. */
    ghost function Lanes(): (ls: seq<Lane>)
      reads this, Rings, Controls, output, output.data
      requires Valid()
      ensures |ls| == |inputs|
      ensures forall k :: 0 <= k < |inputs| ==> ls[k] == LaneOf(inputs[k], block)
    {
      LanesOf(inputs, block, Rings + Controls)
    }

    /** The unread samples of every input. */
    ghost function Backlogs(): (cs: seq<seq<real>>)
      reads this, Rings, output, output.data
      requires Valid()
      ensures |cs| == |inputs|
      ensures forall k :: 0 <= k < |inputs| ==> cs[k] == inputs[k].consumer.Contents
    {
      BacklogsOf(inputs, Rings)
    }

    /** `Mixer::new(output, mix_block_size)`: no inputs, zeroed buffers of one block. */
    constructor (output: SampleRing, mixBlockSize: nat)
      requires output.Valid()
      ensures Valid() && inputs == [] && this.output == output && block == mixBlockSize
      ensures fresh(mixBuffer) && fresh(readBuffer)
      ensures Rings == {} && Controls == {}
    {
      this.output := output;
      block := mixBlockSize;
      mixBuffer := new real[mixBlockSize](_ => 0.0);
      readBuffer := new real[mixBlockSize](_ => 0.0);
      inputs := [];
      Rings, Controls := {}, {};
    }

    /**
     * `add_input`: new controls holding the given volume and mute, shared
     * by the returned handle and the new last input. The FIFO is moved
     * into the mixer, so it is not shared with anything the mixer owns.
     */
    method AddInput(id: string, consumer: SampleRing, volume: real, muted: bool) returns (h: InputHandle)
      requires Valid() && consumer.Valid()
      requires consumer !in Rings && consumer.data !in Rings
      requires consumer != output && consumer.data != output.data
      requires consumer.data != mixBuffer && consumer.data != readBuffer
      modifies this
      ensures Valid()
      ensures fresh(h) && fresh(h.controls)
      ensures h.controls.id == id && h.controls.volume == volume && h.controls.muted == muted
      ensures inputs == old(inputs) + [MixerInput(consumer, h.controls)]
      ensures Rings == old(Rings) + {consumer, consumer.data} && Controls == old(Controls) + {h.controls}
    {
      var controls := new InputControls(id, volume, muted);
      h := new InputHandle.FromArc(controls);
      inputs := inputs + [MixerInput(consumer, controls)];
      Rings := Rings + {consumer, consumer.data};
      Controls := Controls + {controls};
    }

    /** Drains up to one block of input `k` into the read buffer (zeroed first). */
    method DrainInput(k: nat) returns (n: nat)
      requires Valid() && k < |inputs|
      modifies inputs[k].consumer, readBuffer
      ensures Valid()
      ensures n == Min(block, |old(inputs[k].consumer.Contents)|)
      ensures readBuffer[..n] == old(inputs[k].consumer.Contents)[..n]
      ensures inputs[k].consumer.Contents == old(inputs[k].consumer.Contents)[n..]
    {
      Fill(readBuffer, 0.0);
      n := inputs[k].consumer.PopInto(readBuffer, block);
    }

    /**
     * One turn of the input loop of `mix_once`: drains input `k` and,
     * unless it is muted, adds its scaled samples to the mix buffer.
     * `lanes[k]` is what the input offers and `rest` what stays behind.
     */
    method MixLane(k: nat, ghost lanes: seq<Lane>, ghost rest: seq<real>, maxRead: nat) returns (newMax: nat)
      requires Valid() && k < |inputs| && k < |lanes| && maxRead == MaxRead(lanes[..k])
      requires lanes[k].read == inputs[k].consumer.Contents[..Min(block, |inputs[k].consumer.Contents|)]
      requires inputs[k].consumer.Contents == lanes[k].read + rest
      requires lanes[k].volume == inputs[k].controls.volume && lanes[k].muted == inputs[k].controls.muted
      requires forall i :: 0 <= i < block ==> mixBuffer[i] == MixAt(lanes[..k], i)
      modifies inputs[k].consumer, mixBuffer, readBuffer
      ensures Valid()
      ensures newMax == MaxRead(lanes[..k + 1]) && (maxRead <= block ==> newMax <= block)
      ensures inputs[k].consumer.Contents == rest
      ensures forall j :: 0 <= j < |inputs| && j != k ==>
        inputs[j].consumer.Contents == old(inputs[j].consumer.Contents)
      ensures forall i :: 0 <= i < block ==> mixBuffer[i] == MixAt(lanes[..k + 1], i)
    {
      var n := DrainInput(k);
      assert old(inputs[k].consumer.Contents)[n..] == rest;
      var controls := inputs[k].controls;
      if !controls.muted {
        Accumulate(mixBuffer, readBuffer, n, controls.volume);
      }
      assert lanes[..k + 1][..k] == lanes[..k];
      forall i | 0 <= i < block
        ensures mixBuffer[i] == MixAt(lanes[..k + 1], i)
      {
        if i < n {
          assert readBuffer[i] == readBuffer[..n][i];
        }
      }
      newMax := Max(maxRead, n);
    }

    /** Pushes the first `count` mixed samples to the output FIFO. */
    method Emit(count: nat, ghost L: seq<Lane>) returns (pushed: nat)
      requires Valid() && count <= block
      requires forall i :: 0 <= i < block ==> mixBuffer[i] == MixAt(L, i)
      modifies output, output.data
      ensures Valid()
      ensures pushed == Min(count, old(output.VacantLen()))
      ensures output.Contents == old(output.Contents) + MixBlock(L, block)[..pushed]
    {
      pushed := output.PushSlice(mixBuffer[..count]);
      assert mixBuffer[..count][..pushed] == MixBlock(L, block)[..pushed];
    }

    /**
     * The input loop of `mix_once`, run on a zeroed mix buffer. `C0` holds
     * the backlogs at the start, split as `L[j].read + Rest[j]`.
     */
    method MixInputs(ghost L: seq<Lane>, ghost C0: seq<seq<real>>, ghost Rest: seq<seq<real>>) returns (maxRead: nat)
      requires Valid() && |L| == |inputs| && |C0| == |inputs| && |Rest| == |inputs|
      requires forall j :: 0 <= j < |inputs| ==> C0[j] == inputs[j].consumer.Contents
      requires forall j :: 0 <= j < |inputs| ==>
        L[j].read == C0[j][..Min(block, |C0[j]|)] && C0[j] == L[j].read + Rest[j]
      requires forall j :: 0 <= j < |inputs| ==>
        L[j].volume == inputs[j].controls.volume && L[j].muted == inputs[j].controls.muted
      requires forall i :: 0 <= i < block ==> mixBuffer[i] == 0.0
      modifies mixBuffer, readBuffer, Rings
      ensures Valid()
      ensures maxRead == MaxRead(L) && maxRead <= block
      ensures forall i :: 0 <= i < block ==> mixBuffer[i] == MixAt(L, i)
      ensures forall j :: 0 <= j < |inputs| ==> inputs[j].consumer.Contents == Rest[j]
    {
      maxRead := 0;
      var k := 0;
      while k < |inputs|
        invariant 0 <= k <= |inputs|
        invariant Valid()
        invariant forall j :: 0 <= j < |inputs| ==>
          L[j].volume == inputs[j].controls.volume && L[j].muted == inputs[j].controls.muted
        invariant forall j :: 0 <= j < k ==> inputs[j].consumer.Contents == Rest[j]
        invariant forall j :: k <= j < |inputs| ==> inputs[j].consumer.Contents == C0[j]
        invariant maxRead == MaxRead(L[..k]) && maxRead <= block
        invariant forall i :: 0 <= i < block ==> mixBuffer[i] == MixAt(L[..k], i)
      {
        maxRead := MixLane(k, L, Rest[k], maxRead);
        k := k + 1;
      }
      assert L[..k] == L;
    }

    /**
     * The body of `mix_once` for a mixer with inputs: `L` are the lanes the
     * inputs offer and `Rest` what stays in each FIFO afterwards.
     */
    method MixCycle(ghost L: seq<Lane>, ghost C0: seq<seq<real>>, ghost Rest: seq<seq<real>>) returns (pushed: nat)
      requires Valid() && |L| == |inputs| && |C0| == |inputs| && |Rest| == |inputs|
      requires forall j :: 0 <= j < |inputs| ==> C0[j] == inputs[j].consumer.Contents
      requires forall j :: 0 <= j < |inputs| ==>
        L[j].read == C0[j][..Min(block, |C0[j]|)] && C0[j] == L[j].read + Rest[j]
      requires forall j :: 0 <= j < |inputs| ==>
        L[j].volume == inputs[j].controls.volume && L[j].muted == inputs[j].controls.muted
      modifies output, output.data, mixBuffer, readBuffer, Rings
      ensures Valid()
      ensures pushed == Min(MaxRead(L), old(output.VacantLen())) && pushed <= block
      ensures output.Contents == old(output.Contents) + MixBlock(L, block)[..pushed]
      ensures forall j :: 0 <= j < |inputs| ==> inputs[j].consumer.Contents == Rest[j]
    {
      Fill(mixBuffer, 0.0);
      var maxRead := MixInputs(L, C0, Rest);
      if maxRead == 0 {
        assert MixBlock(L, block)[..0] == [];
        return 0;
      }
      pushed := Emit(maxRead, L);
    }

    /**
     * `mix_once`: drains up to one block from every input (muted ones
     * too), writes the sum of the unmuted, volume-scaled samples for the
     * longest drain to the output, and returns how many of them the
     * output accepted. Without inputs nothing is drained or written.
     */
    method MixOnce() returns (pushed: nat)
      requires Valid()
      modifies output, output.data, mixBuffer, readBuffer, Rings
      ensures Valid() && inputs == old(inputs)
      ensures pushed <= block
      ensures pushed == if inputs == [] then 0 else Min(MaxRead(old(Lanes())), old(output.VacantLen()))
      ensures output.Contents == old(output.Contents) + MixBlock(old(Lanes()), block)[..pushed]
      ensures forall k :: 0 <= k < |inputs| ==>
        Backlogs()[k] == old(Backlogs())[k][|old(Lanes())[k].read|..]
    {
      if |inputs| == 0 {
        return 0;
      }
      ghost var L := Lanes();
      ghost var C0 := Backlogs();
      ghost var Rest := seq(|C0|, j requires 0 <= j < |C0| => C0[j][Min(block, |C0[j]|)..]);
      assert forall j :: 0 <= j < |inputs| ==> C0[j] == L[j].read + Rest[j];
      pushed := MixCycle(L, C0, Rest);
    }
  }

  /** Sets every element of `a` to `x`. */
  method Fill(a: array<real>, x: real)
    modifies a
    ensures forall i :: 0 <= i < a.Length ==> a[i] == x
  {
    var i := 0;
    while i < a.Length
      invariant 0 <= i <= a.Length
      invariant forall j :: 0 <= j < i ==> a[j] == x
    {
      a[i] := x;
      i := i + 1;
    }
  }

  /** `mix[i] += read[i] * vol` for every `i < n`. */
  method Accumulate(mix: array<real>, read: array<real>, n: nat, vol: real)
    requires mix != read && n <= mix.Length && n <= read.Length
    modifies mix
    ensures forall i :: 0 <= i < n ==> mix[i] == old(mix[i]) + read[i] * vol
    ensures forall i :: n <= i < mix.Length ==> mix[i] == old(mix[i])
  {
    var i := 0;
    while i < n
      invariant 0 <= i <= n
      invariant forall j :: 0 <= j < i ==> mix[j] == old(mix[j]) + read[j] * vol
      invariant forall j :: i <= j < mix.Length ==> mix[j] == old(mix[j])
    {
      mix[i] := mix[i] + read[i] * vol;
      i := i + 1;
    }
  }
}
