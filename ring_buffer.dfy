/**
 * The single-producer/single-consumer sample FIFO that connects capture
 * callbacks, the mixer and the output callback (a heap ring buffer split
 * into a producer half and a consumer half; both halves are the same
 * object here). Writes never overwrite unread samples: what does not fit
 * is refused and the number actually written is returned.
 */
module RingBuffer {
  import opened Base

  class SampleRing {
    /** The unread samples, oldest first. */
    ghost var Contents: seq<real>

    const capacity: nat
    const data: array<real>
    var start: nat
    var len: nat

    ghost function Repr(): set<object> { {this, data} }

    ghost predicate Valid()
      reads this, data
      ensures Valid() ==> |Contents| <= capacity
    {
      data.Length == capacity &&
      len == |Contents| && len <= capacity &&
      (capacity == 0 ==> start == 0) &&
      (capacity > 0 ==> start < capacity) &&
      forall i :: 0 <= i < len ==> Contents[i] == data[Slot(i)]
    }

    /** The storage index of the `i`-th unread sample. */
    function Slot(i: nat): (j: nat)
      reads this
      requires i < capacity && start < capacity
      ensures j < capacity
    {
      if start + i < capacity then start + i else start + i - capacity
    }

    /** `create_ring_buffer(capacity)`: an empty FIFO holding at most `capacity` samples. */
    constructor (capacity: nat)
      ensures Valid() && fresh(data)
      ensures this.capacity == capacity && Contents == []
    {
      this.capacity := capacity;
      data := new real[capacity];
      start, len := 0, 0;
      Contents := [];
    }

    /** `occupied_len()`. */
    function OccupiedLen(): (n: nat)
      reads this, data
      requires Valid()
      ensures n == |Contents|
    {
      len
    }

    /** `vacant_len()`: room left before writes are refused. */
    function VacantLen(): (n: nat)
      reads this, data
      requires Valid()
      ensures n == capacity - |Contents|
    {
      capacity - len
    }

    method PushOne(x: real)
      requires Valid() && |Contents| < capacity
      modifies this, data
      ensures Valid()
      ensures Contents == old(Contents) + [x]
    {
      var slot := if start + len < capacity then start + len else start + len - capacity;
      data[slot] := x;
      len := len + 1;
      Contents := Contents + [x];
    }

    method PopOne() returns (x: real)
      requires Valid() && Contents != []
      modifies this
      ensures Valid()
      ensures x == old(Contents)[0] && Contents == old(Contents)[1..]
    {
      x := data[start];
      start := if start + 1 == capacity then 0 else start + 1;
      len := len - 1;
      Contents := Contents[1..];
    }

    /**
     * `push_slice(s)`: writes the longest prefix of `s` that fits and
     * returns its length; the rest of `s` is dropped.
     */
    method PushSlice(s: seq<real>) returns (n: nat)
      requires Valid()
      modifies this, data
      ensures Valid()
      ensures n == Min(|s|, capacity - |old(Contents)|)
      ensures Contents == old(Contents) + s[..n]
    {
      n := Min(|s|, capacity - len);
      var i := 0;
      while i < n
        invariant 0 <= i <= n
        invariant Valid()
        invariant Contents == old(Contents) + s[..i]
      {
        PushOne(s[i]);
        assert s[..i + 1] == s[..i] + [s[i]];
        i := i + 1;
      }
    }

    /**
     * `pop_slice(&mut dst[..count])`: moves the oldest `min(count, |Contents|)`
     * samples into the front of `dst` and returns how many; the rest of
     * `dst` keeps its values.
     */
    method PopInto(dst: array<real>, count: nat) returns (n: nat)
      requires Valid() && count <= dst.Length && dst != data
      modifies this, dst
      ensures Valid()
      ensures n == Min(count, |old(Contents)|)
      ensures dst[..n] == old(Contents)[..n]
      ensures forall i :: n <= i < dst.Length ==> dst[i] == old(dst[i])
      ensures Contents == old(Contents)[n..]
    {
      n := Min(count, len);
      var i := 0;
      while i < n
        invariant 0 <= i <= n
        invariant Valid()
        invariant Contents == old(Contents)[i..]
        invariant forall j :: 0 <= j < i ==> dst[j] == old(Contents)[j]
        invariant forall j :: i <= j < dst.Length ==> dst[j] == old(dst[j])
      {
        var x := PopOne();
        dst[i] := x;
        i := i + 1;
      }
    }

    /** `try_pop()`: the oldest sample, or `None` when nothing is buffered. */
    method TryPop() returns (r: Option<real>)
      requires Valid()
      modifies this
      ensures Valid()
      ensures old(Contents) == [] ==> r == None && Contents == []
      ensures old(Contents) != [] ==> r == Some(old(Contents)[0]) && Contents == old(Contents)[1..]
    {
      if len == 0 {
        r := None;
      } else {
        var x := PopOne();
        r := Some(x);
      }
    }
  }

  /** Samples pushed into an empty FIFO come back out unchanged and in order. */
  method PushThenPop(capacity: nat, samples: seq<real>) returns (pushed: nat, popped: seq<real>)
    ensures pushed == Min(|samples|, capacity)
    ensures popped == samples[..pushed]
  {
    var ring := new SampleRing(capacity);
    pushed := ring.PushSlice(samples);
    var out := new real[pushed];
    var n := ring.PopInto(out, pushed);
    popped := out[..n];
  }
}
