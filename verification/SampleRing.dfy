/** The most recent samples of a stream, up to a fixed capacity, in an array
    that a push overwrites in place. */
module SampleRings {
  import opened Seqs

  /** Index k of a ring read past its end. */
  function Wrap(k: nat, capacity: nat): nat
    requires 0 < capacity && k < 2 * capacity
  {
    if k >= capacity then k - capacity else k
  }

  /** What a ring holds, oldest first: `size` samples ending before `head`. */
  function RingContents(data: seq<real>, head: nat, size: nat): (s: seq<real>)
    requires size <= |data| && (|data| > 0 ==> head < |data|)
    ensures |s| == size
  {
    if |data| == 0 then [] else seq(size, i requires 0 <= i < size => data[Wrap(head + |data| - size + i, |data|)])
  }

  function Next(head: nat, capacity: nat): nat {
    if head + 1 == capacity then 0 else head + 1
  }

  /** Overwriting the oldest slot is appending to what is held. */
  lemma PushOne(data: seq<real>, head: nat, size: nat, x: real)
    requires size <= |data| && head < |data|
    ensures RingContents(data[head := x], Next(head, |data|), Min(size + 1, |data|))
         == Last(RingContents(data, head, size) + [x], |data|)
  {
    var n := Min(size + 1, |data|);
    var before := RingContents(data, head, size);
    var after := RingContents(data[head := x], Next(head, |data|), n);
    forall i | 0 <= i < n
      ensures after[i] == (before + [x])[size + 1 - n + i]
    {
      var at := Wrap(Next(head, |data|) + |data| - n + i, |data|);
      assert after[i] == data[head := x][at];
      if i == n - 1 {
        assert at == head;
      } else {
        assert at == Wrap(head + |data| - size + (size + 1 - n + i), |data|) != head;
      }
    }
  }

  lemma PushNext(data: seq<real>, head: nat, size: nat, held: seq<real>, samples: seq<real>, i: nat)
    requires size <= |data| && head < |data| && i < |samples|
    requires RingContents(data, head, size) == Last(held + samples[..i], |data|)
    ensures RingContents(data[head := samples[i]], Next(head, |data|), Min(size + 1, |data|))
         == Last(held + samples[..i + 1], |data|)
  {
    PushOne(data, head, size, samples[i]);
    LastOfAppend(held + samples[..i], [samples[i]], |data|);
    assert held + samples[..i] + [samples[i]] == held + samples[..i + 1];
  }

  lemma PushNothing(held: seq<real>, capacity: nat)
    requires |held| <= capacity
    ensures forall none: seq<real> :: none == [] ==> Last(held + none, capacity) == held
  {
    assert held + [] == held;
  }

  lemma NoRoom(data: seq<real>, head: nat, size: nat, all: seq<real>)
    requires size <= |data| && (|data| > 0 ==> head < |data|)
    ensures |data| == 0 ==> RingContents(data, head, size) == Last(all, 0)
  {
  }

  class SampleRing {
    var data: array<real>
    var head: nat  // where the next sample goes
    var size: nat  // samples held, up to the capacity

    predicate Valid()
      reads this
    {
      size <= data.Length && (data.Length > 0 ==> head < data.Length)
    }

    function Contents(): seq<real>
      reads this, data
      requires Valid()
    {
      RingContents(data[..], head, size)
    }

    constructor (capacity: nat)
      ensures Valid() && fresh(data) && data.Length == capacity && Contents() == []
    {
      data := new real[capacity](_ => 0.0);
      head, size := 0, 0;
    }

    method Push(samples: seq<real>)
      requires Valid()
      modifies this, data
      ensures Valid() && data == old(data)
      ensures Contents() == Last(old(Contents()) + samples, data.Length)
    {
      hide RingContents, Last;
      var capacity := data.Length;
      ghost var held := Contents();
      PushNothing(held, capacity);
      var i := 0;
      while i < |samples| && capacity > 0
        invariant 0 <= i <= |samples| && (capacity > 0 ==> head < capacity)
        invariant data == old(data) && size == old(size)
        invariant capacity > 0 ==>
          RingContents(data[..], head, Min(size + i, capacity)) == Last(held + samples[..i], capacity)
      {
        ghost var before := data[..];
        PushNext(before, head, Min(size + i, capacity), held, samples, i);
        data[head] := samples[i];
        assert data[..] == before[head := samples[i]];
        head := if head + 1 == capacity then 0 else head + 1;
        i := i + 1;
      }
      assert samples[..|samples|] == samples;
      size := Min(size + |samples|, capacity);
      NoRoom(data[..], head, size, held + samples);
    }

    method Read() returns (out: seq<real>)
      requires Valid()
      ensures out == Contents()
    {
      var capacity := data.Length;
      out := [];
      if capacity == 0 {
        return;
      }
      var at := (head + capacity - size) % capacity;
      WrapIsModulo(head + capacity - size, capacity);
      var i := 0;
      while i < size
        invariant 0 <= i <= size
        invariant i < size ==> at == Wrap(head + capacity - size + i, capacity)
        invariant out == Contents()[..i]
      {
        out := out + [data[at]];
        at := if at + 1 == capacity then 0 else at + 1;
        i := i + 1;
      }
    }

    /** A new capacity keeps the most recent samples that still fit. */
    method Resize(capacity: nat)
      requires Valid()
      modifies this
      ensures Valid() && fresh(data) && data.Length == capacity
      ensures Contents() == Last(old(Contents()), capacity)
    {
      var held := Read();
      data := new real[capacity](_ => 0.0);
      head, size := 0, 0;
      var keep := Min(|held|, capacity);
      Push(held[|held| - keep..]);
    }
  }

  lemma WrapIsModulo(k: nat, capacity: nat)
    requires 0 < capacity && k < 2 * capacity
    ensures k % capacity == Wrap(k, capacity)
  {
  }
}
