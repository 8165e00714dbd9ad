/** Batching is invisible: whatever the callers, the worker and the growths do,
    each stream gives exactly what it would give alone. */
module CancellerRefinement {
  import opened Seqs
  import opened Overlap
  import opened Canceller

  // ------------------------------------------------------------ invariants

  /** Two live streams never share a slot. */
  predicate Exclusive(c: Context) {
    && |c.used| == Capacity(c)
    && (forall i :: 0 <= i < |c.streams| && c.streams[i].live ==>
          c.streams[i].slot < Capacity(c) && c.used[c.streams[i].slot])
    && (forall i, j :: 0 <= i < j < |c.streams| && c.streams[i].live && c.streams[j].live ==>
          c.streams[i].slot != c.streams[j].slot)
  }

  predicate Distinct(ids: seq<nat>) {
    forall i, j :: 0 <= i < j < |ids| ==> ids[i] != ids[j]
  }

  /** The queue and the batch hold exactly the streams whose hop is there. */
  predicate Listed(c: Context) {
    && Distinct(c.queue) && Distinct(c.batch) && (c.pass == Waiting ==> c.batch == [])
    && (forall id :: id in c.queue ==> Is(c, id, InQueue))
    && (forall id :: id in c.batch ==> Is(c, id, InBatch))
    && (forall id :: 0 <= id < |c.streams| && c.streams[id].live ==>
          && (c.streams[id].at == InQueue ==> id in c.queue)
          && (c.streams[id].at == InBatch ==> id in c.batch))
  }

  predicate Busy(c: Context, k: nat) {
    exists i :: 0 <= i < |c.streams| && c.streams[i].live && c.streams[i].at == InBatch && c.streams[i].slot == k
  }

  /** A lane is written back only for a stream of the batch; with no pass
      running every lane is at rest. */
  predicate Masked(c: Context) {
    && Holds(c.host, Capacity(c))
    && (forall k :: 0 <= k < Capacity(c) ==>
          && c.host.valid[k] == (if Busy(c, k) then 1.0 else 0.0)
          && c.host.hold[k] == (if Busy(c, k) then 0.0 else 1.0))
  }

  /** The network has run on the hop in flight. */
  predicate Advanced(at: At, pass: Pass) {
    at == Ready || (at == InBatch && pass == Computed)
  }

  ghost predicate HopsSized(net: Net, s: Stream) {
    (forall h :: h in s.hops ==> Sized(net, h)) && (s.at != Resting ==> Sized(net, s.inFlight))
  }

  /** What a stream holds, against the same hops alone from a zero history. */
  ghost predicate Faithful(net: Net, s: Stream, lane: Vec, mic: Vec, far: Vec, out: Vec, pass: Pass)
    requires net.Valid()
  {
    && HopsSized(net, s)
    && var a := Solo(net, s.hops);
       && s.outs == a.outs && s.ola == a.ola
       && (if s.at == Resting then s.micPrev == a.micPrev && s.farPrev == a.farPrev
           else
             && s.micPrev == s.inFlight.mic && s.farPrev == s.inFlight.far
             && s.micWin == WindowOf(net, a.micPrev, s.inFlight.mic)
             && s.farWin == WindowOf(net, a.farPrev, s.inFlight.far))
       && (if Advanced(s.at, pass) then
             (lane, if s.at == Ready then s.frame else out) == Stepped(net, a, s.inFlight)
           else lane == a.history)
       && (s.at == InBatch && pass == LaidOut ==> mic == s.micWin && far == s.farWin)
  }

  ghost predicate FaithfulAt(net: Net, c: Context, id: nat)
    requires Formed(net, c) && id < |c.streams| && c.streams[id].live
  {
    var s := c.streams[id];
    Faithful(net, s, c.lanes[s.slot], c.host.mic[s.slot], c.host.far[s.slot], c.out[s.slot], c.pass)
  }

  ghost predicate AllFaithful(net: Net, c: Context)
    requires Formed(net, c)
  {
    forall id :: 0 <= id < |c.streams| && c.streams[id].live ==> FaithfulAt(net, c, id)
  }

  ghost predicate Inv(net: Net, c: Context) {
    Formed(net, c) && Exclusive(c) && Listed(c) && Masked(c) && AllFaithful(net, c)
  }

  // ------------------------------------------------------------ one stream

  lemma NewIsFaithful(net: Net, slot: nat, mic: Vec, far: Vec, out: Vec, pass: Pass)
    requires net.Valid()
    ensures Faithful(net, NewStream(net, slot), Silence(net.depth), mic, far, out, pass)
  {
  }

  lemma ClearedIsFaithful(net: Net, s: Stream, mic: Vec, far: Vec, out: Vec, pass: Pass)
    requires net.Valid() && s.at == Resting
    ensures Faithful(net, Cleared(net, s), Silence(net.depth), mic, far, out, pass)
  {
  }

  lemma PrepareKeepsFaithful(net: Net, s: Stream, h: Hop, lane: Vec, mic: Vec, far: Vec, out: Vec, pass: Pass)
    requires net.Valid() && SizedStream(net, s) && Sized(net, h) && s.at == Resting
    requires Faithful(net, s, lane, mic, far, out, pass)
    ensures Faithful(net, Prepare(net, s, h), lane, mic, far, out, pass)
    ensures SizedStream(net, Prepare(net, s, h))
  {
  }

  lemma CollectKeepsFaithful(net: Net, s: Stream, lane: Vec, mic: Vec, far: Vec, out: Vec, pass: Pass)
    requires net.Valid() && SizedStream(net, s) && s.at == Ready
    requires Faithful(net, s, lane, mic, far, out, pass)
    ensures Faithful(net, Collect(net, s), lane, mic, far, out, pass)
    ensures SizedStream(net, Collect(net, s))
  {
  }

  lemma MaskTakes(next: Vec, state: Vec)
    requires |next| == |state|
    ensures Kept(next, state, 1.0, 0.0) == next
    ensures Kept(next, state, 0.0, 1.0) == state
  {
  }

  // ------------------------------------------------------------ callers

  /** One stream changes its own fields, and where it stands, but for the
      queue and the batch. */
  predicate Stays(s: Stream, s': Stream) {
    && s'.slot == s.slot && s.at != InBatch && s'.at != InBatch && s.at != InQueue && s'.at != InQueue
  }

  lemma SameBusy(c: Context, c': Context)
    requires |c'.streams| >= |c.streams|
    requires forall i :: 0 <= i < |c.streams| && c.streams[i].at == InBatch ==> c'.streams[i] == c.streams[i]
    requires forall i :: 0 <= i < |c'.streams| && c'.streams[i].at == InBatch ==>
                           i < |c.streams| && c'.streams[i] == c.streams[i]
    ensures forall k :: Busy(c', k) == Busy(c, k)
  {
  }

  lemma OwnChangeKeepsLists(c: Context, id: nat, s': Stream)
    requires Exclusive(c) && Listed(c) && Masked(c) && id < |c.streams| && c.streams[id].live
    requires Stays(c.streams[id], s') && s'.live
    ensures var c' := c.(streams := c.streams[id := s']); Exclusive(c') && Listed(c') && Masked(c')
  {
  }

  lemma OwnChange(net: Net, c: Context, id: nat, s': Stream)
    requires Inv(net, c) && id < |c.streams| && c.streams[id].live
    requires Stays(c.streams[id], s') && s'.live && SizedStream(net, s')
    requires var k := s'.slot; Faithful(net, s', c.lanes[k], c.host.mic[k], c.host.far[k], c.out[k], c.pass)
    ensures Inv(net, c.(streams := c.streams[id := s']))
  {
    var c' := c.(streams := c.streams[id := s']);
    OwnChangeKeepsLists(c, id, s');
    hide Faithful, SizedStream, Net.Valid, Exclusive, Listed, Masked;
    assert Formed(net, c');
    forall i | 0 <= i < |c'.streams| && c'.streams[i].live
      ensures FaithfulAt(net, c', i)
    {
      assert i != id ==> FaithfulAt(net, c, i);
    }
  }

  lemma BringKeepsInv(net: Net, c: Context, id: nat, hop: Hop)
    requires Inv(net, c) && Enabled(net, c, Bring(id, hop))
    ensures Inv(net, Next(net, c, Bring(id, hop)))
  {
    var s := c.streams[id];
    assert FaithfulAt(net, c, id) && SizedStream(net, s);
    PrepareKeepsFaithful(net, s, hop, c.lanes[s.slot], c.host.mic[s.slot], c.host.far[s.slot], c.out[s.slot], c.pass);
    hide Inv, Faithful, Net.Valid;
    OwnChange(net, c, id, Prepare(net, s, hop));
  }

  lemma GatherKeepsInv(net: Net, c: Context, id: nat)
    requires Inv(net, c) && Enabled(net, c, Gather(id))
    ensures Inv(net, Next(net, c, Gather(id)))
  {
    var s := c.streams[id];
    assert FaithfulAt(net, c, id) && SizedStream(net, s);
    CollectKeepsFaithful(net, s, c.lanes[s.slot], c.host.mic[s.slot], c.host.far[s.slot], c.out[s.slot], c.pass);
    hide Inv, Faithful, Net.Valid;
    OwnChange(net, c, id, Collect(net, s));
  }

  lemma ClearKeepsLists(net: Net, c: Context, id: nat)
    requires Exclusive(c) && Listed(c) && Masked(c) && Is(c, id, Resting)
    ensures var c' := c.(lanes := c.lanes[c.streams[id].slot := Silence(net.depth)],
                         streams := c.streams[id := Cleared(net, c.streams[id])]);
            Exclusive(c') && Listed(c') && Masked(c')
  {
  }

  /** Clearing writes one lane, the one of this stream alone. */
  lemma ClearKeepsInv(net: Net, c: Context, id: nat)
    requires Inv(net, c) && Enabled(net, c, Clear(id))
    ensures Inv(net, Next(net, c, Clear(id)))
  {
    var s := c.streams[id];
    var k := s.slot;
    var c' := Next(net, c, Clear(id));
    assert SizedStream(net, s);
    hide Faithful, Net.Valid, Listed, Masked, Busy;
    ClearedIsFaithful(net, s, c.host.mic[k], c.host.far[k], c.out[k], c.pass);
    ClearKeepsLists(net, c, id);
    assert forall i :: 0 <= i < |c.streams| && c.streams[i].live && i != id ==> c.streams[i].slot != k;
    hide Exclusive;
    assert Formed(net, c');
    forall i | 0 <= i < |c'.streams| && c'.streams[i].live
      ensures FaithfulAt(net, c', i)
    {
      assert i != id ==> FaithfulAt(net, c, i);
    }
  }

  function Freed(c: Context, id: nat): Context
    requires id < |c.streams| && c.streams[id].slot < |c.used|
  {
    c.(used := c.used[c.streams[id].slot := false], streams := c.streams[id := c.streams[id].(live := false)])
  }

  lemma FreeKeepsLists(c: Context, id: nat)
    requires Exclusive(c) && Listed(c) && Masked(c) && Is(c, id, Resting)
    ensures var c' := Freed(c, id); Exclusive(c') && Listed(c') && Masked(c')
  {
    SameBusy(c, Freed(c, id));
    hide Busy;
  }

  /** A free waits for nothing: another stream's pass may be running. */
  lemma FreeKeepsInv(net: Net, c: Context, id: nat)
    requires Inv(net, c) && Enabled(net, c, Free(id))
    ensures Inv(net, Next(net, c, Free(id)))
  {
    var c' := Freed(c, id);
    FreeKeepsLists(c, id);
    hide Faithful, Net.Valid, Exclusive, Listed, Masked, SizedStream;
    assert Formed(net, c');
    forall i | 0 <= i < |c'.streams| && c'.streams[i].live
      ensures FaithfulAt(net, c', i)
    {
      assert FaithfulAt(net, c, i);
    }
  }

  lemma QueueKeepsLists(c: Context, id: nat)
    requires Exclusive(c) && Listed(c) && Masked(c) && Is(c, id, Prepared)
    ensures var c' := c.(queue := c.queue + [id], streams := c.streams[id := c.streams[id].(at := InQueue)]);
            Exclusive(c') && Listed(c') && Masked(c')
  {
    var c' := c.(queue := c.queue + [id], streams := c.streams[id := c.streams[id].(at := InQueue)]);
    SameBusy(c, c');
    hide Busy;
    assert id !in c.queue;
    assert c'.queue[|c.queue|] == id;
    assert forall i :: i in c.queue ==> i in c'.queue;
  }

  lemma QueueKeepsInv(net: Net, c: Context, id: nat)
    requires Inv(net, c) && Enabled(net, c, Queue(id))
    ensures Inv(net, Next(net, c, Queue(id)))
  {
    var c' := Next(net, c, Queue(id));
    QueueKeepsLists(c, id);
    hide Net.Valid, Exclusive, Listed, Masked, SizedStream, Solo, Stepped, WindowOf;
    assert SizedStream(net, c.streams[id]);
    ReorderedIsSized(net, c.streams[id], InQueue);
    assert Formed(net, c');
    forall i | 0 <= i < |c'.streams| && c'.streams[i].live
      ensures FaithfulAt(net, c', i)
    {
      assert FaithfulAt(net, c, i);
    }
  }

  lemma ReorderedIsSized(net: Net, s: Stream, at: At)
    requires SizedStream(net, s)
    ensures SizedStream(net, s.(at := at))
  {
  }

  // ------------------------------------------------------------ creation

  /** While no pass runs, nothing is in a batch and every lane is at rest. */
  lemma QuietLanes(c: Context)
    requires Listed(c) && c.pass == Waiting
    ensures forall k :: !Busy(c, k)
    ensures forall i :: 0 <= i < |c.streams| && c.streams[i].live ==> c.streams[i].at != InBatch
  {
  }

  lemma CreateKeepsLists(net: Net, c: Context)
    requires Exclusive(c) && Listed(c) && Masked(c) && c.pass == Waiting
    ensures var c' := Take(net, c); Exclusive(c') && Listed(c') && Masked(c')
  {
  }

  lemma CreateKeepsFormed(net: Net, c: Context)
    requires Formed(net, c)
    ensures Formed(net, Take(net, c))
  {
  }

  lemma CreateKeepsInv(net: Net, c: Context)
    requires Inv(net, c) && Enabled(net, c, Create)
    ensures Inv(net, Next(net, c, Create))
  {
    var c' := Next(net, c, Create);
    QuietLanes(c);
    CreateKeepsLists(net, c);
    CreateKeepsFormed(net, c);
    var slot := FirstFree(c.used);
    NewIsFaithful(net, slot, c'.host.mic[slot], c'.host.far[slot], c'.out[slot], c'.pass);
    assert forall i :: 0 <= i < |c.streams| && c.streams[i].live ==> c.streams[i].slot != slot;
    hide Exclusive, Listed, Masked, Formed, Solo, Stepped, WindowOf, Net.Valid;
    forall i | 0 <= i < |c'.streams| && c'.streams[i].live
      ensures FaithfulAt(net, c', i)
    {
      if i < |c.streams| {
        assert c'.streams[i] == c.streams[i];
        assert FaithfulAt(net, c, i);
      }
    }
  }

  // ------------------------------------------------------------ the pass

  predicate Apart(streams: seq<Stream>, ids: seq<nat>, n: nat)
    requires Names(streams, ids, n)
  {
    forall a, b :: a in ids && b in ids && a != b ==> streams[a].slot != streams[b].slot
  }

  predicate Taken(streams: seq<Stream>, ids: seq<nat>, k: nat) {
    exists id :: id in ids && id < |streams| && streams[id].slot == k
  }

  predicate LaidAt(r: Host, s: Stream)
    requires s.slot < |r.mic| == |r.far| == |r.valid| == |r.hold|
  {
    r.mic[s.slot] == s.micWin && r.far[s.slot] == s.farWin && r.valid[s.slot] == 1.0 && r.hold[s.slot] == 0.0
  }

  predicate SameAt(h: Host, r: Host, k: nat)
    requires Holds(h, |r.mic|) && Holds(r, |r.mic|) && k < |r.mic|
  {
    r.mic[k] == h.mic[k] && r.far[k] == h.far[k] && r.valid[k] == h.valid[k] && r.hold[k] == h.hold[k]
  }

  lemma LayOneAt(h: Host, s: Stream)
    requires Holds(h, |h.mic|) && s.slot < |h.mic|
    ensures LaidAt(LayOne(h, s), s)
    ensures forall k :: 0 <= k < |h.mic| && k != s.slot ==> SameAt(h, LayOne(h, s), k)
  {
  }

  /** The loop over the batch, slot by slot: each stream of the batch in its own
      lane, the others untouched. */
  lemma {:induction false} LaidOutAt(h: Host, streams: seq<Stream>, batch: seq<nat>, n: nat)
    requires Holds(h, n) && Names(streams, batch, n) && Apart(streams, batch, n)
    ensures var r := LayOut(h, streams, batch, n);
            && (forall id :: id in batch ==> LaidAt(r, streams[id]))
            && (forall k :: 0 <= k < n && !Taken(streams, batch, k) ==> SameAt(h, r, k))
  {
    if batch != [] {
      var before := batch[..|batch| - 1];
      var last := batch[|batch| - 1];
      assert last in batch && forall id :: id in batch <==> id in before || id == last;
      LaidOutAt(h, streams, before, n);
      var mid := LayOut(h, streams, before, n);
      LayOneAt(mid, streams[last]);
      assert LayOut(h, streams, batch, n) == LayOne(mid, streams[last]);
      hide LayOut, LayOne;
      forall k | 0 <= k < n && !Taken(streams, batch, k)
        ensures SameAt(h, LayOne(mid, streams[last]), k)
      {
        assert !Taken(streams, before, k);
        assert SameAt(h, mid, k) && SameAt(mid, LayOne(mid, streams[last]), k);
      }
      forall id | id in batch
        ensures LaidAt(LayOne(mid, streams[last]), streams[id])
      {
        if id != last {
          assert LaidAt(mid, streams[id]) && SameAt(mid, LayOne(mid, streams[last]), streams[id].slot);
        }
      }
    }
  }

  lemma {:induction false} PutBackAt(h: Host, streams: seq<Stream>, batch: seq<nat>, n: nat)
    requires Holds(h, n) && Names(streams, batch, n)
    ensures var r := PutBack(h, streams, batch, n);
            && r.mic == h.mic && r.far == h.far
            && (forall k :: 0 <= k < n ==>
                  && r.valid[k] == (if Taken(streams, batch, k) then 0.0 else h.valid[k])
                  && r.hold[k] == (if Taken(streams, batch, k) then 1.0 else h.hold[k]))
  {
    if batch != [] {
      var before := batch[..|batch| - 1];
      var last := batch[|batch| - 1];
      assert last in batch && forall id :: id in batch <==> id in before || id == last;
      PutBackAt(h, streams, before, n);
      assert forall k :: Taken(streams, batch, k) <==> Taken(streams, before, k) || streams[last].slot == k;
    }
  }

  lemma QueueIsApart(c: Context)
    requires Exclusive(c) && Listed(c) && Names(c.streams, c.queue, Capacity(c))
    ensures Apart(c.streams, c.queue, Capacity(c))
  {
  }

  lemma BatchIsBusy(c: Context)
    requires Exclusive(c) && Listed(c) && c.pass == Waiting
    requires Holds(c.host, Capacity(c)) && Names(c.streams, c.queue, Capacity(c))
    ensures var c' := TakenBatch(c);
            forall k :: 0 <= k < Capacity(c) ==> (Busy(c', k) <==> Taken(c.streams, c.queue, k))
  {
    var c' := TakenBatch(c);
    hide LayOut, Exclusive;
    QuietLanes(c);
    forall k | 0 <= k < Capacity(c)
      ensures Busy(c', k) <==> Taken(c.streams, c.queue, k)
    {
      if Taken(c.streams, c.queue, k) {
        var id :| id in c.queue && id < |c.streams| && c.streams[id].slot == k;
        assert Is(c, id, InQueue) && c'.streams[id].at == InBatch;
      }
    }
  }

  lemma BatchKeepsLists(c: Context)
    requires Exclusive(c) && Listed(c) && c.pass == Waiting
    requires Holds(c.host, Capacity(c)) && Names(c.streams, c.queue, Capacity(c))
    ensures var c' := TakenBatch(c); Exclusive(c') && Listed(c')
  {
    hide Busy, LayOut;
    QuietLanes(c);
    assert forall id :: id in c.queue ==> Is(c, id, InQueue);
  }

  lemma BatchKeepsMasks(c: Context)
    requires Exclusive(c) && Listed(c) && Masked(c) && c.pass == Waiting && Names(c.streams, c.queue, Capacity(c))
    ensures Masked(TakenBatch(c))
  {
    QuietLanes(c);
    QueueIsApart(c);
    LaidOutAt(c.host, c.streams, c.queue, Capacity(c));
    BatchIsBusy(c);
    hide Busy, LayOut, Listed, Exclusive;
  }

  lemma BatchKeepsFormed(net: Net, c: Context)
    requires Formed(net, c) && Exclusive(c) && Listed(c)
    ensures Formed(net, TakenBatch(c))
  {
    QueueIsApart(c);
    LaidOutAt(c.host, c.streams, c.queue, Capacity(c));
    hide LayOut, Listed, Exclusive, Net.Valid;
    var c' := TakenBatch(c);
    forall k | 0 <= k < Capacity(c)
      ensures |c'.host.mic[k]| == net.nFft && |c'.host.far[k]| == net.nFft
    {
      if Taken(c.streams, c.queue, k) {
        var id :| id in c.queue && id < |c.streams| && c.streams[id].slot == k;
        assert SizedStream(net, c.streams[id]);
      }
    }
    forall i | 0 <= i < |c.streams|
      ensures SizedStream(net, c'.streams[i])
    {
      assert SizedStream(net, c.streams[i]);
    }
  }

  lemma StreamInBatch(net: Net, c: Context, i: nat)
    requires Formed(net, c) && Listed(c) && c.pass == Waiting && Formed(net, TakenBatch(c))
    requires i < |c.streams| && c.streams[i].live && FaithfulAt(net, c, i)
    requires i in c.queue ==> LaidAt(TakenBatch(c).host, c.streams[i])
    ensures FaithfulAt(net, TakenBatch(c), i)
  {
  }

  lemma BatchKeepsFaithful(net: Net, c: Context)
    requires Inv(net, c) && c.pass == Waiting && Formed(net, TakenBatch(c))
    ensures AllFaithful(net, TakenBatch(c))
  {
    var c' := TakenBatch(c);
    QueueIsApart(c);
    LaidOutAt(c.host, c.streams, c.queue, Capacity(c));
    hide LayOut, Exclusive, Masked, Formed, Listed, LaidAt, Faithful;
    forall i | 0 <= i < |c'.streams| && c'.streams[i].live
      ensures FaithfulAt(net, c', i)
    {
      assert c.streams[i].live && FaithfulAt(net, c, i);
      StreamInBatch(net, c, i);
    }
  }

  lemma TakeBatchKeepsInv(net: Net, c: Context)
    requires Inv(net, c) && Enabled(net, c, TakeBatch)
    ensures Inv(net, Next(net, c, TakeBatch))
  {
    BatchKeepsLists(c);
    BatchKeepsMasks(c);
    BatchKeepsFormed(net, c);
    BatchKeepsFaithful(net, c);
    hide TakenBatch, Formed, Exclusive, Listed, Masked, AllFaithful;
  }

  lemma RunKeepsFormed(net: Net, c: Context)
    requires Formed(net, c) && c.pass == LaidOut
    ensures Formed(net, Compute(net, c))
  {
  }

  lemma RunKeepsLists(net: Net, c: Context)
    requires Exclusive(c) && Listed(c) && Masked(c) && Fitting(net, c) && c.pass == LaidOut
    ensures var c' := Compute(net, c); Exclusive(c') && Listed(c') && Masked(c')
  {
  }

  /** A lane of the batch takes what the network made of it; every other keeps
      its history, bit for bit. */
  lemma LaneAfterRun(net: Net, c: Context, id: nat)
    requires Formed(net, c) && Exclusive(c) && Masked(c) && id < |c.streams| && c.streams[id].live
    ensures var k := c.streams[id].slot;
            Compute(net, c).lanes[k] == if c.streams[id].at == InBatch then StepOf(net, c, k).0 else c.lanes[k]
  {
  }

  lemma RunKeepsFaithful(net: Net, c: Context)
    requires Inv(net, c) && c.pass == LaidOut && Formed(net, Compute(net, c))
    ensures AllFaithful(net, Compute(net, c))
  {
    var c' := Compute(net, c);
    hide Listed, Busy, Solo, WindowOf;
    forall i | 0 <= i < |c'.streams| && c'.streams[i].live
      ensures FaithfulAt(net, c', i)
    {
      assert FaithfulAt(net, c, i);
      LaneAfterRun(net, c, i);
      hide Exclusive, Masked, Net.Valid, Formed;
    }
  }

  lemma RunGraphKeepsInv(net: Net, c: Context)
    requires Inv(net, c) && Enabled(net, c, RunGraph)
    ensures Inv(net, Next(net, c, RunGraph))
  {
    RunKeepsLists(net, c);
    RunKeepsFormed(net, c);
    RunKeepsFaithful(net, c);
    hide Compute, Formed, Exclusive, Listed, Masked, AllFaithful;
  }

  lemma HandBackKeepsLists(c: Context)
    requires Exclusive(c) && Listed(c) && Masked(c) && |c.out| == Capacity(c) && Names(c.streams, c.batch, Capacity(c))
    requires c.pass == Computed
    ensures var c' := Finished(c); Exclusive(c') && Listed(c')
  {
  }

  lemma HandBackKeepsMasks(c: Context)
    requires Exclusive(c) && Listed(c) && Masked(c) && |c.out| == Capacity(c) && Names(c.streams, c.batch, Capacity(c))
    requires c.pass == Computed
    ensures Masked(Finished(c))
  {
    HandBackKeepsLists(c);
    QuietLanes(Finished(c));
    PutBackAt(c.host, c.streams, c.batch, Capacity(c));
    forall k | 0 <= k < Capacity(c)
      ensures Busy(c, k) ==> Taken(c.streams, c.batch, k)
    {
    }
    hide PutBack, Busy, Listed, Exclusive;
  }

  lemma HandBackKeepsFormed(net: Net, c: Context)
    requires Formed(net, c) && c.pass == Computed
    ensures Formed(net, Finished(c))
  {
    PutBackAt(c.host, c.streams, c.batch, Capacity(c));
    hide PutBack, Net.Valid, Taken;
    var c' := Finished(c);
    forall i | 0 <= i < |c.streams|
      ensures SizedStream(net, c'.streams[i])
    {
      assert SizedStream(net, c.streams[i]);
      assert i in c.batch ==> c.streams[i].slot < Capacity(c);
    }
  }

  lemma HandBackKeepsFaithful(net: Net, c: Context)
    requires Inv(net, c) && c.pass == Computed && Formed(net, Finished(c))
    ensures AllFaithful(net, Finished(c))
  {
    var c' := Finished(c);
    hide PutBack, Exclusive, Net.Valid, Masked, Busy, Solo, Stepped, WindowOf, Formed;
    forall i | 0 <= i < |c'.streams| && c'.streams[i].live
      ensures FaithfulAt(net, c', i)
    {
      assert FaithfulAt(net, c, i);
    }
  }

  lemma HandBackKeepsInv(net: Net, c: Context)
    requires Inv(net, c) && Enabled(net, c, HandBack)
    ensures Inv(net, Next(net, c, HandBack))
  {
    HandBackKeepsLists(c);
    HandBackKeepsMasks(c);
    HandBackKeepsFormed(net, c);
    HandBackKeepsFaithful(net, c);
    hide Finished, Formed, Exclusive, Listed, Masked, AllFaithful;
  }

  // ------------------------------------------------------------ every run

  lemma NextKeepsInv(net: Net, c: Context, step: Step)
    requires Inv(net, c) && Enabled(net, c, step)
    ensures Inv(net, Next(net, c, step))
  {
    hide Inv, Next, Enabled;
    match step {
      case Create => CreateKeepsInv(net, c);
      case Clear(id) => ClearKeepsInv(net, c, id);
      case Free(id) => FreeKeepsInv(net, c, id);
      case Bring(id, hop) => BringKeepsInv(net, c, id, hop);
      case Queue(id) => QueueKeepsInv(net, c, id);
      case Gather(id) => GatherKeepsInv(net, c, id);
      case TakeBatch => TakeBatchKeepsInv(net, c);
      case RunGraph => RunGraphKeepsInv(net, c);
      case HandBack => HandBackKeepsInv(net, c);
    }
  }

  /** The contexts the steps lead through, one after each. */
  ghost predicate IsRun(net: Net, cs: seq<Context>, steps: seq<Step>) {
    && |cs| == |steps| + 1 && net.Valid() && cs[0] == Opened(net)
    && (forall i :: 0 <= i < |steps| ==>
          Formed(net, cs[i]) && Enabled(net, cs[i], steps[i]) && cs[i + 1] == Next(net, cs[i], steps[i]))
  }

  /** In every interleaving of creations, clearings, frees, hops and passes, at
      every moment: what a stream gave back since it was cleared is what it
      would have given alone. */
  lemma {:induction false} EveryStreamIsAlone(net: Net, cs: seq<Context>, steps: seq<Step>, n: nat)
    requires IsRun(net, cs, steps) && n < |cs|
    ensures Inv(net, cs[n])
    ensures forall id :: 0 <= id < |cs[n].streams| && cs[n].streams[id].live ==>
              var s := cs[n].streams[id];
              (forall h :: h in s.hops ==> Sized(net, h)) && s.outs == Solo(net, s.hops).outs
  {
    if n == 0 {
      assert Inv(net, Opened(net));
    } else {
      EveryStreamIsAlone(net, cs, steps, n - 1);
      hide Inv;
      NextKeepsInv(net, cs[n - 1], steps[n - 1]);
    }
    InvMeansAlone(net, cs[n]);
  }

  /** With no pass running every lane is at rest, and no two live streams share
      a lane, growths and reuse of slots included. */
  lemma LanesRest(net: Net, cs: seq<Context>, steps: seq<Step>, n: nat)
    requires IsRun(net, cs, steps) && n < |cs|
    ensures Exclusive(cs[n]) && Holds(cs[n].host, Capacity(cs[n]))
    ensures cs[n].pass == Waiting ==>
              forall k :: 0 <= k < Capacity(cs[n]) ==> cs[n].host.valid[k] == 0.0 && cs[n].host.hold[k] == 1.0
  {
    EveryStreamIsAlone(net, cs, steps, n);
    if cs[n].pass == Waiting {
      QuietLanes(cs[n]);
    }
    hide IsRun, Formed, AllFaithful, Busy;
  }

  lemma InvMeansAlone(net: Net, c: Context)
    requires Inv(net, c)
    ensures forall id :: 0 <= id < |c.streams| && c.streams[id].live ==>
              var s := c.streams[id];
              (forall h :: h in s.hops ==> Sized(net, h)) && s.outs == Solo(net, s.hops).outs
  {
  }

  /** Through the whole batched machine: a network that only weighs its window,
      by halves that sum to one, gives every stream its own microphone back one
      hop late. */
  lemma BatchedReconstruction(net: Net, g: Vec, cs: seq<Context>, steps: seq<Step>, n: nat, id: nat, k: nat)
    requires IsRun(net, cs, steps) && n < |cs| && id < |cs[n].streams| && cs[n].streams[id].live
    requires Weighs(net, g) && HalvesSumToOne(net, g) && k < |cs[n].streams[id].outs|
    ensures var s := cs[n].streams[id];
            |s.outs| == |s.hops| && s.outs[k] == if k == 0 then Silence(net.hop) else s.hops[k - 1].mic
  {
    EveryStreamIsAlone(net, cs, steps, n);
    hide IsRun, Inv;
    Reconstructs(net, g, cs[n].streams[id].hops);
  }
}
