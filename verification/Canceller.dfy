/** The batched echo canceller: many streams, one graph. Callers and a worker
    share the slots, the host buffers and the queue under one lock; the pass
    itself runs off it. A step is one critical section or one stretch of work
    that touches nothing shared. */
module Canceller {
  import opened Seqs
  import opened Overlap

  /** Where a stream is on its way through one hop. */
  datatype At = Resting | Prepared | InQueue | InBatch | Ready

  /** A stream as its caller holds it. `hops` and `outs` are what it was given
      and gave back since it was last cleared, for the statements alone. */
  datatype Stream = Stream(
    live: bool,
    slot: nat,
    at: At,
    micPrev: Vec,
    farPrev: Vec,
    micWin: Vec,
    farWin: Vec,
    frame: Vec,
    ola: Vec,
    inFlight: Hop,
    hops: seq<Hop>,
    outs: seq<Vec>)

  datatype Pass = Waiting | LaidOut | Computed

  /** What the host keeps per slot: the windows sent, and the two masks. */
  datatype Host = Host(mic: seq<Vec>, far: seq<Vec>, valid: Vec, hold: Vec)

  datatype Context = Context(
    lanes: seq<Vec>,
    used: seq<bool>,
    host: Host,
    out: seq<Vec>,
    queue: seq<nat>,
    batch: seq<nat>,
    pass: Pass,
    streams: seq<Stream>)

  function Capacity(c: Context): nat {
    |c.lanes|
  }

  // ------------------------------------------------------------ slots

  /** The first slot no stream holds; the capacity when all are held. */
  function FirstFree(used: seq<bool>): (slot: nat)
    ensures slot <= |used| && (slot < |used| ==> !used[slot])
    ensures forall k :: 0 <= k < slot ==> used[k]
  {
    if used == [] || !used[0] then 0 else 1 + FirstFree(used[1..])
  }

  method FindSlot(used: seq<bool>) returns (slot: nat)
    ensures slot == FirstFree(used)
  {
    slot := 0;
    while slot < |used| && used[slot]
      invariant slot <= |used| && forall k :: 0 <= k < slot ==> used[k]
    {
      slot := slot + 1;
    }
    FirstFreeIsUnique(used, slot);
  }

  lemma {:induction false} FirstFreeIsUnique(used: seq<bool>, slot: nat)
    requires slot <= |used| && (slot < |used| ==> !used[slot]) && forall k :: 0 <= k < slot ==> used[k]
    ensures FirstFree(used) == slot
  {
  }

  /** One more slot: fresh zeroed histories, the old ones at their head, every
      lane at rest. */
  function Grow(net: Net, c: Context): Context {
    var n := Capacity(c) + 1;
    c.(
      lanes := c.lanes + [Silence(net.depth)],
      used := c.used + [false],
      host := Host(c.host.mic + [Silence(net.nFft)], c.host.far + [Silence(net.nFft)], Silence(n), seq(n, _ => 1.0)),
      out := c.out + [Silence(net.nFft)])
  }

  function NewStream(net: Net, slot: nat): Stream {
    var hop, window := Silence(net.hop), Silence(net.nFft);
    Stream(true, slot, Resting, hop, hop, window, window, window, window, Hop([], []), [], [])
  }

  /** A slot is held again: its history is cleared first. */
  function Take(net: Net, c: Context): Context
    requires |c.used| == Capacity(c)
  {
    var slot := FirstFree(c.used);
    var grown := if slot == Capacity(c) then Grow(net, c) else c;
    grown.(
      used := grown.used[slot := true],
      lanes := grown.lanes[slot := Silence(net.depth)],
      streams := c.streams + [NewStream(net, slot)])
  }

  // ------------------------------------------------------------ the pass

  function LayOne(h: Host, s: Stream): Host
    requires s.slot < |h.mic| == |h.far| == |h.valid| == |h.hold|
  {
    Host(h.mic[s.slot := s.micWin], h.far[s.slot := s.farWin], h.valid[s.slot := 1.0], h.hold[s.slot := 0.0])
  }

  predicate Holds(h: Host, n: nat) {
    |h.mic| == |h.far| == |h.valid| == |h.hold| == n
  }

  predicate Names(streams: seq<Stream>, ids: seq<nat>, n: nat) {
    forall id :: id in ids ==> id < |streams| && streams[id].slot < n
  }

  /** Lays out the hops of a batch, one stream after the other. */
  function LayOut(h: Host, streams: seq<Stream>, batch: seq<nat>, n: nat): (r: Host)
    requires Holds(h, n) && Names(streams, batch, n)
    ensures Holds(r, n)
  {
    if batch == [] then h
    else
      var last := batch[|batch| - 1];
      assert last in batch;
      LayOne(LayOut(h, streams, batch[..|batch| - 1], n), streams[last])
  }

  /** Puts the lanes of a batch back at rest. */
  function PutBack(h: Host, streams: seq<Stream>, batch: seq<nat>, n: nat): (r: Host)
    requires Holds(h, n) && Names(streams, batch, n)
    ensures Holds(r, n)
  {
    if batch == [] then h
    else
      var before := PutBack(h, streams, batch[..|batch| - 1], n);
      var last := batch[|batch| - 1];
      assert last in batch;
      var slot := streams[last].slot;
      before.(valid := before.valid[slot := 0.0], hold := before.hold[slot := 1.0])
  }

  /** The buffers a pass is laid out in, one lane after the other. */
  class HostBuffers {
    const mic: array<Vec>
    const far: array<Vec>
    const valid: array<real>
    const hold: array<real>

    constructor (n: nat, silence: Vec)
      ensures Valid(n) && fresh(mic) && fresh(far) && fresh(valid) && fresh(hold)
      ensures Contents() == Host(seq(n, _ => silence), seq(n, _ => silence), seq(n, _ => 0.0), seq(n, _ => 1.0))
    {
      mic := new Vec[n](_ => silence);
      far := new Vec[n](_ => silence);
      valid := new real[n](_ => 0.0);
      hold := new real[n](_ => 1.0);
    }

    ghost predicate Valid(n: nat) {
      mic.Length == far.Length == valid.Length == hold.Length == n && mic != far && valid != hold
    }

    ghost function Contents(): Host
      reads mic, far, valid, hold
    {
      Host(mic[..], far[..], valid[..], hold[..])
    }

    method LayOutBatch(streams: seq<Stream>, batch: seq<nat>, n: nat)
      requires Valid(n) && Names(streams, batch, n)
      modifies mic, far, valid, hold
      ensures Contents() == LayOut(old(Contents()), streams, batch, n)
    {
      for i := 0 to |batch|
        invariant Contents() == LayOut(old(Contents()), streams, batch[..i], n)
      {
        assert batch[..i + 1][..i] == batch[..i];
        assert batch[i] in batch;
        var s := streams[batch[i]];
        mic[s.slot] := s.micWin;
        far[s.slot] := s.farWin;
        valid[s.slot] := 1.0;
        hold[s.slot] := 0.0;
      }
      assert batch[..|batch|] == batch;
    }

    method PutBackBatch(streams: seq<Stream>, batch: seq<nat>, n: nat)
      requires Valid(n) && Names(streams, batch, n)
      modifies valid, hold
      ensures Contents() == PutBack(old(Contents()), streams, batch, n)
    {
      for i := 0 to |batch|
        invariant Contents() == PutBack(old(Contents()), streams, batch[..i], n)
      {
        assert batch[..i + 1][..i] == batch[..i];
        assert batch[i] in batch;
        var slot := streams[batch[i]].slot;
        valid[slot] := 0.0;
        hold[slot] := 1.0;
      }
      assert batch[..|batch|] == batch;
    }
  }

  /** The write-back of a lane: both values weighted by the masks. */
  function Kept(next: Vec, state: Vec, valid: real, hold: real): (r: Vec)
    requires |next| == |state|
    ensures |r| == |state|
  {
    seq(|state|, i requires 0 <= i < |state| => next[i] * valid + state[i] * hold)
  }

  ghost predicate Fitting(net: Net, c: Context) {
    && net.Valid() && Holds(c.host, Capacity(c)) && |c.used| == |c.out| == Capacity(c)
    && (forall k :: 0 <= k < Capacity(c) ==>
          |c.lanes[k]| == net.depth && |c.host.mic[k]| == net.nFft && |c.host.far[k]| == net.nFft)
    && (forall k :: 0 <= k < Capacity(c) ==> |c.out[k]| == net.nFft)
  }

  ghost function StepOf(net: Net, c: Context, k: nat): (r: (Vec, Vec))
    requires Fitting(net, c) && k < Capacity(c)
    ensures |r.0| == net.depth && |r.1| == net.nFft
  {
    net.step(c.lanes[k], c.host.mic[k], c.host.far[k])
  }

  /** The graph runs every lane of the capacity, busy or not. */
  ghost function Compute(net: Net, c: Context): Context
    requires Fitting(net, c)
  {
    var n := Capacity(c);
    c.(
      lanes := seq(n, k requires 0 <= k < n =>
                 Kept(StepOf(net, c, k).0, c.lanes[k], c.host.valid[k], c.host.hold[k])),
      out := seq(n, k requires 0 <= k < n => StepOf(net, c, k).1),
      pass := Computed)
  }

  function Finished(c: Context): Context
    requires Holds(c.host, Capacity(c)) && Names(c.streams, c.batch, Capacity(c)) && |c.out| == Capacity(c)
  {
    c.(
      host := PutBack(c.host, c.streams, c.batch, Capacity(c)),
      streams := seq(|c.streams|, i requires 0 <= i < |c.streams| =>
                   if i in c.batch then c.streams[i].(frame := c.out[c.streams[i].slot], at := Ready)
                   else c.streams[i]),
      batch := [],
      pass := Waiting)
  }

  // ------------------------------------------------------------ the callers

  function Prepare(net: Net, s: Stream, h: Hop): Stream
    requires Sized(net, h) && |s.micPrev| == |s.farPrev| == net.hop && 2 * net.hop <= net.nFft
  {
    s.(
      micWin := WindowOf(net, s.micPrev, h.mic),
      farWin := WindowOf(net, s.farPrev, h.far),
      micPrev := h.mic,
      farPrev := h.far,
      inFlight := h,
      at := Prepared)
  }

  function Collect(net: Net, s: Stream): Stream
    requires |s.ola| == |s.frame| == net.nFft && net.hop <= net.nFft
  {
    s.(
      outs := s.outs + [Emit(net, s.ola, s.frame)],
      ola := Shift(net, s.ola, s.frame),
      hops := s.hops + [s.inFlight],
      at := Resting)
  }

  function Cleared(net: Net, s: Stream): Stream {
    s.(micPrev := Silence(net.hop), farPrev := Silence(net.hop), ola := Silence(net.nFft), hops := [], outs := [])
  }

  // ------------------------------------------------------------ the system

  /** A stream is created, cleared, freed; it prepares a hop, queues it and
      collects its sound; the worker lays out a batch, runs it and hands back. */
  datatype Step =
    | Create
    | Clear(id: nat)
    | Free(id: nat)
    | Bring(id: nat, hop: Hop)
    | Queue(id: nat)
    | Gather(id: nat)
    | TakeBatch
    | RunGraph
    | HandBack

  predicate Is(c: Context, id: nat, at: At) {
    id < |c.streams| && c.streams[id].live && c.streams[id].at == at
  }

  /** A growth and a clearing wait for the pass; a free does not. */
  predicate Enabled(net: Net, c: Context, step: Step) {
    match step
    case Create => c.pass == Waiting
    case Clear(id) => Is(c, id, Resting) && c.pass == Waiting
    case Free(id) => Is(c, id, Resting)
    case Bring(id, hop) => Is(c, id, Resting) && Sized(net, hop)
    case Queue(id) => Is(c, id, Prepared)
    case Gather(id) => Is(c, id, Ready)
    case TakeBatch => c.pass == Waiting && c.queue != []
    case RunGraph => c.pass == LaidOut
    case HandBack => c.pass == Computed
  }

  function TakenBatch(c: Context): Context
    requires Holds(c.host, Capacity(c)) && Names(c.streams, c.queue, Capacity(c))
  {
    c.(
      host := LayOut(c.host, c.streams, c.queue, Capacity(c)),
      streams := seq(|c.streams|, i requires 0 <= i < |c.streams| =>
                   if i in c.queue then c.streams[i].(at := InBatch) else c.streams[i]),
      batch := c.queue,
      queue := [],
      pass := LaidOut)
  }

  /** Sizes and names, as every step needs them. */
  ghost predicate Formed(net: Net, c: Context) {
    && Fitting(net, c)
    && Names(c.streams, c.queue, Capacity(c)) && Names(c.streams, c.batch, Capacity(c))
    && (forall i :: 0 <= i < |c.streams| && c.streams[i].live ==> c.streams[i].slot < Capacity(c))
    && (forall i :: 0 <= i < |c.streams| ==> SizedStream(net, c.streams[i]))
  }

  predicate SizedStream(net: Net, s: Stream) {
    && |s.micPrev| == |s.farPrev| == net.hop
    && |s.micWin| == |s.farWin| == |s.frame| == |s.ola| == net.nFft
  }

  ghost function Next(net: Net, c: Context, step: Step): Context
    requires Formed(net, c) && Enabled(net, c, step)
  {
    match step
    case Create => Take(net, c)
    case Clear(id) =>
      c.(lanes := c.lanes[c.streams[id].slot := Silence(net.depth)],
         streams := c.streams[id := Cleared(net, c.streams[id])])
    case Free(id) =>
      c.(used := c.used[c.streams[id].slot := false], streams := c.streams[id := c.streams[id].(live := false)])
    case Bring(id, hop) => c.(streams := c.streams[id := Prepare(net, c.streams[id], hop)])
    case Queue(id) => c.(queue := c.queue + [id], streams := c.streams[id := c.streams[id].(at := InQueue)])
    case Gather(id) => c.(streams := c.streams[id := Collect(net, c.streams[id])])
    case TakeBatch => TakenBatch(c)
    case RunGraph => Compute(net, c)
    case HandBack => Finished(c)
  }

  /** One slot, nothing running, nobody there. */
  function Opened(net: Net): Context {
    var window := Silence(net.nFft);
    Context([Silence(net.depth)], [false], Host([window], [window], [0.0], [1.0]), [window], [], [], Waiting, [])
  }
}
