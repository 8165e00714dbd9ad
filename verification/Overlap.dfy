/** One stream of the echo canceller on its own: the analysis window, the
    network step, the overlap-add. The network is an arbitrary function from a
    history and two windows to a history and a frame. */
module Overlap {
  import opened Seqs

  type Vec = seq<real>

  datatype Hop = Hop(mic: Vec, far: Vec)

  /** Sizes, and the step one lane takes. */
  datatype Net = Net(hop: nat, nFft: nat, depth: nat, step: (Vec, Vec, Vec) -> (Vec, Vec))
  {
    ghost predicate Valid() {
      && 0 < hop && 2 * hop <= nFft
      && (forall h, m, r :: |h| == depth && |m| == nFft && |r| == nFft ==>
            |step(h, m, r).0| == depth && |step(h, m, r).1| == nFft)
    }
  }

  function Sum(a: Vec, b: Vec): Vec
    requires |a| == |b|
  {
    seq(|a|, i requires 0 <= i < |a| => a[i] + b[i])
  }

  predicate Sized(net: Net, h: Hop) {
    |h.mic| == net.hop && |h.far| == net.hop
  }

  /** The analysis window: the previous hop followed by the current one. */
  function WindowOf(net: Net, prev: Vec, cur: Vec): (w: Vec)
    requires |prev| == |cur| == net.hop && 2 * net.hop <= net.nFft
    ensures |w| == net.nFft
  {
    prev + cur + Silence(net.nFft - 2 * net.hop)
  }

  function Emit(net: Net, ola: Vec, frame: Vec): Vec
    requires |ola| == |frame| == net.nFft && net.hop <= net.nFft
  {
    Sum(ola, frame)[..net.hop]
  }

  function Shift(net: Net, ola: Vec, frame: Vec): (r: Vec)
    requires |ola| == |frame| == net.nFft && net.hop <= net.nFft
    ensures |r| == net.nFft
  {
    Sum(ola, frame)[net.hop..] + Silence(net.hop)
  }

  method AddFrame(ola: array<real>, frame: array<real>)
    requires ola != frame && ola.Length == frame.Length
    modifies ola
    ensures ola[..] == Sum(old(ola[..]), frame[..])
  {
    var i := 0;
    while i < ola.Length
      invariant 0 <= i <= ola.Length
      invariant forall k :: 0 <= k < i ==> ola[k] == old(ola[k]) + frame[k]
      invariant forall k :: i <= k < ola.Length ==> ola[k] == old(ola[k])
    {
      ola[i] := ola[i] + frame[i];
      i := i + 1;
    }
  }

  /** Moves a buffer down by one hop and clears its end. */
  method ShiftDown(ola: array<real>, hop: nat)
    requires hop <= ola.Length
    modifies ola
    ensures ola[..] == old(ola[..])[hop..] + Silence(hop)
  {
    var i := hop;
    while i < ola.Length
      invariant hop <= i <= ola.Length
      invariant forall k :: 0 <= k < i - hop ==> ola[k] == old(ola[..])[k + hop]
      invariant forall k :: i - hop <= k < ola.Length ==> ola[k] == old(ola[..])[k]
    {
      ola[i - hop] := ola[i];
      i := i + 1;
    }
    i := ola.Length - hop;
    while i < ola.Length
      invariant ola.Length - hop <= i <= ola.Length
      invariant forall k :: 0 <= k < ola.Length - hop ==> ola[k] == old(ola[..])[k + hop]
      invariant forall k :: ola.Length - hop <= k < i ==> ola[k] == 0.0
    {
      ola[i] := 0.0;
      i := i + 1;
    }
  }

  /** The overlap-add of one hop, in place. */
  method OverlapAdd(net: Net, ola: array<real>, frame: array<real>, out: array<real>)
    requires 0 < net.hop <= net.nFft && ola.Length == frame.Length == net.nFft && out.Length == net.hop
    requires ola != frame && ola != out && frame != out
    modifies ola, out
    ensures out[..] == Emit(net, old(ola[..]), old(frame[..]))
    ensures ola[..] == Shift(net, old(ola[..]), old(frame[..]))
    ensures frame[..] == old(frame[..])
  {
    AddFrame(ola, frame);
    var i := 0;
    while i < net.hop
      invariant 0 <= i <= net.hop
      invariant ola[..] == Sum(old(ola[..]), old(frame[..])) && frame[..] == old(frame[..])
      invariant forall k :: 0 <= k < i ==> out[k] == ola[k]
    {
      out[i] := ola[i];
      i := i + 1;
    }
    assert out[..] == ola[..][..net.hop];
    hide Sum, Silence;
    ShiftDown(ola, net.hop);
  }

  // ------------------------------------------------------------ a stream alone

  datatype Alone = Alone(history: Vec, micPrev: Vec, farPrev: Vec, ola: Vec, outs: seq<Vec>)

  predicate Fits(net: Net, a: Alone) {
    && |a.history| == net.depth && |a.micPrev| == net.hop && |a.farPrev| == net.hop && |a.ola| == net.nFft
  }

  /** What the network makes of one more hop. */
  function Stepped(net: Net, a: Alone, h: Hop): (r: (Vec, Vec))
    requires net.Valid() && Fits(net, a) && Sized(net, h)
    ensures |r.0| == net.depth && |r.1| == net.nFft
  {
    net.step(a.history, WindowOf(net, a.micPrev, h.mic), WindowOf(net, a.farPrev, h.far))
  }

  function AloneHop(net: Net, a: Alone, h: Hop): (r: Alone)
    requires net.Valid() && Fits(net, a) && Sized(net, h)
    ensures Fits(net, r)
  {
    var step := Stepped(net, a, h);
    Alone(step.0, h.mic, h.far, Shift(net, a.ola, step.1), a.outs + [Emit(net, a.ola, step.1)])
  }

  /** The hops of one stream, alone, from a zero history. */
  function Solo(net: Net, hops: seq<Hop>): (a: Alone)
    requires net.Valid() && forall h :: h in hops ==> Sized(net, h)
    ensures Fits(net, a) && |a.outs| == |hops|
  {
    if hops == [] then
      Alone(Silence(net.depth), Silence(net.hop), Silence(net.hop), Silence(net.nFft), [])
    else
      AloneHop(net, Solo(net, hops[..|hops| - 1]), hops[|hops| - 1])
  }

  // ------------------------------------------------------------ reconstruction

  /** A network that only weighs the microphone window by g. */
  ghost predicate Weighs(net: Net, g: Vec) {
    && |g| == net.nFft
    && (forall h, m, r :: |h| == net.depth && |m| == net.nFft && |r| == net.nFft ==>
          net.step(h, m, r).1 == Weighted(g, m))
  }

  function Weighted(g: Vec, m: Vec): Vec
    requires |g| == |m|
  {
    seq(|g|, i requires 0 <= i < |g| => g[i] * m[i])
  }

  /** Two halves of the gain that overlap sum to one. */
  predicate HalvesSumToOne(net: Net, g: Vec) {
    |g| == net.nFft == 2 * net.hop && forall i :: 0 <= i < net.hop ==> g[i] + g[i + net.hop] == 1.0
  }

  /** What is left in the overlap buffer: the second half of the last window. */
  predicate KeepsTail(net: Net, g: Vec, ola: Vec, prev: Vec)
    requires HalvesSumToOne(net, g) && |ola| == net.nFft && |prev| == net.hop
  {
    forall i :: 0 <= i < net.nFft ==> ola[i] == if i < net.hop then g[i + net.hop] * prev[i] else 0.0
  }

  lemma EmitsPrevious(net: Net, g: Vec, a: Alone, h: Hop)
    requires Fits(net, a) && Sized(net, h) && HalvesSumToOne(net, g) && KeepsTail(net, g, a.ola, a.micPrev)
    ensures Emit(net, a.ola, Weighted(g, WindowOf(net, a.micPrev, h.mic))) == a.micPrev
  {
    var frame := Weighted(g, WindowOf(net, a.micPrev, h.mic));
    forall i | 0 <= i < net.hop
      ensures Emit(net, a.ola, frame)[i] == a.micPrev[i]
    {
      assert g[i + net.hop] * a.micPrev[i] + g[i] * a.micPrev[i] == (g[i + net.hop] + g[i]) * a.micPrev[i];
    }
  }

  lemma LeavesTail(net: Net, g: Vec, a: Alone, h: Hop)
    requires Fits(net, a) && Sized(net, h) && HalvesSumToOne(net, g) && KeepsTail(net, g, a.ola, a.micPrev)
    ensures KeepsTail(net, g, Shift(net, a.ola, Weighted(g, WindowOf(net, a.micPrev, h.mic))), h.mic)
  {
  }

  lemma StepWeighs(net: Net, g: Vec, a: Alone, h: Hop)
    requires net.Valid() && Weighs(net, g) && Fits(net, a) && Sized(net, h)
    ensures Stepped(net, a, h).1 == Weighted(g, WindowOf(net, a.micPrev, h.mic))
  {
  }

  lemma HopReconstructs(net: Net, g: Vec, a: Alone, h: Hop)
    requires net.Valid() && Weighs(net, g) && HalvesSumToOne(net, g)
    requires Fits(net, a) && Sized(net, h) && KeepsTail(net, g, a.ola, a.micPrev)
    ensures KeepsTail(net, g, AloneHop(net, a, h).ola, h.mic)
    ensures AloneHop(net, a, h).outs == a.outs + [a.micPrev]
  {
    EmitsPrevious(net, g, a, h);
    LeavesTail(net, g, a, h);
    StepWeighs(net, g, a, h);
    hide Emit, Shift, Weighted, WindowOf, HalvesSumToOne, Weighs, Stepped, Net.Valid, KeepsTail;
  }

  lemma KeepsMic(net: Net, a: Alone, h: Hop)
    requires net.Valid() && Fits(net, a) && Sized(net, h)
    ensures AloneHop(net, a, h).micPrev == h.mic
  {
  }

  lemma SilentTail(net: Net, g: Vec)
    requires HalvesSumToOne(net, g)
    ensures KeepsTail(net, g, Silence(net.nFft), Silence(net.hop))
  {
  }

  /** With half overlap and halves that sum to one, output hop k is exactly
      input hop k - 1, and the first output is silence. */
  lemma {:induction false} Reconstructs(net: Net, g: Vec, hops: seq<Hop>)
    requires net.Valid() && Weighs(net, g) && HalvesSumToOne(net, g)
    requires forall h :: h in hops ==> Sized(net, h)
    ensures var a := Solo(net, hops);
            && KeepsTail(net, g, a.ola, a.micPrev)
            && (a.micPrev == if hops == [] then Silence(net.hop) else hops[|hops| - 1].mic)
            && (forall k :: 0 <= k < |hops| ==> a.outs[k] == if k == 0 then Silence(net.hop) else hops[k - 1].mic)
  {
    hide AloneHop, Weighs, Net.Valid;
    if hops != [] {
      var before := hops[..|hops| - 1];
      Reconstructs(net, g, before);
      HopReconstructs(net, g, Solo(net, before), hops[|hops| - 1]);
      KeepsMic(net, Solo(net, before), hops[|hops| - 1]);
      hide KeepsTail, HalvesSumToOne;
    } else {
      SilentTail(net, g);
    }
  }
}
