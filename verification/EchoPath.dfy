/** The server side echo path of a connection: the microphone and the reference
    are resampled side by side, cut into hops together, and cancelled. Switching
    the echo mode restarts both. */
module EchoPath {
  import opened Seqs
  import opened Arithmetic
  import opened Overlap
  import R = Resample

  type Samples = seq<real>

  // ------------------------------------------------------------ hops

  /** The complete hops of two buffers of one length. */
  function CutHops(hop: nat, mic: Samples, far: Samples): (hops: seq<Hop>)
    requires hop > 0 && |mic| == |far|
    ensures forall h :: h in hops ==> |h.mic| == |h.far| == hop
    decreases |mic|
  {
    if |mic| < hop then [] else [Hop(mic[..hop], far[..hop])] + CutHops(hop, mic[hop..], far[hop..])
  }

  /** What is left of a buffer after its complete hops. */
  function Left(hop: nat, m: Samples): (r: Samples)
    requires hop > 0
    ensures |r| < hop
  {
    if |m| < hop then m else Left(hop, m[hop..])
  }

  lemma {:induction false} LeftAppend(hop: nat, m: Samples, x: Samples)
    requires hop > 0
    ensures Left(hop, m + x) == Left(hop, Left(hop, m) + x)
    decreases |m|
  {
    if |m| >= hop {
      LeftAppend(hop, m[hop..], x);
      assert (m + x)[hop..] == m[hop..] + x;
    }
  }

  lemma {:induction false} SameLeft(hop: nat, mic: Samples, far: Samples)
    requires hop > 0 && |mic| == |far|
    ensures |Left(hop, mic)| == |Left(hop, far)|
    decreases |mic|
  {
    if |mic| >= hop {
      SameLeft(hop, mic[hop..], far[hop..]);
    }
  }

  lemma {:induction false} CutAppend(hop: nat, mic: Samples, far: Samples, x: Samples, y: Samples)
    requires hop > 0 && |mic| == |far| && |x| == |y|
    ensures |Left(hop, mic)| == |Left(hop, far)|
    ensures CutHops(hop, mic + x, far + y)
         == CutHops(hop, mic, far) + CutHops(hop, Left(hop, mic) + x, Left(hop, far) + y)
    decreases |mic|
  {
    SameLeft(hop, mic, far);
    if |mic| >= hop {
      CutAppend(hop, mic[hop..], far[hop..], x, y);
      assert (mic + x)[hop..] == mic[hop..] + x && (far + y)[hop..] == far[hop..] + y;
      assert (mic + x)[..hop] == mic[..hop] && (far + y)[..hop] == far[..hop];
    }
  }

  lemma {:induction false} CutCount(hop: nat, mic: Samples, far: Samples)
    requires hop > 0 && |mic| == |far|
    ensures |CutHops(hop, mic, far)| == |mic| / hop
    decreases |mic|
  {
    if |mic| >= hop {
      CutCount(hop, mic[hop..], far[hop..]);
      DivStep(|mic| - hop, hop);
    } else {
      DivIs(|mic|, hop, 0, |mic|);
    }
  }

  lemma LeftOnce(hop: nat, m: Samples)
    requires hop > 0
    ensures Left(hop, m) == if |m| < hop then m else Left(hop, m[hop..])
  {
  }

  lemma TakeHop(n: nat, hop: nat)
    requires n > 0
    ensures n * hop - hop == (n - 1) * hop >= 0
  {
    assert n * hop == (n - 1) * hop + hop;
  }

  lemma {:induction false} LeftAfter(hop: nat, m: Samples, n: nat, used: nat)
    requires hop > 0 && used == n * hop && used <= |m| < used + hop
    ensures Left(hop, m) == m[used..]
    decreases n
  {
    hide Left;
    LeftOnce(hop, m);
    if n > 0 {
      TakeHop(n, hop);
      LeftAfter(hop, m[hop..], n - 1, used - hop);
      assert m[hop..][used - hop..] == m[used..];
    }
  }

  /** Sample i left in a buffer is sample i past the hops cut so far. */
  lemma LeftAt(hop: nat, m: Samples)
    requires hop > 0
    ensures var used := |m| / hop * hop; used <= |m| && Left(hop, m) == m[used..]
  {
    LeftAfter(hop, m, |m| / hop, |m| / hop * hop);
  }

  // ------------------------------------------------------------ cancelling

  predicate AllSized(net: Net, hops: seq<Hop>) {
    forall h :: h in hops ==> Sized(net, h)
  }

  function AloneHops(net: Net, a: Alone, hops: seq<Hop>): (r: Alone)
    requires net.Valid() && Fits(net, a) && AllSized(net, hops)
    ensures Fits(net, r)
  {
    if hops == [] then a
    else AloneHop(net, AloneHops(net, a, hops[..|hops| - 1]), hops[|hops| - 1])
  }

  lemma {:induction false} SoloAppend(net: Net, before: seq<Hop>, hops: seq<Hop>)
    requires net.Valid() && AllSized(net, before) && AllSized(net, hops)
    ensures AllSized(net, before + hops)
    ensures Solo(net, before + hops) == AloneHops(net, Solo(net, before), hops)
  {
    if hops == [] {
      assert before + hops == before;
    } else {
      SoloAppend(net, before, hops[..|hops| - 1]);
      assert (before + hops)[..|before + hops| - 1] == before + hops[..|hops| - 1];
    }
  }

  lemma AloneHopsSnoc(net: Net, a: Alone, hops: seq<Hop>, h: Hop)
    requires net.Valid() && Fits(net, a) && AllSized(net, hops) && Sized(net, h)
    ensures AllSized(net, hops + [h])
    ensures AloneHops(net, a, hops + [h]) == AloneHop(net, AloneHops(net, a, hops), h)
  {
  }

  /** A reference as long as the microphone played; anything else is silence. */
  function Played(audio: Samples, reference: Samples): (r: Samples)
    ensures |r| == |audio|
  {
    if |reference| == |audio| then reference else Silence(|audio|)
  }

  /** A frame of the client: the microphone, and what was played meanwhile. */
  datatype Sent = Sent(audio: Samples, reference: Samples)

  function MicOf(frames: seq<Sent>): Samples {
    if frames == [] then [] else MicOf(frames[..|frames| - 1]) + frames[|frames| - 1].audio
  }

  /** The references of some frames, zeros for a frame that has none. */
  function RefOf(frames: seq<Sent>): (r: Samples)
    ensures |r| == |MicOf(frames)|
  {
    if frames == [] then []
    else
      var last := frames[|frames| - 1];
      RefOf(frames[..|frames| - 1])
      + seq(|last.audio|, i requires 0 <= i < |last.audio| =>
              if |last.reference| == |last.audio| then last.reference[i] else 0.0)
  }

  /** Sample o of frame f, in the two streams that came in. */
  lemma {:induction false} SampleOfFrame(frames: seq<Sent>, f: nat, o: nat)
    requires f < |frames| && o < |frames[f].audio|
    ensures var at := |MicOf(frames[..f])| + o;
            && at < |MicOf(frames)|
            && MicOf(frames)[at] == frames[f].audio[o]
            && RefOf(frames)[at] ==
                 if |frames[f].reference| == |frames[f].audio| then frames[f].reference[o] else 0.0
  {
    if f < |frames| - 1 {
      var before := frames[..|frames| - 1];
      assert before[..f] == frames[..f];
      SampleOfFrame(before, f, o);
    }
  }

  /** A stream gains the reference of a frame, or zeros when that has another
      length than the microphone. */
  predicate GainsReference(was: Samples, now: Samples, audio: Samples, reference: Samples) {
    && |now| == |was| + |audio| && was <= now
    && (|reference| == |audio| ==> now == was + reference)
    && (|reference| != |audio| ==> forall i :: |was| <= i < |now| ==> now[i] == 0.0)
  }

  lemma PlayedGains(was: Samples, audio: Samples, reference: Samples)
    ensures GainsReference(was, was + Played(audio, reference), audio, reference)
  {
  }

  lemma OneMoreFrame(frames: seq<Sent>, f: Sent)
    ensures MicOf(frames + [f]) == MicOf(frames) + f.audio
    ensures RefOf(frames + [f]) == RefOf(frames) + Played(f.audio, f.reference)
  {
    assert (frames + [f])[..|frames|] == frames;
  }

  class Path {
    const net: Net
    const k: R.Kernel
    const mic: R.Stream
    const far: R.Stream
    var mode: string
    var on: bool
    var aecMic: Samples
    var aecFar: Samples
    var canceller: Alone
    // Since the canceller was last switched on: the frames that came in, what
    // was resampled of them, and the hops the canceller was given.
    ghost var frames: seq<Sent>
    ghost var micSent: Samples
    ghost var farSent: Samples
    ghost var given: seq<Hop>

    ghost function MicStream(): Samples
      requires k.Valid()
      reads this
    {
      R.Blocks(k, Silence(k.width) + micSent)
    }

    ghost function FarStream(): Samples
      requires k.Valid()
      reads this
    {
      R.Blocks(k, Silence(k.width) + farSent)
    }

    ghost predicate Formed()
      reads this, mic, far
    {
      && net.Valid() && k.Valid() && mic != far && mic.k == k && far.k == k && mic.Valid() && far.Valid()
      && Fits(net, canceller)
    }

    /** While it cancels, both sides hold the same stretch of equally long
        streams, less than a hop of it, and the hops already cut are the ones
        of those streams. */
    ghost predicate Aligned()
      requires Formed()
      reads this, mic, far
    {
      && micSent == MicOf(frames) && farSent == RefOf(frames)
      && |micSent| == |farSent| && |MicStream()| == |FarStream()|
      && mic.history == R.Rest(k, Silence(k.width) + micSent)
      && far.history == R.Rest(k, Silence(k.width) + farSent)
      && aecMic == Left(net.hop, MicStream()) && aecFar == Left(net.hop, FarStream())
      && given == CutHops(net.hop, MicStream(), FarStream())
      && canceller == Solo(net, given)
    }

    ghost predicate Valid()
      reads this, mic, far
    {
      Formed() && (on ==> Aligned())
    }

    constructor (net: Net, k: R.Kernel)
      requires net.Valid() && k.Valid()
      ensures Valid() && !on && mode == "client" && this.net == net && this.k == k && fresh(mic) && fresh(far)
    {
      this.net := net;
      this.k := k;
      var m := new R.Stream(k);
      var f := new R.Stream(k);
      mic := m;
      far := f;
      mode := "client";
      on := false;
      aecMic := [];
      aecFar := [];
      canceller := Solo(net, []);
      frames := [];
      micSent := [];
      farSent := [];
      given := [];
    }

    /** A new echo mode: a fresh canceller, when there is one to be had, that
        knows nothing, and both resamplings from their start. */
    method Switch(echo: string, available: bool)
      requires Valid()
      modifies this, mic, far
      ensures Valid()
      ensures if echo != "" && echo != old(mode) then
                && mode == echo && on == ((echo == "server" || echo == "both") && available)
                && frames == [] && micSent == farSent == [] && given == [] && aecMic == aecFar == []
              else
                && mode == old(mode) && on == old(on) && micSent == old(micSent) && farSent == old(farSent)
                && given == old(given) && frames == old(frames)
    {
      if echo != "" && echo != mode {
        mode := echo;
        on := (echo == "server" || echo == "both") && available;
        aecMic := [];
        aecFar := [];
        mic.Restart();
        far.Restart();
        canceller := Solo(net, []);
        frames := [];
        micSent := [];
        farSent := [];
        given := [];
        assert Silence(k.width) + [] == Silence(k.width);
      }
    }

    /** Both resamplings have taken in one more stretch of equal length, whose
        hops are still to be cut. */
    ghost predicate TakenIn(audio: Samples, played: Samples, pcm: Samples, farPcm: Samples)
      requires Formed()
      reads this, mic, far
    {
      var micAll, farAll := Silence(k.width) + (micSent + audio), Silence(k.width) + (farSent + played);
      && micSent == MicOf(frames) && farSent == RefOf(frames)
      && |audio| == |played| && |pcm| == |farPcm| && |micSent| == |farSent| && |MicStream()| == |FarStream()|
      && mic.history == R.Rest(k, micAll) && far.history == R.Rest(k, farAll)
      && R.Blocks(k, micAll) == MicStream() + pcm && R.Blocks(k, farAll) == FarStream() + farPcm
      && aecMic == Left(net.hop, MicStream()) && aecFar == Left(net.hop, FarStream())
      && given == CutHops(net.hop, MicStream(), FarStream()) && canceller == Solo(net, given)
    }

    /** One microphone frame: resampled, and cleaned as far as hops are whole. */
    method Frame(audio: Samples, reference: Samples) returns (pcm: Samples)
      requires Valid()
      modifies this, mic, far
      ensures Valid() && on == old(on) && mode == old(mode)
      ensures on ==> frames == old(frames) + [Sent(audio, reference)] && micSent == old(micSent) + audio
      ensures on ==> GainsReference(old(farSent), farSent, audio, reference)
      ensures on ==> Concat(Solo(net, given).outs) == Concat(old(Solo(net, given).outs)) + pcm
      ensures !on ==> pcm == R.Blocks(k, old(mic.history) + audio)
    {
      pcm := mic.Push(audio);
      if on {
        var played := Played(audio, reference);
        var farPcm := far.Push(played);
        hide CutHops, Left, Solo, Concat, GainsReference, MicOf, RefOf;
        StreamsGrow(audio, played);
        EqualStretches(audio, played, pcm, farPcm);
        pcm := CancelFrame(audio, reference, pcm, farPcm);
      }
    }

    lemma EqualStretches(audio: Samples, played: Samples, pcm: Samples, farPcm: Samples)
      requires Formed() && |micSent| == |farSent| && |audio| == |played| && |MicStream()| == |FarStream()|
      requires R.Blocks(k, Silence(k.width) + (micSent + audio)) == MicStream() + pcm
      requires R.Blocks(k, Silence(k.width) + (farSent + played)) == FarStream() + farPcm
      ensures |pcm| == |farPcm|
    {
      var micAll, farAll := R.Blocks(k, Silence(k.width) + (micSent + audio)),
                            R.Blocks(k, Silence(k.width) + (farSent + played));
      SameLength(k, MicStream(), FarStream(), micAll, farAll, pcm, farPcm, micSent + audio, farSent + played);
    }

    /** The hops that a stretch taken in completes, through the canceller. */
    method CancelFrame(ghost audio: Samples, ghost reference: Samples, pcm: Samples, farPcm: Samples)
      returns (clean: Samples)
      requires Formed() && TakenIn(audio, Played(audio, reference), pcm, farPcm)
      modifies this`aecMic, this`aecFar, this`canceller, this`given, this`micSent, this`farSent, this`frames
      ensures Formed() && Aligned()
      ensures frames == old(frames) + [Sent(audio, reference)] && micSent == old(micSent) + audio
      ensures GainsReference(old(farSent), farSent, audio, reference)
      ensures Concat(Solo(net, given).outs) == Concat(old(Solo(net, given).outs)) + clean
    {
      hide GainsReference, MicOf, RefOf;
      ghost var micWas, farWas := MicStream(), FarStream();
      PlayedGains(farSent, audio, reference);
      OneMoreFrame(frames, Sent(audio, reference));
      frames := frames + [Sent(audio, reference)];
      micSent := micSent + audio;
      farSent := farSent + Played(audio, reference);
      CutAppend(net.hop, micWas, farWas, pcm, farPcm);
      LeftAppend(net.hop, micWas, pcm);
      LeftAppend(net.hop, farWas, farPcm);
      clean := CancelEcho(pcm, farPcm);
    }

    /** The two streams after this frame. */
    lemma StreamsGrow(audio: Samples, played: Samples)
      requires Formed()
      ensures var start := Silence(k.width);
              && R.Blocks(k, start + (micSent + audio))
              == MicStream() + R.Blocks(k, R.Rest(k, start + micSent) + audio)
              && R.Rest(k, start + (micSent + audio)) == R.Rest(k, R.Rest(k, start + micSent) + audio)
              && R.Blocks(k, start + (farSent + played))
              == FarStream() + R.Blocks(k, R.Rest(k, start + farSent) + played)
              && R.Rest(k, start + (farSent + played)) == R.Rest(k, R.Rest(k, start + farSent) + played)
    {
      var start := Silence(k.width);
      R.BlocksAppend(k, start + micSent, audio);
      R.BlocksAppend(k, start + farSent, played);
      assert start + (micSent + audio) == start + micSent + audio;
      assert start + (farSent + played) == start + farSent + played;
    }

    /** Every complete hop through the canceller, the rest kept. */
    method CancelEcho(pcm: Samples, reference: Samples) returns (clean: Samples)
      requires Formed() && |pcm| == |reference| && |aecMic| == |aecFar|
      requires AllSized(net, given) && canceller == Solo(net, given)
      modifies this`aecMic, this`aecFar, this`canceller, this`given
      ensures aecMic == Left(net.hop, old(aecMic) + pcm) && aecFar == Left(net.hop, old(aecFar) + reference)
      ensures given == old(given) + CutHops(net.hop, old(aecMic) + pcm, old(aecFar) + reference)
      ensures AllSized(net, given) && canceller == Solo(net, given)
      ensures Fits(net, canceller)
      ensures Concat(canceller.outs) == Concat(old(canceller.outs)) + clean
    {
      aecMic := aecMic + pcm;
      aecFar := aecFar + reference;
      hide CutHops, Left, Solo, Concat, Net.Valid;
      ghost var more := CutHops(net.hop, aecMic, aecFar);
      SoloAppend(net, given, more);
      var done;
      canceller, clean, done := CancelHops(net, canceller, aecMic, aecFar);
      given := given + more;
      aecMic := aecMic[done..];
      aecFar := aecFar[done..];
    }
  }

  /** Where the loop over the hops stands: these hops are done, from these
      places the rest is still to be cut. */
  predicate CutTo(hop: nat, mic: Samples, far: Samples, done: nat, more: seq<Hop>)
    requires hop > 0 && |mic| == |far|
  {
    && done <= |mic| && CutHops(hop, mic, far) == more + CutHops(hop, mic[done..], far[done..])
    && Left(hop, mic) == Left(hop, mic[done..]) && Left(hop, far) == Left(hop, far[done..])
  }

  lemma CutStarts(hop: nat, mic: Samples, far: Samples)
    requires hop > 0 && |mic| == |far|
    ensures CutTo(hop, mic, far, 0, [])
  {
  }

  lemma CutGoesOn(hop: nat, mic: Samples, far: Samples, done: nat, more: seq<Hop>)
    requires hop > 0 && |mic| == |far| && CutTo(hop, mic, far, done, more) && done + hop <= |mic|
    ensures CutTo(hop, mic, far, done + hop, more + [Hop(mic[done..done + hop], far[done..done + hop])])
  {
    var h := Hop(mic[done..done + hop], far[done..done + hop]);
    HopCut(hop, mic, far, done);
    hide CutHops, Left;
    var rest := CutHops(hop, mic[done + hop..], far[done + hop..]);
    assert more + ([h] + rest) == more + [h] + rest;
  }

  lemma CutEnds(hop: nat, mic: Samples, far: Samples, done: nat, more: seq<Hop>)
    requires hop > 0 && |mic| == |far| && CutTo(hop, mic, far, done, more) && done + hop > |mic|
    ensures more == CutHops(hop, mic, far) && mic[done..] == Left(hop, mic) && far[done..] == Left(hop, far)
  {
  }

  /** The canceller after these hops, and the sound it gave for them. */
  ghost predicate Cleaned(net: Net, a: Alone, more: seq<Hop>, c: Alone, clean: Samples)
    requires net.Valid() && Fits(net, a)
  {
    AllSized(net, more) && c == AloneHops(net, a, more) && Concat(c.outs) == Concat(a.outs) + clean
  }

  lemma CleanedStarts(net: Net, a: Alone)
    requires net.Valid() && Fits(net, a)
    ensures Cleaned(net, a, [], a, [])
  {
  }

  method ProcessHop(net: Net, ghost a: Alone, ghost more: seq<Hop>, c: Alone, clean: Samples, h: Hop)
    returns (next: Alone, all: Samples)
    requires net.Valid() && Fits(net, a) && Cleaned(net, a, more, c, clean) && Sized(net, h)
    ensures Cleaned(net, a, more + [h], next, all)
  {
    hide AloneHops, Concat, Net.Valid;
    AloneHopsSnoc(net, a, more, h);
    next := AloneHop(net, c, h);
    var out := next.outs[|next.outs| - 1];
    assert next.outs == c.outs + [out];
    hide AloneHop;
    ConcatLast(c.outs, out);
    assert Concat(a.outs) + clean + out == Concat(a.outs) + (clean + out);
    all := clean + out;
  }

  /** The loop over the complete hops of both buffers. */
  method CancelHops(net: Net, a: Alone, mic: Samples, far: Samples)
    returns (c: Alone, clean: Samples, done: nat)
    requires net.Valid() && Fits(net, a) && |mic| == |far|
    ensures done <= |mic| && mic[done..] == Left(net.hop, mic) && far[done..] == Left(net.hop, far)
    ensures AllSized(net, CutHops(net.hop, mic, far)) && c == AloneHops(net, a, CutHops(net.hop, mic, far))
    ensures Fits(net, c) && Concat(c.outs) == Concat(a.outs) + clean
  {
    var hop := net.hop;
    c, clean, done := a, [], 0;
    ghost var more := [];
    CleanedStarts(net, a);
    CutStarts(hop, mic, far);
    assert hop > 0;
    hide CutTo, Cleaned;
    while done + hop <= |mic|
      invariant done <= |mic| && CutTo(hop, mic, far, done, more) && Cleaned(net, a, more, c, clean)
    {
      var h := Hop(mic[done..done + hop], far[done..done + hop]);
      CutGoesOn(hop, mic, far, done, more);
      c, clean := ProcessHop(net, a, more, c, clean, h);
      more := more + [h];
      done := done + hop;
    }
    CutEnds(hop, mic, far, done, more);
    CleanedMeans(net, a, more, c, clean);
  }

  lemma CleanedMeans(net: Net, a: Alone, more: seq<Hop>, c: Alone, clean: Samples)
    requires net.Valid() && Fits(net, a) && Cleaned(net, a, more, c, clean)
    ensures AllSized(net, more) && c == AloneHops(net, a, more) && Fits(net, c)
    ensures Concat(c.outs) == Concat(a.outs) + clean
  {
  }

  /** The next hop at `done`, and what follows it. */
  lemma HopCut(hop: nat, mic: Samples, far: Samples, done: nat)
    requires hop > 0 && |mic| == |far| && done + hop <= |mic|
    ensures CutHops(hop, mic[done..], far[done..])
         == [Hop(mic[done..done + hop], far[done..done + hop])] + CutHops(hop, mic[done + hop..], far[done + hop..])
    ensures Left(hop, mic[done..]) == Left(hop, mic[done + hop..])
    ensures Left(hop, far[done..]) == Left(hop, far[done + hop..])
  {
    assert mic[done..][hop..] == mic[done + hop..] && mic[done..][..hop] == mic[done..done + hop];
    assert far[done..][hop..] == far[done + hop..] && far[done..][..hop] == far[done..done + hop];
  }

  /** Resampled streams of equally long inputs are equally long. */
  lemma SameBlocks(k: R.Kernel, a: Samples, b: Samples)
    requires k.Valid() && |a| == |b|
    ensures |R.Blocks(k, a)| == |R.Blocks(k, b)|
  {
  }

  lemma SameLength(k: R.Kernel, micWas: Samples, farWas: Samples, micNow: Samples, farNow: Samples,
                   pcm: Samples, farPcm: Samples, micSent: Samples, farSent: Samples)
    requires k.Valid() && |micWas| == |farWas| && micNow == micWas + pcm && farNow == farWas + farPcm
    requires micNow == R.Blocks(k, Silence(k.width) + micSent)
    requires farNow == R.Blocks(k, Silence(k.width) + farSent) && |micSent| == |farSent|
    ensures |pcm| == |farPcm| && |micNow| == |farNow|
  {
    SameBlocks(k, Silence(k.width) + micSent, Silence(k.width) + farSent);
    hide R.Blocks;
  }

  /** Output n of the resampled stream of everything sent. */
  lemma StreamAt(k: R.Kernel, sent: Samples, n: nat)
    requires k.Valid() && n < |R.Blocks(k, Silence(k.width) + sent)|
    ensures n / k.newf < R.Count(k, |Silence(k.width) + sent|)
    ensures R.Blocks(k, Silence(k.width) + sent)[n] == R.At(k, Silence(k.width) + sent, n)
  {
    R.BlocksAt(k, Silence(k.width) + sent);
    hide R.Blocks, R.At, R.Count;
  }

  lemma SameOutput(k: R.Kernel, micSent: Samples, farSent: Samples, n: nat)
    requires k.Valid() && |micSent| == |farSent|
    requires n < |R.Blocks(k, Silence(k.width) + micSent)| && n < |R.Blocks(k, Silence(k.width) + farSent)|
    ensures var start := Silence(k.width);
            && n / k.newf < R.Count(k, |start + micSent|)
            && R.Blocks(k, start + micSent)[n] == R.At(k, start + micSent, n)
            && R.Blocks(k, start + farSent)[n] == R.At(k, start + farSent, n)
  {
    hide R.Blocks, R.At, R.Count;
    StreamAt(k, micSent, n);
    StreamAt(k, farSent, n);
  }

  /** What is left of both buffers starts at the same place of its stream. */
  lemma SamePlace(path: Path) returns (used: nat)
    requires path.Valid() && path.on
    ensures var mic, far := path.MicStream(), path.FarStream();
            && used == |path.given| * path.net.hop && used <= |mic| == |far|
            && path.aecMic == mic[used..] && path.aecFar == far[used..]
            && |path.aecMic| < path.net.hop
  {
    hide CutHops, Left, R.Blocks, R.Rest, Solo, Net.Valid;
    var hop, mic, far := path.net.hop, path.MicStream(), path.FarStream();
    LeftAt(hop, mic);
    LeftAt(hop, far);
    CutCount(hop, mic, far);
    used := |mic| / hop * hop;
  }

  /** Index i of both buffers is the same output of the resampling: the same
      phase over the same stretch of the two inputs. */
  lemma SameInstant(path: Path, i: nat)
    requires path.Valid() && path.on && i < |path.aecMic|
    ensures |path.aecMic| == |path.aecFar| < path.net.hop
    ensures var k, start, n := path.k, Silence(path.k.width), |path.given| * path.net.hop + i;
            && n / k.newf < R.Count(k, |start + path.micSent|) && |path.micSent| == |path.farSent|
            && path.micSent == MicOf(path.frames) && path.farSent == RefOf(path.frames)
            && path.aecMic[i] == R.At(k, start + path.micSent, n)
            && path.aecFar[i] == R.At(k, start + path.farSent, n)
  {
    hide CutHops, Left, R.Blocks, R.At, R.Count, R.Rest, Solo, Net.Valid;
    var used := SamePlace(path);
    SameOutput(path.k, path.micSent, path.farSent, used + i);
  }
}
