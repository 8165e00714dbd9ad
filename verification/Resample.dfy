/** Polyphase resampling, on a whole buffer and on a stream that arrives in
    pieces. The kernel values and the multiply-accumulate are arbitrary, so
    what is proved holds whatever the rounding of either. */
module Resample {
  import opened Seqs
  import opened Arithmetic

  type Samples = seq<real>

  /** `taps[j]` weighs the `size` samples around each output of phase j. */
  datatype Kernel = Kernel(
    orig: nat,
    newf: nat,
    width: nat,
    taps: seq<Samples>,
    mac: (real, real, real) -> real)
  {
    function Size(): nat {
      2 * width + orig
    }

    predicate Valid() {
      orig > 0 && newf > 0 && width > 0 && |taps| == newf && forall j :: 0 <= j < newf ==> |taps[j]| == Size()
    }
  }

  function Dot(k: Kernel, x: Samples, w: Samples): real
    requires |x| == |w|
  {
    if x == [] then 0.0
    else k.mac(Dot(k, x[..|x| - 1], w[..|x| - 1]), x[|x| - 1], w[|x| - 1])
  }

  // ------------------------------------------------- in exact arithmetic

  predicate Exact(k: Kernel, x: real, w: real, sum: real) {
    k.mac(sum, x, w) == sum + x * w
  }

  ghost predicate IsExact(k: Kernel) {
    forall sum: real, x: real, w: real :: Exact(k, x, w, sum)
  }

  function Impulse(n: nat, i: nat): Samples {
    seq(n, j => if j == i then 1.0 else 0.0)
  }

  /** The answer to an impulse is the weight where it falls. */
  lemma {:induction false} ImpulseGivesWeight(k: Kernel, w: Samples, i: nat)
    requires IsExact(k)
    ensures Dot(k, Impulse(|w|, i), w) == if i < |w| then w[i] else 0.0
  {
    if w != [] {
      var n, x := |w| - 1, Impulse(|w|, i);
      assert x[..n] == Impulse(n, i);
      ImpulseGivesWeight(k, w[..n], i);
      assert Exact(k, x[n], w[n], Dot(k, x[..n], w[..n]));
    }
  }

  /** One signal louder and another, sample by sample. */
  function Mixed(c: real, x: Samples, y: Samples): (z: Samples)
    requires |x| == |y|
    ensures |z| == |x| && forall j :: 0 <= j < |x| ==> z[j] == c * x[j] + y[j]
  {
    seq(|x|, j requires 0 <= j < |x| => c * x[j] + y[j])
  }

  lemma MixedPrefix(c: real, x: Samples, y: Samples, n: nat)
    requires n <= |x| == |y|
    ensures Mixed(c, x, y)[..n] == Mixed(c, x[..n], y[..n])
  {
    var z, part := Mixed(c, x, y), Mixed(c, x[..n], y[..n]);
    forall j | 0 <= j < n
      ensures z[..n][j] == part[j]
    {
      assert x[..n][j] == x[j] && y[..n][j] == y[j];
      assert part[j] == c * x[..n][j] + y[..n][j];
    }
  }

  /** And the answer to a mix is the mix of the answers. */
  lemma {:induction false} SumsAdd(k: Kernel, c: real, x: Samples, y: Samples, w: Samples)
    requires IsExact(k) && |x| == |y| == |w|
    ensures Dot(k, Mixed(c, x, y), w) == c * Dot(k, x, w) + Dot(k, y, w)
  {
    if w != [] {
      var n, z := |w| - 1, Mixed(c, x, y);
      MixedPrefix(c, x, y, n);
      SumsAdd(k, c, x[..n], y[..n], w[..n]);
      var dx, dy := Dot(k, x[..n], w[..n]), Dot(k, y[..n], w[..n]);
      assert Exact(k, z[n], w[n], Dot(k, z[..n], w[..n])) && Exact(k, x[n], w[n], dx) && Exact(k, y[n], w[n], dy);
      Spread(c, dx, dy, x[n], y[n], w[n]);
    }
  }

  lemma Spread(c: real, dx: real, dy: real, x: real, y: real, w: real)
    ensures c * dx + dy + (c * x + y) * w == c * (dx + x * w) + (dy + y * w)
  {
  }

  /** The outputs of one position, one per phase. */
  function Group(k: Kernel, x: Samples): (g: Samples)
    requires k.Valid() && |x| >= k.Size()
    ensures |g| == k.newf
  {
    seq(k.newf, j requires 0 <= j < k.newf => Dot(k, x[..k.Size()], k.taps[j]))
  }

  /** Every output the samples allow. */
  function Blocks(k: Kernel, h: Samples): Samples
    requires k.Valid()
  {
    if |h| < k.Size() then [] else Group(k, h) + Blocks(k, h[k.orig..])
  }

  /** What waits for the next samples. */
  function Rest(k: Kernel, h: Samples): (r: Samples)
    requires k.Valid()
    ensures |r| < k.Size()
  {
    if |h| < k.Size() then h else Rest(k, h[k.orig..])
  }

  // ------------------------------------------------------------ pieces

  lemma {:induction false} BlocksAppend(k: Kernel, h: Samples, x: Samples)
    requires k.Valid()
    ensures Blocks(k, h + x) == Blocks(k, h) + Blocks(k, Rest(k, h) + x)
    ensures Rest(k, h + x) == Rest(k, Rest(k, h) + x)
  {
    if |h| >= k.Size() {
      BlocksAppend(k, h[k.orig..], x);
      assert (h + x)[k.orig..] == h[k.orig..] + x;
      assert (h + x)[..k.Size()] == h[..k.Size()];
      assert Group(k, h + x) == Group(k, h);
    }
  }

  datatype Fed = Fed(history: Samples, out: Samples)

  /** The stream fed piece by piece, its outputs one after the other. */
  function Feed(k: Kernel, history: Samples, pieces: seq<Samples>): Fed
    requires k.Valid()
  {
    if pieces == [] then Fed(history, [])
    else
      var before := Feed(k, history, pieces[..|pieces| - 1]);
      var more := before.history + pieces[|pieces| - 1];
      Fed(Rest(k, more), before.out + Blocks(k, more))
  }

  /** However the samples are cut, the stream is what they are whole. */
  lemma {:induction false} PiecesDoNotMatter(k: Kernel, history: Samples, pieces: seq<Samples>)
    requires k.Valid() && |history| < k.Size()
    ensures var all := history + Concat(pieces);
            Feed(k, history, pieces) == Fed(Rest(k, all), Blocks(k, all))
  {
    if pieces == [] {
      assert history + [] == history;
    } else {
      var before := pieces[..|pieces| - 1];
      var last := pieces[|pieces| - 1];
      PiecesDoNotMatter(k, history, before);
      BlocksAppend(k, history + Concat(before), last);
      assert history + (Concat(before) + last) == history + Concat(before) + last;
    }
  }

  // ------------------------------------------------------------ the whole buffer

  function Padded(k: Kernel, x: Samples): Samples {
    Silence(k.width) + x + Silence(k.width + k.orig)
  }

  /** The outputs a padded buffer of n samples has. */
  function Total(k: Kernel, n: nat): nat
    requires k.Valid()
  {
    (n / k.orig + 1) * k.newf
  }

  function Count(k: Kernel, n: nat): nat
    requires k.Valid()
  {
    if n < k.Size() then 0 else (n - k.Size()) / k.orig + 1
  }

  /** Output t of the whole form: its phase over its own stretch of input. */
  function At(k: Kernel, h: Samples, t: nat): real
    requires k.Valid() && t / k.newf < Count(k, |h|)
  {
    StretchFits(k, |h|, t / k.newf);
    var pos := t / k.newf * k.orig;
    Dot(k, h[pos..pos + k.Size()], k.taps[t % k.newf])
  }

  lemma StretchFits(k: Kernel, n: nat, p: nat)
    requires k.Valid() && p < Count(k, n)
    ensures 0 <= p * k.orig <= p * k.orig + k.Size() <= n
  {
    var d, o := n - k.Size(), k.orig;
    assert o > 0;
    hide Kernel.Valid, Kernel.Size;
    assert p <= d / o;
    MulBelow(o, p, d / o);
    assert d / o * o <= d;
  }

  lemma CountDown(k: Kernel, n: nat)
    requires k.Valid() && n >= k.Size()
    ensures Count(k, n) == 1 + Count(k, n - k.orig)
  {
    var d, o := n - k.Size(), k.orig;
    if d >= o {
      assert d == (d - o) + o;
      DivStep(d - o, o);
    } else {
      DivIs(d, o, 0, d);
    }
  }

  /** The blocks of the stream are the outputs of the whole form. */
  lemma {:induction false} BlocksAt(k: Kernel, h: Samples)
    requires k.Valid()
    ensures |Blocks(k, h)| == Count(k, |h|) * k.newf
    ensures forall t :: 0 <= t < |Blocks(k, h)| ==> t / k.newf < Count(k, |h|) && Blocks(k, h)[t] == At(k, h, t)
    decreases |h|
  {
    if |h| >= k.Size() {
      var rest := h[k.orig..];
      BlocksAt(k, rest);
      CountDown(k, |h|);
      assert Count(k, |h|) * k.newf == k.newf + Count(k, |rest|) * k.newf;
      forall t | 0 <= t < |Blocks(k, h)|
        ensures t / k.newf < Count(k, |h|) && Blocks(k, h)[t] == At(k, h, t)
      {
        BlockAt(k, h, t);
      }
    }
  }

  lemma FirstBlockAt(k: Kernel, h: Samples, t: nat)
    requires k.Valid() && |h| >= k.Size() && t < k.newf
    ensures t / k.newf == 0 < Count(k, |h|) && Group(k, h)[t] == At(k, h, t)
  {
  }

  /** One position on, the same outputs. */
  lemma LaterAt(k: Kernel, h: Samples, u: nat)
    requires k.Valid() && |h| >= k.Size() && u / k.newf < Count(k, |h| - k.orig)
    ensures (u + k.newf) / k.newf < Count(k, |h|)
    ensures At(k, h, u + k.newf) == At(k, h[k.orig..], u)
  {
    var rest, p := h[k.orig..], u / k.newf;
    CountDown(k, |h|);
    DivStep(u, k.newf);
    StretchFits(k, |rest|, p);
    assert (p + 1) * k.orig == p * k.orig + k.orig;
    assert rest[p * k.orig..p * k.orig + k.Size()] == h[p * k.orig + k.orig..p * k.orig + k.orig + k.Size()];
  }

  lemma BlockAt(k: Kernel, h: Samples, t: nat)
    requires k.Valid() && |h| >= k.Size() && t < |Blocks(k, h)|
    requires var rest := h[k.orig..];
             forall u :: 0 <= u < |Blocks(k, rest)| ==>
                           u / k.newf < Count(k, |rest|) && Blocks(k, rest)[u] == At(k, rest, u)
    ensures t / k.newf < Count(k, |h|) && Blocks(k, h)[t] == At(k, h, t)
  {
    hide At, Group;
    if t < k.newf {
      FirstBlockAt(k, h, t);
    } else {
      var u := t - k.newf;
      assert Blocks(k, h)[t] == Blocks(k, h[k.orig..])[u];
      LaterAt(k, h, u);
    }
  }

  lemma PaddedCount(k: Kernel, x: Samples)
    requires k.Valid()
    ensures Count(k, |Padded(k, x)|) * k.newf == Total(k, |x|)
  {
  }

  /** One channel, every output on its own: min(target, total) samples. */
  method ApplyMono(k: Kernel, x: Samples, out: array<real>, target: nat)
    requires k.Valid() && target <= out.Length
    modifies out
    ensures var all := Blocks(k, Padded(k, x));
            var n := if target < |all| then target else |all|;
            && |all| == Total(k, |x|)
            && out[..n] == all[..n] && out[n..] == old(out[n..])
  {
    var padded := Padded(k, x);
    ghost var all := Blocks(k, padded);
    BlocksAt(k, padded);
    PaddedCount(k, x);
    var perChan := (|padded| - k.Size()) / k.orig + 1;
    var total := perChan * k.newf;
    var outLen := if target < total then target else total;
    hide Blocks, Padded, At, Total;
    var t := 0;
    while t < outLen
      invariant 0 <= t <= outLen
      invariant forall u :: 0 <= u < t ==> out[u] == all[u]
      invariant forall u :: outLen <= u < out.Length ==> out[u] == old(out[u])
    {
      var sum := OneOutput(k, padded, t);
      out[t] := sum;
      t := t + 1;
    }
  }

  method OneOutput(k: Kernel, padded: Samples, t: nat) returns (sum: real)
    requires k.Valid() && t / k.newf < Count(k, |padded|)
    ensures sum == At(k, padded, t)
  {
    StretchFits(k, |padded|, t / k.newf);
    var pos := t / k.newf * k.orig;
    sum := Convolve(k, padded[pos..pos + k.Size()], k.taps[t % k.newf]);
  }

  method Convolve(k: Kernel, x: Samples, w: Samples) returns (sum: real)
    requires |x| == |w|
    ensures sum == Dot(k, x, w)
  {
    sum := 0.0;
    var i := 0;
    while i < |x|
      invariant 0 <= i <= |x|
      invariant sum == Dot(k, x[..i], w[..i])
    {
      assert x[..i + 1][..i] == x[..i] && w[..i + 1][..i] == w[..i];
      sum := k.mac(sum, x[i], w[i]);
      i := i + 1;
    }
    assert x[..i] == x && w[..i] == w;
  }

  // ------------------------------------------------------------ the stream

  class Stream {
    const k: Kernel
    var history: Samples

    constructor (k: Kernel)
      requires k.Valid()
      ensures this.k == k && Valid() && history == Silence(k.width)
    {
      this.k := k;
      history := Silence(k.width);
    }

    /** Less than one kernel of history waits between two pieces. */
    predicate Valid()
      reads this
    {
      k.Valid() && |history| < k.Size()
    }

    method Restart()
      requires Valid()
      modifies this
      ensures Valid() && history == Silence(k.width)
    {
      history := Silence(k.width);
    }

    method Push(x: Samples) returns (out: Samples)
      requires Valid()
      modifies this
      ensures Valid()
      ensures out == Blocks(k, old(history) + x) && history == Rest(k, old(history) + x)
    {
      hide Group;
      history := history + x;
      out := [];
      var pos := 0;
      assert history[0..] == history;
      while pos + k.Size() <= |history|
        invariant 0 <= pos <= |history| && history == old(history) + x
        invariant Blocks(k, history) == out + Blocks(k, history[pos..])
        invariant Rest(k, history) == Rest(k, history[pos..])
      {
        var group := Phases(k, history[pos..]);
        assert history[pos..][k.orig..] == history[pos + k.orig..];
        assert out + (group + Blocks(k, history[pos + k.orig..])) == (out + group) + Blocks(k, history[pos + k.orig..]);
        out := out + group;
        pos := pos + k.orig;
      }
      assert Blocks(k, history[pos..]) == [];
      history := history[pos..];
    }
  }

  method Phases(k: Kernel, x: Samples) returns (group: Samples)
    requires k.Valid() && |x| >= k.Size()
    ensures group == Group(k, x)
  {
    group := [];
    var j := 0;
    while j < k.newf
      invariant 0 <= j <= k.newf && |group| == j
      invariant forall i :: 0 <= i < j ==> group[i] == Dot(k, x[..k.Size()], k.taps[i])
    {
      var sum := Convolve(k, x[..k.Size()], k.taps[j]);
      group := group + [sum];
      j := j + 1;
    }
  }

  // ------------------------------------------------------------ stream and whole

  /** A stream from its start, whatever the pieces: a prefix of what the whole
      buffer gives, and exactly that once its lookahead follows in silence. */
  lemma StreamIsWhole(k: Kernel, pieces: seq<Samples>)
    requires k.Valid()
    ensures var start := Silence(k.width);
            var whole := Blocks(k, Padded(k, Concat(pieces)));
            && |whole| == Total(k, |Concat(pieces)|)
            && Feed(k, start, pieces).out <= whole
            && Feed(k, start, pieces + [Silence(k.width + k.orig)]).out == whole
  {
    var start, tail, x := Silence(k.width), Silence(k.width + k.orig), Concat(pieces);
    PiecesDoNotMatter(k, start, pieces);
    var more := pieces + [tail];
    assert more[..|pieces|] == pieces;
    PiecesDoNotMatter(k, start, more);
    assert start + (x + tail) == Padded(k, x);
    BlocksAppend(k, start + x, tail);
    BlocksAt(k, Padded(k, x));
    PaddedCount(k, x);
  }

  // ------------------------------------------------------------ the rates

  /** g divides both, and every divisor of both divides g. */
  ghost predicate IsGcd(g: nat, a: nat, b: nat) {
    g > 0 && a % g == 0 && b % g == 0 && forall d: nat :: d > 0 && a % d == 0 && b % d == 0 ==> g % d == 0
  }

  /** The divisors of a and b are those of b and a % b. */
  lemma SameDivisors(a: nat, b: nat, d: nat)
    requires b > 0 && d > 0
    ensures b % d == 0 ==> (a % d == 0 <==> a % b % d == 0)
  {
    if b % d == 0 {
      MultipleOf(b, d);
      var m := b / d;
      var q, r := a / b, a % b;
      assert a == q * b + r;
      assert q * b == (q * m) * d by {
        assert q * (m * d) == (q * m) * d;
      }
      if a % d == 0 {
        MultipleOf(a, d);
        assert r == (a / d - q * m) * d;
        assert a / d - q * m >= 0;
        IsMultiple(a / d - q * m, d);
      }
      if r % d == 0 {
        MultipleOf(r, d);
        assert a == (q * m + r / d) * d;
        IsMultiple(q * m + r / d, d);
      }
    }
  }

  lemma GcdStep(g: nat, a: nat, b: nat)
    requires b > 0
    ensures IsGcd(g, b, a % b) <==> IsGcd(g, a, b)
  {
    forall d: nat | d > 0
      ensures b % d == 0 ==> (a % d == 0 <==> a % b % d == 0)
    {
      SameDivisors(a, b, d);
    }
  }

  method Gcd(a: nat, b: nat) returns (g: nat)
    requires a > 0 || b > 0
    ensures IsGcd(g, a, b)
  {
    var x: nat, y: nat := a, b;
    while y != 0
      invariant x >= 0 && y >= 0 && (x > 0 || y > 0)
      invariant forall g: nat :: IsGcd(g, x, y) <==> IsGcd(g, a, b)
      decreases y
    {
      forall g: nat
        ensures IsGcd(g, y, x % y) <==> IsGcd(g, x, y)
      {
        GcdStep(g, x, y);
      }
      x, y := y, x % y;
    }
    assert IsGcd(x, x, 0);
    g := x;
  }

  /** The samples the whole form announces, in exact arithmetic. */
  function Target(srIn: nat, srOut: nat, n: nat): nat
    requires srIn > 0
  {
    (srOut * n + srIn - 1) / srIn
  }

  /** Every sample announced is computed: the target never exceeds what the
      phases give. */
  lemma TargetIsReached(k: Kernel, g: nat, srIn: nat, srOut: nat, n: nat)
    requires k.Valid() && g > 0 && srIn == k.orig * g && srOut == k.newf * g
    ensures srIn > 0 && Target(srIn, srOut, n) <= Total(k, n)
  {
    CeilOfRates(k.orig, k.newf, g, n);
  }

  // ------------------------------------------------------------ whole files

  /** The kernel of two reduced rates; any builder that gives its own rates. */
  datatype Builder = Builder(kernel: (nat, nat) -> Kernel)
  {
    ghost predicate Valid() {
      forall o: nat, n: nat :: o > 0 && n > 0 ==>
        kernel(o, n).Valid() && kernel(o, n).orig == o && kernel(o, n).newf == n
    }
  }

  datatype Resampled = Refused | Channels(channels: seq<Samples>)

  /** Every channel of a buffer, or a refusal. Equal rates pass through. */
  method ResampleAll(b: Builder, ins: seq<Samples>, nIn: int, srIn: int, srOut: int) returns (r: Resampled)
    requires b.Valid() && forall x :: x in ins ==> |x| == nIn
    ensures r.Refused? <==> nIn <= 0 || srIn <= 0 || srOut <= 0 || |ins| == 0
    ensures r.Channels? && srIn == srOut ==> r.channels == ins
    ensures r.Channels? && srIn != srOut ==>
              exists g: nat :: IsGcd(g, srIn, srOut) && Converts(b, ins, r.channels, srIn, srOut, g)
  {
    hide Blocks, Padded, Kernel.Valid;
    if nIn <= 0 || srIn <= 0 || srOut <= 0 || |ins| == 0 {
      return Refused;
    }
    if srIn == srOut {
      return Channels(ins);
    }
    var g := Gcd(srIn, srOut);
    ReducedRates(g, srIn, srOut);
    var k := b.kernel(srIn / g, srOut / g);
    var target := Target(srIn, srOut, nIn);
    TargetIsReached(k, g, srIn, srOut, nIn);
    var outs: seq<Samples> := [];
    var c := 0;
    while c < |ins|
      invariant 0 <= c <= |ins| && |outs| == c
      invariant forall i :: 0 <= i < c ==> IsWhole(k, ins[i], outs[i], srIn, srOut)
    {
      var out := new real[target];
      ApplyMono(k, ins[c], out, target);
      assert out[..target] == out[..];
      outs := outs + [out[..]];
      c := c + 1;
    }
    r := Channels(outs);
  }

  ghost predicate IsWhole(k: Kernel, x: Samples, out: Samples, srIn: nat, srOut: nat)
    requires k.Valid() && srIn > 0
  {
    var all := Blocks(k, Padded(k, x));
    Target(srIn, srOut, |x|) <= |all| && out == all[..Target(srIn, srOut, |x|)]
  }

  /** Each channel is the announced number of samples of its whole form. */
  ghost predicate Converts(b: Builder, ins: seq<Samples>, outs: seq<Samples>, srIn: nat, srOut: nat, g: nat)
    requires b.Valid() && IsGcd(g, srIn, srOut) && srIn > 0 && srOut > 0
  {
    && srIn / g > 0 && srOut / g > 0 && |outs| == |ins|
    && var k := b.kernel(srIn / g, srOut / g);
       forall i :: 0 <= i < |ins| ==> IsWhole(k, ins[i], outs[i], srIn, srOut)
  }

  lemma ReducedRates(g: nat, srIn: nat, srOut: nat)
    requires IsGcd(g, srIn, srOut) && srIn > 0 && srOut > 0
    ensures srIn / g > 0 && srOut / g > 0 && srIn == srIn / g * g && srOut == srOut / g * g
  {
  }
}
