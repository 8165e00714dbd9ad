/** Audio of any length: what a push does is decided by the stream, not by how
    the stream was cut into pushes. */
module SessionPush {
  import opened Seqs
  import opened Session
  import opened SessionAudio

  /** The session after a push, and the samples that did not fill a window. */
  datatype Fed = Fed(state: State, partial: Audio, events: seq<Event>)

  function Consume(m: Setup, s: State, stream: Audio): Fed
    requires m.Valid()
    decreases |stream|
  {
    if |stream| < m.window then Fed(s, stream, [])
    else
      var o := Hear(m, s, stream[..m.window]);
      var rest := Consume(m, o.state, stream[m.window..]);
      Fed(rest.state, rest.partial, o.events + rest.events)
  }

  /** Two pushes are one push of both: same state, same events, same rest. */
  lemma {:induction false} PushesJoin(m: Setup, s: State, a: Audio, b: Audio)
    requires m.Valid()
    ensures var first := Consume(m, s, a);
            var second := Consume(m, first.state, first.partial + b);
            Consume(m, s, a + b) == Fed(second.state, second.partial, first.events + second.events)
    decreases |a|
  {
    hide Hear;
    if |a| < m.window {
      var second := Consume(m, s, a + b);
      assert [] + second.events == second.events;
    } else {
      var o := Hear(m, s, a[..m.window]);
      assert (a + b)[..m.window] == a[..m.window];
      assert (a + b)[m.window..] == a[m.window..] + b;
      PushesJoin(m, o.state, a[m.window..], b);
      var rest := Consume(m, o.state, a[m.window..]);
      var second := Consume(m, rest.state, rest.partial + b);
      assert o.events + (rest.events + second.events) == o.events + rest.events + second.events;
    }
  }

  /** Any cut of the stream into pushes, with nothing else in between. */
  function PushAll(m: Setup, s: State, partial: Audio, pushes: seq<Audio>): Fed
    requires m.Valid()
  {
    if pushes == [] then Fed(s, partial, [])
    else
      var before := PushAll(m, s, partial, pushes[..|pushes| - 1]);
      var after := Consume(m, before.state, before.partial + pushes[|pushes| - 1]);
      Fed(after.state, after.partial, before.events + after.events)
  }

  /** For any partition of the samples into pushes the session consumes the
      windows of the joined stream. */
  lemma {:induction false} AnyPartition(m: Setup, s: State, partial: Audio, pushes: seq<Audio>)
    requires m.Valid() && |partial| < m.window
    ensures PushAll(m, s, partial, pushes) == Consume(m, s, partial + Concat(pushes))
  {
    hide Hear;
    if pushes == [] {
      assert partial + [] == partial;
    } else {
      var before := pushes[..|pushes| - 1];
      AnyPartition(m, s, partial, before);
      PushesJoin(m, s, partial + Concat(before), pushes[|pushes| - 1]);
      assert partial + Concat(before) + pushes[|pushes| - 1] == partial + Concat(pushes);
    }
  }

  // ------------------------------------------------- a push is a run

  /** The windows of a stream, as steps of the session. */
  function Chop(m: Setup, stream: Audio): (acts: seq<Act>)
    requires m.Valid()
    ensures ValidActs(m, acts)
    decreases |stream|
  {
    if |stream| < m.window then [] else [Window(stream[..m.window])] + Chop(m, stream[m.window..])
  }

  lemma {:induction false} RunAppend(m: Setup, s: State, a: seq<Act>, b: seq<Act>)
    requires m.Valid() && ValidActs(m, a) && ValidActs(m, b)
    ensures ValidActs(m, a + b)
    ensures var first := Run(m, s, a);
            var second := Run(m, first.state, b);
            Run(m, s, a + b) == Outcome(second.state, first.events + second.events)
  {
    hide Apply;
    if b == [] {
      assert a + b == a;
      assert Run(m, s, a).events + [] == Run(m, s, a).events;
    } else {
      var before := b[..|b| - 1];
      assert (a + b)[..|a + b| - 1] == a + before;
      RunAppend(m, s, a, before);
      var first := Run(m, s, a);
      var mid := Run(m, first.state, before);
      var last := Apply(m, mid.state, b[|b| - 1]);
      assert first.events + mid.events + last.events == first.events + (mid.events + last.events);
    }
  }

  lemma {:induction false} HeardAppend(a: seq<Act>, b: seq<Act>)
    ensures Heard(a + b) == Heard(a) + Heard(b)
  {
    if b == [] {
      assert a + b == a;
    } else {
      var before := b[..|b| - 1];
      assert (a + b)[..|a + b| - 1] == a + before;
      HeardAppend(a, before);
    }
  }

  lemma RunOne(m: Setup, s: State, w: Audio)
    requires m.Valid() && |w| == m.window
    ensures Run(m, s, [Window(w)]) == Hear(m, s, w) && Heard([Window(w)]) == w
  {
  }

  lemma Associates(a: Audio, b: Audio, c: Audio)
    ensures a + b + c == a + (b + c)
  {
  }

  lemma RunFirst(m: Setup, s: State, w: Audio, acts: seq<Act>)
    requires m.Valid() && |w| == m.window && ValidActs(m, acts)
    ensures ValidActs(m, [Window(w)] + acts)
    ensures var o := Hear(m, s, w);
            var after := Run(m, o.state, acts);
            Run(m, s, [Window(w)] + acts) == Outcome(after.state, o.events + after.events)
    ensures Heard([Window(w)] + acts) == w + Heard(acts)
  {
    RunOne(m, s, w);
    hide Hear, Run, Heard;
    RunAppend(m, s, [Window(w)], acts);
    HeardAppend([Window(w)], acts);
  }

  /** What a push does is a run of its windows, and nothing of the stream is
      lost: the windows and the rest make the whole of it. */
  lemma {:induction false} ConsumeIsRun(m: Setup, s: State, stream: Audio)
    requires m.Valid()
    ensures var fed := Consume(m, s, stream);
            && Run(m, s, Chop(m, stream)) == Outcome(fed.state, fed.events)
            && Heard(Chop(m, stream)) + fed.partial == stream
            && |fed.partial| < m.window
    decreases |stream|
  {
    hide Hear;
    if |stream| >= m.window {
      hide Run, Heard;
      var w := stream[..m.window];
      var rest := stream[m.window..];
      ConsumeIsRun(m, Hear(m, s, w).state, rest);
      RunFirst(m, s, w, Chop(m, rest));
      var fed := Consume(m, Hear(m, s, w).state, rest);
      Associates(w, Heard(Chop(m, rest)), fed.partial);
    }
  }
}
