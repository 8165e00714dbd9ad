/** The session itself: fields updated in place, two rings overwritten in
    place, and methods proved to compute the functions of Session.dfy. The
    scalars of the session are kept in three records, each updated in place. */
module TurnSessions {
  import opened Seqs
  import opened SampleRings
  import opened Session
  import opened SessionPush

  datatype TurnFields = TurnFields(
    phase: Phase,
    pcm: Audio,
    speechEnd: nat,    // samples of pcm up to the last speech
    id: nat,
    revision: nat,
    pendingRun: nat)   // windows spent in PendingEnd

  datatype GraceFields = GraceFields(
    left: nat,         // windows of grace left to the committed turn
    given: nat,
    committed: bool,   // a committed turn not final yet
    released: bool)    // its answer is ready to be heard, or over

  datatype EarFields = EarFields(
    inSpeech: bool,
    speechRun: nat,    // consecutive windows above the threshold
    silenceRun: nat,
    vad: VadState)

  class TurnSession {
    const setup: Setup

    var params: Params
    var limits: Limits
    var partial: Audio        // samples that did not fill a window
    var turn: TurnFields
    var grace: GraceFields
    var ears: EarFields
    var speaking: bool
    var nWindows: nat
    var lookback: SampleRing  // recent windows, the speech pad reads from here
    var stream: SampleRing    // the classifier window, independent of the turn
    var reports: seq<Event>   // what the callback received, in order

    ghost var recent: Audio      // what lookback holds
    ghost var classified: Audio  // what stream holds
    ghost var Repr: set<object>

    /** The two rings hold what the value says, at their capacities. */
    ghost predicate Rings()
      reads this`lookback, this`stream, this`limits, this`recent, this`classified, this`Repr
      reads lookback, stream, lookback.data, stream.data
    {
      && Repr == {this, lookback, stream, lookback.data, stream.data}
      && lookback != stream && lookback.data != stream.data
      && lookback.Valid() && stream.Valid()
      && lookback.data.Length == LookbackCapacity(setup, limits)
      && stream.data.Length == setup.classifierWindow
      && lookback.Contents() == recent && stream.Contents() == classified
    }

    ghost function Value(): State
      reads this
    {
      State(params, limits, turn.phase, turn.pcm, turn.speechEnd, recent, classified, ears.speechRun, ears.silenceRun,
            turn.pendingRun, grace.left, grace.given, grace.committed, grace.released, turn.id, turn.revision,
            speaking, ears.inSpeech, nWindows, ears.vad)
    }

    constructor (m: Setup, p: Params, v: VadState)
      requires m.Valid()
      ensures Rings() && fresh(Repr) && setup == m
      ensures Value() == Initial(m, p, v) && partial == [] && reports == []
    {
      hide LimitsOf, LookbackCapacity;
      setup := m;
      params, limits := p, LimitsOf(m, p);
      partial, speaking, nWindows, reports := [], false, 0, [];
      turn := TurnFields(Idle, [], 0, 0, 0, 0);
      grace := GraceFields(0, 0, false, false);
      ears := EarFields(false, 0, 0, v);
      var back := new SampleRing(LookbackCapacity(m, LimitsOf(m, p)));
      var classifier := new SampleRing(m.classifierWindow);
      lookback, stream := back, classifier;
      recent, classified := [], [];
      Repr := {this, back, classifier, back.data, classifier.data};
    }

    method SetParams(p: Params)
      requires setup.Valid() && Rings()
      modifies Repr
      ensures Rings() && fresh(Repr - old(Repr))
      ensures Value() == Tune(setup, old(Value()), p)
      ensures partial == old(partial) && reports == old(reports)
    {
      hide LimitsOf, LookbackCapacity, RingContents, Last;
      var capacity := LookbackCapacity(setup, LimitsOf(setup, p));
      lookback.Resize(capacity);
      params, limits := p, LimitsOf(setup, p);
      recent := Last(recent, capacity);
      Repr := {this, lookback, stream, lookback.data, stream.data};
    }

    method SetSpeaking(b: bool)
      modifies this`speaking
      ensures Value() == old(Value()).(speaking := b)
    {
      speaking := b;
    }

    method Emit(kind: Kind, score: real)
      modifies this`reports
      ensures Value() == old(Value())
      ensures reports == old(reports) + [if kind == TurnCommitted then CommitReport(setup, Value(), score)
                                         else Report(Value(), kind, score)]
    {
      var report := Event(kind, turn.id, turn.revision, nWindows, score, [], [], 0);
      if kind == TurnCommitted {
        var pad := limits.pad * setup.window;
        report := report.(pcm := turn.pcm[..Min(|turn.pcm|, turn.speechEnd + pad)], held := turn.pcm,
                          grace := grace.given);
      }
      reports := reports + [report];
    }

    method FinalIfDue()
      modifies this`grace, this`turn, this`reports
      ensures var o := TryFinal(old(Value())); Value() == o.state && reports == old(reports) + o.events
    {
      if grace.committed && grace.released && grace.left == 0 {
        grace := grace.(committed := false);
        turn := turn.(pcm := []);
        Emit(TurnFinal, 0.0);
      }
    }

    method ReleaseTurn(id: nat, revision: nat)
      modifies this`grace, this`turn, this`reports
      ensures var o := Release(old(Value()), id, revision);
              Value() == o.state && reports == old(reports) + o.events
    {
      if !grace.committed || id != turn.id || revision != turn.revision {
        return;
      }
      grace := grace.(released := true);
      FinalIfDue();
    }

    method Open()
      requires Rings()
      modifies this`grace, this`turn, this`reports
      ensures var o := OpenTurn(old(Value())); Value() == o.state && reports == old(reports) + o.events
    {
      var before := lookback.Read();
      assert before == recent;
      hide Rings;
      turn := turn.(id := turn.id + 1);
      turn := turn.(revision := 0);
      grace := grace.(left := 0);
      grace := grace.(committed := false);
      turn := turn.(pcm := before);
      turn := turn.(speechEnd := |turn.pcm|);
      turn := turn.(phase := UserSpeaking);
      Emit(SpeechStarted, 0.0);
    }

    method CommitTurn(score: real, windows: nat)
      modifies this`grace, this`turn, this`ears, this`reports
      ensures var o := Commit(setup, old(Value()), score, windows);
              Value() == o.state && reports == old(reports) + o.events
    {
      turn := turn.(phase := Idle);
      turn := turn.(pendingRun := 0);
      ears := ears.(speechRun := 0);
      grace := grace.(committed := true);
      grace := grace.(released := false);
      grace := grace.(left := windows);
      grace := grace.(given := windows);
      Emit(TurnCommitted, score);
    }

    /** Both rings follow the stream, not the turn. */
    method PushRings(w: Audio)
      requires Rings()
      modifies this`recent, this`classified, lookback, stream, lookback.data, stream.data
      ensures Rings()
      ensures recent == Last(old(recent) + w, LookbackCapacity(setup, limits))
      ensures classified == Last(old(classified) + w, setup.classifierWindow)
    {
      hide LookbackCapacity, RingContents, Last;
      lookback.Push(w);
      recent := Last(recent + w, LookbackCapacity(setup, limits));
      stream.Push(w);
      classified := Last(classified + w, setup.classifierWindow);
    }

    /** Two thresholds: speech starts at one and lasts down to the other. */
    method FollowVoice(w: Audio)
      modifies this`ears
      ensures ears.vad == setup.prob(old(ears.vad), w).1
      ensures ears.inSpeech == InSpeech(setup, old(Value()), w)
      ensures ears.speechRun == if ears.inSpeech then old(ears.speechRun) + 1 else 0
      ensures ears.silenceRun == if ears.inSpeech then 0 else old(ears.silenceRun) + 1
    {
      var prob := setup.prob(ears.vad, w).0;
      var stay := if params.vadNegThreshold < params.vadThreshold then params.vadNegThreshold else params.vadThreshold;
      var speech := prob >= (if ears.inSpeech then stay else params.vadThreshold);
      ears := ears.(vad := setup.prob(ears.vad, w).1);
      ears := ears.(inSpeech := speech);
      ears := ears.(speechRun := if speech then ears.speechRun + 1 else 0);
      ears := ears.(silenceRun := if speech then 0 else ears.silenceRun + 1);
    }

    method ListenTo(w: Audio)
      requires Rings()
      modifies this`ears, this`turn, this`recent, this`classified, lookback, stream, lookback.data, stream.data
      ensures Rings()
      ensures Value() == Listen(setup, old(Value()), w)
    {
      ghost var s := Value();
      FollowVoice(w);
      hide InSpeech, Last, LookbackCapacity;
      PushRings(w);
      hide Rings;
      if turn.phase != Idle || grace.committed {
        turn := turn.(pcm := turn.pcm + w);
        if ears.inSpeech {
          turn := turn.(speechEnd := |turn.pcm|);
        }
      }
      assert Value() == Listen(setup, s, w);
    }

    method DecideIdleTurn()
      requires Rings()
      modifies this`grace, this`turn, this`reports
      ensures var o := DecideIdle(old(Value())); Value() == o.state && reports == old(reports) + o.events
    {
      hide Rings;
      if grace.committed && ears.speechRun >= limits.reopen {
        grace := grace.(left := 0);
        grace := grace.(committed := false);
        turn := turn.(revision := turn.revision + 1);
        turn := turn.(phase := UserSpeaking);
        Emit(TurnResumed, 0.0);
      } else if ears.speechRun >= (if speaking then limits.barge else limits.open) {
        if speaking {
          Emit(BargeIn, 0.0);
        }
        Open();
      }
    }

    method DecideSpeakingTurn()
      requires Rings()
      modifies this`grace, this`turn, this`ears, this`reports
      ensures var o := DecideSpeaking(setup, old(Value())); Value() == o.state && reports == old(reports) + o.events
    {
      if ears.silenceRun >= limits.close {
        var scratch := stream.Read();
        assert scratch == classified;
        hide Rings, CommitReport;
        turn := turn.(phase := PendingEnd);
        turn := turn.(pendingRun := 0);
        Emit(SpeechStopped, 0.0);
        var score := setup.predict(scratch);
        if score >= params.turnThreshold {
          CommitTurn(score, limits.grace);
        } else {
          Emit(TurnReopened, score);
        }
      }
    }

    method DecidePendingTurn()
      modifies this`grace, this`turn, this`ears, this`reports
      ensures var o := DecidePending(setup, old(Value())); Value() == o.state && reports == old(reports) + o.events
    {
      hide CommitReport;
      turn := turn.(pendingRun := turn.pendingRun + 1);
      if ears.speechRun >= limits.reopen {
        turn := turn.(revision := turn.revision + 1);
        turn := turn.(phase := UserSpeaking);
        Emit(SpeechStarted, 0.0);
      } else if turn.pendingRun >= limits.delay {
        CommitTurn(0.0, limits.wait - limits.delay);
      }
    }

    method DecideTurn()
      requires Rings()
      modifies this`grace, this`turn, this`ears, this`reports
      ensures var o := Decide(setup, old(Value())); Value() == o.state && reports == old(reports) + o.events
    {
      hide Rings, DecideIdle, DecideSpeaking, DecidePending;
      match turn.phase {
        case Idle => DecideIdleTurn();
        case UserSpeaking => DecideSpeakingTurn();
        case PendingEnd => DecidePendingTurn();
      }
    }

    method TickGraceDown()
      modifies this`grace, this`turn, this`reports
      ensures var o := TickGrace(old(Value())); Value() == o.state && reports == old(reports) + o.events
    {
      if grace.left > 0 {
        grace := grace.(left := grace.left - 1);
        if grace.left == 0 {
          FinalIfDue();
        }
      }
    }

    method Perceive(w: Audio)
      requires Rings()
      modifies this`grace, this`turn, this`ears, this`reports, this`recent, this`classified, lookback, stream,
               lookback.data, stream.data
      ensures Rings()
      ensures var o := TickGrace(old(Value()));
              Value() == Listen(setup, o.state, w) && reports == old(reports) + o.events
    {
      hide *;
      TickGraceDown();
      ListenTo(w);
    }

    method HearWindow(w: Audio)
      requires Rings()
      modifies this`grace, this`turn, this`ears, this`reports, this`recent, this`classified, this`nWindows,
               lookback, stream, lookback.data, stream.data
      ensures Rings()
      ensures var o := Hear(setup, old(Value()), w); Value() == o.state && reports == old(reports) + o.events
    {
      hide TickGrace, Listen, Decide, Rings, Value;
      Perceive(w);
      DecideTurn();
      CountWindow();
    }

    /** The same, framed by everything the session owns. */
    method HearNext(w: Audio)
      requires Rings()
      modifies Repr
      ensures Rings() && Repr == old(Repr) && partial == old(partial)
      ensures var o := Hear(setup, old(Value()), w); Value() == o.state && reports == old(reports) + o.events
    {
      assert Repr == {this, lookback, stream, lookback.data, stream.data};
      hide Hear, Rings, Value;
      HearWindow(w);
    }

    method CountWindow()
      modifies this`nWindows
      ensures Value() == old(Value()).(nWindows := old(Value()).nWindows + 1)
    {
      nWindows := nWindows + 1;
    }

    method Push(pcm: Audio)
      requires setup.Valid() && Rings() && |partial| < setup.window
      modifies Repr
      ensures Rings() && Repr == old(Repr) && |partial| < setup.window
      ensures var fed := Consume(setup, old(Value()), old(partial) + pcm);
              Value() == fed.state && partial == fed.partial && reports == old(reports) + fed.events
    {
      hide Hear;
      var offset := 0;
      if partial != [] {
        var missing := setup.window - |partial|;
        var take := Min(missing, |pcm|);
        var filled := partial + pcm[..take];
        offset := take;
        ghost var whole := partial + pcm;
        if |filled| < setup.window {
          assert filled == whole;
          partial := filled;
          return;
        }
        assert whole[..setup.window] == filled && whole[setup.window..] == pcm[take..];
        HearNext(filled);
        partial := [];
      } else {
        assert partial + pcm == pcm;
      }
      PushWhole(pcm[offset..]);
    }

    /** The rest of a push, once the window that was waiting is complete. */
    method PushWhole(pcm: Audio)
      requires setup.Valid() && Rings() && partial == [] && this in Repr
      modifies Repr
      ensures Rings() && Repr == old(Repr) && |partial| < setup.window
      ensures var fed := Consume(setup, old(Value()), pcm);
              Value() == fed.state && partial == fed.partial && reports == old(reports) + fed.events
    {
      hide Hear, Rings;
      ghost var target := Consume(setup, Value(), pcm);
      ghost var events: seq<Event> := [];
      var offset := 0;
      while offset + setup.window <= |pcm|
        invariant 0 <= offset <= |pcm| && Rings() && Repr == old(Repr)
        invariant reports == old(reports) + events
        invariant var rest := Consume(setup, Value(), pcm[offset..]);
                  target == Fed(rest.state, rest.partial, events + rest.events)
      {
        ghost var rest := pcm[offset..];
        var w := pcm[offset..offset + setup.window];
        assert rest[..setup.window] == w && rest[setup.window..] == pcm[offset + setup.window..];
        ghost var o := Hear(setup, Value(), w);
        ghost var after := Consume(setup, o.state, rest[setup.window..]);
        assert events + (o.events + after.events) == events + o.events + after.events;
        HearNext(w);
        events := events + o.events;
        offset := offset + setup.window;
      }
      partial := pcm[offset..];
    }
  }
}
