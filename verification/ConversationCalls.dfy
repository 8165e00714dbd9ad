/** The session inside a conversation is the session of Session.dfy: what its
    threads do to it, in the order in which they take its lock, is a run. */
module ConversationCalls {
  import opened Session
  import opened SessionTrace
  import opened Conversation
  import opened ConversationInvariants
  import opened ConversationRuns

  predicate Whole(run: Run) {
    |run.states| == |run.steps| + 1
  }

  /** The call of one step on the session, if it makes one: the floor as a push
      begins, every window of it, new thresholds, and the turns given back. */
  function CallOf(s: Sys, step: Step): seq<Act> {
    match step
    case ReaderStep(StartPush) => [SetSpeaking(s.shared.speaking)]
    case ReaderStep(HearOne(w)) => [Window(w)]
    case ReaderStep(NewParams(p)) => [SetParams(p)]
    case RecognizerStep(_) =>
      if s.recognizer.stage == GiveUp then [Free(s.recognizer.key.turn, s.recognizer.key.revision)] else []
    case ResponderStep(_) =>
      if AtRelease(s.responder.stage) then [Free(s.responder.key.turn, s.responder.key.revision)] else []
    case _ => []
  }

  function Calls(run: Run, n: nat): seq<Act>
    requires Whole(run) && n <= |run.steps|
  {
    if n == 0 then [] else Calls(run, n - 1) + CallOf(run.states[n - 1], run.steps[n - 1])
  }

  /** The session and the log after these calls. */
  predicate Called(m: Setup, s: Sys, s': Sys, calls: seq<Act>)
    requires m.Valid()
  {
    if calls == [] then s'.session == s.session && s'.past.log == s.past.log
    else
      && |calls| == 1 && ValidAct(m, calls[0])
      && s'.session == Apply(m, s.session, calls[0]).state
      && s'.past.log == s.past.log + Apply(m, s.session, calls[0]).events
  }

  lemma ReaderCalls(m: Setup, s: Sys, move: ReaderMove)
    requires m.Valid() && CanRead(m, s, move)
    ensures Called(m, s, Read(m, s, move), CallOf(s, ReaderStep(move)))
  {
    hide Hear, Tune, HandleAll;
    assert s.past.log + [] == s.past.log;
  }

  lemma RecognizerCalls(m: Setup, s: Sys, heard: bool)
    requires m.Valid() && CanRecognize(s)
    ensures Called(m, s, Recognize(s, heard), CallOf(s, RecognizerStep(heard)))
  {
    hide Release, HandleAll;
  }

  lemma ResponderCalls(m: Setup, s: Sys, choice: Choice)
    requires m.Valid() && CanRespond(s)
    ensures Called(m, s, Respond(s, choice), CallOf(s, ResponderStep(choice)))
  {
    hide Release, HandleAll, Wakes, Outdated;
  }

  lemma NotedCalls(m: Setup, s: Sys, s': Sys, calls: seq<Act>)
    requires m.Valid() && Called(m, s, s', calls)
    ensures Called(m, s, Noted(s'), calls)
  {
    hide Apply, Outdated;
  }

  lemma StepCalls(m: Setup, s: Sys, step: Step)
    requires m.Valid() && Enabled(m, s, step)
    ensures Called(m, s, Next(m, s, step), CallOf(s, step))
  {
    hide Deliver, Read, Respond, Recognize, Write, Apply, Noted, Called;
    hide CanDeliver, CanRead, CanRespond, CanRecognize, CanWrite;
    match step {
      case DeliverOne => HandlerCalls(m, s);
      case ReaderStep(move) => ReaderCalls(m, s, move);
      case RecognizerStep(heard) => RecognizerCalls(m, s, heard);
      case ResponderStep(choice) => ResponderCalls(m, s, choice);
      case WriterStep => WriterCalls(m, s);
    }
    NotedCalls(m, s, Take(m, s, step), CallOf(s, step));
  }

  lemma HandlerCalls(m: Setup, s: Sys)
    requires m.Valid() && CanDeliver(s)
    ensures Called(m, s, Deliver(s), CallOf(s, DeliverOne))
  {
    hide Deliver;
    DeliverAlone(s);
  }

  lemma WriterCalls(m: Setup, s: Sys)
    requires m.Valid() && CanWrite(s)
    ensures Called(m, s, Write(s), CallOf(s, WriterStep))
  {
    hide Write;
    WriteAlone(s);
  }

  lemma ValidCalls(m: Setup, before: seq<Act>, calls: seq<Act>)
    requires ValidActs(m, before) && ValidActs(m, calls)
    ensures ValidActs(m, before + calls)
  {
  }

  lemma OneMoreCall(m: Setup, start: State, before: seq<Act>, a: Act)
    requires m.Valid() && ValidActs(m, before + [a]) && ValidActs(m, before)
    ensures ValidAct(m, a)
    ensures var was := Session.Run(m, start, before);
            var now := Apply(m, was.state, a);
            Session.Run(m, start, before + [a]) == Outcome(now.state, was.events + now.events)
  {
    hide Apply;
    var all := before + [a];
    assert all[..|all| - 1] == before && all[|all| - 1] == a;
  }

  /** After every step of every interleaving, the session and all it reported are
      those of the calls so far, one after the other. */
  lemma {:induction false} SessionIsARun(m: Setup, p: Params, vad: VadState, run: Run, n: nat)
    requires m.Valid() && IsRun(m, p, vad, run) && Whole(run) && n <= |run.steps|
    ensures ValidActs(m, Calls(run, n))
    ensures Session.Run(m, Initial(m, p, vad), Calls(run, n))
         == Outcome(run.states[n].session, run.states[n].past.log)
  {
    hide IsRun, Enabled, Next, Apply, CallOf, Initial;
    if n == 0 {
      StartsCalled(m, p, vad, run);
    } else {
      SessionIsARun(m, p, vad, run, n - 1);
      StepOf(m, p, vad, run, n - 1);
      var s, calls := run.states[n - 1], CallOf(run.states[n - 1], run.steps[n - 1]);
      StepCalls(m, s, run.steps[n - 1]);
      ValidCalls(m, Calls(run, n - 1), calls);
      if calls == [] {
        assert Calls(run, n - 1) + calls == Calls(run, n - 1);
      } else {
        assert calls == [calls[0]];
        OneMoreCall(m, Initial(m, p, vad), Calls(run, n - 1), calls[0]);
      }
    }
  }

  lemma StartsCalled(m: Setup, p: Params, vad: VadState, run: Run)
    requires m.Valid() && IsRun(m, p, vad, run)
    ensures run.states[0].session == Initial(m, p, vad) && run.states[0].past.log == []
  {
    hide Enabled, Next, Initial;
  }

  /** The step of a run, with the state it leaves. */
  lemma StepOf(m: Setup, p: Params, vad: VadState, run: Run, n: nat)
    requires m.Valid() && IsRun(m, p, vad, run) && n < |run.steps|
    ensures Whole(run) && Enabled(m, run.states[n], run.steps[n])
    ensures run.states[n + 1] == Next(m, run.states[n], run.steps[n])
  {
    hide Enabled, Next, Start;
  }
}
