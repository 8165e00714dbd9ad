/** What the client and the session get of every answer, over every run: each
    frame queued has its step and each such step its frame, an answer that was
    begun is opened and closed, and every turn taken is given back. */
module ConversationResponses {
  import opened Session
  import opened SessionTrace
  import opened SessionTiming
  import opened Conversation
  import opened ConversationInvariants
  import opened ConversationDelivery
  import opened ConversationQueues
  import opened ConversationFloor
  import opened ConversationGate
  import opened ConversationRuns
  import opened ConversationCalls
  import opened ConversationOpenings
  import opened ConversationAnswers
  import opened ConversationCuts

  predicate RespondsAt(run: Run, j: nat, stage: ResponderStage, k: Key)
    requires Whole(run) && j < |run.steps|
  {
    run.steps[j].ResponderStep? && run.states[j].responder == ResponderAt(stage, k)
  }

  /** Step g lets the answer `k` through the gate: its turn is final, nothing
      opened since, and it was not cut. */
  predicate LetsThrough(run: Run, g: nat, k: Key)
    requires Whole(run) && g < |run.steps|
  {
    RespondsAt(run, g, AtGate, k) && MayBeHeard(run.states[g].shared) && run.states[g].shared.finalTurn >= k.turn
  }

  predicate ThroughBy(run: Run, n: nat, k: Key)
    requires Whole(run) && n <= |run.steps|
  {
    exists g :: 0 <= g < n && LetsThrough(run, g, k)
  }

  // ------------------------------------------------- the responder's moves

  /** What a move of another thread leaves of the answer in flight. */
  predicate SameAnswer(s: Sys, s': Sys) {
    && s'.responder.key == s.responder.key && s'.past.started == s.past.started
    && (s'.responder.stage == s.responder.stage || (s.responder.stage == Asleep && s'.responder.stage == AtGate))
    && s'.shared.gated == s.shared.gated
  }

  lemma OthersLeaveAnswer(m: Setup, s: Sys, step: Step)
    requires m.Valid() && Enabled(m, s, step) && !step.ResponderStep?
    ensures SameAnswer(s, Next(m, s, step))
  {
    hide Deliver, Read, Recognize, Write, CanDeliver, CanRead, CanRecognize, CanWrite, Outdated;
    match step {
      case DeliverOne => DeliverAlone(s);
      case ReaderStep(move) => ReaderLeavesAnswer(m, s, move);
      case RecognizerStep(heard) => RecognizerLeavesAnswer(s, heard);
      case WriterStep => WriteAlone(s);
    }
  }

  lemma ReaderLeavesAnswer(m: Setup, s: Sys, move: ReaderMove)
    requires m.Valid() && CanRead(m, s, move)
    ensures SameAnswer(s, Read(m, s, move))
  {
    hide Hear, HandleAll, Tune;
  }

  lemma RecognizerLeavesAnswer(s: Sys, heard: bool)
    requires CanRecognize(s)
    ensures SameAnswer(s, Recognize(s, heard))
  {
    hide Release, HandleAll;
  }

  /** The way of an answer, stage by stage. */
  function After(s: Sys, choice: Choice): ResponderStage {
    match s.responder.stage
    case AwaitJob => if s.shared.stop then ResponderDone else Begin
    case Begin => if s.shared.stop then ReleaseAtEnd else LowerCancel
    case LowerCancel => Publish
    case Publish => SendCreated
    case SendCreated => Work
    case Work => if choice.FinishAnswer? then CloseFloor else if s.shared.gated then Work else ReleaseForGate
    case ReleaseForGate => ReleasingForGate
    case ReleasingForGate => AtGate
    case AtGate => if Wakes(s.shared) then Work else Asleep
    case Asleep => AtGate
    case CloseFloor => SendTerminal
    case SendTerminal => ReleaseAtEnd
    case ReleaseAtEnd => ReleasingAtEnd
    case ReleasingAtEnd => AwaitJob
    case ResponderDone => ResponderDone
  }

  predicate Answering(s: Sys, s': Sys, choice: Choice) {
    var stage, c := s.responder.stage, s.shared;
    && s'.responder.stage == After(s, choice)
    && (if stage == AwaitJob && !c.stop then
          && s.answers != [] && s'.responder.key == s.answers[0]
          && s'.past.started == s.past.started + [s.answers[0]]
        else s'.responder.key == s.responder.key && s'.past.started == s.past.started)
    && s'.shared.gated == (if stage == Publish then false
                           else if stage == AtGate && Wakes(c) then MayBeHeard(c) else c.gated)
  }

  lemma ResponderAnswers(s: Sys, choice: Choice)
    requires CanRespond(s)
    ensures Answering(s, Respond(s, choice), choice)
  {
    hide Release, HandleAll, Outdated;
    match s.responder.stage {
      case AwaitJob =>
      case Publish =>
      case Work =>
      case AtGate =>
      case _ =>
    }
  }

  lemma NotedAnswers(s: Sys, s': Sys, choice: Choice)
    requires Answering(s, s', choice)
    ensures Answering(s, Noted(s'), choice)
  {
    hide Outdated, Wakes, MayBeHeard, After;
  }

  lemma StepAnswers(m: Setup, s: Sys, step: Step)
    requires m.Valid() && Enabled(m, s, step)
    ensures if step.ResponderStep? then CanRespond(s) && Answering(s, Next(m, s, step), step.choice)
            else SameAnswer(s, Next(m, s, step))
  {
    hide Respond, Noted, Answering, SameAnswer;
    if step.ResponderStep? {
      ResponderAnswers(s, step.choice);
      NotedAnswers(s, Respond(s, step.choice), step.choice);
    } else {
      OthersLeaveAnswer(m, s, step);
    }
  }

  // ------------------------------------------------------------ the gate

  lemma GateTest(s: Sys)
    requires Floor(s) && s.responder.stage == AtGate
    ensures Wakes(s.shared) && MayBeHeard(s.shared) <==>
            MayBeHeard(s.shared) && s.shared.finalTurn >= s.responder.key.turn
  {
    hide Outdated;
  }

  lemma OneMoreThrough(run: Run, n: nat, k: Key)
    requires Whole(run) && n < |run.steps|
    ensures ThroughBy(run, n + 1, k) <==> ThroughBy(run, n, k) || LetsThrough(run, n, k)
  {
    hide LetsThrough;
    if ThroughBy(run, n + 1, k) {
      var g :| 0 <= g < n + 1 && LetsThrough(run, g, k);
    }
  }

  lemma FloorHolds(s: Sys)
    requires Inv(s)
    ensures Floor(s)
  {
    hide Locked, Floor, Known, Queued, FloorKept, GateKept;
  }

  /** The gate is passed in one step, and nowhere else. */
  lemma GateStep(m: Setup, s: Sys, step: Step)
    requires m.Valid() && Enabled(m, s, step) && Floor(s)
    ensures var s' := Next(m, s, step);
            var k := s.responder.key;
            var passes := step.ResponderStep? && s.responder.stage == AtGate
                          && MayBeHeard(s.shared) && s.shared.finalTurn >= k.turn;
            && (s'.shared.gated && OnFloor(s'.responder.stage) ==>
                  s'.responder.key == k && ((s.shared.gated && OnFloor(s.responder.stage)) || passes))
            && (passes ==> s'.responder == ResponderAt(Work, k) && s'.shared.gated)
  {
    hide Enabled, Next, Wakes, MayBeHeard, Floor;
    StepAnswers(m, s, step);
    if s.responder.stage == AtGate {
      GateTest(s);
    }
  }

  /** An answer free to speak on the floor was let through. */
  lemma {:induction false} GatedWasThrough(m: Setup, p: Params, vad: VadState, run: Run, n: nat)
    requires m.Valid() && IsRun(m, p, vad, run) && Whole(run) && n <= |run.steps|
    ensures var s := run.states[n];
            s.shared.gated && OnFloor(s.responder.stage) ==> ThroughBy(run, n, s.responder.key)
  {
    hide IsRun, Inv, Enabled, Next, ThroughBy, Floor, MayBeHeard;
    if n == 0 {
      StartsUnlocked(m, p, vad, run);
    } else {
      GatedWasThrough(m, p, vad, run, n - 1);
      StepOf(m, p, vad, run, n - 1);
      EveryRunKeepsInv(m, p, vad, run, n - 1);
      FloorHolds(run.states[n - 1]);
      GateStep(m, run.states[n - 1], run.steps[n - 1]);
      OneMoreThrough(run, n - 1, run.states[n].responder.key);
    }
  }

  lemma NotStartedAgain(s: Sys, k: Key)
    requires Inv(s) && k in s.past.started && s.answers != []
    ensures k != s.answers[0]
  {
    hide Held, Known, TurnsInOrder, ResponderEmits, SaysSpeech, FloorKept, GateKept, TranscriptKeys;
    StartedInOrder(s);
    var i :| 0 <= i < |s.past.started| && s.past.started[i] == k;
    var all := s.past.started + s.answers;
    assert Before(all[i], all[|s.past.started|]);
  }

  /** Started, and no longer in the responder's hands. */
  predicate OverWith(s: Sys, k: Key) {
    k in s.past.started && !(Responding(s.responder.stage) && s.responder.key == k)
  }

  lemma OverWithStays(m: Setup, s: Sys, step: Step, k: Key)
    requires m.Valid() && Enabled(m, s, step) && Inv(s) && OverWith(s, k)
    ensures OverWith(Next(m, s, step), k)
  {
    hide Inv, Enabled, Next, Wakes, MayBeHeard;
    StepAnswers(m, s, step);
    if step.ResponderStep? && s.responder.stage == AwaitJob && !s.shared.stop {
      NotStartedAgain(s, k);
    }
  }

  /** In hand: what the responder works on was started. */
  lemma InHand(s: Sys)
    requires Inv(s) && Responding(s.responder.stage)
    ensures s.responder.key in s.past.started
  {
    hide Held, Known, TurnsInOrder, RecognizerEmits, ResponderEmits, SaysSpeech, FloorKept, GateKept;
  }

  /** Let through, and free to speak until it is closed. */
  predicate PastGate(s: Sys, k: Key) {
    || (s.responder.key == k && s.responder.stage == Work && s.shared.gated)
    || (s.responder.key == k && (s.responder.stage == CloseFloor || s.responder.stage == SendTerminal))
    || (s.responder.key == k && (s.responder.stage == ReleaseAtEnd || s.responder.stage == ReleasingAtEnd))
    || OverWith(s, k)
  }

  lemma PastGateStays(m: Setup, s: Sys, step: Step, k: Key)
    requires m.Valid() && Enabled(m, s, step) && Inv(s) && PastGate(s, k)
    ensures PastGate(Next(m, s, step), k)
  {
    hide Inv, Enabled, Next, Wakes, MayBeHeard;
    StepAnswers(m, s, step);
    if OverWith(s, k) {
      OverWithStays(m, s, step, k);
    } else {
      InHand(s);
    }
  }

  lemma {:induction false} ThroughStays(m: Setup, p: Params, vad: VadState, run: Run, g: nat, n: nat, k: Key)
    requires m.Valid() && IsRun(m, p, vad, run) && Whole(run) && g < n <= |run.steps| && LetsThrough(run, g, k)
    ensures PastGate(run.states[n], k)
  {
    hide IsRun, Inv, Enabled, Next, MayBeHeard, Floor;
    EveryRunKeepsInv(m, p, vad, run, n - 1);
    StepOf(m, p, vad, run, n - 1);
    var s, step := run.states[n - 1], run.steps[n - 1];
    if n == g + 1 {
      FloorHolds(s);
      GateStep(m, s, step);
    } else {
      hide PastGate, LetsThrough;
      ThroughStays(m, p, vad, run, g, n - 1, k);
      PastGateStays(m, s, step, k);
    }
  }

  /** While it works, an answer is free to speak exactly if the gate let it
      through: asked to speak, it is then heard, and else it goes to the gate. */
  lemma SpeaksIfThrough(m: Setup, p: Params, vad: VadState, run: Run, n: nat, k: Key)
    requires m.Valid() && IsRun(m, p, vad, run) && Whole(run) && n < |run.steps| && RespondsAt(run, n, Work, k)
    ensures run.states[n].shared.gated <==> ThroughBy(run, n, k)
    ensures run.steps[n].choice == SpeakNext ==>
              run.states[n + 1].responder == ResponderAt(if ThroughBy(run, n, k) then Work else ReleaseForGate, k)
  {
    hide IsRun, Inv, Enabled, Next, Wakes, MayBeHeard;
    GatedWasThrough(m, p, vad, run, n);
    if ThroughBy(run, n, k) {
      var g :| 0 <= g < n && LetsThrough(run, g, k);
      ThroughStays(m, p, vad, run, g, n, k);
    }
    StepOf(m, p, vad, run, n);
    StepAnswers(m, run.states[n], run.steps[n]);
  }

  // ------------------------------------------------------------ the frames

  /** What step j gives the client. */
  function Said(run: Run, j: nat): seq<Frame>
    requires Whole(run) && j < |run.steps|
  {
    var s := run.states[j];
    match run.steps[j]
    case DeliverOne => if s.ops != [] && s.ops[0].Say? then [SpeechFrame] else []
    case ReaderStep(_) => []
    case RecognizerStep(_) =>
      if s.recognizer.stage == SendTranscript then [Transcript(s.recognizer.key)] else []
    case ResponderStep(choice) => Answers(run, j, choice)
    case WriterStep => []
  }

  function Answers(run: Run, j: nat, choice: Choice): seq<Frame>
    requires Whole(run) && j < |run.steps|
  {
    var k := run.states[j].responder.key;
    match run.states[j].responder.stage
    case SendCreated => [Created(k)]
    case Work => if choice.SpeakNext? && ThroughBy(run, j, k) then [Voice(k)] else []
    case SendTerminal => [if IsCut(run, j) then Cancelled(k) else Done(k)]
    case _ => []
  }

  /** All that the client was given: nothing from a failed send on. */
  function AllSaid(run: Run, n: nat): seq<Frame>
    requires Whole(run) && n <= |run.steps|
  {
    if n == 0 then []
    else AllSaid(run, n - 1) + (if FailedBy(run, n - 1) then [] else Said(run, n - 1))
  }

  /** The frames after a step, as the state alone says. */
  predicate Gives(s: Sys, s': Sys, said: seq<Frame>) {
    s'.past.frames == s.past.frames + (if s.shared.outStop then [] else said)
  }

  lemma HandlerGives(s: Sys)
    requires CanDeliver(s) && SaysSpeech(s.ops)
    ensures Gives(s, Deliver(s), if s.ops[0].Say? then [SpeechFrame] else [])
  {
    hide Outdated, Before, TakesTurnLock;
    assert s.past.frames + [] == s.past.frames && s.ops[0] in s.ops;
    match s.ops[0] {
      case Say(_) =>
      case Opened(_) =>
      case _ =>
    }
  }

  lemma ReaderGives(m: Setup, s: Sys, move: ReaderMove)
    requires m.Valid() && CanRead(m, s, move)
    ensures Gives(s, Read(m, s, move), [])
  {
    hide Hear, HandleAll, Tune;
    assert s.past.frames + [] == s.past.frames;
  }

  lemma RecognizerGives(s: Sys, heard: bool)
    requires CanRecognize(s)
    ensures Gives(s, Recognize(s, heard),
                  if s.recognizer.stage == SendTranscript then [Transcript(s.recognizer.key)] else [])
  {
    hide Release, HandleAll;
    assert s.past.frames + [] == s.past.frames;
  }

  lemma ResponderGives(s: Sys, choice: Choice)
    requires CanRespond(s)
    ensures Gives(s, Respond(s, choice), Lets(s, choice))
  {
    RespondLets(s, choice);
    hide Respond, Lets;
  }

  lemma WriterGives(s: Sys)
    requires CanWrite(s)
    ensures Gives(s, Write(s), [])
  {
    WriteAlone(s);
    hide Write;
    assert s.past.frames + [] == s.past.frames;
  }

  /** What the state alone says goes out. */
  function GivenNow(s: Sys, step: Step): seq<Frame> {
    match step
    case DeliverOne => if s.ops != [] && s.ops[0].Say? then [SpeechFrame] else []
    case RecognizerStep(_) =>
      if s.recognizer.stage == SendTranscript then [Transcript(s.recognizer.key)] else []
    case ResponderStep(choice) => Lets(s, choice)
    case _ => []
  }

  lemma NotedGives(s: Sys)
    ensures Noted(s).past.frames == s.past.frames
  {
    hide Outdated;
  }

  lemma StepGives(m: Setup, s: Sys, step: Step)
    requires m.Valid() && Enabled(m, s, step) && SaysSpeech(s.ops)
    ensures Gives(s, Next(m, s, step), GivenNow(s, step))
  {
    hide Deliver, Read, Respond, Recognize, Write, Noted, Lets, SaysSpeech, TakesTurnLock;
    hide CanRead, CanRespond, CanRecognize, CanWrite;
    NotedGives(Take(m, s, step));
    match step {
      case DeliverOne => HandlerGives(s);
      case ReaderStep(move) => ReaderGives(m, s, move);
      case RecognizerStep(heard) => RecognizerGives(s, heard);
      case ResponderStep(choice) => ResponderGives(s, choice);
      case WriterStep => WriterGives(s);
    }
  }

  lemma SaysSpeechHolds(s: Sys)
    requires Inv(s)
    ensures SaysSpeech(s.ops)
  {
    hide Held, Known, TurnsInOrder, JobsInOrder, RecognizerEmits, ResponderEmits, SaysSpeech, FloorKept, GateKept;
  }

  lemma GivenIsSaid(m: Setup, p: Params, vad: VadState, run: Run, n: nat)
    requires m.Valid() && IsRun(m, p, vad, run) && Whole(run) && n < |run.steps|
    ensures GivenNow(run.states[n], run.steps[n]) == Said(run, n)
  {
    hide IsRun, IsCut, ThroughBy;
    var s, step := run.states[n], run.steps[n];
    CancelHasItsCut(m, p, vad, run, n);
    if step.ResponderStep? && s.responder.stage == Work {
      SpeaksIfThrough(m, p, vad, run, n, s.responder.key);
    }
  }

  /** The client is given exactly what the steps of the run say, in their order:
      the announcement of each opening as it is handled, a transcript, a response
      as it opens, its sound once the gate let it through, and as it closes one
      terminal, cancelled exactly if something cut it since it was begun. */
  lemma {:induction false} EveryFrameHasItsStep(m: Setup, p: Params, vad: VadState, run: Run, n: nat)
    requires m.Valid() && IsRun(m, p, vad, run) && Whole(run) && n <= |run.steps|
    ensures run.states[n].past.frames == AllSaid(run, n)
  {
    hide IsRun, Inv, Enabled, Next, Said, GivenNow, FailedBy, StoppedBy, OvertakenBy;
    if n == 0 {
      NothingSaidYet(m, p, vad, run);
    } else {
      EveryFrameHasItsStep(m, p, vad, run, n - 1);
      EveryRunKeepsInv(m, p, vad, run, n - 1);
      SaysSpeechHolds(run.states[n - 1]);
      StepOf(m, p, vad, run, n - 1);
      StepGives(m, run.states[n - 1], run.steps[n - 1]);
      GivenIsSaid(m, p, vad, run, n - 1);
      EndsHaveTheirCause(m, p, vad, run, n - 1);
    }
  }

  lemma NothingSaidYet(m: Setup, p: Params, vad: VadState, run: Run)
    requires m.Valid() && IsRun(m, p, vad, run)
    ensures run.states[0].past.frames == []
  {
    hide Enabled, Next, Initial;
  }

  // ------------------------------------------------------------ each answer

  predicate OpensAfter(run: Run, b: nat, n: nat, k: Key)
    requires Whole(run) && n <= |run.steps|
  {
    exists c :: b < c < n && RespondsAt(run, c, SendCreated, k)
  }

  /** Opened after step b, and then closed. */
  predicate ClosesAfter(run: Run, b: nat, n: nat, k: Key)
    requires Whole(run) && n <= |run.steps|
  {
    exists c, z :: b < c < z < n && RespondsAt(run, c, SendCreated, k) && RespondsAt(run, z, SendTerminal, k)
  }

  /** The way of an answer that was begun. */
  predicate OnItsWay(run: Run, b: nat, n: nat, k: Key)
    requires Whole(run) && n <= |run.steps|
  {
    var s := run.states[n];
    var stage := s.responder.stage;
    || (s.responder.key == k && (stage == LowerCancel || stage == Publish || stage == SendCreated))
    || (s.responder.key == k && InResponse(stage) && OpensAfter(run, b, n, k))
    || (s.responder.key == k && stage == ReleaseAtEnd && ClosesAfter(run, b, n, k))
    || (GivenBack(s, k) && ClosesAfter(run, b, n, k))
  }

  /** The session was told that this answer is over. */
  predicate GivenBack(s: Sys, k: Key) {
    && ReleaseSeen(s.session, k)
    && ((s.responder.key == k && s.responder.stage == ReleasingAtEnd) || OverWith(s, k))
  }

  /** Nor was it ever opened. */
  predicate Refused(s: Sys, k: Key) {
    && k !in CreatedKeys(s.past.frames)
    && ((s.responder.key == k && s.responder.stage == ReleaseAtEnd) || GivenBack(s, k))
  }

  lemma EndFrees(m: Setup, s: Sys, choice: Choice)
    requires m.Valid() && Enabled(m, s, ResponderStep(choice)) && Inv(s) && s.responder.stage == ReleaseAtEnd
    ensures ReleaseSeen(Next(m, s, ResponderStep(choice)).session, s.responder.key)
  {
    hide Enabled, Next, ReleaseSeen, Has, Locked, Bracketed, Voided, Honest, GateKept, Timed, Delivered, Release;
    hide TurnsInOrder, JobsInOrder, RecognizerEmits, ResponderEmits, SaysSpeech, Traced;
    TimedMeans(s.session, s.past.log);
    AnswerWasCommitted(s);
    StepCalls(m, s, ResponderStep(choice));
    ReleaseIsSeen(s.session, s.past.log, s.responder.key);
  }

  lemma GivenBackStays(m: Setup, s: Sys, step: Step, k: Key)
    requires m.Valid() && Enabled(m, s, step) && Inv(s) && GivenBack(s, k)
    ensures GivenBack(Next(m, s, step), k)
  {
    hide Inv, Enabled, Next, ReleaseSeen, Wakes, MayBeHeard;
    SeenStays(m, s, step, k);
    if OverWith(s, k) {
      OverWithStays(m, s, step, k);
    } else {
      InHand(s);
      StepAnswers(m, s, step);
    }
  }

  lemma MoreAfter(run: Run, b: nat, n: nat, k: Key)
    requires Whole(run) && b < n < |run.steps|
    ensures OpensAfter(run, b, n, k) || RespondsAt(run, n, SendCreated, k) ==> OpensAfter(run, b, n + 1, k)
    ensures ClosesAfter(run, b, n, k) ==> ClosesAfter(run, b, n + 1, k)
    ensures OpensAfter(run, b, n, k) && RespondsAt(run, n, SendTerminal, k) ==> ClosesAfter(run, b, n + 1, k)
  {
    hide RespondsAt;
    if OpensAfter(run, b, n, k) {
      var c :| b < c < n && RespondsAt(run, c, SendCreated, k);
    }
    if ClosesAfter(run, b, n, k) {
      var c, z :| b < c < z < n && RespondsAt(run, c, SendCreated, k) && RespondsAt(run, z, SendTerminal, k);
    }
  }

  lemma WayGoesOn(m: Setup, run: Run, b: nat, n: nat, k: Key)
    requires m.Valid() && Whole(run) && b < n < |run.steps| && OnItsWay(run, b, n, k) && Inv(run.states[n])
    requires Enabled(m, run.states[n], run.steps[n]) && run.states[n + 1] == Next(m, run.states[n], run.steps[n])
    ensures OnItsWay(run, b, n + 1, k)
  {
    hide Inv, Enabled, Next, ReleaseSeen, OpensAfter, ClosesAfter, Wakes, MayBeHeard;
    var s, step := run.states[n], run.steps[n];
    MoreAfter(run, b, n, k);
    if GivenBack(s, k) {
      GivenBackStays(m, s, step, k);
    } else {
      hide GivenBack;
      StepAnswers(m, s, step);
      if step.ResponderStep? && s.responder.stage == ReleaseAtEnd {
        JustGivenBack(m, s, step.choice);
      }
    }
  }

  lemma JustGivenBack(m: Setup, s: Sys, choice: Choice)
    requires m.Valid() && Enabled(m, s, ResponderStep(choice)) && Inv(s) && s.responder.stage == ReleaseAtEnd
    ensures GivenBack(Next(m, s, ResponderStep(choice)), s.responder.key)
  {
    hide Inv, Enabled, Next, ReleaseSeen, Wakes, MayBeHeard;
    EndFrees(m, s, choice);
    StepAnswers(m, s, ResponderStep(choice));
  }

  lemma CreatedByResponder(m: Setup, s: Sys, step: Step)
    requires m.Valid() && Enabled(m, s, step) && Inv(s)
    ensures CreatedKeys(Next(m, s, step).past.frames) == CreatedKeys(s.past.frames)
         || (step.ResponderStep? && s.responder.stage == SendCreated
             && CreatedKeys(Next(m, s, step).past.frames) == CreatedKeys(s.past.frames) + [s.responder.key])
  {
    hide Inv, Enabled, Next, CreatedKeys, TranscriptKeys;
    SaysSpeechHolds(s);
    StepGives(m, s, step);
    var frames, given := s.past.frames, GivenNow(s, step);
    assert frames + [] == frames;
    if given != [] {
      assert given == [given[0]];
      FrameKeys(frames, given[0]);
    }
  }

  lemma RefusedStays(m: Setup, s: Sys, step: Step, k: Key)
    requires m.Valid() && Enabled(m, s, step) && Inv(s) && Refused(s, k)
    ensures Refused(Next(m, s, step), k)
  {
    hide Inv, Enabled, Next, ReleaseSeen, CreatedKeys, Wakes, MayBeHeard;
    CreatedByResponder(m, s, step);
    if GivenBack(s, k) {
      GivenBackStays(m, s, step, k);
    } else {
      StepAnswers(m, s, step);
      if step.ResponderStep? {
        JustGivenBack(m, s, step.choice);
      }
    }
  }

  lemma NotCreatedYet(s: Sys)
    requires Inv(s) && s.responder.stage == Begin
    ensures s.responder.key !in CreatedKeys(s.past.frames)
  {
    hide Held, Known, TurnsInOrder, JobsInOrder, RecognizerEmits, SaysSpeech, FloorKept, GateKept, CreatedKeys;
    hide Increasing, Within;
  }

  lemma BeginStep(m: Setup, s: Sys, choice: Choice)
    requires m.Valid() && Enabled(m, s, ResponderStep(choice)) && Inv(s) && s.responder.stage == Begin
    ensures var s', k := Next(m, s, ResponderStep(choice)), s.responder.key;
            if s.shared.stop then Refused(s', k) else s'.responder == ResponderAt(LowerCancel, k)
  {
    hide Inv, Enabled, Next, ReleaseSeen, CreatedKeys, Wakes, MayBeHeard;
    StepAnswers(m, s, ResponderStep(choice));
    CreatedByResponder(m, s, ResponderStep(choice));
    NotCreatedYet(s);
  }

  lemma {:induction false} BegunGoesItsWay(m: Setup, p: Params, vad: VadState, run: Run, b: nat, n: nat, k: Key)
    requires m.Valid() && IsRun(m, p, vad, run) && Whole(run) && b < n <= |run.steps| && RespondsAt(run, b, Begin, k)
    ensures if run.states[b].shared.stop then Refused(run.states[n], k) else OnItsWay(run, b, n, k)
  {
    hide IsRun, Inv, Enabled, Next, Refused;
    EveryRunKeepsInv(m, p, vad, run, n - 1);
    StepOf(m, p, vad, run, n - 1);
    if n == b + 1 {
      BeginStep(m, run.states[b], run.steps[b].choice);
    } else {
      hide OnItsWay, RespondsAt;
      BegunGoesItsWay(m, p, vad, run, b, n - 1, k);
      if run.states[b].shared.stop {
        RefusedStays(m, run.states[n - 1], run.steps[n - 1], k);
      } else {
        WayGoesOn(m, run, b, n - 1, k);
      }
    }
  }

  predicate BegunBy(run: Run, n: nat, k: Key)
    requires Whole(run) && n <= |run.steps|
  {
    exists b :: 0 <= b < n && RespondsAt(run, b, Begin, k)
  }

  lemma {:induction false} StartedIsBegun(m: Setup, p: Params, vad: VadState, run: Run, n: nat, k: Key)
    requires m.Valid() && IsRun(m, p, vad, run) && Whole(run) && n <= |run.steps| && k in run.states[n].past.started
    ensures BegunBy(run, n, k) || run.states[n].responder == ResponderAt(Begin, k)
  {
    hide IsRun, Inv, Enabled, Next, Wakes, MayBeHeard;
    if n == 0 {
      NothingStartedYet(m, p, vad, run);
    } else {
      var s, step := run.states[n - 1], run.steps[n - 1];
      StepOf(m, p, vad, run, n - 1);
      StepAnswers(m, s, step);
      if k in s.past.started {
        StartedIsBegun(m, p, vad, run, n - 1, k);
        if step.ResponderStep? && s.responder == ResponderAt(Begin, k) {
          assert RespondsAt(run, n - 1, Begin, k);
        }
      }
    }
  }

  lemma NothingStartedYet(m: Setup, p: Params, vad: VadState, run: Run)
    requires m.Valid() && IsRun(m, p, vad, run)
    ensures run.states[0].past.started == []
  {
    hide Enabled, Next, Initial;
  }

  /** Begun at step b and over by n: refused where the stop was up, and else
      opened and closed; and given back to the session either way. */
  predicate WasAnswered(run: Run, b: nat, n: nat, k: Key)
    requires Whole(run) && b < n <= |run.steps|
  {
    && RespondsAt(run, b, Begin, k)
    && (if StoppedBy(run, b) then k !in CreatedKeys(run.states[n].past.frames) else ClosesAfter(run, b, n, k))
    && ReleaseSeen(run.states[n].session, k)
  }

  /** Every answer the responder is done with was begun, opened and closed, or
      refused at the end, and its turn was given back. What the client saw of it
      is in EveryFrameHasItsStep. */
  lemma EveryAnswerIsClosed(m: Setup, p: Params, vad: VadState, run: Run, n: nat, k: Key)
    requires m.Valid() && IsRun(m, p, vad, run) && Whole(run) && n <= |run.steps| && OverWith(run.states[n], k)
    ensures exists b :: 0 <= b < n && WasAnswered(run, b, n, k)
  {
    hide IsRun, RespondsAt, ClosesAfter, CreatedKeys, ReleaseSeen, OpensAfter, StoppedBy, FailedBy, OvertakenBy;
    StartedIsBegun(m, p, vad, run, n, k);
    var b :| 0 <= b < n && RespondsAt(run, b, Begin, k);
    BegunGoesItsWay(m, p, vad, run, b, n, k);
    EndsHaveTheirCause(m, p, vad, run, b);
    assert WasAnswered(run, b, n, k);
  }

  /** A turn somebody still works on, or will. */
  predicate InTheWorks(s: Sys, k: Key) {
    || (Recognizing(s.recognizer.stage) && s.recognizer.key == k)
    || k in s.answers
    || (Responding(s.responder.stage) && s.responder.key == k)
  }

  /** Every turn the recognizer took is being worked on, waits for its answer, or
      was given back to the session: none is left resumable for ever. */
  lemma EveryTurnIsGivenBack(m: Setup, p: Params, vad: VadState, run: Run, n: nat, k: Key)
    requires m.Valid() && IsRun(m, p, vad, run) && Whole(run) && n <= |run.steps| && k in run.states[n].past.taken
    ensures InTheWorks(run.states[n], k) || ReleaseSeen(run.states[n].session, k)
  {
    hide IsRun, Inv, ReleaseSeen, Skipped, ChecksAt, HearsAt, RespondsAt, ClosesAfter, Silenced, HasTranscript;
    var s := run.states[n];
    if !InTheWorks(s, k) {
      EveryTurnIsDecided(m, p, vad, run, n, k);
      if HasJob(s, k) {
        EveryRunKeepsInv(m, p, vad, run, n);
        JobIsStarted(s, k);
        EveryAnswerIsClosed(m, p, vad, run, n, k);
      }
    }
  }

  lemma JobIsStarted(s: Sys, k: Key)
    requires Inv(s) && k in s.past.jobs && k !in s.answers
    ensures k in s.past.started
  {
    hide Held, Known, TurnsInOrder, RecognizerEmits, ResponderEmits, SaysSpeech, FloorKept, GateKept;
  }

  // ------------------------------------------------------------ announced

  function Openings(log: seq<Event>): nat {
    if log == [] then 0 else Openings(log[..|log| - 1]) + (if IsOpening(log[|log| - 1]) then 1 else 0)
  }

  function SpeechFrames(frames: seq<Frame>): nat {
    if frames == [] then 0
    else SpeechFrames(frames[..|frames| - 1]) + (if frames[|frames| - 1] == SpeechFrame then 1 else 0)
  }

  /** The announcements still to be made. */
  function Saying(ops: seq<Op>): nat {
    if ops == [] then 0 else Saying(ops[..|ops| - 1]) + (if ops[|ops| - 1].Say? then 1 else 0)
  }

  lemma {:induction false} OpeningsAdd(a: seq<Event>, b: seq<Event>)
    ensures Openings(a + b) == Openings(a) + Openings(b)
  {
    hide IsOpening;
    if b == [] {
      assert a + b == a;
    } else {
      assert (a + b)[..|a + b| - 1] == a + b[..|b| - 1];
      OpeningsAdd(a, b[..|b| - 1]);
    }
  }

  lemma {:induction false} SayingAdds(a: seq<Op>, b: seq<Op>)
    ensures Saying(a + b) == Saying(a) + Saying(b)
  {
    if b == [] {
      assert a + b == a;
    } else {
      assert (a + b)[..|a + b| - 1] == a + b[..|b| - 1];
      SayingAdds(a, b[..|b| - 1]);
    }
  }

  /** What is still to be told as open is still to be announced, right before. */
  predicate AnnouncedFirst(ops: seq<Op>) {
    forall i :: 0 < i < |ops| && ops[i].Opened? ==> ops[i - 1] == Say(SpeechFrame)
  }

  lemma HandleAnnounces(e: Event)
    ensures Saying(Handle(e)) == (if IsOpening(e) then 1 else 0) && AnnouncedFirst(Handle(e))
    ensures Handle(e) != [] ==> !Handle(e)[0].Opened?
  {
    var ops := Handle(e);
    assert Saying([]) == 0;
    if |ops| == 1 {
      assert ops[..0] == [];
    } else if |ops| == 2 {
      assert ops[..1] == [ops[0]] && [ops[0]][..0] == [];
    }
  }

  lemma {:induction false} HandlersAnnounce(events: seq<Event>)
    ensures Saying(HandleAll(events)) == Openings(events) && AnnouncedFirst(HandleAll(events))
    ensures HandleAll(events) != [] ==> !HandleAll(events)[0].Opened?
  {
    hide Handle, Saying, IsOpening;
    if events != [] {
      var before, e := events[..|events| - 1], events[|events| - 1];
      HandlersAnnounce(before);
      HandleAnnounces(e);
      SayingAdds(HandleAll(before), Handle(e));
    } else {
      NothingToSay();
    }
  }

  lemma NothingToSay()
    ensures Saying([]) == 0 && Openings([]) == 0
  {
  }

  predicate Announced(s: Sys) {
    && (!s.shared.outStop ==> SpeechFrames(s.past.frames) + Saying(s.ops) == Openings(s.past.log))
    && AnnouncedFirst(s.ops)
  }

  lemma SpeechFramesAdd(frames: seq<Frame>, f: Frame)
    ensures SpeechFrames(frames + [f]) == SpeechFrames(frames) + (if f == SpeechFrame then 1 else 0)
  {
  }

  lemma DeliverAnnounces(s: Sys)
    requires CanDeliver(s)
    ensures var rest := Deliver(s).ops;
            Saying(rest) == Saying(s.ops) - (if s.ops[0].Say? then 1 else 0)
            && (AnnouncedFirst(s.ops) ==> AnnouncedFirst(rest))
  {
    hide Deliver, Saying;
    var op, rest := s.ops[0], s.ops[1..];
    assert s.ops == [op] + rest;
    SayingAdds([op], rest);
    SayingOne(op);
    DeliverLets(s);
    if Deliver(s).ops != rest {
      DeliverQueues(s);
      var more := Deliver(s).ops[0];
      assert Deliver(s).ops == [more] + rest;
      SayingAdds([more], rest);
      SayingOne(more);
    }
  }

  lemma SayingOne(op: Op)
    ensures Saying([op]) == if op.Say? then 1 else 0
  {
    assert [op][..0] == [];
  }

  lemma GivesSpeech(s: Sys, step: Step)
    requires step.DeliverOne? ==> s.ops != []
    ensures var given := GivenNow(s, step);
            && (step.DeliverOne? && s.ops[0].Say? ==> given == [SpeechFrame])
            && (!(step.DeliverOne? && s.ops[0].Say?) ==>
                  given == [] || (|given| == 1 && given[0] != SpeechFrame))
  {
  }

  /** The frames of one step, counted. */
  lemma StepCounts(m: Setup, s: Sys, step: Step)
    requires m.Valid() && Enabled(m, s, step) && SaysSpeech(s.ops) && (step.DeliverOne? ==> s.ops != [])
    requires !s.shared.outStop
    ensures SpeechFrames(Next(m, s, step).past.frames)
         == SpeechFrames(s.past.frames) + (if step.DeliverOne? && s.ops[0].Say? then 1 else 0)
  {
    hide Enabled, Next, SpeechFrames, GivenNow, SaysSpeech;
    StepGives(m, s, step);
    GivesSpeech(s, step);
    var frames, given := s.past.frames, GivenNow(s, step);
    assert frames + [] == frames;
    if given != [] {
      assert given == [given[0]];
      SpeechFramesAdd(frames, given[0]);
    }
  }

  lemma DeliverLeaves(m: Setup, s: Sys)
    requires m.Valid() && Enabled(m, s, DeliverOne)
    ensures var s' := Next(m, s, DeliverOne);
            s.ops != [] && CanDeliver(s) && s'.ops == Deliver(s).ops && s'.past.log == s.past.log
  {
    DeliverAlone(s);
    hide Deliver, Outdated;
  }

  lemma StepAnnounces(m: Setup, s: Sys, step: Step)
    requires m.Valid() && Enabled(m, s, step) && Inv(s) && Announced(s)
    ensures Announced(Next(m, s, step))
  {
    hide Inv, Enabled, Next, Saying, SpeechFrames, Openings, AnnouncedFirst, SaysSpeech, HandleAll, Deliver;
    SaysSpeechHolds(s);
    if s.shared.outStop {
      OutStays(m, s, step);
    }
    if step.DeliverOne? {
      DeliverLeaves(m, s);
      DeliverAnnounces(s);
    } else {
      var more := StepReports(m, s, step);
      OpeningsAdd(s.past.log, more);
      HandlersAnnounce(more);
      NothingToSay();
    }
    if !s.shared.outStop {
      StepCounts(m, s, step);
    }
  }

  /** Until a send fails, every opening has its announcement: queued before the
      opening is told, or still to be handled. */
  lemma {:induction false} EveryOpeningIsAnnounced(m: Setup, p: Params, vad: VadState, run: Run, n: nat)
    requires m.Valid() && IsRun(m, p, vad, run) && Whole(run) && n <= |run.steps|
    ensures var s := run.states[n];
            && (!FailedBy(run, n) ==> SpeechFrames(s.past.frames) + Saying(s.ops) == Openings(s.past.log))
            && AnnouncedFirst(s.ops)
  {
    hide IsRun, Inv, Enabled, Next, Saying, SpeechFrames, Openings, AnnouncedFirst, FailedBy, StoppedBy, OvertakenBy;
    EndsHaveTheirCause(m, p, vad, run, n);
    if n == 0 {
      NothingAnnouncedYet(m, p, vad, run);
    } else {
      EveryOpeningIsAnnounced(m, p, vad, run, n - 1);
      EndsHaveTheirCause(m, p, vad, run, n - 1);
      EveryRunKeepsInv(m, p, vad, run, n - 1);
      StepOf(m, p, vad, run, n - 1);
      StepAnnounces(m, run.states[n - 1], run.steps[n - 1]);
    }
  }

  lemma NothingAnnouncedYet(m: Setup, p: Params, vad: VadState, run: Run)
    requires m.Valid() && IsRun(m, p, vad, run)
    ensures Announced(run.states[0])
  {
    hide Enabled, Next, Initial;
  }
}
