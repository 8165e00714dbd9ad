/** What becomes of every turn the recognizer takes, over every run: what the
    client and the responder get of it, and what the session is told. */
module ConversationAnswers {
  import opened Session
  import opened SessionTrace
  import opened SessionTiming
  import opened Conversation
  import opened ConversationInvariants
  import opened ConversationDelivery
  import opened ConversationQueues
  import opened ConversationFloor
  import opened ConversationGate
  import opened ConversationRuns
  import opened ConversationTheorems
  import opened ConversationCalls
  import opened ConversationOpenings

  // ------------------------------------------------------------ outcomes

  /** Taken, and no longer in the recognizer's hands. */
  predicate Over(s: Sys, k: Key) {
    k in s.past.taken && !(Recognizing(s.recognizer.stage) && s.recognizer.key == k)
  }

  predicate HasJob(s: Sys, k: Key) {
    k in s.past.jobs
  }

  predicate HasTranscript(s: Sys, k: Key) {
    k in TranscriptKeys(s.past.frames)
  }

  /** Nothing goes out for this turn and revision, and nothing is to come. */
  predicate Silenced(s: Sys, k: Key) {
    !HasJob(s, k) && !HasTranscript(s, k)
  }

  /** Given up: silenced, and the session was told so. */
  predicate GivenUp(s: Sys, k: Key) {
    Silenced(s, k) && ReleaseSeen(s.session, k)
  }

  /** On to the responder, with a transcript unless the output has stopped. */
  predicate Answered(s: Sys, k: Key) {
    HasJob(s, k) && (HasTranscript(s, k) || s.shared.outStop)
  }

  /** What a step that is not the recognizer's leaves of its work. */
  predicate SameWork(s: Sys, s': Sys) {
    && s'.recognizer == s.recognizer && s'.past.taken == s.past.taken && s'.past.jobs == s.past.jobs
    && TranscriptKeys(s'.past.frames) == TranscriptKeys(s.past.frames)
  }

  lemma OthersLeaveWork(m: Setup, s: Sys, step: Step)
    requires m.Valid() && Enabled(m, s, step) && Inv(s) && !step.RecognizerStep?
    ensures SameWork(s, Next(m, s, step))
  {
    hide Deliver, Read, Respond, Write, CanRead, CanRespond, CanDeliver, CanWrite, Held, Known, FloorKept, GateKept;
    hide TranscriptKeys, TurnsInOrder, JobsInOrder, RecognizerEmits, ResponderEmits, SaysSpeech;
    match step {
      case DeliverOne =>
        DeliverAlone(s);
        DeliverKeepsFrames(s);
      case ReaderStep(move) => ReaderLeavesWork(m, s, move);
      case ResponderStep(choice) => ResponderLeavesWork(s, choice);
      case WriterStep => WriteAlone(s);
    }
    NotedLeavesWork(s, Take(m, s, step));
  }

  lemma NotedLeavesWork(s: Sys, s': Sys)
    requires SameWork(s, s')
    ensures SameWork(s, Noted(s'))
  {
    hide Outdated, TranscriptKeys;
  }

  lemma ReaderLeavesWork(m: Setup, s: Sys, move: ReaderMove)
    requires m.Valid() && CanRead(m, s, move)
    ensures SameWork(s, Read(m, s, move))
  {
    hide Hear, Tune, HandleAll, TranscriptKeys;
  }

  lemma ResponderLeavesWork(s: Sys, choice: Choice)
    requires CanRespond(s)
    ensures SameWork(s, Respond(s, choice))
  {
    RespondFrames(s, choice);
    hide TranscriptKeys, CreatedKeys, Release, HandleAll, Wakes, Outdated;
  }

  lemma OutStays(m: Setup, s: Sys, step: Step)
    requires m.Valid() && Enabled(m, s, step) && s.shared.outStop
    ensures Next(m, s, step).shared.outStop
  {
    NothingForTheGone(m, s, step);
  }

  /** What one move of the recognizer makes of the turn in its hands. */
  ghost predicate WorkMoves(s: Sys, s': Sys, heard: bool) {
    var k, stage, stage' := s.recognizer.key, s.recognizer.stage, s'.recognizer.stage;
    && s'.recognizer.key == k && s'.past.taken == s.past.taken
    && (stage == HandOver ==> stage' == AwaitTurn && s'.past.jobs == s.past.jobs + [k])
    && (stage != HandOver ==> s'.past.jobs == s.past.jobs)
    && (stage == SendTranscript ==> stage' == HandOver && (HasTranscript(s', k) || s'.shared.outStop))
    && (stage != SendTranscript ==> s'.past.frames == s.past.frames)
    && (stage == Transcribe ==> stage' == if heard then SendTranscript else GiveUp)
    && (stage == GiveUp ==> stage' == GivingUp)
    && (stage == GivingUp ==> stage' == AwaitTurn && s'.session == s.session)
    && (forall k' :: k' != k ==> (HasTranscript(s', k') <==> HasTranscript(s, k')))
  }

  lemma RecognizerWorks(s: Sys, heard: bool)
    requires CanRecognize(s) && Recognizing(s.recognizer.stage)
    ensures WorkMoves(s, Noted(Recognize(s, heard)), heard)
  {
    FrameKeys(s.past.frames, Transcript(s.recognizer.key));
    hide Release, HandleAll, TranscriptKeys, CreatedKeys, Outdated;
  }

  lemma RecognizerTakes(s: Sys, heard: bool)
    requires CanRecognize(s) && s.recognizer.stage == AwaitTurn
    ensures var s' := Noted(Recognize(s, heard));
            && s'.past.jobs == s.past.jobs && s'.past.frames == s.past.frames
            && (s.shared.stop ==> s'.recognizer.stage == RecognizerDone && s'.past.taken == s.past.taken)
            && (!s.shared.stop ==>
                  && s.queue != [] && s'.recognizer == RecognizerAt(CheckRevised, s.queue[0])
                  && s'.past.taken == s.past.taken + [s.queue[0]])
  {
    hide Outdated;
  }

  /** A key leaves the queue of the recognizer once. */
  lemma NotTakenAgain(s: Sys, k: Key)
    requires Inv(s) && k in s.past.taken && s.queue != []
    ensures k != s.queue[0]
  {
    hide Held, JobsInOrder, RecognizerEmits, ResponderEmits, SaysSpeech, FloorKept, GateKept, Delivered;
    TimedMeans(s.session, s.past.log);
    TakenInOrder(s);
    var i :| 0 <= i < |s.past.taken| && s.past.taken[i] == k;
    var all := s.past.taken + s.queue;
    assert Before(all[i], all[|s.past.taken|]);
  }

  /** What became of a turn stays as it is. */
  lemma OverStays(m: Setup, s: Sys, step: Step, k: Key)
    requires m.Valid() && Enabled(m, s, step) && Inv(s) && Over(s, k)
    ensures var s' := Next(m, s, step);
            Over(s', k) && (HasJob(s', k) <==> HasJob(s, k)) && (HasTranscript(s', k) <==> HasTranscript(s, k))
  {
    hide Inv, Next, Recognize, TranscriptKeys, Noted;
    if !step.RecognizerStep? {
      OthersLeaveWork(m, s, step);
    } else {
      hide Enabled;
      RecognizerEnabled(m, s, step.heard);
      if Recognizing(s.recognizer.stage) {
        RecognizerWorks(s, step.heard);
      } else {
        RecognizerTakes(s, step.heard);
        if s.queue != [] {
          NotTakenAgain(s, k);
        }
      }
    }
  }

  lemma RecognizerEnabled(m: Setup, s: Sys, heard: bool)
    requires m.Valid() && Enabled(m, s, RecognizerStep(heard))
    ensures CanRecognize(s) && Next(m, s, RecognizerStep(heard)) == Noted(Recognize(s, heard))
    ensures Recognizing(s.recognizer.stage) || s.recognizer.stage == AwaitTurn
  {
    hide Recognize, Noted;
  }

  // ------------------------------------------------------------ released

  lemma SeenStays(m: Setup, s: Sys, step: Step, k: Key)
    requires m.Valid() && Enabled(m, s, step) && Inv(s) && ReleaseSeen(s.session, k)
    ensures ReleaseSeen(Next(m, s, step).session, k)
  {
    hide Enabled, Next, Apply, ReleaseSeen, Timed, Traced, Sound, Delivered, Held, Queued, FloorKept, GateKept;
    TimedMeans(s.session, s.past.log);
    StepCalls(m, s, step);
    var calls := CallOf(s, step);
    if calls != [] {
      ApplyKeepsSeen(m, s.session, calls[0], k);
    }
  }

  /** The turn in the recognizer's hands is one the session committed. */
  lemma TakenWasCommitted(s: Sys)
    requires Inv(s) && Recognizing(s.recognizer.stage)
    ensures Has(s.past.log, TurnCommitted, s.recognizer.key) && s.recognizer.key in s.past.taken
  {
    hide Held, JobsInOrder, RecognizerEmits, ResponderEmits, SaysSpeech, FloorKept, GateKept, Delivered, Has;
    TimedMeans(s.session, s.past.log);
    TakenInOrder(s);
  }

  lemma GiveUpFrees(m: Setup, s: Sys, heard: bool)
    requires m.Valid() && Enabled(m, s, RecognizerStep(heard)) && Inv(s) && s.recognizer.stage == GiveUp
    ensures ReleaseSeen(Next(m, s, RecognizerStep(heard)).session, s.recognizer.key)
  {
    hide Enabled, Next, ReleaseSeen, Has, Held, Queued, FloorKept, GateKept, Timed, Traced, Delivered, Release;
    TimedMeans(s.session, s.past.log);
    TakenWasCommitted(s);
    StepCalls(m, s, RecognizerStep(heard));
    ReleaseIsSeen(s.session, s.past.log, s.recognizer.key);
  }

  // ------------------------------------------------- from the check on

  /** Heard: the transcript and the job are on the way, or already out. */
  predicate WillBeAnswered(s: Sys, k: Key) {
    var stage := s.recognizer.stage;
    || (s.recognizer.key == k && stage == SendTranscript)
    || (s.recognizer.key == k && stage == HandOver && (HasTranscript(s, k) || s.shared.outStop))
    || (Over(s, k) && Answered(s, k))
  }

  /** Not worth it: on the way out without a word, or already out. */
  predicate WillBeGivenUp(s: Sys, k: Key) {
    var stage := s.recognizer.stage;
    || (s.recognizer.key == k && stage == GiveUp && Silenced(s, k))
    || (s.recognizer.key == k && stage == GivingUp && GivenUp(s, k))
    || (Over(s, k) && GivenUp(s, k))
  }

  lemma AnswerComes(m: Setup, s: Sys, step: Step, k: Key)
    requires m.Valid() && Enabled(m, s, step) && Inv(s) && WillBeAnswered(s, k)
    ensures WillBeAnswered(Next(m, s, step), k)
  {
    hide Inv, Enabled, Next, Noted, Recognize, TranscriptKeys, ReleaseSeen;
    if s.shared.outStop {
      OutStays(m, s, step);
    }
    if Over(s, k) {
      OverStays(m, s, step, k);
    } else if step.RecognizerStep? {
      RecognizerEnabled(m, s, step.heard);
      TakenWasCommitted(s);
      RecognizerWorks(s, step.heard);
    } else {
      OthersLeaveWork(m, s, step);
      SameTranscripts(s, Next(m, s, step), k);
    }
  }

  lemma SameTranscripts(s: Sys, s': Sys, k: Key)
    requires SameWork(s, s')
    ensures HasTranscript(s', k) <==> HasTranscript(s, k)
    ensures HasJob(s', k) <==> HasJob(s, k)
  {
  }

  lemma GiveUpComes(m: Setup, s: Sys, step: Step, k: Key)
    requires m.Valid() && Enabled(m, s, step) && Inv(s) && WillBeGivenUp(s, k)
    ensures WillBeGivenUp(Next(m, s, step), k)
  {
    hide Inv, Enabled, Next, Noted, Recognize, TranscriptKeys, ReleaseSeen;
    if ReleaseSeen(s.session, k) {
      SeenStays(m, s, step, k);
    }
    if Over(s, k) {
      OverStays(m, s, step, k);
    } else if step.RecognizerStep? {
      RecognizerEnabled(m, s, step.heard);
      TakenWasCommitted(s);
      RecognizerWorks(s, step.heard);
      if s.recognizer.stage == GiveUp {
        GiveUpFrees(m, s, step.heard);
      }
    } else {
      OthersLeaveWork(m, s, step);
      SameTranscripts(s, Next(m, s, step), k);
    }
  }

  /** Before its hand-over a turn has no job, before its transcript none. */
  lemma StillSilent(s: Sys)
    requires Inv(s) && (s.recognizer.stage == CheckRevised || s.recognizer.stage == Transcribe)
    ensures Silenced(s, s.recognizer.key)
  {
    hide Held, Known, TurnsInOrder, JobsInOrder, ResponderEmits, SaysSpeech, FloorKept, GateKept, TranscriptKeys;
    hide Increasing, Within;
  }

  /** A turn skipped at its check is never heard of again. */
  lemma {:induction false} SkippedIsGivenUp(m: Setup, p: Params, vad: VadState, run: Run, c: nat, n: nat, k: Key)
    requires m.Valid() && IsRun(m, p, vad, run) && Whole(run) && c < n <= |run.steps|
    requires ChecksAt(run, c, k) && Skipped(run, c, k)
    ensures WillBeGivenUp(run.states[n], k)
  {
    hide IsRun, Inv, Enabled, Next, Skipped, WillBeGivenUp;
    EveryRunKeepsInv(m, p, vad, run, n - 1);
    StepOf(m, p, vad, run, n - 1);
    if n == c + 1 {
      CheckIsExact(m, p, vad, run, c, k);
      LeavesSilent(m, run.states[c], run.steps[c].heard);
    } else {
      SkippedIsGivenUp(m, p, vad, run, c, n - 1, k);
      GiveUpComes(m, run.states[n - 1], run.steps[n - 1], k);
    }
  }

  /** From the check and from the recognition the recognizer leaves in silence,
      but for what was heard. */
  lemma LeavesSilent(m: Setup, s: Sys, heard: bool)
    requires m.Valid() && Enabled(m, s, RecognizerStep(heard)) && Inv(s)
    requires s.recognizer.stage == CheckRevised || s.recognizer.stage == Transcribe
    ensures var s' := Next(m, s, RecognizerStep(heard));
            && s'.recognizer.key == s.recognizer.key
            && (s'.recognizer.stage == GiveUp ==> WillBeGivenUp(s', s.recognizer.key))
    ensures var s' := Next(m, s, RecognizerStep(heard));
            s.recognizer.stage == Transcribe ==> s'.recognizer.stage == if heard then SendTranscript else GiveUp
  {
    hide Inv, Enabled, Next, Noted, Recognize, TranscriptKeys, ReleaseSeen;
    StillSilent(s);
    RecognizerEnabled(m, s, heard);
    RecognizerWorks(s, heard);
  }

  predicate HearsAt(run: Run, n: nat, k: Key)
    requires Whole(run) && n < |run.steps|
  {
    run.steps[n].RecognizerStep? && run.states[n].recognizer == RecognizerAt(Transcribe, k)
  }

  /** A turn that was recognized gets its transcript and its job when it was
      heard, and nothing when it was not. */
  lemma {:induction false} RecognizedIsAnswered(
      m: Setup, p: Params, vad: VadState, run: Run, t: nat, n: nat, k: Key)
    requires m.Valid() && IsRun(m, p, vad, run) && Whole(run) && t < n <= |run.steps| && HearsAt(run, t, k)
    ensures if run.steps[t].heard then WillBeAnswered(run.states[n], k) else WillBeGivenUp(run.states[n], k)
  {
    hide IsRun, Inv, Enabled, Next, WillBeGivenUp;
    EveryRunKeepsInv(m, p, vad, run, n - 1);
    StepOf(m, p, vad, run, n - 1);
    if n == t + 1 {
      LeavesSilent(m, run.states[t], run.steps[t].heard);
    } else {
      hide WillBeAnswered;
      RecognizedIsAnswered(m, p, vad, run, t, n - 1, k);
      if run.steps[t].heard {
        AnswerComes(m, run.states[n - 1], run.steps[n - 1], k);
      } else {
        GiveUpComes(m, run.states[n - 1], run.steps[n - 1], k);
      }
    }
  }

  // ------------------------------------------------------------ every turn

  /** Let through by its check. */
  predicate PassedBy(run: Run, n: nat, k: Key)
    requires Whole(run) && n <= |run.steps|
  {
    exists c :: 0 <= c < n && ChecksAt(run, c, k) && !Skipped(run, c, k)
  }

  predicate HeardBetween(run: Run, c: nat, n: nat, k: Key)
    requires Whole(run) && n <= |run.steps|
  {
    exists t :: c < t < n && HearsAt(run, t, k)
  }

  /** Checked, and skipped there or recognized since. */
  predicate DecidedBy(run: Run, n: nat, k: Key)
    requires Whole(run) && n <= |run.steps|
  {
    exists c :: 0 <= c < n && ChecksAt(run, c, k) && (Skipped(run, c, k) || HeardBetween(run, c, n, k))
  }

  /** How far a turn that was taken has come. */
  predicate Reached(run: Run, n: nat, k: Key)
    requires Whole(run) && n <= |run.steps|
  {
    var s := run.states[n];
    || DecidedBy(run, n, k)
    || (s.recognizer.key == k && s.recognizer.stage == CheckRevised)
    || (s.recognizer.key == k && s.recognizer.stage == Transcribe && PassedBy(run, n, k))
  }

  lemma DecidedStays(run: Run, n: nat, k: Key)
    requires Whole(run) && n < |run.steps|
    ensures DecidedBy(run, n, k) ==> DecidedBy(run, n + 1, k)
    ensures PassedBy(run, n, k) ==> PassedBy(run, n + 1, k)
    ensures PassedBy(run, n, k) && HearsAt(run, n, k) ==> DecidedBy(run, n + 1, k)
  {
    hide ChecksAt, HearsAt, Skipped;
    if DecidedBy(run, n, k) {
      var c :| 0 <= c < n && ChecksAt(run, c, k) && (Skipped(run, c, k) || HeardBetween(run, c, n, k));
      assert HeardBetween(run, c, n, k) ==> HeardBetween(run, c, n + 1, k);
    }
    if PassedBy(run, n, k) && HearsAt(run, n, k) {
      var c :| 0 <= c < n && ChecksAt(run, c, k) && !Skipped(run, c, k);
      assert HeardBetween(run, c, n + 1, k);
    }
  }

  lemma {:induction false} EveryTurnReaches(m: Setup, p: Params, vad: VadState, run: Run, n: nat, k: Key)
    requires m.Valid() && IsRun(m, p, vad, run) && Whole(run) && n <= |run.steps| && k in run.states[n].past.taken
    ensures Reached(run, n, k)
  {
    hide IsRun, Inv, Enabled, Next, Skipped, DecidedBy, PassedBy, Start;
    if n == 0 {
      NothingTakenYet(m, p, vad, run);
    } else {
      var s, step := run.states[n - 1], run.steps[n - 1];
      EveryRunKeepsInv(m, p, vad, run, n - 1);
      StepOf(m, p, vad, run, n - 1);
      DecidedStays(run, n - 1, k);
      if k in s.past.taken {
        EveryTurnReaches(m, p, vad, run, n - 1, k);
      }
      if !step.RecognizerStep? {
        OthersLeaveWork(m, s, step);
      } else {
        RecognizerEnabled(m, s, step.heard);
        if Recognizing(s.recognizer.stage) {
          RecognizerReaches(m, p, vad, run, n - 1, k);
        } else {
          RecognizerTakes(s, step.heard);
        }
      }
    }
  }

  lemma NothingTakenYet(m: Setup, p: Params, vad: VadState, run: Run)
    requires m.Valid() && IsRun(m, p, vad, run)
    ensures run.states[0].past.taken == []
  {
    hide Enabled, Next, Initial;
  }

  lemma RecognizerReaches(m: Setup, p: Params, vad: VadState, run: Run, n: nat, k: Key)
    requires m.Valid() && IsRun(m, p, vad, run) && Whole(run) && n < |run.steps|
    requires run.steps[n].RecognizerStep? && Recognizing(run.states[n].recognizer.stage)
    requires k in run.states[n + 1].past.taken
    requires k in run.states[n].past.taken ==> Reached(run, n, k)
    ensures Reached(run, n + 1, k)
  {
    hide IsRun, Inv, Enabled, Next, Skipped, DecidedBy, PassedBy, Recognize, Noted, HasTranscript;
    var s, step := run.states[n], run.steps[n];
    StepOf(m, p, vad, run, n);
    DecidedStays(run, n, k);
    RecognizerEnabled(m, s, step.heard);
    RecognizerWorks(s, step.heard);
    if s.recognizer == RecognizerAt(CheckRevised, k) {
      CheckIsExact(m, p, vad, run, n, k);
      JustChecked(run, n, k);
    }
  }

  lemma JustChecked(run: Run, n: nat, k: Key)
    requires Whole(run) && n < |run.steps| && ChecksAt(run, n, k)
    ensures if Skipped(run, n, k) then DecidedBy(run, n + 1, k) else PassedBy(run, n + 1, k)
  {
    hide ChecksAt, Skipped;
  }

  /** The turn `k` went its whole way: checked, then given up, or recognized and
      then answered if heard and given up if not. */
  predicate WentItsWay(run: Run, n: nat, k: Key)
    requires Whole(run) && n <= |run.steps|
  {
    exists c :: 0 <= c < n && ChecksAt(run, c, k) && WentOn(run, c, n, k)
  }

  predicate WentOn(run: Run, c: nat, n: nat, k: Key)
    requires Whole(run) && c < n <= |run.steps|
  {
    if Skipped(run, c, k) then GivenUp(run.states[n], k)
    else exists t :: c < t < n && HearsAt(run, t, k) && Fared(run, t, n, k)
  }

  predicate Fared(run: Run, t: nat, n: nat, k: Key)
    requires Whole(run) && t < n <= |run.steps| && HearsAt(run, t, k)
  {
    if run.steps[t].heard then Answered(run.states[n], k) else GivenUp(run.states[n], k)
  }

  /** Every turn the recognizer is done with was given up at its check, because
      it went on under a later revision before any later turn opened; or was
      recognized, and went on to the responder with its transcript if it was
      heard, and was given up if it was not. */
  lemma EveryTurnIsDecided(m: Setup, p: Params, vad: VadState, run: Run, n: nat, k: Key)
    requires m.Valid() && IsRun(m, p, vad, run) && Whole(run) && n <= |run.steps| && Over(run.states[n], k)
    ensures WentItsWay(run, n, k)
  {
    hide IsRun, Skipped, ChecksAt, HearsAt, Answered, GivenUp;
    EveryTurnReaches(m, p, vad, run, n, k);
    var c :| 0 <= c < n && ChecksAt(run, c, k) && (Skipped(run, c, k) || HeardBetween(run, c, n, k));
    if Skipped(run, c, k) {
      SkippedIsGivenUp(m, p, vad, run, c, n, k);
    } else {
      var t :| c < t < n && HearsAt(run, t, k);
      RecognizedIsAnswered(m, p, vad, run, t, n, k);
      assert Fared(run, t, n, k);
    }
    assert WentOn(run, c, n, k);
  }
}
