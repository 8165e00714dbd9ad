/** No deadlock: a conversation that stands still waits for its client, or for
    the grace of a turn. And the order in which the reader takes its steps. */
module ConversationProgress {
  import opened Session
  import opened Conversation
  import opened ConversationInvariants
  import opened ConversationGate
  import opened ConversationRuns
  import opened ConversationTheorems
  import opened ConversationCalls

  /** What a thread goes on with by itself: nothing the client asks for, no send
      that fails, and no waking up without a notification. */
  predicate GoesOn(s: Sys, step: Step) {
    match step
    case DeliverOne => true
    case ReaderStep(move) => move.EndPush? || move.CancelNotify? || move.CloseSet? || move.CloseNotify?
    case RecognizerStep(_) => true
    case ResponderStep(_) => s.responder.stage != Asleep
    case WriterStep => s.writer != Writing
  }

  predicate StandsStill(m: Setup, s: Sys) {
    && !CanDeliver(s) && !CanRecognize(s) && (s.responder.stage == Asleep || !CanRespond(s))
    && (s.writer == Writing || !CanWrite(s))
    && !CanRead(m, s, EndPush) && !CanRead(m, s, CancelNotify)
    && !CanRead(m, s, CloseSet) && !CanRead(m, s, CloseNotify)
  }

  /** Every event handled, every lock free, and each thread where it waits for
      something new, or over. */
  predicate Settled(s: Sys) {
    && s.ops == [] && s.owner == Nobody && !s.shared.turnLock
    && (s.reader == Reading || s.reader == Closed) && (s.writer == Writing || s.writer == WriterDone)
    && (s.recognizer.stage == RecognizerDone || (s.recognizer.stage == AwaitTurn && s.queue == [] && !s.shared.stop))
    && (|| s.responder.stage == ResponderDone
        || (s.responder.stage == AwaitJob && s.answers == [] && !s.shared.stop)
        || (s.responder.stage == Asleep && InItsGrace(s.session, s.past.log, s.shared.answer)))
  }

  lemma ThreadsSettle(m: Setup, s: Sys)
    requires Locked(s) && StandsStill(m, s) && s.ops == []
    ensures s.owner == Nobody && !s.shared.turnLock
    ensures (s.reader == Reading || s.reader == Closed) && (s.writer == Writing || s.writer == WriterDone)
    ensures s.recognizer.stage == RecognizerDone || (s.recognizer.stage == AwaitTurn && s.queue == [] && !s.shared.stop)
    ensures || s.responder.stage == ResponderDone || s.responder.stage == Asleep
            || (s.responder.stage == AwaitJob && s.answers == [] && !s.shared.stop)
  {
  }

  /** The reader keeps no other way of standing still. */
  lemma StillMeans(m: Setup, s: Sys)
    requires m.Valid()
    ensures StandsStill(m, s) <==> forall step :: GoesOn(s, step) ==> !Enabled(m, s, step)
  {
    hide CanDeliver, CanRead, CanRecognize, CanRespond, CanWrite;
    if forall step :: GoesOn(s, step) ==> !Enabled(m, s, step) {
      assert !Enabled(m, s, DeliverOne) && !Enabled(m, s, RecognizerStep(true));
      assert s.responder.stage != Asleep ==> !Enabled(m, s, ResponderStep(SpeakNext));
      assert s.writer != Writing ==> !Enabled(m, s, WriterStep);
      assert !Enabled(m, s, ReaderStep(EndPush)) && !Enabled(m, s, ReaderStep(CancelNotify));
      assert !Enabled(m, s, ReaderStep(CloseSet)) && !Enabled(m, s, ReaderStep(CloseNotify));
    }
  }

  /** If no thread can go on by itself, everything the session reported was
      handled, every turn and every job was worked off, unless the stop is up, and
      an answer that still waits does so for the grace of its own turn to end. */
  lemma NothingIsStuck(m: Setup, p: Params, vad: VadState, run: Run, n: nat)
    requires m.Valid() && IsRun(m, p, vad, run) && Whole(run) && n <= |run.steps|
    requires forall step :: GoesOn(run.states[n], step) ==> !Enabled(m, run.states[n], step)
    ensures Settled(run.states[n])
  {
    var s := run.states[n];
    StillMeans(m, s);
    hide IsRun, Inv, Enabled, CanRead, CanRecognize, CanRespond, CanWrite, GoesOn, Locked, Wakes, InItsGrace;
    EveryRunKeepsInv(m, p, vad, run, n);
    HandlersNeverBlock(m, p, vad, run, n);
    LockedHolds(s);
    ThreadsSettle(m, s);
    if s.responder.stage == Asleep {
      NoLostWakeup(m, p, vad, run, n);
      WaitingIsBounded(m, p, vad, run, n);
    }
  }

  lemma LockedHolds(s: Sys)
    requires Inv(s)
    ensures Locked(s)
  {
    hide Locked, Floor, Known, Queued, FloorKept, GateKept;
  }

  // ------------------------------------------------------------ the reader

  /** The last thing the reader did, if it did anything. */
  function LastMove(run: Run, n: nat): (last: seq<ReaderMove>)
    requires Whole(run) && n <= |run.steps|
    ensures |last| <= 1
  {
    if n == 0 then []
    else if run.steps[n - 1].ReaderStep? then [run.steps[n - 1].move] else LastMove(run, n - 1)
  }

  /** Between two frames of the client. */
  predicate AtRest(last: seq<ReaderMove>) {
    last == [] || last[0].EndPush? || last[0].NewParams? || last[0].CancelNotify?
  }

  /** What the reader may do next: a push is begun, its windows, its end; a
      cancel is raised and then notified; a close is raised, set and notified,
      and nothing comes after it. */
  predicate MayFollow(last: seq<ReaderMove>, move: ReaderMove) {
    match move
    case StartPush => AtRest(last)
    case NewParams(_) => AtRest(last)
    case CancelRequest => AtRest(last)
    case CloseRaise => AtRest(last)
    case HearOne(_) => last != [] && (last[0].StartPush? || last[0].HearOne?)
    case EndPush => last != [] && (last[0].StartPush? || last[0].HearOne?)
    case CancelNotify => last != [] && last[0].CancelRequest?
    case CloseSet => last != [] && last[0].CloseRaise?
    case CloseNotify => last != [] && last[0].CloseSet?
  }

  /** What it may have to wait for: the session, the events of its last window,
      or the turn lock. */
  predicate NeedNotWait(m: Setup, s: Sys, move: ReaderMove) {
    match move
    case StartPush => s.owner == Nobody
    case NewParams(_) => s.owner == Nobody
    case HearOne(w) => s.ops == [] && |w| == m.window
    case EndPush => s.ops == []
    case CancelNotify => !s.shared.turnLock
    case CloseNotify => !s.shared.turnLock
    case _ => true
  }

  function PlaceAfter(last: seq<ReaderMove>): ReaderAt {
    if AtRest(last) then Reading
    else match last[0]
      case CancelRequest => CancelRaised
      case CloseRaise => StopRaised
      case CloseSet => StopSet
      case CloseNotify => Closed
      case _ => Pushing
  }

  lemma ReaderMoves(m: Setup, s: Sys, move: ReaderMove)
    requires m.Valid() && CanRead(m, s, move)
    ensures Noted(Read(m, s, move)).reader == PlaceAfter([move])
  {
    hide Hear, HandleAll, Tune, Outdated;
  }

  lemma OthersLeaveReader(m: Setup, s: Sys, step: Step)
    requires m.Valid() && Enabled(m, s, step) && !step.ReaderStep?
    ensures Next(m, s, step).reader == s.reader
  {
    hide Deliver, Recognize, Respond, Write, CanDeliver, CanRecognize, CanRespond, CanWrite, Outdated;
    match step {
      case DeliverOne => DeliverAlone(s);
      case RecognizerStep(heard) => RecognizerLeavesReader(s, heard);
      case ResponderStep(choice) => ResponderLeavesReader(s, choice);
      case WriterStep => WriterLeavesReader(s);
    }
  }

  lemma RecognizerLeavesReader(s: Sys, heard: bool)
    requires CanRecognize(s)
    ensures Recognize(s, heard).reader == s.reader
  {
    hide Release, HandleAll;
  }

  lemma ResponderLeavesReader(s: Sys, choice: Choice)
    requires CanRespond(s)
    ensures Respond(s, choice).reader == s.reader
  {
    hide Release, HandleAll, Wakes, Outdated;
  }

  lemma WriterLeavesReader(s: Sys)
    requires CanWrite(s)
    ensures Write(s).reader == s.reader
  {
  }

  lemma {:induction false} ReaderIsAt(m: Setup, p: Params, vad: VadState, run: Run, n: nat)
    requires m.Valid() && IsRun(m, p, vad, run) && Whole(run) && n <= |run.steps|
    ensures run.states[n].reader == PlaceAfter(LastMove(run, n))
  {
    hide IsRun, Enabled, Next, PlaceAfter;
    if n == 0 {
      StartsReading(m, p, vad, run);
    } else {
      ReaderIsAt(m, p, vad, run, n - 1);
      StepOf(m, p, vad, run, n - 1);
      var s, step := run.states[n - 1], run.steps[n - 1];
      if step.ReaderStep? {
        ReaderEnabled(m, s, step.move);
        ReaderMoves(m, s, step.move);
      } else {
        OthersLeaveReader(m, s, step);
      }
    }
  }

  lemma ReaderEnabled(m: Setup, s: Sys, move: ReaderMove)
    requires m.Valid() && Enabled(m, s, ReaderStep(move))
    ensures CanRead(m, s, move) && Next(m, s, ReaderStep(move)) == Noted(Read(m, s, move))
  {
    hide Read, Noted;
  }

  lemma StartsReading(m: Setup, p: Params, vad: VadState, run: Run)
    requires m.Valid() && IsRun(m, p, vad, run) && Whole(run)
    ensures run.states[0].reader == Reading && PlaceAfter(LastMove(run, 0)) == Reading
  {
    hide Enabled, Next, Initial;
  }

  /** The reader takes its steps in this order and no other, and is held up by
      nothing else: what may follow it can do, unless it has to wait. */
  lemma ReaderKeepsOrder(m: Setup, p: Params, vad: VadState, run: Run, n: nat, move: ReaderMove)
    requires m.Valid() && IsRun(m, p, vad, run) && Whole(run) && n <= |run.steps|
    ensures Enabled(m, run.states[n], ReaderStep(move)) <==>
            MayFollow(LastMove(run, n), move) && NeedNotWait(m, run.states[n], move)
  {
    hide IsRun;
    ReaderIsAt(m, p, vad, run, n);
  }

  // ------------------------------------------------------------ the writer

  /** How many steps the writer took since its sends succeed. */
  function Failing(run: Run, n: nat): nat
    requires Whole(run) && n <= |run.steps|
  {
    if n == 0 then 0 else Failing(run, n - 1) + (if run.steps[n - 1].WriterStep? then 1 else 0)
  }

  /** A send fails, and the writer raises the cancel, sets the stop, notifies. */
  function WriterAfter(steps: nat): WriterAt {
    if steps == 0 then Writing
    else if steps == 1 then SendFailed
    else if steps == 2 then WriterStopRaised
    else if steps == 3 then WriterStopSet
    else WriterDone
  }

  lemma OthersLeaveWriter(m: Setup, s: Sys, step: Step)
    requires m.Valid() && Enabled(m, s, step) && !step.WriterStep?
    ensures Next(m, s, step).writer == s.writer
  {
    hide Deliver, Read, Recognize, Respond, CanDeliver, CanRead, CanRecognize, CanRespond, Outdated;
    match step {
      case DeliverOne => DeliverAlone(s);
      case ReaderStep(move) => ReaderLeavesWriter(m, s, move);
      case RecognizerStep(heard) => RecognizerLeavesWriter(s, heard);
      case ResponderStep(choice) => ResponderLeavesWriter(s, choice);
    }
  }

  lemma ReaderLeavesWriter(m: Setup, s: Sys, move: ReaderMove)
    requires m.Valid() && CanRead(m, s, move)
    ensures Read(m, s, move).writer == s.writer
  {
    hide Hear, HandleAll, Tune;
  }

  lemma RecognizerLeavesWriter(s: Sys, heard: bool)
    requires CanRecognize(s)
    ensures Recognize(s, heard).writer == s.writer
  {
    hide Release, HandleAll;
  }

  lemma ResponderLeavesWriter(s: Sys, choice: Choice)
    requires CanRespond(s)
    ensures Respond(s, choice).writer == s.writer
  {
    hide Release, HandleAll, Wakes, Outdated;
  }

  lemma WriterMoves(m: Setup, s: Sys, steps: nat)
    requires m.Valid() && Enabled(m, s, WriterStep) && s.writer == WriterAfter(steps)
    ensures Next(m, s, WriterStep).writer == WriterAfter(steps + 1)
  {
    hide Outdated;
  }

  /** The writer goes its way once a send failed, and nothing else holds it up
      but the turn lock, for its last step. */
  lemma {:induction false} WriterKeepsOrder(m: Setup, p: Params, vad: VadState, run: Run, n: nat)
    requires m.Valid() && IsRun(m, p, vad, run) && Whole(run) && n <= |run.steps|
    ensures run.states[n].writer == WriterAfter(Failing(run, n))
    ensures Enabled(m, run.states[n], WriterStep) <==>
            Failing(run, n) < 4 && (Failing(run, n) == 3 ==> !run.states[n].shared.turnLock)
  {
    hide IsRun, Next;
    if n == 0 {
      StartsWriting(m, p, vad, run);
    } else {
      WriterKeepsOrder(m, p, vad, run, n - 1);
      StepOf(m, p, vad, run, n - 1);
      var s, step := run.states[n - 1], run.steps[n - 1];
      if step.WriterStep? {
        WriterMoves(m, s, Failing(run, n - 1));
      } else {
        OthersLeaveWriter(m, s, step);
      }
    }
  }

  lemma StartsWriting(m: Setup, p: Params, vad: VadState, run: Run)
    requires m.Valid() && IsRun(m, p, vad, run)
    ensures run.states[0].writer == Writing
  {
    hide Enabled, Next, Initial;
  }
}
