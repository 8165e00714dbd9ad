/** What a conversation promises, in every state of every interleaving of its
    threads. */
module ConversationTheorems {
  import opened Session
  import opened SessionTrace
  import opened SessionTiming
  import opened Conversation
  import opened ConversationInvariants
  import opened ConversationDelivery
  import opened ConversationQueues
  import opened ConversationFloor
  import opened ConversationGate
  import opened ConversationRuns

  // ------------------------------------------------------------ the gate

  /** From place i of the log on, the turn of `key` is over: final under this
      revision, and named again only by the barge-in that ends it. */
  predicate FinalForGood(log: seq<Event>, i: int, key: Key) {
    && 0 <= i < |log| && log[i].kind == TurnFinal && KeyOf(log[i]) == key
    && (forall j :: i < j < |log| ==> log[j].turn > key.turn || (log[j].turn == key.turn && log[j].kind == BargeIn))
  }

  /** Sound of an answer is queued only after its turn became final under the
      very revision it answers, and that turn never resumes. */
  lemma SoundOnlyAfterFinal(m: Setup, p: Params, vad: VadState, run: Run, n: nat)
    requires m.Valid() && IsRun(m, p, vad, run) && n < |run.states|
    ensures var past := run.states[n].past;
            forall f :: f in past.frames && f.Voice? ==> exists i :: FinalForGood(past.log, i, f.key)
  {
    hide IsRun, Inv, Timed, Traced, Sound, Locked, Floor, Delivered, Freed, Notified, CommitsAdvance;
    hide TurnsInOrder, JobsInOrder, RecognizerEmits, ResponderEmits;
    EveryRunKeepsInv(m, p, vad, run, n);
    var s := run.states[n];
    InvHolds(s);
    TimedMeans(s.session, s.past.log);
    var log := s.past.log;
    assert FinalIsLast(log);
    forall f | f in s.past.frames && f.Voice?
      ensures exists i :: FinalForGood(log, i, f.key)
    {
      var i :| 0 <= i < |log| && log[i].kind == TurnFinal && KeyOf(log[i]) == f.key;
      assert FinalForGood(log, i, f.key);
    }
  }

  /** With every event handled, the gate lets an answer through exactly when its
      own revision is final and it was neither cut nor overtaken. */
  lemma GateIsExact(m: Setup, p: Params, vad: VadState, run: Run, n: nat, choice: Choice)
    requires m.Valid() && IsRun(m, p, vad, run) && n < |run.states|
    requires var s := run.states[n];
             s.responder.stage == AtGate && CanRespond(s) && s.ops == []
    ensures var s := run.states[n];
            LetThrough(Respond(s, choice)) <==> MayBeHeard(s.shared) && Has(s.past.log, TurnFinal, s.shared.answer)
  {
    EveryRunKeepsInv(m, p, vad, run, n);
    var s := run.states[n];
    TimedMeans(s.session, s.past.log);
    PassIsExact(s);
    hide IsRun, Known, Queued, Held, FloorKept, GateKept, Has, MayBeHeard;
  }

  /** The parts of the invariant, by their names. */
  lemma InvHolds(s: Sys)
    requires Inv(s)
    ensures Locked(s) && Floor(s) && Timed(s.session, s.past.log) && Delivered(s)
    ensures TurnsInOrder(s) && JobsInOrder(s) && RecognizerEmits(s) && ResponderEmits(s)
    ensures Gated(s) && Freed(s) && Notified(s)
  {
    hide Locked, Floor, Timed, Delivered, TurnsInOrder, JobsInOrder, RecognizerEmits, ResponderEmits;
    hide SaysSpeech, FloorKept, Gated, Freed, Notified;
  }

  lemma CommitCoversWaiting(s: Sys)
    requires Inv(s) && AwaitsFinal(s.responder.stage) && InItsGrace(s.session, s.past.log, s.shared.answer)
    ensures exists i :: CommitCovers(s.past.log, i, s.shared.answer, s.session.nWindows)
  {
    hide Inv, Locked, Timed, Traced, Delivered, Gated, Freed, Notified;
    hide TurnsInOrder, JobsInOrder, RecognizerEmits, ResponderEmits;
    InvHolds(s);
    TimedMeans(s.session, s.past.log);
    AnswerWasCommitted(s);
    var log, key := s.past.log, s.shared.answer;
    var i :| 0 <= i < |log| && log[i].kind == TurnCommitted && KeyOf(log[i]) == key;
    assert CommitCovers(log, i, key, s.session.nWindows);
  }

  /** Once more windows were heard than the commit and its grace allow, whoever
      still waits at the gate has something to wake for. Until then the session
      holds this very turn and revision, committed and released. */
  lemma WaitingIsBounded(m: Setup, p: Params, vad: VadState, run: Run, n: nat)
    requires m.Valid() && IsRun(m, p, vad, run) && n < |run.states|
    ensures var s := run.states[n];
            s.owner == Nobody && AwaitsFinal(s.responder.stage) && !Wakes(s.shared) ==>
              && InItsGrace(s.session, s.past.log, s.shared.answer)
              && exists i :: CommitCovers(s.past.log, i, s.shared.answer, s.session.nWindows)
  {
    hide Inv, Wakes, IsRun, Locked, Floor, Timed, Delivered, Freed, InItsGrace;
    EveryRunKeepsInv(m, p, vad, run, n);
    var s := run.states[n];
    InvHolds(s);
    if s.owner == Nobody && AwaitsFinal(s.responder.stage) && !Wakes(s.shared) {
      NothingLeft(s);
      NobodyIsStuck(s);
      CommitCoversWaiting(s);
    }
  }

  /** The commit of `key`, whose grace is not over after `heard` windows. */
  predicate CommitCovers(log: seq<Event>, i: int, key: Key, heard: nat) {
    && 0 <= i < |log| && log[i].kind == TurnCommitted && KeyOf(log[i]) == key
    && heard <= log[i].at + log[i].grace
  }

  /** A responder asleep with a reason to wake has somebody on the way to the
      notification: no wake-up falls between its test and its sleep. */
  lemma NoLostWakeup(m: Setup, p: Params, vad: VadState, run: Run, n: nat)
    requires m.Valid() && IsRun(m, p, vad, run) && n < |run.states|
    ensures var s := run.states[n];
            s.responder.stage == Asleep && Wakes(s.shared) ==> Coming(s)
  {
    EveryRunKeepsInv(m, p, vad, run, n);
    hide IsRun, Wakes, Coming;
  }

  lemma LockedCanDeliver(s: Sys)
    requires Locked(s)
    ensures s.ops != [] ==> CanDeliver(s)
  {
  }

  /** Between steps the turn lock is held by the handler alone, so the next step
      of what the session left to handle is enabled. Locks taken and given back
      inside one step are not in question here. */
  lemma HandlersNeverBlock(m: Setup, p: Params, vad: VadState, run: Run, n: nat)
    requires m.Valid() && IsRun(m, p, vad, run) && n < |run.states|
    ensures var s := run.states[n]; s.ops != [] ==> CanDeliver(s)
  {
    hide IsRun, Inv, Locked, CanDeliver;
    EveryRunKeepsInv(m, p, vad, run, n);
    InvHolds(run.states[n]);
    LockedCanDeliver(run.states[n]);
  }

  // ------------------------------------------------------------ the floor

  /** An answer that anybody could see overtaken while it held the floor never
      closes as done, and at every release of the turn lock it is cancelled. */
  lemma OvertakenIsCancelled(m: Setup, p: Params, vad: VadState, run: Run, n: nat)
    requires m.Valid() && IsRun(m, p, vad, run) && n < |run.states|
    ensures var s := run.states[n];
            && (s.shared.speaking && !s.shared.turnLock && Outdated(s.shared) ==> s.shared.cancel)
            && (forall key :: key in s.past.overtaken ==> Done(key) !in s.past.frames)
  {
    EveryRunKeepsInv(m, p, vad, run, n);
    hide IsRun, Known, Queued, Held, GateKept, Outdated;
  }

  /** The cancel is lowered only while nobody holds the floor. */
  lemma CancelLoweredOffTheFloor(m: Setup, p: Params, vad: VadState, run: Run, n: nat, step: Step)
    requires m.Valid() && IsRun(m, p, vad, run) && n < |run.states| && Enabled(m, run.states[n], step)
    ensures var s := run.states[n];
            s.shared.cancel && !Next(m, s, step).shared.cancel ==> !s.shared.speaking
  {
    hide IsRun, Inv, Next, Enabled;
    EveryRunKeepsInv(m, p, vad, run, n);
    var s := run.states[n];
    CancelLowered(m, s, step);
    LowersOffTheFloor(s);
  }

  lemma LowersOffTheFloor(s: Sys)
    requires Inv(s)
    ensures s.responder.stage == LowerCancel ==> !s.shared.speaking
  {
    hide Locked, Known, Queued, FloorKept, GateKept;
  }

  lemma CancelLowered(m: Setup, s: Sys, step: Step)
    requires m.Valid() && Enabled(m, s, step)
    ensures s.shared.cancel && !Next(m, s, step).shared.cancel ==> s.responder.stage == LowerCancel
  {
    hide Deliver, Read, Respond, Recognize, Write, CanDeliver, CanRead, CanRespond, CanWrite, Outdated;
    match step {
      case DeliverOne => CancelOfHandler(s);
      case ReaderStep(move) => CancelOfReader(m, s, move);
      case RecognizerStep(heard) => CancelOfRecognizer(s, heard);
      case ResponderStep(choice) => CancelOfResponder(s, choice);
      case WriterStep => CancelOfWriter(s);
    }
  }

  lemma CancelOfHandler(s: Sys)
    requires CanDeliver(s)
    ensures s.shared.cancel ==> Deliver(s).shared.cancel
  {
  }

  lemma CancelOfReader(m: Setup, s: Sys, move: ReaderMove)
    requires m.Valid() && CanRead(m, s, move)
    ensures s.shared.cancel ==> Read(m, s, move).shared.cancel
  {
  }

  lemma CancelOfRecognizer(s: Sys, heard: bool)
    requires CanRecognize(s)
    ensures s.shared.cancel ==> Recognize(s, heard).shared.cancel
  {
  }

  lemma CancelOfWriter(s: Sys)
    requires CanWrite(s)
    ensures s.shared.cancel ==> Write(s).shared.cancel
  {
  }

  lemma CancelOfResponder(s: Sys, choice: Choice)
    requires CanRespond(s)
    ensures s.shared.cancel && !Respond(s, choice).shared.cancel ==> s.responder.stage == LowerCancel
  {
  }

  predicate IsTerminal(f: Frame) {
    f.Done? || f.Cancelled?
  }

  /** Between places i and n, the response opened at i is closed once, at t,
      and its sound lies before. */
  predicate ClosedAt(frames: seq<Frame>, i: int, n: int, t: int) {
    && 0 <= i < t < n <= |frames| && frames[i].Created? && IsTerminal(frames[t]) && frames[t].key == frames[i].key
    && (forall u :: i < u < n && IsTerminal(frames[u]) ==> u == t)
    && (forall u :: i < u < n && frames[u].Voice? ==> u < t && frames[u].key == frames[i].key)
  }

  predicate StillOpen(frames: seq<Frame>, i: int, n: int) {
    && 0 <= i < n <= |frames| && frames[i].Created?
    && (forall u :: i < u < n ==> !IsTerminal(frames[u]) && !frames[u].Created?)
    && (forall u :: i < u < n && frames[u].Voice? ==> frames[u].key == frames[i].key)
  }

  lemma {:induction false} SinceCreated(frames: seq<Frame>, i: nat, n: nat)
    requires i < n <= |frames| && ResponsesOf(frames[..n]) != Broken && frames[i].Created?
    requires forall u :: i < u < n ==> !frames[u].Created?
    ensures || (ResponsesOf(frames[..n]) == Inside(frames[i].key) && StillOpen(frames, i, n))
            || (ResponsesOf(frames[..n]) == Between && exists t :: ClosedAt(frames, i, n, t))
  {
    var f := frames[n - 1];
    assert frames[..n] == frames[..n - 1] + [f];
    AfterOne(frames[..n - 1], f);
    if i < n - 1 {
      SinceCreated(frames, i, n - 1);
      if ResponsesOf(frames[..n - 1]).Between? {
        var t :| ClosedAt(frames, i, n - 1, t);
        assert ClosedAt(frames, i, n, t);
      } else if IsTerminal(f) {
        assert ClosedAt(frames, i, n, n - 1);
      }
    }
  }

  lemma {:induction false} WholeInEveryPrefix(frames: seq<Frame>, n: nat)
    requires n <= |frames| && ResponsesOf(frames) != Broken
    ensures ResponsesOf(frames[..n]) != Broken
    decreases |frames|
  {
    if n == |frames| {
      assert frames[..n] == frames;
    } else {
      var before := frames[..|frames| - 1];
      WholeInEveryPrefix(before, n);
      assert before[..n] == frames[..n];
    }
  }

  /** The client sees one response at a time: between one `created` and the next
      lies exactly one terminal, the answer's own, after all of its sound. Before
      the first and after the last, EveryFrameInResponse says what may lie. */
  lemma ResponsesAlternate(m: Setup, p: Params, vad: VadState, run: Run, n: nat, i: nat, j: nat)
    requires m.Valid() && IsRun(m, p, vad, run) && n < |run.states|
    requires var frames := run.states[n].past.frames;
             && i < j < |frames| && frames[i].Created? && frames[j].Created?
             && (forall u :: i < u < j ==> !frames[u].Created?)
    ensures ResponsesOf(run.states[n].past.frames) != Broken
    ensures exists t :: ClosedAt(run.states[n].past.frames, i, j, t)
  {
    EveryRunKeepsInv(m, p, vad, run, n);
    AlternateIn(run.states[n].past.frames, i, j);
    hide IsRun, ResponsesOf, ClosedAt, Held, Known, Queued, GateKept;
  }

  lemma AlternateIn(frames: seq<Frame>, i: nat, j: nat)
    requires ResponsesOf(frames) != Broken && i < j < |frames| && frames[i].Created? && frames[j].Created?
    requires forall u :: i < u < j ==> !frames[u].Created?
    ensures exists t :: ClosedAt(frames, i, j, t)
  {
    WholeInEveryPrefix(frames, j);
    WholeInEveryPrefix(frames, j + 1);
    SinceCreated(frames, i, j);
    assert frames[..j + 1] == frames[..j] + [frames[j]];
    AfterOne(frames[..j], frames[j]);
  }

  lemma OpenStays(frames: seq<Frame>, i: nat, n: nat)
    requires StillOpen(frames, i, n) && n < |frames| && !frames[n].Created? && !IsTerminal(frames[n])
    requires frames[n].Voice? ==> frames[n].key == frames[i].key
    ensures StillOpen(frames, i, n + 1)
  {
  }

  lemma JustOpened(frames: seq<Frame>, n: nat)
    requires n < |frames| && frames[n].Created?
    ensures StillOpen(frames, n, n + 1)
  {
  }

  /** While a response is open, its `created` is the last one and lies before. */
  lemma {:induction false} InsideSinceCreated(frames: seq<Frame>, n: nat)
    requires n <= |frames| && ResponsesOf(frames[..n]).Inside?
    ensures exists i :: StillOpen(frames, i, n) && frames[i].key == ResponsesOf(frames[..n]).key
  {
    assert n > 0;
    hide ResponsesOf, StillOpen;
    var f := frames[n - 1];
    assert frames[..n] == frames[..n - 1] + [f];
    AfterOne(frames[..n - 1], f);
    if f.Created? {
      JustOpened(frames, n - 1);
    } else {
      InsideSinceCreated(frames, n - 1);
      var i :| StillOpen(frames, i, n - 1) && frames[i].key == ResponsesOf(frames[..n - 1]).key;
      OpenStays(frames, i, n - 1);
    }
  }

  lemma FrameInResponse(frames: seq<Frame>, j: nat)
    requires ResponsesOf(frames) != Broken && j < |frames| && (frames[j].Voice? || IsTerminal(frames[j]))
    ensures exists i :: StillOpen(frames, i, j) && frames[i].key == frames[j].key
  {
    hide ResponsesOf, StillOpen;
    WholeInEveryPrefix(frames, j + 1);
    assert frames[..j + 1] == frames[..j] + [frames[j]];
    AfterOne(frames[..j], frames[j]);
    InsideSinceCreated(frames, j);
  }

  /** Sound and terminals belong to a response that was opened and is still open:
      there is none before the first `created`, and after the last no sound
      behind the terminal and no second terminal. */
  lemma EveryFrameInResponse(m: Setup, p: Params, vad: VadState, run: Run, n: nat, j: nat)
    requires m.Valid() && IsRun(m, p, vad, run) && n < |run.states|
    requires var frames := run.states[n].past.frames;
             j < |frames| && (frames[j].Voice? || IsTerminal(frames[j]))
    ensures var frames := run.states[n].past.frames;
            exists i :: StillOpen(frames, i, j) && frames[i].key == frames[j].key
  {
    EveryRunKeepsInv(m, p, vad, run, n);
    FrameInResponse(run.states[n].past.frames, j);
    hide IsRun, ResponsesOf, StillOpen, Held, Known, Queued, GateKept;
  }

  /** Once the client is gone nothing more is queued for it, ever. */
  lemma NothingForTheGone(m: Setup, s: Sys, step: Step)
    requires m.Valid() && Enabled(m, s, step) && s.shared.outStop
    ensures Next(m, s, step).shared.outStop && Next(m, s, step).past.frames == s.past.frames
  {
    hide Deliver, Read, Respond, Recognize, CanDeliver, CanRead, CanRespond, CanRecognize, Outdated;
    match step {
      case DeliverOne => GoneFromHandler(s);
      case ReaderStep(move) => GoneFromReader(m, s, move);
      case RecognizerStep(heard) => GoneFromRecognizer(s, heard);
      case ResponderStep(choice) =>
        RespondLets(s, choice);
        assert s.past.frames + [] == s.past.frames;
      case WriterStep =>
    }
  }

  lemma GoneFromHandler(s: Sys)
    requires CanDeliver(s) && s.shared.outStop
    ensures Deliver(s).shared.outStop && Deliver(s).past.frames == s.past.frames
  {
    hide Outdated;
    match s.ops[0] {
      case Say(_) =>
      case Opened(_) =>
      case _ =>
    }
  }

  lemma GoneFromReader(m: Setup, s: Sys, move: ReaderMove)
    requires m.Valid() && CanRead(m, s, move) && s.shared.outStop
    ensures Read(m, s, move).shared.outStop && Read(m, s, move).past.frames == s.past.frames
  {
    hide Hear, HandleAll, Tune;
  }

  lemma GoneFromRecognizer(s: Sys, heard: bool)
    requires CanRecognize(s) && s.shared.outStop
    ensures Recognize(s, heard).shared.outStop && Recognize(s, heard).past.frames == s.past.frames
  {
    hide Release, HandleAll;
  }

  // ------------------------------------------------------------ the order

  predicate Contiguous(keys: seq<Key>) {
    forall i, j, k :: 0 <= i < j < k < |keys| && keys[i].turn == keys[k].turn ==> keys[j].turn == keys[i].turn
  }

  /** Every commit is taken once, in order, or still waits; transcripts and
      answers keep that order, and those of one turn are contiguous. */
  lemma OrderIsKept(m: Setup, p: Params, vad: VadState, run: Run, n: nat)
    requires m.Valid() && IsRun(m, p, vad, run) && n < |run.states|
    ensures var s := run.states[n];
            && s.past.taken + s.queue + QueuedBy(s.ops) == CommitKeys(s.past.log)
            && s.past.started + s.answers == s.past.jobs
            && Increasing(TranscriptKeys(s.past.frames)) && Contiguous(TranscriptKeys(s.past.frames))
            && Increasing(CreatedKeys(s.past.frames)) && Contiguous(CreatedKeys(s.past.frames))
            && (forall k :: k in TranscriptKeys(s.past.frames) || k in CreatedKeys(s.past.frames) ==>
                  Has(s.past.log, TurnCommitted, k))
  {
    EveryRunKeepsInv(m, p, vad, run, n);
    var s := run.states[n];
    TimedMeans(s.session, s.past.log);
    TakenInOrder(s);
    assert Within(s.past.started, s.past.jobs);
    hide IsRun, Held, Known, FloorKept, GateKept, QueuedBy, CommitKeys, TranscriptKeys, CreatedKeys, Has;
    IncreasingIsContiguous(TranscriptKeys(s.past.frames));
    IncreasingIsContiguous(CreatedKeys(s.past.frames));
  }

  lemma IncreasingIsContiguous(keys: seq<Key>)
    requires Increasing(keys)
    ensures Contiguous(keys)
  {
  }
}
