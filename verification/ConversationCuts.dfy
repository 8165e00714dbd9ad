/** What cuts an answer, and what ends a conversation: the cancel, the stop and
    the answers noted as overtaken each have their cause in the run, and every
    cause its effect. */
module ConversationCuts {
  import opened Session
  import opened SessionTrace
  import opened Conversation
  import opened ConversationInvariants
  import opened ConversationFloor
  import opened ConversationRuns
  import opened ConversationTheorems
  import opened ConversationCalls
  import opened ConversationOpenings

  /** Step j starts an answer from no cancel. */
  predicate Lowers(run: Run, j: nat)
    requires Whole(run) && j < |run.steps|
  {
    run.steps[j].ResponderStep? && run.states[j].responder.stage == LowerCancel
  }

  predicate NoneLowers(run: Run, i: nat, n: nat)
    requires Whole(run) && n <= |run.steps|
  {
    forall l :: i < l < n ==> !Lowers(run, l)
  }

  /** Step i tells, with an answer on the floor, of something that opened after
      what is being answered. */
  predicate Overtakes(run: Run, i: nat)
    requires Whole(run) && i < |run.steps|
  {
    var s := run.states[i];
    && run.steps[i].DeliverOne? && s.ops != [] && s.ops[0].Opened?
    && s.shared.speaking && Before(s.shared.answer, s.ops[0].key)
  }

  /** The turn lock is taken by step i and held until step j. */
  predicate Section(run: Run, i: nat, j: nat)
    requires Whole(run) && j <= |run.steps|
  {
    i < j && !run.states[i].shared.turnLock && (forall l :: i < l <= j ==> run.states[l].shared.turnLock)
  }

  predicate EndsOvertaking(run: Run, j: nat)
    requires Whole(run) && j < |run.steps|
  {
    exists i :: 0 <= i < j && Overtakes(run, i) && Section(run, i, j) && NoneLowers(run, i, j)
  }

  /** What cuts the answer in flight: a barge-in, a cancel or the end asked by
      the client, a failed send, an opening told over it, and an answer that
      something had opened after before it took the floor. */
  predicate Cuts(run: Run, j: nat)
    requires Whole(run) && j < |run.steps|
  {
    var s := run.states[j];
    match run.steps[j]
    case DeliverOne => s.ops != [] && (s.ops[0].RaiseCancel? || (s.ops[0].StoreVoid? && EndsOvertaking(run, j)))
    case ReaderStep(move) => move.CancelRequest? || move.CloseRaise?
    case RecognizerStep(_) => false
    case ResponderStep(_) =>
      && s.responder.stage == Publish
      && (ResumedBy(run, j, s.responder.key) || LeftBehindBy(run, j, s.responder.key))
    case WriterStep => s.writer == SendFailed
  }

  /** Cut since the last answer started. */
  predicate IsCut(run: Run, n: nat)
    requires Whole(run) && n <= |run.steps|
  {
    exists j :: 0 <= j < n && Cuts(run, j) && NoneLowers(run, j, n)
  }

  // ------------------------------------------------------------ one step

  lemma HandlerCancels(s: Sys)
    requires CanDeliver(s)
    ensures Deliver(s).shared.cancel <==>
            s.shared.cancel || s.ops[0].RaiseCancel? || (s.ops[0].StoreVoid? && s.ops[0].void)
  {
    hide Outdated, Before, TakesTurnLock;
    match s.ops[0] {
      case Say(_) =>
      case Opened(_) =>
      case _ =>
    }
  }

  lemma ReaderCancels(m: Setup, s: Sys, move: ReaderMove)
    requires m.Valid() && CanRead(m, s, move)
    ensures Read(m, s, move).shared.cancel <==> s.shared.cancel || move.CancelRequest? || move.CloseRaise?
  {
    hide Hear, HandleAll, Tune;
  }

  lemma ResponderCancels(s: Sys, choice: Choice)
    requires CanRespond(s) && Floor(s) && Voided(s.shared, s.ops, s.responder.stage)
    ensures var cancel := Respond(s, choice).shared.cancel;
            if s.responder.stage == LowerCancel then !cancel
            else cancel <==>
                 s.shared.cancel || (s.responder.stage == Publish && Before(s.responder.key, s.shared.open))
  {
    hide Release, HandleAll, Before;
  }

  lemma WriterCancels(s: Sys)
    requires CanWrite(s)
    ensures Write(s).shared.cancel <==> s.shared.cancel || s.writer == SendFailed
  {
  }

  lemma NotedShares(s: Sys)
    ensures Noted(s).shared == s.shared && Noted(s).ops == s.ops && Noted(s).writer == s.writer
    ensures Noted(s).responder == s.responder && Noted(s).recognizer == s.recognizer
  {
  }

  /** What a step may do to the cancel, by what the state alone says. */
  predicate CutsNow(s: Sys, step: Step) {
    match step
    case DeliverOne => s.ops != [] && (s.ops[0].RaiseCancel? || (s.ops[0].StoreVoid? && s.ops[0].void))
    case ReaderStep(move) => move.CancelRequest? || move.CloseRaise?
    case RecognizerStep(_) => false
    case ResponderStep(_) => s.responder.stage == Publish && Before(s.responder.key, s.shared.open)
    case WriterStep => s.writer == SendFailed
  }

  lemma StepCancels(m: Setup, s: Sys, step: Step)
    requires m.Valid() && Enabled(m, s, step) && Floor(s) && Voided(s.shared, s.ops, s.responder.stage)
    ensures var cancel := Next(m, s, step).shared.cancel;
            if step.ResponderStep? && s.responder.stage == LowerCancel then !cancel
            else cancel <==> s.shared.cancel || CutsNow(s, step)
  {
    hide Deliver, Read, Respond, Recognize, Write, CanRead, CanRespond, CanRecognize, CanWrite;
    hide Noted, Floor, Voided, Before, TakesTurnLock;
    NotedShares(Take(m, s, step));
    match step {
      case DeliverOne => HandlerCancels(s);
      case ReaderStep(move) => ReaderCancels(m, s, move);
      case RecognizerStep(heard) => OpenOfRecognizer(s, heard);
      case ResponderStep(choice) => ResponderCancels(s, choice);
      case WriterStep => WriterCancels(s);
    }
  }

  // ------------------------------------------------------------ sections

  /** The turn lock is taken at step i and held until n, with what the handler
      found as it took it. */
  predicate Began(run: Run, i: nat, n: nat)
    requires Whole(run) && n <= |run.steps|
  {
    && Section(run, i, n) && run.steps[i].DeliverOne?
    && run.states[i].ops != [] && run.states[i].ops[0].Opened?
    && (forall l :: i < l <= n ==> run.states[l].ops == [StoreVoid(Voids(run.states[i]))] + run.states[i].ops[1..])
  }

  predicate Voids(s: Sys)
    requires s.ops != [] && s.ops[0].Opened?
  {
    && s.shared.speaking && !s.shared.cancel
    && (Before(s.shared.answer, s.ops[0].key) || Before(s.shared.answer, s.shared.open))
  }

  lemma TakesLock(s: Sys)
    requires CanDeliver(s) && s.ops[0].Opened?
    ensures var s' := Noted(Deliver(s));
            !s.shared.turnLock && s'.shared.turnLock && s'.ops == [StoreVoid(Voids(s))] + s.ops[1..]
  {
  }

  lemma LockedMeans(s: Sys)
    requires Locked(s)
    ensures s.shared.turnLock <==> s.ops != [] && s.ops[0].StoreVoid?
  {
  }

  lemma GivesLock(s: Sys)
    requires CanDeliver(s) && !s.ops[0].Opened? && Locked(s)
    ensures !Noted(Deliver(s)).shared.turnLock
  {
    hide Outdated, Before, OpsShape, Locked, TakesTurnLock;
    LockedMeans(s);
    match s.ops[0] {
      case StoreVoid(_) =>
      case Say(_) =>
      case _ =>
    }
  }

  /** The turn lock is taken by an opening, and held with nothing else handled. */
  lemma LockStep(m: Setup, s: Sys, step: Step)
    requires m.Valid() && Enabled(m, s, step) && Inv(s) && Inv(Next(m, s, step))
    ensures var s' := Next(m, s, step);
            s'.shared.turnLock ==>
              || (step.DeliverOne? && s.ops[0].Opened? && !s.shared.turnLock
                  && s'.ops == [StoreVoid(Voids(s))] + s.ops[1..])
              || (s.shared.turnLock && !step.DeliverOne? && s'.ops == s.ops)
  {
    hide Inv, Deliver, Noted, Read, Respond, Recognize, Write, CanRead, CanRespond, CanRecognize, CanWrite;
    hide HandleAll, Voids, Locked;
    InvHolds(s);
    InvHolds(Next(m, s, step));
    LockedMeans(s);
    LockedMeans(Next(m, s, step));
    if step.DeliverOne? {
      if s.ops[0].Opened? {
        TakesLock(s);
      } else {
        GivesLock(s);
      }
    } else {
      var more := StepReports(m, s, step);
      HandlersAreWhole(more);
    }
  }

  lemma {:induction false} SectionBegan(m: Setup, p: Params, vad: VadState, run: Run, n: nat) returns (i: nat)
    requires m.Valid() && IsRun(m, p, vad, run) && Whole(run) && n <= |run.steps| && run.states[n].shared.turnLock
    ensures i < n && Began(run, i, n)
  {
    hide IsRun, Inv, Enabled, Next, Voids;
    StartsUnlocked(m, p, vad, run);
    var s, step := run.states[n - 1], run.steps[n - 1];
    EveryRunKeepsInv(m, p, vad, run, n - 1);
    EveryRunKeepsInv(m, p, vad, run, n);
    StepOf(m, p, vad, run, n - 1);
    LockStep(m, s, step);
    if s.shared.turnLock {
      i := SectionBegan(m, p, vad, run, n - 1);
      assert Began(run, i, n - 1);
    } else {
      i := n - 1;
      EnabledOps(m, s, step);
    }
  }

  lemma EnabledOps(m: Setup, s: Sys, step: Step)
    requires m.Valid() && Enabled(m, s, step)
    ensures step.DeliverOne? ==> s.ops != []
  {
  }

  lemma StartsUnlocked(m: Setup, p: Params, vad: VadState, run: Run)
    requires m.Valid() && IsRun(m, p, vad, run)
    ensures var c := run.states[0].shared; !c.turnLock && !c.cancel && !c.stop && !c.outStop && !c.speaking && !c.gated
  {
    hide Enabled, Next, Initial;
  }

  // ------------------------------------------------------- the cancel

  lemma CancelStep(m: Setup, p: Params, vad: VadState, run: Run, n: nat)
    requires m.Valid() && IsRun(m, p, vad, run) && Whole(run) && n < |run.steps|
    ensures var cancel := run.states[n + 1].shared.cancel;
            if Lowers(run, n) then !cancel
            else cancel <==> run.states[n].shared.cancel || CutsNow(run.states[n], run.steps[n])
  {
    hide IsRun, Inv, Enabled, Next, CutsNow, Floor, Voided;
    var s := run.states[n];
    EveryRunKeepsInv(m, p, vad, run, n);
    InvHolds(s);
    VoidedHolds(s);
    StepOf(m, p, vad, run, n);
    StepCancels(m, s, run.steps[n]);
  }

  /** While nothing lowers it, the cancel stays. */
  lemma {:induction false} CancelStays(m: Setup, p: Params, vad: VadState, run: Run, i: nat, n: nat)
    requires m.Valid() && IsRun(m, p, vad, run) && Whole(run) && i <= n <= |run.steps|
    requires run.states[i].shared.cancel && (forall l :: i <= l < n ==> !Lowers(run, l))
    ensures run.states[n].shared.cancel
  {
    hide IsRun, CutsNow;
    if i < n {
      CancelStays(m, p, vad, run, i, n - 1);
      CancelStep(m, p, vad, run, n - 1);
      assert !Lowers(run, n - 1);
    }
  }

  /** Nothing is answered anew while a store is left to an answer on the floor. */
  lemma NoneLowersInside(m: Setup, p: Params, vad: VadState, run: Run, i: nat, n: nat)
    requires m.Valid() && IsRun(m, p, vad, run) && Whole(run) && n <= |run.steps|
    requires Began(run, i, n) && Voids(run.states[i])
    ensures NoneLowers(run, i, n)
  {
    hide IsRun, Inv, Voids, Outdated;
    forall l | i < l < n
      ensures !Lowers(run, l)
    {
      EveryRunKeepsInv(m, p, vad, run, l);
      InvHolds(run.states[l]);
      VoidedHolds(run.states[l]);
    }
  }

  lemma VoidedHolds(s: Sys)
    requires Inv(s)
    ensures Voided(s.shared, s.ops, s.responder.stage)
  {
    hide Voided, Held, Known, Queued, GateKept, Bracketed, Honest;
  }

  /** The store at the end of a section cuts exactly if its opening overtook the
      answer on the floor, but for an answer that was cut already. */
  lemma StoreIsExact(m: Setup, p: Params, vad: VadState, run: Run, n: nat)
    requires m.Valid() && IsRun(m, p, vad, run) && Whole(run) && n < |run.steps|
    requires run.steps[n].DeliverOne? && run.states[n].ops != [] && run.states[n].ops[0].StoreVoid?
    ensures run.states[n].shared.cancel || run.states[n].ops[0].void <==>
            run.states[n].shared.cancel || EndsOvertaking(run, n)
  {
    hide IsRun, Inv, Locked;
    EveryRunKeepsInv(m, p, vad, run, n);
    InvHolds(run.states[n]);
    LockedMeans(run.states[n]);
    var i := SectionBegan(m, p, vad, run, n);
    EveryRunKeepsInv(m, p, vad, run, i);
    VoidedHolds(run.states[i]);
    if Voids(run.states[i]) {
      NoneLowersInside(m, p, vad, run, i, n);
      assert Overtakes(run, i);
    }
    if EndsOvertaking(run, n) {
      var j :| 0 <= j < n && Overtakes(run, j) && Section(run, j, n) && NoneLowers(run, j, n);
      assert i == j;
      if run.states[i].shared.cancel {
        CancelStays(m, p, vad, run, i, n);
      }
    }
  }

  lemma CutsAreExact(m: Setup, p: Params, vad: VadState, run: Run, n: nat)
    requires m.Valid() && IsRun(m, p, vad, run) && Whole(run) && n < |run.steps|
    ensures run.states[n].shared.cancel || CutsNow(run.states[n], run.steps[n]) <==>
            run.states[n].shared.cancel || Cuts(run, n)
  {
    hide IsRun, EndsOvertaking, ResumedBy, LeftBehindBy;
    var s, step := run.states[n], run.steps[n];
    if step.DeliverOne? && s.ops != [] && s.ops[0].StoreVoid? {
      StoreIsExact(m, p, vad, run, n);
    }
    if step.ResponderStep? && s.responder.stage == Publish {
      OutdatedMeans(m, p, vad, run, n, s.responder.key);
    }
  }

  /** Something newer is open exactly if it opened at some step. */
  lemma OutdatedMeans(m: Setup, p: Params, vad: VadState, run: Run, n: nat, k: Key)
    requires m.Valid() && IsRun(m, p, vad, run) && Whole(run) && n <= |run.steps|
    ensures Before(k, run.states[n].shared.open) <==> ResumedBy(run, n, k) || LeftBehindBy(run, n, k)
  {
    hide IsRun;
    OpenIsLatest(m, p, vad, run, n);
    var open := run.states[n].shared.open;
    if Before(k, open) {
      var j :| 0 <= j < n && TellsOpen(run, j, open);
      assert Resumes(run, j, k) || OpensLater(run, j, k);
    }
    if ResumedBy(run, n, k) {
      var j :| 0 <= j < n && Resumes(run, j, k);
      assert TellsOpen(run, j, run.states[j].ops[0].key);
      assert OpenedBy(run, n, run.states[j].ops[0].key);
    }
    if LeftBehindBy(run, n, k) {
      var j :| 0 <= j < n && OpensLater(run, j, k);
      assert TellsOpen(run, j, run.states[j].ops[0].key);
      assert OpenedBy(run, n, run.states[j].ops[0].key);
    }
  }

  lemma OneMoreCut(run: Run, n: nat)
    requires Whole(run) && n < |run.steps|
    ensures IsCut(run, n + 1) <==> Cuts(run, n) || (IsCut(run, n) && !Lowers(run, n))
  {
    hide Cuts, Lowers;
    if IsCut(run, n) && !Lowers(run, n) {
      var j :| 0 <= j < n && Cuts(run, j) && NoneLowers(run, j, n);
      assert NoneLowers(run, j, n + 1);
    }
    if Cuts(run, n) {
      assert NoneLowers(run, n, n + 1);
    }
    if IsCut(run, n + 1) && !Cuts(run, n) {
      var j :| 0 <= j < n + 1 && Cuts(run, j) && NoneLowers(run, j, n + 1);
      assert NoneLowers(run, j, n);
    }
  }

  lemma LoweringCutsNothing(run: Run, n: nat)
    requires Whole(run) && n < |run.steps| && Lowers(run, n)
    ensures !Cuts(run, n)
  {
  }

  /** The cancel is up exactly if something cut since the last answer started. */
  lemma {:induction false} CancelHasItsCut(m: Setup, p: Params, vad: VadState, run: Run, n: nat)
    requires m.Valid() && IsRun(m, p, vad, run) && Whole(run) && n <= |run.steps|
    ensures run.states[n].shared.cancel <==> IsCut(run, n)
  {
    hide IsRun, IsCut, Cuts, Lowers, CutsNow;
    if n == 0 {
      StartsUnlocked(m, p, vad, run);
      NothingCutYet(run);
    } else {
      CancelHasItsCut(m, p, vad, run, n - 1);
      OneMoreCut(run, n - 1);
      CancelStep(m, p, vad, run, n - 1);
      if Lowers(run, n - 1) {
        LoweringCutsNothing(run, n - 1);
      } else {
        CutsAreExact(m, p, vad, run, n - 1);
      }
    }
  }

  lemma NothingCutYet(run: Run)
    requires Whole(run)
    ensures !IsCut(run, 0)
  {
  }

  // ------------------------------------------------- the end, and the rest

  /** Step j ends the answering: the reader closes, or the writer failed. */
  predicate Stops(run: Run, j: nat)
    requires Whole(run) && j < |run.steps|
  {
    match run.steps[j]
    case ReaderStep(move) => move.CloseSet?
    case WriterStep => run.states[j].writer == WriterStopRaised
    case _ => false
  }

  predicate FailsSend(run: Run, j: nat)
    requires Whole(run) && j < |run.steps|
  {
    run.steps[j].WriterStep? && run.states[j].writer == Writing
  }

  /** Any look at the floor with the turn lock free, at something outdated. */
  predicate SeenOvertaken(s: Sys, k: Key) {
    s.shared.speaking && !s.shared.turnLock && Outdated(s.shared) && s.shared.answer == k
  }

  /** What a step does to these three. */
  predicate Ends(s: Sys, s': Sys, stops: bool, fails: bool) {
    && s'.shared.stop == (s.shared.stop || stops) && s'.shared.outStop == (s.shared.outStop || fails)
    && s'.past.overtaken == s.past.overtaken
  }

  lemma HandlerEnds(s: Sys)
    requires CanDeliver(s)
    ensures Ends(s, Deliver(s), false, false)
  {
    DeliverAlone(s);
    hide Deliver;
  }

  lemma ReaderEnds(m: Setup, s: Sys, move: ReaderMove)
    requires m.Valid() && CanRead(m, s, move)
    ensures Ends(s, Read(m, s, move), move.CloseSet?, false)
  {
    hide Hear, HandleAll, Tune;
  }

  lemma RecognizerEnds(s: Sys, heard: bool)
    requires CanRecognize(s)
    ensures Ends(s, Recognize(s, heard), false, false)
  {
    hide Release, HandleAll;
  }

  lemma ResponderEnds(s: Sys, choice: Choice)
    requires CanRespond(s)
    ensures Ends(s, Respond(s, choice), false, false)
  {
    hide Release, HandleAll, Wakes, Outdated;
    match s.responder.stage {
      case AwaitJob =>
      case Publish =>
      case Work =>
      case AtGate =>
      case _ =>
    }
  }

  lemma WriterEnds(s: Sys)
    requires CanWrite(s)
    ensures Ends(s, Write(s), s.writer == WriterStopRaised, s.writer == Writing)
  {
  }

  lemma NotedOvertaken(s: Sys)
    ensures Noted(s).past.overtaken ==
            if s.shared.speaking && !s.shared.turnLock && Outdated(s.shared) then s.past.overtaken + {s.shared.answer}
            else s.past.overtaken
  {
    hide Outdated;
  }

  lemma StepEnds(m: Setup, p: Params, vad: VadState, run: Run, n: nat)
    requires m.Valid() && IsRun(m, p, vad, run) && Whole(run) && n < |run.steps|
    ensures var s, s' := run.states[n], run.states[n + 1];
            && s'.shared.stop == (s.shared.stop || Stops(run, n))
            && s'.shared.outStop == (s.shared.outStop || FailsSend(run, n))
            && (forall k :: k in s'.past.overtaken <==> k in s.past.overtaken || SeenOvertaken(s', k))
  {
    hide IsRun, Deliver, Read, Respond, Recognize, Write, Noted, Outdated;
    hide CanDeliver, CanRead, CanRespond, CanRecognize, CanWrite;
    StepOf(m, p, vad, run, n);
    var s, step := run.states[n], run.steps[n];
    NotedShares(Take(m, s, step));
    NotedOvertaken(Take(m, s, step));
    match step {
      case DeliverOne => HandlerEnds(s);
      case ReaderStep(move) => ReaderEnds(m, s, move);
      case RecognizerStep(heard) => RecognizerEnds(s, heard);
      case ResponderStep(choice) => ResponderEnds(s, choice);
      case WriterStep => WriterEnds(s);
    }
  }

  predicate StoppedBy(run: Run, n: nat)
    requires Whole(run) && n <= |run.steps|
  {
    exists j :: 0 <= j < n && Stops(run, j)
  }

  predicate FailedBy(run: Run, n: nat)
    requires Whole(run) && n <= |run.steps|
  {
    exists j :: 0 <= j < n && FailsSend(run, j)
  }

  predicate OvertakenBy(run: Run, n: nat, k: Key)
    requires Whole(run) && n <= |run.steps|
  {
    exists j :: 0 <= j <= n && SeenOvertaken(run.states[j], k)
  }

  /** The stop is up exactly if a close or a failed send raised it, the output
      is stopped exactly if a send failed, and the answers noted as overtaken are
      those somebody could see overtaken on the floor. */
  lemma {:induction false} EndsHaveTheirCause(m: Setup, p: Params, vad: VadState, run: Run, n: nat)
    requires m.Valid() && IsRun(m, p, vad, run) && Whole(run) && n <= |run.steps|
    ensures var s := run.states[n];
            && (s.shared.stop <==> StoppedBy(run, n)) && (s.shared.outStop <==> FailedBy(run, n))
            && (forall k :: k in s.past.overtaken <==> OvertakenBy(run, n, k))
  {
    hide IsRun, SeenOvertaken, Stops, FailsSend;
    if n == 0 {
      StartsUnlocked(m, p, vad, run);
      NobodyOvertakenYet(m, p, vad, run);
    } else {
      EndsHaveTheirCause(m, p, vad, run, n - 1);
      StepEnds(m, p, vad, run, n - 1);
      forall k
        ensures OvertakenBy(run, n, k) <==> OvertakenBy(run, n - 1, k) || SeenOvertaken(run.states[n], k)
      {
      }
    }
  }

  lemma NobodyOvertakenYet(m: Setup, p: Params, vad: VadState, run: Run)
    requires m.Valid() && IsRun(m, p, vad, run)
    ensures run.states[0].past.overtaken == {} && forall k :: !SeenOvertaken(run.states[0], k)
  {
    hide Enabled, Next, Initial;
  }

  /** What a step begins: nothing once the stop is up, and before it no thread
      is over. */
  predicate Begins(s: Sys, s': Sys) {
    && (s.shared.stop ==> s'.past.taken == s.past.taken && s'.past.started == s.past.started)
    && (s'.recognizer.stage == RecognizerDone ==> s.recognizer.stage == RecognizerDone || s.shared.stop)
    && (s'.responder.stage == ResponderDone ==> s.responder.stage == ResponderDone || s.shared.stop)
  }

  lemma OthersBegin(m: Setup, s: Sys, step: Step)
    requires m.Valid() && Enabled(m, s, step) && (step.DeliverOne? || step.ReaderStep? || step.WriterStep?)
    ensures Begins(s, Take(m, s, step))
  {
    hide Hear, HandleAll, Tune, Outdated, Before, TakesTurnLock;
    match step {
      case DeliverOne => DeliverAlone(s); hide Deliver;
      case ReaderStep(_) =>
      case WriterStep => WriteAlone(s); hide Write;
    }
  }

  lemma RecognizerBegins(s: Sys, heard: bool)
    requires CanRecognize(s)
    ensures Begins(s, Recognize(s, heard))
  {
    hide Release, HandleAll;
  }

  lemma ResponderBegins(s: Sys, choice: Choice)
    requires CanRespond(s)
    ensures Begins(s, Respond(s, choice))
  {
    hide Release, HandleAll, Wakes, Outdated;
    match s.responder.stage {
      case AwaitJob =>
      case Publish =>
      case Work =>
      case AtGate =>
      case _ =>
    }
  }

  lemma StepBegins(m: Setup, s: Sys, step: Step)
    requires m.Valid() && Enabled(m, s, step)
    ensures Begins(s, Next(m, s, step))
  {
    hide Deliver, Read, Respond, Recognize, Write, CanDeliver, CanRead, CanRespond, CanRecognize, CanWrite;
    hide Outdated;
    match step {
      case RecognizerStep(heard) => RecognizerBegins(s, heard);
      case ResponderStep(choice) => ResponderBegins(s, choice);
      case _ => OthersBegin(m, s, step);
    }
  }

  /** The recognizer and the responder go on until the stop, and from the stop on
      take no turn and start no answer. */
  lemma {:induction false} ThreadsEndAtStop(m: Setup, p: Params, vad: VadState, run: Run, n: nat)
    requires m.Valid() && IsRun(m, p, vad, run) && Whole(run) && n <= |run.steps|
    ensures var s := run.states[n];
            s.recognizer.stage == RecognizerDone || s.responder.stage == ResponderDone ==> StoppedBy(run, n)
    ensures n < |run.steps| && StoppedBy(run, n) ==>
              && run.states[n + 1].past.taken == run.states[n].past.taken
              && run.states[n + 1].past.started == run.states[n].past.started
  {
    hide IsRun, Enabled, Next, StoppedBy, FailedBy, OvertakenBy;
    EndsHaveTheirCause(m, p, vad, run, n);
    if n < |run.steps| {
      StepOf(m, p, vad, run, n);
      StepBegins(m, run.states[n], run.steps[n]);
    }
    if n == 0 {
      StartsWorking(m, p, vad, run);
    } else {
      ThreadsEndAtStop(m, p, vad, run, n - 1);
      EndsHaveTheirCause(m, p, vad, run, n - 1);
      StepEnds(m, p, vad, run, n - 1);
      StepOf(m, p, vad, run, n - 1);
      StepBegins(m, run.states[n - 1], run.steps[n - 1]);
    }
  }

  lemma StartsWorking(m: Setup, p: Params, vad: VadState, run: Run)
    requires m.Valid() && IsRun(m, p, vad, run)
    ensures var s := run.states[0]; s.recognizer.stage == AwaitTurn && s.responder.stage == AwaitJob
  {
    hide Enabled, Next, Initial;
  }
}
