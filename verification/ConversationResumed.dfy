/** Whether a turn that went on is recognized all the same. It never is while a
    turn is resumed by no more speech than opens one, as with the thresholds the
    session starts from; with other thresholds it can be. */
module ConversationResumed {
  import opened Session
  import opened SessionTrace
  import opened Conversation
  import opened ConversationDelivery
  import opened ConversationQueues
  import opened ConversationFloor
  import opened ConversationRuns
  import opened ConversationTheorems
  import opened ConversationCalls
  import opened ConversationOpenings
  import opened ConversationAnswers

  /** A turn resumes on no more speech than a new one needs. */
  predicate Patient(l: Limits) {
    l.reopen <= l.open && l.reopen <= l.barge
  }

  /** As far as the durations asked for say so. */
  predicate Unhurried(p: Params) {
    p.minSpeechContinuationMs <= p.minSpeechMs && p.minSpeechContinuationMs <= p.bargeInMs
  }

  lemma LongerIsMoreWindows(m: Setup, ms: int, more: int)
    requires m.Valid() && ms <= more
    ensures Windows(m, ms) <= Windows(m, more)
  {
    var windowMs := 1000.0 * (m.window as real) / (m.sampleRate as real);
    QuotientGrows(ms as real, more as real, windowMs);
  }

  lemma QuotientGrows(a: real, b: real, w: real)
    requires a <= b && w > 0.0
    ensures a / w <= b / w
  {
  }

  lemma UnhurriedIsPatient(m: Setup, p: Params)
    requires m.Valid() && Unhurried(p)
    ensures Patient(LimitsOf(m, p))
  {
    LongerIsMoreWindows(m, p.minSpeechContinuationMs, p.minSpeechMs);
    LongerIsMoreWindows(m, p.minSpeechContinuationMs, p.bargeInMs);
    hide Windows;
  }

  /** The thresholds of the first n steps, those of the start included. */
  predicate UnhurriedRun(p: Params, run: Run, n: nat)
    requires Whole(run) && n <= |run.steps|
  {
    && Unhurried(p)
    && (forall i :: 0 <= i < n && run.steps[i].ReaderStep? && run.steps[i].move.NewParams? ==>
          Unhurried(run.steps[i].move.params))
  }

  predicate PatientAct(m: Setup, a: Act, freed: seq<Key>)
    requires m.Valid()
  {
    && (a.SetParams? ==> Patient(LimitsOf(m, a.params)))
    && (a.Free? ==> Key(a.turn, a.revision) in freed)
  }

  /** Every turn before the current one became final, and only turns that were
      given back did. */
  predicate OneByOne(s: State, log: seq<Event>, freed: seq<Key>) {
    && (forall t :: 0 < t < s.turnId ==> HasFinalTurn(log, t))
    && (s.committed && s.released ==> Current(s) in freed)
    && (forall i :: 0 <= i < |log| && log[i].kind == TurnFinal ==> KeyOf(log[i]) in freed)
  }

  lemma FinalTurnsStay(log: seq<Event>, more: seq<Event>)
    ensures forall t :: HasFinalTurn(log, t) ==> HasFinalTurn(log + more, t)
  {
    forall t | HasFinalTurn(log, t)
      ensures HasFinalTurn(log + more, t)
    {
      HasFinalInMore(log, more, t);
    }
  }

  lemma LogOneByOne(s: State, log: seq<Event>, more: seq<Event>, freed: seq<Key>)
    requires OneByOne(s, log, freed)
    requires forall i :: 0 <= i < |more| && more[i].kind == TurnFinal ==> KeyOf(more[i]) in freed
    ensures OneByOne(s, log + more, freed)
  {
    FinalTurnsStay(log, more);
    hide HasFinalTurn;
  }

  lemma TickOneByOne(s: State, log: seq<Event>, freed: seq<Key>)
    requires Sound(s) && OneByOne(s, log, freed)
    ensures OneByOne(TickGrace(s).state, log + TickGrace(s).events, freed)
  {
    LogOneByOne(s, log, TickGrace(s).events, freed);
    hide HasFinalTurn;
  }

  lemma ListenOneByOne(m: Setup, s: State, log: seq<Event>, freed: seq<Key>, w: Audio)
    requires OneByOne(s, log, freed)
    ensures OneByOne(Listen(m, s, w), log, freed)
  {
    hide HasFinalTurn;
  }

  /** A turn opens only when the last one is over. */
  lemma DecideOneByOne(m: Setup, s: State, log: seq<Event>, freed: seq<Key>)
    requires Traced(s, log) && OneByOne(s, log, freed) && Patient(s.limits)
    ensures OneByOne(Decide(m, s).state, log + Decide(m, s).events, freed)
  {
    hide Traced, HasFinalTurn, Decide;
    var o := Decide(m, s);
    DecideMakesNoFinal(m, s);
    LogOneByOne(s, log, o.events, freed);
    TracedIsSound(s, log);
    DecideOpens(m, s);
    if o.state.turnId == s.turnId + 1 {
      if s.turnId > 0 {
        OverIsFinal(s, log);
        FinalTurnsStay(log, o.events);
      }
    }
  }

  lemma DecideOpens(m: Setup, s: State)
    requires Sound(s) && Patient(s.limits)
    ensures var s' := Decide(m, s).state;
            && (s'.turnId == s.turnId || (s'.turnId == s.turnId + 1 && !Live(s)))
            && (s'.committed && s'.released ==> s.committed && s.released && Current(s') == Current(s))
  {
  }

  lemma TracedIsSound(s: State, log: seq<Event>)
    requires Traced(s, log)
    ensures Sound(s)
  {
  }

  lemma OverIsFinal(s: State, log: seq<Event>)
    requires Traced(s, log) && s.turnId > 0 && !Live(s)
    ensures HasFinalTurn(log, s.turnId)
  {
    var i :| 0 <= i < |log| && log[i].kind == TurnFinal && KeyOf(log[i]) == Current(s);
    assert log[i].turn == s.turnId;
  }

  lemma CountedOneByOne(s: State, log: seq<Event>, freed: seq<Key>)
    requires OneByOne(s, log, freed)
    ensures OneByOne(s.(nWindows := s.nWindows + 1), log, freed)
  {
  }

  lemma HeardLimits(m: Setup, s: State, w: Audio)
    ensures Listen(m, TickGrace(s).state, w).limits == s.limits
  {
  }

  lemma HearOneByOne(m: Setup, s: State, log: seq<Event>, freed: seq<Key>, w: Audio)
    requires Traced(s, log) && OneByOne(s, log, freed) && Patient(s.limits)
    ensures OneByOne(Hear(m, s, w).state, log + Hear(m, s, w).events, freed)
  {
    var ticked := TickGrace(s);
    var heard := Listen(m, ticked.state, w);
    var decided := Decide(m, heard);
    hide TickGrace, Listen, Decide, Traced, Sound, OneByOne, Patient;
    TracedIsSound(s, log);
    HeardLimits(m, s, w);
    TickKeepsTraced(s, log);
    ListenKeepsTraced(m, ticked.state, log + ticked.events, w);
    TickOneByOne(s, log, freed);
    ListenOneByOne(m, ticked.state, log + ticked.events, freed, w);
    DecideOneByOne(m, heard, log + ticked.events, freed);
    CountedOneByOne(decided.state, log + ticked.events + decided.events, freed);
    assert log + ticked.events + decided.events == log + (ticked.events + decided.events);
  }

  lemma ReleaseOneByOne(s: State, log: seq<Event>, freed: seq<Key>, key: Key)
    requires OneByOne(s, log, freed) && key in freed
    ensures var o := Release(s, key.turn, key.revision); OneByOne(o.state, log + o.events, freed)
  {
    LogOneByOne(s, log, Release(s, key.turn, key.revision).events, freed);
    hide HasFinalTurn;
  }

  lemma ApplyOneByOne(m: Setup, s: State, log: seq<Event>, freed: seq<Key>, a: Act)
    requires m.Valid() && ValidAct(m, a) && PatientAct(m, a, freed)
    requires Traced(s, log) && OneByOne(s, log, freed) && Patient(s.limits)
    ensures var o := Apply(m, s, a); OneByOne(o.state, log + o.events, freed) && Patient(o.state.limits)
  {
    hide Traced, HasFinalTurn, LimitsOf, OneByOne;
    match a {
      case Window(w) =>
        HearOneByOne(m, s, log, freed, w);
        HearKeepsLimits(m, s, w);
      case Free(turn, revision) => ReleaseOneByOne(s, log, freed, Key(turn, revision));
      case _ => TuneOneByOne(m, s, log, freed, a);
    }
    hide Hear;
  }

  lemma TuneOneByOne(m: Setup, s: State, log: seq<Event>, freed: seq<Key>, a: Act)
    requires m.Valid() && ValidAct(m, a) && OneByOne(s, log, freed) && (a.SetSpeaking? || a.SetParams?)
    ensures var o := Apply(m, s, a); OneByOne(o.state, log + o.events, freed)
  {
    assert log + [] == log;
    hide HasFinalTurn, LimitsOf, LookbackCapacity;
  }

  lemma DecideKeepsLimits(m: Setup, s: State)
    ensures Decide(m, s).state.limits == s.limits
  {
  }

  lemma HearKeepsLimits(m: Setup, s: State, w: Audio)
    ensures Hear(m, s, w).state.limits == s.limits
  {
    hide TickGrace, Listen, Decide;
    HeardLimits(m, s, w);
    DecideKeepsLimits(m, Listen(m, TickGrace(s).state, w));
  }

  lemma FreedMore(s: State, log: seq<Event>, freed: seq<Key>, more: seq<Key>)
    requires OneByOne(s, log, freed) && Within(freed, more)
    ensures OneByOne(s, log, more)
  {
    hide HasFinalTurn;
  }

  // ------------------------------------------------------------ every run

  /** Only turns the recognizer took are given back. */
  lemma FreesTaken(m: Setup, s: Sys, step: Step)
    requires m.Valid() && Enabled(m, s, step) && Inv(s)
    ensures forall a :: a in CallOf(s, step) && a.Free? ==> Key(a.turn, a.revision) in s.past.taken
  {
    hide Enabled, Known, Held, FloorKept, GateKept, ResponderEmits, SaysSpeech, CommitKeys, QueuedBy;
    if step.ResponderStep? && AtRelease(s.responder.stage) {
      assert s.past.jobs[|s.past.started| - 1] == s.responder.key;
      assert s.responder.key in s.past.jobs;
    }
  }

  lemma TakenGrows(m: Setup, s: Sys, step: Step)
    requires m.Valid() && Enabled(m, s, step) && Inv(s)
    ensures Within(s.past.taken, Next(m, s, step).past.taken)
  {
    hide Next, Enabled, Inv, Noted, Recognize;
    if step.RecognizerStep? {
      RecognizerEnabled(m, s, step.heard);
      if Recognizing(s.recognizer.stage) {
        RecognizerWorks(s, step.heard);
      } else {
        RecognizerTakes(s, step.heard);
      }
    } else {
      OthersLeaveWork(m, s, step);
    }
  }

  lemma {:induction false} EveryRunOneByOne(m: Setup, p: Params, vad: VadState, run: Run, n: nat)
    requires m.Valid() && IsRun(m, p, vad, run) && Whole(run) && n <= |run.steps| && UnhurriedRun(p, run, n)
    ensures var s := run.states[n]; OneByOne(s.session, s.past.log, s.past.taken) && Patient(s.session.limits)
  {
    hide IsRun, Inv, Enabled, Next, OneByOne, Patient, LimitsOf, Apply, Start;
    if n == 0 {
      StartsOneByOne(m, p, vad, run);
    } else {
      EveryRunOneByOne(m, p, vad, run, n - 1);
      EveryRunKeepsInv(m, p, vad, run, n - 1);
      StepOf(m, p, vad, run, n - 1);
      NextOneByOne(m, run.states[n - 1], run.steps[n - 1]);
    }
  }

  lemma StartsOneByOne(m: Setup, p: Params, vad: VadState, run: Run)
    requires m.Valid() && IsRun(m, p, vad, run) && Unhurried(p)
    ensures var s := run.states[0]; OneByOne(s.session, s.past.log, s.past.taken) && Patient(s.session.limits)
  {
    UnhurriedIsPatient(m, p);
    hide Enabled, Next, LimitsOf;
  }

  lemma TracedHolds(s: Sys)
    requires Inv(s)
    ensures Traced(s.session, s.past.log)
  {
    hide Traced, Delivered, Held, Queued, FloorKept, GateKept;
  }

  lemma NextOneByOne(m: Setup, s: Sys, step: Step)
    requires m.Valid() && Enabled(m, s, step) && Inv(s)
    requires step.ReaderStep? && step.move.NewParams? ==> Unhurried(step.move.params)
    requires OneByOne(s.session, s.past.log, s.past.taken) && Patient(s.session.limits)
    ensures var s' := Next(m, s, step);
            OneByOne(s'.session, s'.past.log, s'.past.taken) && Patient(s'.session.limits)
  {
    hide Inv, Enabled, Next, OneByOne, Patient, LimitsOf, Apply, Traced;
    StepCalls(m, s, step);
    FreesTaken(m, s, step);
    TakenGrows(m, s, step);
    var s', calls := Next(m, s, step), CallOf(s, step);
    FreedMore(s.session, s.past.log, s.past.taken, s'.past.taken);
    TracedHolds(s);
    if calls != [] {
      assert calls[0] in calls;
      if calls[0].SetParams? {
        UnhurriedIsPatient(m, calls[0].params);
      }
      ApplyOneByOne(m, s.session, s.past.log, s'.past.taken, calls[0]);
    }
  }

  lemma ResumedThenFinal(log: seq<Event>, key: Key)
    requires Ordered(log) && FinalIsLast(log) && HasOpening(log, key) && HasFinalTurn(log, key.turn)
    ensures exists i :: 0 <= i < |log| && log[i].kind == TurnFinal && !Before(KeyOf(log[i]), key)
                        && log[i].turn == key.turn
  {
    var o :| 0 <= o < |log| && IsOpening(log[o]) && KeyOf(log[o]) == key;
    var i :| 0 <= i < |log| && log[i].kind == TurnFinal && log[i].turn == key.turn;
    assert o < i;
  }

  lemma TakenUpTo(s: Sys, k: Key)
    requires Inv(s) && Recognizing(s.recognizer.stage) && k in s.past.taken
    ensures !Before(s.recognizer.key, k)
  {
    hide Held, JobsInOrder, RecognizerEmits, ResponderEmits, SaysSpeech, FloorKept, GateKept, Delivered;
    hide CommitKeys, QueuedBy, Traced, Has;
    TimedMeans(s.session, s.past.log);
    TakenInOrder(s);
    var i :| 0 <= i < |s.past.taken| && s.past.taken[i] == k;
  }

  /** A later turn opens only after the last one is final, so it was given back. */
  lemma OvertakenIsFreed(s: State, log: seq<Event>, freed: seq<Key>, resumed: Key, later: Key)
    requires Traced(s, log) && OneByOne(s, log, freed)
    requires HasOpening(log, resumed) && HasOpening(log, later) && 0 < resumed.turn < later.turn
    ensures exists k :: k in freed && k.turn == resumed.turn && !Before(k, resumed)
  {
    hide CommitsSeen, FinalsSeen, Sound, HasFinalTurn;
    var o :| 0 <= o < |log| && IsOpening(log[o]) && KeyOf(log[o]) == later;
    assert !Before(Current(s), KeyOf(log[o]));
    ResumedThenFinal(log, resumed);
    var i :| 0 <= i < |log| && log[i].kind == TurnFinal && !Before(KeyOf(log[i]), resumed)
             && log[i].turn == resumed.turn;
    assert KeyOf(log[i]) in freed;
  }

  lemma CommittedTurn(s: State, log: seq<Event>, k: Key)
    requires Traced(s, log) && Has(log, TurnCommitted, k)
    ensures k.turn > 0
  {
  }

  /** The turn being checked was not given back under a later revision, so it is
      not final, and no later turn opened. */
  lemma NotLeftBehind(m: Setup, p: Params, vad: VadState, run: Run, n: nat, k: Key)
    requires m.Valid() && IsRun(m, p, vad, run) && Whole(run) && n < |run.steps| && UnhurriedRun(p, run, n)
    requires ChecksAt(run, n, k) && ResumedBy(run, n, k)
    ensures !LeftBehindBy(run, n, k)
  {
    hide IsRun, Inv, UnhurriedRun, OneByOne, Traced, HasOpening, Has;
    if LeftBehindBy(run, n, k) {
      var i :| 0 <= i < n && Resumes(run, i, k);
      var j :| 0 <= j < n && OpensLater(run, j, k);
      var s, resumed, later := run.states[n], run.states[i].ops[0].key, run.states[j].ops[0].key;
      assert TellsOpen(run, i, resumed) && TellsOpen(run, j, later);
      EveryOpeningIsTold(m, p, vad, run, n, resumed);
      EveryOpeningIsTold(m, p, vad, run, n, later);
      EveryRunKeepsInv(m, p, vad, run, n);
      EveryRunOneByOne(m, p, vad, run, n);
      InvHolds(s);
      TimedMeans(s.session, s.past.log);
      TakenWasCommitted(s);
      CommittedTurn(s.session, s.past.log, k);
      OvertakenIsFreed(s.session, s.past.log, s.past.taken, resumed, later);
      var freed :| freed in s.past.taken && freed.turn == resumed.turn && !Before(freed, resumed);
      TakenUpTo(s, freed);
    }
  }

  /** While a turn resumes on no more speech than a new one needs, a turn taken
      for recognition is given up at its check exactly when it went on. */
  lemma GivenUpIffResumed(m: Setup, p: Params, vad: VadState, run: Run, n: nat, k: Key)
    requires m.Valid() && IsRun(m, p, vad, run) && Whole(run) && n < |run.steps| && UnhurriedRun(p, run, n)
    requires ChecksAt(run, n, k)
    ensures run.states[n + 1].recognizer == RecognizerAt(if ResumedBy(run, n, k) then GiveUp else Transcribe, k)
  {
    hide IsRun, UnhurriedRun, ResumedBy, LeftBehindBy, ChecksAt;
    CheckIsExact(m, p, vad, run, n, k);
    if ResumedBy(run, n, k) {
      NotLeftBehind(m, p, vad, run, n, k);
    }
  }
}
