/** The gate of the first sound: nothing of an answer is heard before its turn
    is final under its very revision, and nobody waits there for ever. */
module ConversationGate {
  import opened Session
  import opened SessionTrace
  import opened SessionTiming
  import opened Conversation
  import opened ConversationInvariants
  import opened ConversationDelivery
  import opened ConversationQueues

  // ------------------------------------------------------------ the gate

  predicate VoicesAreFinal(frames: seq<Frame>, log: seq<Event>) {
    forall f :: f in frames && f.Voice? ==> Has(log, TurnFinal, f.key)
  }

  predicate Gated(s: Sys) {
    && (s.shared.gated ==> Has(s.past.log, TurnFinal, s.shared.answer))
    && VoicesAreFinal(s.past.frames, s.past.log)
  }

  /** What the gate tests is enough: a final turn no older than the answer,
      and nothing opened after it, make the answer's own revision final. */
  lemma GateMeansFinal(log: seq<Event>, ops: seq<Op>, open: Key, finalTurn: nat, answer: Key)
    requires LogPromises(log) && DeliveredTo(log, ops, open, finalTurn)
    requires Has(log, TurnCommitted, answer) && 0 < answer.turn <= finalTurn && !Before(answer, open)
    ensures Has(log, TurnFinal, answer)
  {
    var i :| 0 <= i < |log| && log[i].kind == TurnFinal && log[i].turn == finalTurn;
    var j :| 0 <= j < |log| && log[j].kind == TurnCommitted && KeyOf(log[j]) == answer;
    assert !Before(open, KeyOf(log[i]));
    if j <= i {
      assert !Before(KeyOf(log[i]), KeyOf(log[j]));
      assert KeyOf(log[i]) == answer;
    }
  }

  /** The answer in flight is to a turn and revision that were committed. */
  lemma AnswerWasCommitted(s: Sys)
    requires Floor(s) && TurnsInOrder(s) && JobsInOrder(s) && RecognizerEmits(s)
    requires Traced(s.session, s.past.log) && Responding(s.responder.stage)
    ensures Has(s.past.log, TurnCommitted, s.responder.key) && s.responder.key.turn > 0
  {
    TakenInOrder(s);
    var k := s.responder.key;
    assert s.past.jobs[|s.past.started| - 1] == k;
    assert k in s.past.jobs && k in s.past.taken;
  }

  lemma PassKeepsGated(s: Sys)
    requires Gated(s) && Floor(s) && TurnsInOrder(s) && JobsInOrder(s) && RecognizerEmits(s)
    requires Traced(s.session, s.past.log) && Delivered(s)
    requires s.responder.stage == AtGate && CanRespond(s)
    ensures Gated(PassGate(s))
  {
    var c := s.shared;
    assert c.answer == s.responder.key;
    AnswerWasCommitted(s);
    if Wakes(c) && !c.stop && !c.cancel && !Outdated(c) {
      GateMeansFinal(s.past.log, s.ops, c.open, c.finalTurn, c.answer);
    }
    hide Traced, Delivered, DeliveredTo, TurnsInOrder, JobsInOrder, RecognizerEmits;
  }

  predicate LetThrough(s: Sys) {
    s.responder.stage == Work && s.shared.gated
  }

  /** Neither cut nor overtaken. */
  predicate MayBeHeard(c: Shared) {
    !c.stop && !c.cancel && !Outdated(c)
  }

  /** With every event handled, the gate lets through exactly the answer whose
      own revision is final, unless something opened since or it was cut. */
  lemma PassIsExact(s: Sys)
    requires Gated(s) && Floor(s) && TurnsInOrder(s) && JobsInOrder(s) && RecognizerEmits(s)
    requires Traced(s.session, s.past.log) && Delivered(s) && s.ops == []
    requires s.responder.stage == AtGate && CanRespond(s)
    ensures LetThrough(PassGate(s)) <==> MayBeHeard(s.shared) && Has(s.past.log, TurnFinal, s.shared.answer)
  {
    PassKeepsGated(s);
    var c := s.shared;
    if Has(s.past.log, TurnFinal, c.answer) {
      assert c.answer.turn <= c.finalTurn;
    }
    hide Traced, TurnsInOrder, JobsInOrder, RecognizerEmits;
  }

  lemma RespondVoices(s: Sys, choice: Choice)
    requires CanRespond(s) && !ReleasesSession(s) && s.responder.stage != AtGate
    ensures var s' := Respond(s, choice);
            && (forall f :: f in s'.past.frames && f.Voice? ==>
                  f in s.past.frames || (f.key == s.responder.key && s.shared.gated && s.responder.stage == Work))
            && (s'.shared.gated ==> s.shared.gated && s'.shared.answer == s.shared.answer)
  {
  }

  lemma RespondKeepsGated(s: Sys, choice: Choice)
    requires Gated(s) && Floor(s) && TurnsInOrder(s) && JobsInOrder(s) && RecognizerEmits(s)
    requires Traced(s.session, s.past.log) && Delivered(s) && CanRespond(s) && !ReleasesSession(s)
    ensures Gated(Respond(s, choice))
  {
    if s.responder.stage == AtGate {
      PassKeepsGated(s);
    } else {
      RespondVoices(s, choice);
      RespondAlone(s, choice);
    }
    hide Respond, Traced, Delivered, TurnsInOrder, JobsInOrder, RecognizerEmits, PassGate, Has;
  }

  /** Frames other than sound, and a log that only grows. */
  lemma QuietKeepsGated(s: Sys, s': Sys, more: seq<Event>)
    requires Gated(s) && s'.past.log == s.past.log + more
    requires s'.shared.gated == s.shared.gated && s'.shared.answer == s.shared.answer
    requires forall f :: f in s'.past.frames && f.Voice? ==> f in s.past.frames
    ensures Gated(s')
  {
    HasInMore(s.past.log, more);
    hide Has;
  }

  // ------------------------------------------------------------ released

  /** The session has seen a release of this turn and revision, or has gone on
      to something newer. */
  predicate ReleaseSeen(s: State, key: Key) {
    || Before(key, Current(s))
    || (Current(s) == key && s.phase == Idle && (s.committed ==> s.released))
  }

  predicate AwaitsFinal(stage: ResponderStage) {
    stage == ReleasingForGate || stage == AtGate || stage == Asleep
  }

  predicate Freed(s: Sys) {
    AwaitsFinal(s.responder.stage) ==> ReleaseSeen(s.session, s.responder.key)
  }

  lemma ReleaseIsSeen(s: State, log: seq<Event>, key: Key)
    requires Traced(s, log) && Has(log, TurnCommitted, key)
    ensures ReleaseSeen(Release(s, key.turn, key.revision).state, key)
  {
  }

  lemma HearKeepsSeen(m: Setup, s: State, w: Audio, key: Key)
    requires Sound(s) && ReleaseSeen(s, key)
    ensures ReleaseSeen(Hear(m, s, w).state, key)
  {
  }

  lemma ApplyKeepsSeen(m: Setup, s: State, a: Act, key: Key)
    requires m.Valid() && ValidAct(m, a) && Sound(s) && ReleaseSeen(s, key)
    ensures ReleaseSeen(Apply(m, s, a).state, key)
  {
    match a {
      case Window(w) => HearKeepsSeen(m, s, w, key);
      case _ =>
    }
    hide Hear;
  }

  // ------------------------------------------------------------ waiting

  /** Outside a half-delivered event, whoever waits at the gate has its wake
      predicate true already, or waits for the end of a grace that runs: the
      turn is committed and released under that very revision. */
  predicate InItsGrace(s: State, log: seq<Event>, key: Key) {
    && Current(s) == key && s.committed && s.released && s.graceLeft > 0
    && (forall i :: 0 <= i < |log| && log[i].kind == TurnCommitted && KeyOf(log[i]) == key ==>
          log[i].at + 1 + log[i].grace == s.nWindows + s.graceLeft)
  }

  lemma NobodyIsStuck(s: Sys)
    requires Timed(s.session, s.past.log) && Delivered(s) && Freed(s) && Floor(s) && s.ops == []
    requires AwaitsFinal(s.responder.stage)
    ensures Wakes(s.shared) || InItsGrace(s.session, s.past.log, s.shared.answer)
  {
    var c, key, log := s.shared, s.responder.key, s.past.log;
    if !Wakes(c) {
      assert c.answer == key;
      if Before(key, Current(s.session)) {
        CurrentIsOpen(s.session, log, c.open, c.finalTurn);
      } else if !s.session.committed {
        NotLiveIsFinal(s.session, log, c.open, c.finalTurn);
      }
      hide Traced, DeliveredTo;
    }
  }

  lemma NotLiveIsFinal(s: State, log: seq<Event>, open: Key, finalTurn: nat)
    requires Traced(s, log) && DeliveredTo(log, [], open, finalTurn) && !Live(s)
    ensures s.turnId <= finalTurn
  {
  }

  // ------------------------------------------------------------ notified

  /** Somebody is on the way to the notification. */
  predicate Coming(s: Sys) {
    || Notify in s.ops
    || (s.ops != [] && s.ops[0].StoreVoid?)
    || s.reader == CancelRaised || s.reader == StopRaised || s.reader == StopSet
    || s.writer == WriterStopRaised || s.writer == WriterStopSet
  }

  /** No wake-up is lost. */
  predicate Notified(s: Sys) {
    s.responder.stage == Asleep && Wakes(s.shared) ==> Coming(s)
  }

  lemma DeliverKeepsNotified(s: Sys)
    requires Notified(s) && CanDeliver(s) && OpsShape(s.ops, s.shared.turnLock)
    ensures Notified(Deliver(s))
  {
  }

  lemma ReadKeepsNotified(m: Setup, s: Sys, move: ReaderMove)
    requires Notified(s) && m.Valid() && CanRead(m, s, move)
    ensures Notified(Read(m, s, move))
  {
  }

  lemma RecognizeKeepsNotified(s: Sys, heard: bool)
    requires Notified(s) && CanRecognize(s) && (s.recognizer.stage == GiveUp ==> s.ops == [])
    ensures Notified(Recognize(s, heard))
  {
  }

  lemma RespondKeepsNotified(s: Sys, choice: Choice)
    requires CanRespond(s)
    ensures Notified(Respond(s, choice))
  {
  }

  lemma WriteKeepsNotified(s: Sys)
    requires Notified(s) && CanWrite(s)
    ensures Notified(Write(s))
  {
  }
}
