/** What every step of a conversation keeps. Each predicate is one concern;
    each lemma below one concern against one thread. */
module ConversationInvariants {
  import opened Session
  import opened Conversation

  // ------------------------------------------------------------ the locks

  predicate Paired(ops: seq<Op>) {
    forall i :: 0 <= i < |ops| && ops[i].RaiseCancel? ==> i + 1 < |ops| && ops[i + 1].Notify?
  }

  /** The turn lock is held between two steps only inside the section that
      `Opened` begins, and that section is then the first thing left to do. */
  predicate OpsShape(ops: seq<Op>, turnLock: bool) {
    && (turnLock <==> ops != [] && ops[0].StoreVoid?)
    && (forall i :: 0 < i < |ops| ==> !ops[i].StoreVoid?)
    && Paired(ops)
  }

  /** The session lock is held by the thread that is inside a session call. */
  predicate Locked(s: Sys) {
    && (s.ops != [] ==> s.owner != Nobody)
    && (s.owner == Reader <==> s.reader == Pushing)
    && (s.owner == Recognizer <==> s.recognizer.stage == GivingUp)
    && (s.owner == Responder <==> s.responder.stage == ReleasingForGate || s.responder.stage == ReleasingAtEnd)
    && OpsShape(s.ops, s.shared.turnLock)
  }

  predicate OnFloor(stage: ResponderStage) {
    || stage == SendCreated || stage == Work || stage == ReleaseForGate || stage == ReleasingForGate
    || stage == AtGate || stage == Asleep || stage == CloseFloor
  }

  /** The responder holds the floor from the publication of an answer to the
      end of its sound, and the answer in flight is then its own. */
  predicate Floor(s: Sys) {
    && (s.shared.speaking <==> OnFloor(s.responder.stage))
    && (OnFloor(s.responder.stage) || s.responder.stage == SendTerminal ==> s.shared.answer == s.responder.key)
  }

  lemma HandleIsWhole(ops: seq<Op>, e: Event)
    requires Paired(ops)
    ensures Paired(ops + Handle(e))
  {
  }

  lemma {:induction false} HandlersAreWhole(events: seq<Event>)
    ensures OpsShape(HandleAll(events), false)
    ensures forall op :: op in HandleAll(events) ==> !op.StoreVoid?
  {
    if events != [] {
      HandlersAreWhole(events[..|events| - 1]);
      HandleIsWhole(HandleAll(events[..|events| - 1]), events[|events| - 1]);
    }
  }

  lemma RestShape(ops: seq<Op>, turnLock: bool)
    requires OpsShape(ops, turnLock) && ops != []
    ensures OpsShape(ops[1..], false)
    ensures ops[0].RaiseCancel? ==> Notify in ops[1..]
  {
  }

  lemma OpenedShape(ops: seq<Op>, void: bool)
    requires OpsShape(ops, false)
    ensures OpsShape([StoreVoid(void)] + ops, true)
  {
  }

  /** Delivering moves on in the handlers, and at most wakes the responder. */
  lemma DeliverAlone(s: Sys)
    requires CanDeliver(s)
    ensures var s' := Deliver(s);
            && s'.session == s.session && s'.owner == s.owner && s'.past.log == s.past.log
            && s'.reader == s.reader && s'.recognizer == s.recognizer && s'.writer == s.writer
            && s'.responder.key == s.responder.key
            && (s'.responder.stage == s.responder.stage
                || (s.responder.stage == Asleep && s'.responder.stage == AtGate))
            && s'.shared.speaking == s.shared.speaking && s'.shared.answer == s.shared.answer
            && s'.shared.gated == s.shared.gated && s'.shared.stop == s.shared.stop
            && s'.shared.outStop == s.shared.outStop
    ensures var s' := Deliver(s);
            && s'.answers == s.answers && s'.past.taken == s.past.taken && s'.past.jobs == s.past.jobs
            && s'.past.started == s.past.started && s'.past.overtaken == s.past.overtaken
  {
    hide Outdated;
    match s.ops[0] {
      case Say(_) =>
      case Opened(_) =>
      case _ =>
    }
  }

  lemma DeliverOps(s: Sys)
    requires CanDeliver(s) && OpsShape(s.ops, s.shared.turnLock)
    ensures OpsShape(Deliver(s).ops, Deliver(s).shared.turnLock)
  {
    RestShape(s.ops, s.shared.turnLock);
    if s.ops[0].Opened? {
      OpenedShape(s.ops[1..], Deliver(s).ops[0].void);
    }
  }

  lemma DeliverKeepsLocked(s: Sys)
    requires Locked(s) && Floor(s) && CanDeliver(s)
    ensures Locked(Deliver(s)) && Floor(Deliver(s))
  {
    DeliverAlone(s);
    DeliverOps(s);
    hide Deliver, OpsShape;
  }

  lemma MovedShape(s: Sys, o: Outcome, holder: Thread)
    ensures OpsShape(Moved(s, o, holder).ops, false)
  {
    HandlersAreWhole(o.events);
  }

  lemma ReadKeepsLocked(m: Setup, s: Sys, move: ReaderMove)
    requires m.Valid() && Locked(s) && Floor(s) && CanRead(m, s, move)
    ensures Locked(Read(m, s, move)) && Floor(Read(m, s, move))
  {
    assert s.ops == [] ==> !s.shared.turnLock;
    hide Hear, HandleAll, OpsShape;
    if move.HearOne? {
      MovedShape(s, Hear(m, s.session, move.w), Reader);
    }
  }

  // ------------------------------- what the other threads leave alone

  /** The session, its lock, its log and what the turn lock guards. */
  predicate SessionAlone(s: Sys, s': Sys) {
    && s'.session == s.session && s'.owner == s.owner && s'.ops == s.ops && s'.past.log == s.past.log
    && s'.shared.turnLock == s.shared.turnLock && s'.shared.open == s.shared.open
    && s'.shared.finalTurn == s.shared.finalTurn
  }

  predicate ReleasesSession(s: Sys) {
    || s.responder.stage == ReleaseForGate || s.responder.stage == ReleasingForGate
    || s.responder.stage == ReleaseAtEnd || s.responder.stage == ReleasingAtEnd
  }

  lemma RespondAlone(s: Sys, choice: Choice)
    requires CanRespond(s) && !ReleasesSession(s)
    ensures var s' := Respond(s, choice);
            SessionAlone(s, s') && s'.reader == s.reader && s'.recognizer == s.recognizer && s'.queue == s.queue
            && s'.past.taken == s.past.taken && s'.past.jobs == s.past.jobs && s'.writer == s.writer
            && s'.past.overtaken == s.past.overtaken && s'.shared.stop == s.shared.stop
            && s'.shared.outStop == s.shared.outStop
  {
  }

  lemma RecognizeAlone(s: Sys, heard: bool)
    requires CanRecognize(s) && s.recognizer.stage != GiveUp && s.recognizer.stage != GivingUp
    ensures var s' := Recognize(s, heard);
            SessionAlone(s, s') && s'.reader == s.reader && s'.responder == s.responder && s'.shared == s.shared
            && s'.past.started == s.past.started && s'.writer == s.writer && s'.past.overtaken == s.past.overtaken
  {
  }

  lemma RecognizeKeepsLocked(s: Sys, heard: bool)
    requires Locked(s) && Floor(s) && CanRecognize(s)
    ensures Locked(Recognize(s, heard)) && Floor(Recognize(s, heard))
  {
    assert s.ops == [] ==> !s.shared.turnLock;
    hide Release, HandleAll, OpsShape;
    if s.recognizer.stage == GiveUp {
      MovedShape(s, Release(s.session, s.recognizer.key.turn, s.recognizer.key.revision), Recognizer);
    } else if s.recognizer.stage != GivingUp {
      RecognizeAlone(s, heard);
    }
  }

  lemma ReleaseMovesKeepLocked(s: Sys, choice: Choice)
    requires Locked(s) && Floor(s) && CanRespond(s) && ReleasesSession(s)
    ensures Locked(Respond(s, choice)) && Floor(Respond(s, choice))
  {
    assert s.ops == [] ==> !s.shared.turnLock;
    hide Release, HandleAll, OpsShape;
    MovedShape(s, Release(s.session, s.responder.key.turn, s.responder.key.revision), Responder);
  }

  lemma RespondStage(s: Sys, choice: Choice)
    requires Floor(s) && CanRespond(s) && !ReleasesSession(s)
    ensures Floor(Respond(s, choice))
    ensures Respond(s, choice).responder.stage != ReleasingForGate
    ensures Respond(s, choice).responder.stage != ReleasingAtEnd
  {
  }

  lemma RespondKeepsLocked(s: Sys, choice: Choice)
    requires Locked(s) && Floor(s) && CanRespond(s)
    ensures Locked(Respond(s, choice)) && Floor(Respond(s, choice))
  {
    hide Respond, OpsShape, Floor;
    if ReleasesSession(s) {
      ReleaseMovesKeepLocked(s, choice);
    } else {
      RespondAlone(s, choice);
      RespondStage(s, choice);
    }
  }

  lemma WriteKeepsLocked(s: Sys)
    requires Locked(s) && Floor(s) && CanWrite(s)
    ensures Locked(Write(s)) && Floor(Write(s))
  {
  }
}
