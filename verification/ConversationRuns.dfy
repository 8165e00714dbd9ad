/** Every run of a conversation: the invariants together, the steps that keep
    them, and what they say of the whole. */
module ConversationRuns {
  import opened Session
  import opened SessionTrace
  import opened SessionTiming
  import opened Conversation
  import opened ConversationInvariants
  import opened ConversationDelivery
  import opened ConversationQueues
  import opened ConversationFloor
  import opened ConversationGate

  predicate Held(s: Sys) {
    Locked(s) && Floor(s)
  }

  predicate Known(s: Sys) {
    Timed(s.session, s.past.log) && Delivered(s)
  }

  predicate Queued(s: Sys) {
    TurnsInOrder(s) && JobsInOrder(s) && RecognizerEmits(s) && ResponderEmits(s) && SaysSpeech(s.ops)
  }

  predicate FloorKept(s: Sys) {
    Bracketed(s) && Voided(s.shared, s.ops, s.responder.stage) && Honest(s)
  }

  predicate GateKept(s: Sys) {
    Gated(s) && Freed(s) && Notified(s)
  }

  predicate Inv(s: Sys) {
    Held(s) && Known(s) && Queued(s) && FloorKept(s) && GateKept(s)
  }

  lemma TimedMeans(s: State, log: seq<Event>)
    requires Timed(s, log)
    ensures Traced(s, log) && Sound(s) && LogPromises(log) && CommitsAdvance(log)
  {
  }

  // ------------------------------------------------------------ deliveries

  lemma DeliverKeepsGate(s: Sys)
    requires Inv(s) && CanDeliver(s)
    ensures GateKept(Deliver(s))
  {
    DeliverAlone(s);
    DeliverLets(s);
    DeliverKeepsNotified(s);
    assert s.past.log + [] == s.past.log;
    assert s.ops[0] in s.ops;
    QuietKeepsGated(s, Deliver(s), []);
    hide Deliver, Gated, Notified, ReleaseSeen, Locked, Floor, Known, Bracketed, Honest, Voided;
    hide TurnsInOrder, JobsInOrder, RecognizerEmits, ResponderEmits;
  }

  lemma DeliverKeepsInv(s: Sys)
    requires Inv(s) && CanDeliver(s)
    ensures Inv(Deliver(s))
  {
    DeliverKeepsGate(s);
    DeliverKeepsLocked(s);
    DeliverKeepsDelivered(s);
    DeliverKeepsTurns(s);
    DeliverKeepsEmits(s);
    DeliverKeepsBracketed(s);
    DeliverKeepsVoided(s);
    DeliverKeepsHonest(s);
    DeliverAlone(s);
    hide Deliver, Locked, Floor, Timed, Delivered, TurnsInOrder, RecognizerEmits, ResponderEmits, SaysSpeech, Bracketed;
    hide Voided, Honest, GateKept;
  }

  // ------------------------------------------------------ the session moves

  lemma ApplyFinalsAreCurrent(m: Setup, s: State, a: Act)
    requires m.Valid() && ValidAct(m, a) && Sound(s)
    ensures FinalsAreCurrent(s, Apply(m, s, a).events)
  {
    match a {
      case Window(w) => HearFinalsAreCurrent(m, s, w);
      case Free(turn, revision) => ReleaseFinalsAreCurrent(s, turn, revision);
      case _ =>
    }
    hide Hear, Release;
  }

  /** The session under its lock, by whoever holds it. */
  lemma MovedIsKnown(m: Setup, s: Sys, a: Act, holder: Thread)
    requires m.Valid() && ValidAct(m, a) && Known(s) && TurnsInOrder(s) && s.ops == []
    ensures var s' := Moved(s, Apply(m, s.session, a), holder);
            Known(s') && TurnsInOrder(s') && SaysSpeech(s'.ops)
  {
    var o := Apply(m, s.session, a);
    TimedMeans(s.session, s.past.log);
    ApplyTimed(m, s.session, s.past.log, a);
    ApplyFinalsAreCurrent(m, s.session, a);
    MovedKeepsDelivered(s, o, holder);
    MovedKeepsTurns(s, o, holder);
    hide Apply, Timed, Delivered, TurnsInOrder, HandleAll, SaysSpeech;
  }

  /** A move of the session changes nothing the responder and the recognizer
      have let out, and keeps what the gate was told. */
  lemma MovedKeepsGate(m: Setup, s: Sys, a: Act, holder: Thread)
    requires m.Valid() && ValidAct(m, a) && Known(s) && Gated(s) && Freed(s)
    ensures var s' := Moved(s, Apply(m, s.session, a), holder); Gated(s') && Freed(s')
  {
    var o := Apply(m, s.session, a);
    TimedMeans(s.session, s.past.log);
    QuietKeepsGated(s, Moved(s, o, holder), o.events);
    if AwaitsFinal(s.responder.stage) {
      ApplyKeepsSeen(m, s.session, a, s.responder.key);
    }
    hide Apply, Known, HandleAll, Gated, ReleaseSeen;
  }

  /** Nothing let out, nothing taken in, nothing handed over. */
  predicate SameOutput(s: Sys, s': Sys) {
    && s'.past.(log := s.past.log) == s.past && s'.answers == s.answers && s'.shared.outStop == s.shared.outStop
    && s'.recognizer.key == s.recognizer.key
    && (BeforeHandOver(s'.recognizer.stage) ==> BeforeHandOver(s.recognizer.stage))
    && (BeforeTranscript(s'.recognizer.stage) ==> BeforeTranscript(s.recognizer.stage))
    && s'.responder.key == s.responder.key
    && (Responding(s'.responder.stage) ==> Responding(s.responder.stage))
    && (BeforeCreated(s'.responder.stage) ==> BeforeCreated(s.responder.stage))
    && OpenResponse(s'.responder) == OpenResponse(s.responder)
  }

  lemma SameOutputKeeps(s: Sys, s': Sys)
    requires SameOutput(s, s') && JobsInOrder(s) && RecognizerEmits(s) && ResponderEmits(s) && Bracketed(s)
    ensures JobsInOrder(s') && RecognizerEmits(s') && ResponderEmits(s') && Bracketed(s')
  {
  }

  // ------------------------------------------------------------ the reader

  lemma HearKeepsInv(m: Setup, s: Sys, w: Audio)
    requires m.Valid() && Inv(s) && CanRead(m, s, HearOne(w))
    ensures Inv(Read(m, s, HearOne(w)))
  {
    var s' := Read(m, s, HearOne(w));
    assert s' == Moved(s, Apply(m, s.session, Window(w)), Reader);
    MovedIsKnown(m, s, Window(w), Reader);
    MovedKeepsGate(m, s, Window(w), Reader);
    ReadKeepsLocked(m, s, HearOne(w));
    ReadKeepsVoided(m, s, HearOne(w));
    ReadKeepsHonest(m, s, HearOne(w));
    ReadKeepsNotified(m, s, HearOne(w));
    assert SameOutput(s, s') by {
      hide Apply, Hear, HandleAll, Inv;
    }
    SameOutputKeeps(s, s');
    hide Read, Moved, Apply, Locked, Floor, Known, TurnsInOrder, SaysSpeech, JobsInOrder, Voided, SameOutput;
    hide RecognizerEmits, ResponderEmits, Bracketed, Honest, Gated, Freed, Notified;
  }

  /** The reader between two pushes moves the session at most silently. */
  /** What a move of the reader may do to the session, windows aside. */
  function ReadAct(s: Sys, move: ReaderMove): Act {
    if move.NewParams? then SetParams(move.params) else SetSpeaking(s.shared.speaking)
  }

  lemma ReadMoves(m: Setup, s: Sys, move: ReaderMove)
    requires m.Valid() && CanRead(m, s, move) && !move.HearOne?
    ensures var s' := Read(m, s, move);
            var o := Apply(m, s.session, ReadAct(s, move));
            && (s'.session == s.session || s'.session == o.state) && o.events == []
            && s'.past.log == s.past.log && s'.ops == s.ops && s'.responder.key == s.responder.key
            && s'.shared.open == s.shared.open && s'.shared.finalTurn == s.shared.finalTurn
            && AwaitsFinal(s'.responder.stage) == AwaitsFinal(s.responder.stage)
  {
    hide LimitsOf, LookbackCapacity;
  }

  lemma ReadKeepsKnown(m: Setup, s: Sys, move: ReaderMove)
    requires m.Valid() && Known(s) && Freed(s) && CanRead(m, s, move) && !move.HearOne?
    ensures var s' := Read(m, s, move); Known(s') && Freed(s')
  {
    hide Read, Apply, Timed, Traced, Sound, DeliveredTo, ReleaseSeen, AwaitsFinal;
    ReadMoves(m, s, move);
    var a := ReadAct(s, move);
    TimedMeans(s.session, s.past.log);
    ApplyTimed(m, s.session, s.past.log, a);
    assert s.past.log + [] == s.past.log;
    if AwaitsFinal(s.responder.stage) {
      ApplyKeepsSeen(m, s.session, a, s.responder.key);
    }
  }

  lemma ReadAlone(m: Setup, s: Sys, move: ReaderMove)
    requires m.Valid() && CanRead(m, s, move) && !move.HearOne?
    ensures var s' := Read(m, s, move);
            && s'.past == s.past && s'.queue == s.queue && s'.answers == s.answers && s'.ops == s.ops
            && s'.recognizer == s.recognizer && s'.responder.key == s.responder.key
            && (s'.responder.stage == s.responder.stage
                || (s.responder.stage == Asleep && s'.responder.stage == AtGate))
            && s'.shared.gated == s.shared.gated && s'.shared.answer == s.shared.answer
            && s'.shared.outStop == s.shared.outStop
  {
  }

  lemma ReadKeepsInv(m: Setup, s: Sys, move: ReaderMove)
    requires m.Valid() && Inv(s) && CanRead(m, s, move)
    ensures Inv(Read(m, s, move))
  {
    if move.HearOne? {
      HearKeepsInv(m, s, move.w);
    } else {
      BetweenPushesKeepsInv(m, s, move);
    }
    hide Read, Inv;
  }

  lemma BetweenPushesKeepsInv(m: Setup, s: Sys, move: ReaderMove)
    requires m.Valid() && Inv(s) && CanRead(m, s, move) && !move.HearOne?
    ensures Inv(Read(m, s, move))
  {
    hide Read, Locked, Floor, Known, SaysSpeech, JobsInOrder, RecognizerEmits, ResponderEmits, Bracketed, Voided;
    hide Honest, Freed, Notified, VoicesAreFinal, Has, CanRead, QueuedBy, CommitKeys;
    ReadAlone(m, s, move);
    ReadKeepsKnown(m, s, move);
    ReadKeepsLocked(m, s, move);
    ReadKeepsVoided(m, s, move);
    ReadKeepsHonest(m, s, move);
    ReadKeepsNotified(m, s, move);
    SameOutputKeeps(s, Read(m, s, move));
  }

  // ------------------------------------------------------------ the recognizer

  lemma GiveUpKeepsVoided(s: Sys, heard: bool)
    requires Voided(s.shared, s.ops, s.responder.stage) && s.recognizer.stage == GiveUp && CanRecognize(s)
    ensures var s' := Recognize(s, heard); Voided(s'.shared, s'.ops, s'.responder.stage)
  {
    HandlersAreWhole(Release(s.session, s.recognizer.key.turn, s.recognizer.key.revision).events);
    hide Release, HandleAll, Outdated;
  }

  /** Giving up is a release in the name of the recognizer. */
  lemma GiveUpIsMove(m: Setup, s: Sys, heard: bool)
    requires m.Valid() && CanRecognize(s) && s.recognizer.stage == GiveUp
    ensures var k := s.recognizer.key;
            var moved := Moved(s, Apply(m, s.session, Free(k.turn, k.revision)), Recognizer);
            Recognize(s, heard) == moved.(recognizer := RecognizerAt(GivingUp, k))
    ensures SameOutput(s, Recognize(s, heard))
  {
  }

  lemma GiveUpKeepsKnown(m: Setup, s: Sys, heard: bool)
    requires m.Valid() && Known(s) && TurnsInOrder(s) && s.ops == [] && Gated(s) && Freed(s)
    requires CanRecognize(s) && s.recognizer.stage == GiveUp
    ensures var s' := Recognize(s, heard);
            Known(s') && TurnsInOrder(s') && SaysSpeech(s'.ops) && Gated(s') && Freed(s')
  {
    var a := Free(s.recognizer.key.turn, s.recognizer.key.revision);
    GiveUpIsMove(m, s, heard);
    assert Recognizing(GiveUp);
    hide Recognize, CanRecognize, Apply, HandleAll, Timed, SaysSpeech, ReleaseSeen, VoicesAreFinal, Has, DeliveredTo;
    hide CommitKeys, QueuedBy, SameOutput, Moved;
    MovedIsKnown(m, s, a, Recognizer);
    MovedKeepsGate(m, s, a, Recognizer);
    SameButRecognizer(s, Moved(s, Apply(m, s.session, a), Recognizer), GivingUp);
  }

  lemma SameButRecognizer(s: Sys, s': Sys, stage: RecognizerStage)
    requires TurnsInOrder(s) && Recognizing(s.recognizer.stage) && s'.recognizer == s.recognizer
    requires s'.past.taken == s.past.taken
    requires Known(s') && TurnsInOrder(s') && SaysSpeech(s'.ops) && Gated(s') && Freed(s')
    ensures var r := s'.(recognizer := RecognizerAt(stage, s.recognizer.key));
            Known(r) && TurnsInOrder(r) && SaysSpeech(r.ops) && Gated(r) && Freed(r)
  {
  }

  lemma NothingLeft(s: Sys)
    requires Locked(s)
    ensures s.owner == Nobody ==> s.ops == []
  {
  }

  lemma GiveUpKeepsInv(m: Setup, s: Sys, heard: bool)
    requires m.Valid() && Inv(s) && CanRecognize(s) && s.recognizer.stage == GiveUp
    ensures Inv(Recognize(s, heard))
  {
    hide Recognize, Moved, Apply, Locked, Floor, Known, TurnsInOrder, SaysSpeech, JobsInOrder;
    hide RecognizerEmits, ResponderEmits, Bracketed, Voided, Honest, Gated, Freed, Notified, SameOutput;
    NothingLeft(s);
    GiveUpIsMove(m, s, heard);
    GiveUpKeepsKnown(m, s, heard);
    GiveUpKeepsVoided(s, heard);
    RecognizeKeepsLocked(s, heard);
    RecognizeKeepsHonest(s, heard);
    RecognizeKeepsNotified(s, heard);
    SameOutputKeeps(s, Recognize(s, heard));
  }

  lemma RecognizerVoices(s: Sys, heard: bool)
    requires CanRecognize(s) && s.recognizer.stage != GiveUp && s.recognizer.stage != GivingUp
    ensures forall f :: f in Recognize(s, heard).past.frames && f.Voice? ==> f in s.past.frames
  {
  }

  lemma RecognizeKeepsInv(m: Setup, s: Sys, heard: bool)
    requires m.Valid() && Inv(s) && CanRecognize(s)
    ensures Inv(Recognize(s, heard))
  {
    if s.recognizer.stage == GiveUp {
      GiveUpKeepsInv(m, s, heard);
    } else {
      RecognizeKeepsLocked(s, heard);
      RecognizeKeepsHonest(s, heard);
      RecognizeKeepsNotified(s, heard);
      if s.recognizer.stage == GivingUp {
        GivesLockBack(s, heard);
        hide Recognize, Inv;
      } else {
        RecognizesAlone(s, heard);
        hide Recognize, Inv;
      }
    }
  }

  lemma GivesLockBack(s: Sys, heard: bool)
    requires Inv(s) && CanRecognize(s) && s.recognizer.stage == GivingUp
    requires var s' := Recognize(s, heard); Held(s') && Honest(s') && Notified(s')
    ensures Inv(Recognize(s, heard))
  {
    hide Locked, Floor, Timed, SaysSpeech, Emits, ResponsesOf, Outdated, Honest, Notified;
    hide TranscriptKeys, CreatedKeys, ReleaseSeen, VoicesAreFinal, Has, DeliveredTo, CommitKeys, QueuedBy;
  }

  lemma RecognizesAlone(s: Sys, heard: bool)
    requires Inv(s) && CanRecognize(s) && s.recognizer.stage != GiveUp && s.recognizer.stage != GivingUp
    requires var s' := Recognize(s, heard); Held(s') && Honest(s') && Notified(s')
    ensures Inv(Recognize(s, heard))
  {
    hide Recognize, Locked, Floor, Timed, SaysSpeech, TurnsInOrder, JobsInOrder, RecognizerEmits, ResponderEmits;
    hide Bracketed, Honest, Notified, ReleaseSeen, DeliveredTo, Gated, Outdated;
    TimedMeans(s.session, s.past.log);
    RecognizeAlone(s, heard);
    RecognizerVoices(s, heard);
    RecognizeKeepsOrder(s, heard);
    RecognizeKeepsBracketed(s, heard);
    assert s.past.log + [] == s.past.log;
    QuietKeepsGated(s, Recognize(s, heard), []);
  }

  // ------------------------------------------------------------ the responder

  predicate AtRelease(stage: ResponderStage) {
    stage == ReleaseForGate || stage == ReleaseAtEnd
  }

  function ReleasingFrom(stage: ResponderStage): ResponderStage {
    if stage == ReleaseForGate then ReleasingForGate else ReleasingAtEnd
  }

  lemma ReleaseIsMove(m: Setup, s: Sys, choice: Choice)
    requires m.Valid() && CanRespond(s) && AtRelease(s.responder.stage)
    ensures var k := s.responder.key;
            var moved := Moved(s, Apply(m, s.session, Free(k.turn, k.revision)), Responder);
            Respond(s, choice) == moved.(responder := ResponderAt(ReleasingFrom(s.responder.stage), k))
    ensures SameOutput(s, Respond(s, choice))
  {
    hide HandleAll, Release;
  }

  lemma ReleaseKeepsKnown(m: Setup, s: Sys, choice: Choice)
    requires m.Valid() && Known(s) && TurnsInOrder(s) && s.ops == [] && Gated(s) && Freed(s)
    requires CanRespond(s) && AtRelease(s.responder.stage)
    ensures var s' := Respond(s, choice);
            Known(s') && TurnsInOrder(s') && SaysSpeech(s'.ops) && Gated(s')
  {
    var a := Free(s.responder.key.turn, s.responder.key.revision);
    ReleaseIsMove(m, s, choice);
    MovedIsKnown(m, s, a, Responder);
    MovedKeepsGate(m, s, a, Responder);
    hide Respond, CanRespond, Apply, HandleAll, Timed, SaysSpeech, ReleaseSeen, Has, DeliveredTo, CommitKeys;
    hide QueuedBy, SameOutput;
  }

  lemma ReleaseFrees(s: Sys, choice: Choice)
    requires Inv(s) && CanRespond(s) && AtRelease(s.responder.stage)
    ensures Freed(Respond(s, choice))
  {
    var k := s.responder.key;
    TimedMeans(s.session, s.past.log);
    AnswerWasCommitted(s);
    ReleaseIsSeen(s.session, s.past.log, k);
    hide Release, HandleAll, Inv, ReleaseSeen, Has;
  }

  lemma JobsIncrease(s: Sys)
    requires RecognizerEmits(s)
    ensures Increasing(s.past.jobs)
  {
  }

  lemma ReleaseKeepsInv(m: Setup, s: Sys, choice: Choice)
    requires m.Valid() && Inv(s) && CanRespond(s) && AtRelease(s.responder.stage)
    ensures Inv(Respond(s, choice))
  {
    hide Respond, Moved, Apply, Locked, Floor, Known, TurnsInOrder, SaysSpeech, JobsInOrder;
    hide RecognizerEmits, ResponderEmits, Bracketed, Voided, Honest, Gated, Freed, Notified, SameOutput;
    NothingLeft(s);
    JobsIncrease(s);
    ReleaseFrees(s, choice);
    ReleaseIsMove(m, s, choice);
    ReleaseKeepsKnown(m, s, choice);
    RespondKeepsVoided(s, choice);
    RespondKeepsLocked(s, choice);
    RespondKeepsOrder(s, choice);
    RespondKeepsHonest(s, choice);
    RespondKeepsNotified(s, choice);
    SameOutputKeeps(s, Respond(s, choice));
  }

  lemma LockFreed(s: Sys, choice: Choice)
    requires CanRespond(s) && ReleasesSession(s) && !AtRelease(s.responder.stage)
    ensures var s' := Respond(s, choice);
            && SessionAlone(s, s'.(owner := s.owner)) && s'.past == s.past && s'.queue == s.queue
            && s'.recognizer == s.recognizer && s'.shared == s.shared && s'.answers == s.answers
            && s'.responder.key == s.responder.key && SameOutput(s, s')
            && (s'.responder.stage == AtGate ==> s.responder.stage == ReleasingForGate)
            && s'.responder.stage != ReleasingForGate && s'.responder.stage != Asleep
  {
  }

  lemma LockFreedKeepsInv(s: Sys, choice: Choice)
    requires Inv(s) && CanRespond(s) && ReleasesSession(s) && !AtRelease(s.responder.stage)
    ensures Inv(Respond(s, choice))
  {
    LockFreed(s, choice);
    RespondKeepsOrder(s, choice);
    RespondKeepsVoided(s, choice);
    RespondKeepsLocked(s, choice);
    RespondKeepsHonest(s, choice);
    RespondKeepsNotified(s, choice);
    SameOutputKeeps(s, Respond(s, choice));
    hide Respond, CanRespond, Locked, Floor, Timed, DeliveredTo, SaysSpeech, JobsInOrder, Has, ReleaseSeen;
    hide RecognizerEmits, ResponderEmits, Bracketed, Voided, Honest, Notified, SameOutput, QueuedBy, CommitKeys;
    hide VoicesAreFinal;
  }

  lemma RespondFreed(s: Sys, choice: Choice)
    requires Freed(s) && CanRespond(s) && !ReleasesSession(s)
    ensures Freed(Respond(s, choice))
  {
  }

  lemma RespondAloneKeepsOrder(s: Sys, choice: Choice)
    requires Known(s) && Queued(s) && CanRespond(s) && !ReleasesSession(s)
    ensures Known(Respond(s, choice)) && Queued(Respond(s, choice))
  {
    RespondAlone(s, choice);
    RespondKeepsOrder(s, choice);
    RespondFrames(s, choice);
    hide Respond, CanRespond, Timed, DeliveredTo, SaysSpeech, JobsInOrder, ResponderEmits, Emits;
    hide QueuedBy, CommitKeys, TranscriptKeys;
  }

  lemma RespondAloneKeepsInv(s: Sys, choice: Choice)
    requires Inv(s) && CanRespond(s) && !ReleasesSession(s)
    ensures Inv(Respond(s, choice))
  {
    hide Respond, CanRespond, Locked, Floor, Timed, Delivered, TurnsInOrder, JobsInOrder, RecognizerEmits;
    hide ResponderEmits, SaysSpeech, Bracketed, Voided, Honest, Notified, Gated, Freed;
    TimedMeans(s.session, s.past.log);
    JobsIncrease(s);
    RespondAloneKeepsOrder(s, choice);
    RespondKeepsGated(s, choice);
    RespondFreed(s, choice);
    RespondKeepsBracketed(s, choice);
    RespondKeepsVoided(s, choice);
    RespondKeepsLocked(s, choice);
    RespondKeepsHonest(s, choice);
    RespondKeepsNotified(s, choice);
  }

  lemma RespondKeepsInv(m: Setup, s: Sys, choice: Choice)
    requires m.Valid() && Inv(s) && CanRespond(s)
    ensures Inv(Respond(s, choice))
  {
    hide Inv, Respond;
    if !ReleasesSession(s) {
      RespondAloneKeepsInv(s, choice);
    } else if AtRelease(s.responder.stage) {
      ReleaseKeepsInv(m, s, choice);
    } else {
      LockFreedKeepsInv(s, choice);
    }
  }

  // ------------------------------------------------------------ the writer

  lemma WriteAlone(s: Sys)
    requires CanWrite(s)
    ensures var s' := Write(s);
            && SessionAlone(s, s') && s'.past == s.past && s'.queue == s.queue && s'.answers == s.answers
            && s'.recognizer == s.recognizer && s'.responder.key == s.responder.key
            && (s'.responder.stage == s.responder.stage
                || (s.responder.stage == Asleep && s'.responder.stage == AtGate))
            && s'.shared.gated == s.shared.gated && s'.shared.answer == s.shared.answer
            && (s.shared.outStop ==> s'.shared.outStop)
  {
  }

  lemma WriteKeepsInv(s: Sys)
    requires Inv(s) && CanWrite(s)
    ensures Inv(Write(s))
  {
    hide Write, CanWrite, Locked, Floor, Timed, DeliveredTo, SaysSpeech, Emits, QueuedBy, CommitKeys, Voided;
    hide Honest, Notified, ReleaseSeen, VoicesAreFinal, Has, TranscriptKeys, CreatedKeys, ResponsesOf;
    WriteAlone(s);
    WriteKeepsVoided(s);
    WriteKeepsLocked(s);
    WriteKeepsHonest(s);
    WriteKeepsNotified(s);
  }

  // ------------------------------------------------------------ every run

  lemma NotedKeepsInv(s: Sys)
    requires Inv(s)
    ensures Inv(Noted(s))
  {
    NotedKeepsHonest(s);
    hide Locked, Floor, Timed, DeliveredTo, SaysSpeech, Emits, QueuedBy, CommitKeys, Voided;
    hide Honest, Notified, ReleaseSeen, VoicesAreFinal, Has, TranscriptKeys, CreatedKeys, ResponsesOf, Outdated;
  }

  lemma NextKeepsInv(m: Setup, s: Sys, step: Step)
    requires m.Valid() && Inv(s) && Enabled(m, s, step)
    ensures Inv(Next(m, s, step))
  {
    hide Inv, Deliver, Read, Recognize, Respond, Write, Noted, CanDeliver, CanRead, CanRecognize, CanRespond, CanWrite;
    match step {
      case DeliverOne => DeliverKeepsInv(s);
      case ReaderStep(move) => ReadKeepsInv(m, s, move);
      case RecognizerStep(heard) => RecognizeKeepsInv(m, s, heard);
      case ResponderStep(choice) => RespondKeepsInv(m, s, choice);
      case WriterStep => WriteKeepsInv(s);
    }
    NotedKeepsInv(Take(m, s, step));
  }

  lemma StartKnown(m: Setup, p: Params, vad: VadState)
    requires m.Valid()
    ensures Known(Start(m, p, vad))
  {
  }

  lemma StartQueued(m: Setup, p: Params, vad: VadState)
    requires m.Valid()
    ensures Queued(Start(m, p, vad))
  {
  }

  lemma StartHeld(m: Setup, p: Params, vad: VadState)
    requires m.Valid()
    ensures var s := Start(m, p, vad); Held(s) && FloorKept(s)
  {
  }

  lemma StartGate(m: Setup, p: Params, vad: VadState)
    requires m.Valid()
    ensures GateKept(Start(m, p, vad))
  {
  }

  lemma StartHolds(m: Setup, p: Params, vad: VadState)
    requires m.Valid()
    ensures Inv(Start(m, p, vad))
  {
    hide Start, Known, Queued, Held, FloorKept, GateKept;
    StartKnown(m, p, vad);
    StartQueued(m, p, vad);
    StartHeld(m, p, vad);
    StartGate(m, p, vad);
  }

  /** In every interleaving, the invariants hold after every step. */
  lemma {:induction false} EveryRunKeepsInv(m: Setup, p: Params, vad: VadState, run: Run, n: nat)
    requires m.Valid() && IsRun(m, p, vad, run) && n < |run.states|
    ensures Inv(run.states[n])
  {
    hide Inv, Next, Enabled, Start;
    if n == 0 {
      StartHolds(m, p, vad);
    } else {
      EveryRunKeepsInv(m, p, vad, run, n - 1);
      NextKeepsInv(m, run.states[n - 1], run.steps[n - 1]);
    }
  }
}
