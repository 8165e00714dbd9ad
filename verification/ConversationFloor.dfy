/** The floor: an answer that is overtaken while it holds it is cancelled, and
    the client sees one response at a time, opened once and closed once. */
module ConversationFloor {
  import opened Session
  import opened SessionTrace
  import opened Conversation
  import opened ConversationInvariants
  import opened ConversationQueues

  // ------------------------------------------------------- responses

  /** Which response is open after these frames; None when they do not form
      one response after the other, each opened once and closed once. */
  datatype Responses = Broken | Between | Inside(key: Key)

  function AfterFrame(r: Responses, f: Frame): Responses {
    match f
    case Created(k) => if r.Between? then Inside(k) else Broken
    case Voice(k) => if r == Inside(k) then r else Broken
    case Done(k) => if r == Inside(k) then Between else Broken
    case Cancelled(k) => if r == Inside(k) then Between else Broken
    case _ => r
  }

  function ResponsesOf(frames: seq<Frame>): Responses {
    if frames == [] then Between
    else AfterFrame(ResponsesOf(frames[..|frames| - 1]), frames[|frames| - 1])
  }

  predicate InResponse(stage: ResponderStage) {
    (OnFloor(stage) && stage != SendCreated) || stage == SendTerminal
  }

  function OpenResponse(r: ResponderAt): Responses {
    if InResponse(r.stage) then Inside(r.key) else Between
  }

  /** Until the client is gone, the open response is the one being answered. */
  predicate Bracketed(s: Sys) {
    && ResponsesOf(s.past.frames) != Broken
    && (s.shared.outStop || ResponsesOf(s.past.frames) == OpenResponse(s.responder))
  }

  lemma AfterOne(frames: seq<Frame>, f: Frame)
    ensures ResponsesOf(frames + [f]) == AfterFrame(ResponsesOf(frames), f)
  {
  }

  lemma DeliverKeepsBracketed(s: Sys)
    requires Bracketed(s) && SaysSpeech(s.ops) && CanDeliver(s)
    ensures Bracketed(Deliver(s))
  {
    hide Deliver, ResponsesOf;
    DeliverAlone(s);
    DeliverLets(s);
    AfterOne(s.past.frames, SpeechFrame);
    assert s.ops[0] in s.ops;
  }

  lemma RecognizeKeepsBracketed(s: Sys, heard: bool)
    requires Bracketed(s) && CanRecognize(s)
    requires s.recognizer.stage != GiveUp && s.recognizer.stage != GivingUp
    ensures Bracketed(Recognize(s, heard))
  {
  }

  /** The frame a move of the responder lets out, if the client is there. */
  function Lets(s: Sys, choice: Choice): seq<Frame> {
    var k := s.responder.key;
    match s.responder.stage
    case SendCreated => [Created(k)]
    case Work => if choice.SpeakNext? && s.shared.gated then [Voice(k)] else []
    case SendTerminal => [if s.shared.cancel then Cancelled(k) else Done(k)]
    case _ => []
  }

  lemma RespondLets(s: Sys, choice: Choice)
    requires CanRespond(s)
    ensures Respond(s, choice).past.frames
         == s.past.frames + (if s.shared.outStop then [] else Lets(s, choice))
    ensures Respond(s, choice).shared.outStop == s.shared.outStop
  {
  }

  lemma RespondOpens(s: Sys, choice: Choice)
    requires CanRespond(s)
    ensures var r := Respond(s, choice).responder;
            if Lets(s, choice) == [] then OpenResponse(r) == OpenResponse(s.responder)
            else OpenResponse(r) == AfterFrame(OpenResponse(s.responder), Lets(s, choice)[0])
  {
    hide Release, HandleAll, Wakes, Outdated;
    match s.responder.stage {
      case AwaitJob =>
      case SendCreated =>
      case Work =>
      case SendTerminal =>
      case _ =>
    }
  }

  lemma OpenIsWhole(r: ResponderAt)
    ensures OpenResponse(r) != Broken
  {
  }

  lemma RespondKeepsBracketed(s: Sys, choice: Choice)
    requires Bracketed(s) && CanRespond(s)
    ensures Bracketed(Respond(s, choice))
  {
    RespondLets(s, choice);
    RespondOpens(s, choice);
    OpenIsWhole(Respond(s, choice).responder);
    var lets := Lets(s, choice);
    assert s.past.frames + [] == s.past.frames;
    if lets != [] {
      AfterOne(s.past.frames, lets[0]);
      assert lets == [lets[0]];
    }
    hide ResponsesOf, AfterFrame, Respond, Lets, OpenResponse;
  }

  // ------------------------------------------------------- overtaken

  /** From here the terminal frame of this answer has been decided. */
  predicate Closing(stage: ResponderStage) {
    stage == SendTerminal || stage == ReleaseAtEnd
  }

  /** An answer overtaken on the floor is cancelled, and a store left to the
      section that overtook it still finds the same answer in flight. */
  predicate Voided(c: Shared, ops: seq<Op>, stage: ResponderStage) {
    && (c.speaking && !c.turnLock && Outdated(c) ==> c.cancel)
    && (ops != [] && ops[0].StoreVoid? ==>
          && (c.speaking && Outdated(c) ==> c.cancel || ops[0].void)
          && (ops[0].void ==> OnFloor(stage) || Closing(stage)))
  }

  lemma StoreKeepsVoided(s: Sys)
    requires Voided(s.shared, s.ops, s.responder.stage) && Locked(s) && Floor(s) && CanDeliver(s)
    requires s.ops[0].StoreVoid?
    ensures var s' := Deliver(s); Voided(s'.shared, s'.ops, s'.responder.stage)
  {
  }

  lemma OpenedKeepsVoided(s: Sys)
    requires Voided(s.shared, s.ops, s.responder.stage) && Floor(s) && CanDeliver(s) && s.ops[0].Opened?
    ensures var s' := Deliver(s); Voided(s'.shared, s'.ops, s'.responder.stage)
  {
    hide Before;
  }

  /** The other events move no answer and no opening, and lower no cancel. */
  lemma DeliverQuietly(s: Sys)
    requires CanDeliver(s) && !s.ops[0].Opened? && !s.ops[0].StoreVoid?
    ensures var c, d := s.shared, Deliver(s).shared;
            && Deliver(s).ops == s.ops[1..] && d.turnLock == c.turnLock && d.speaking == c.speaking
            && d.answer == c.answer && d.open == c.open && (c.cancel ==> d.cancel)
  {
    hide Outdated, Before, TakesTurnLock;
    match s.ops[0] {
      case Say(_) =>
      case Finalled(_) =>
      case _ =>
    }
  }

  lemma QuietKeepsVoided(s: Sys)
    requires Voided(s.shared, s.ops, s.responder.stage) && Locked(s) && CanDeliver(s)
    requires !s.ops[0].Opened? && !s.ops[0].StoreVoid?
    ensures var s' := Deliver(s); Voided(s'.shared, s'.ops, s'.responder.stage)
  {
    hide Deliver, Before;
    DeliverQuietly(s);
    RestShape(s.ops, s.shared.turnLock);
    assert s.ops[1..] != [] ==> !s.ops[1..][0].StoreVoid?;
  }

  lemma DeliverKeepsVoided(s: Sys)
    requires Voided(s.shared, s.ops, s.responder.stage) && Locked(s) && Floor(s) && CanDeliver(s)
    ensures var s' := Deliver(s); Voided(s'.shared, s'.ops, s'.responder.stage)
  {
    hide Locked, Floor, Deliver, Voided;
    if s.ops[0].StoreVoid? {
      StoreKeepsVoided(s);
    } else if s.ops[0].Opened? {
      OpenedKeepsVoided(s);
    } else {
      QuietKeepsVoided(s);
    }
  }

  lemma ReadKeepsVoided(m: Setup, s: Sys, move: ReaderMove)
    requires Voided(s.shared, s.ops, s.responder.stage) && m.Valid() && CanRead(m, s, move)
    ensures var s' := Read(m, s, move); Voided(s'.shared, s'.ops, s'.responder.stage)
  {
    if move.HearOne? {
      HandlersAreWhole(Hear(m, s.session, move.w).events);
    }
    hide Hear, HandleAll, OpsShape;
  }

  lemma ReleaseKeepsVoided(s: Sys, choice: Choice)
    requires Voided(s.shared, s.ops, s.responder.stage) && Locked(s) && Floor(s)
    requires CanRespond(s) && ReleasesSession(s)
    ensures var s' := Respond(s, choice); Voided(s'.shared, s'.ops, s'.responder.stage)
  {
    var o := Release(s.session, s.responder.key.turn, s.responder.key.revision);
    HandlersAreWhole(o.events);
    assert HandleAll(o.events) != [] ==> HandleAll(o.events)[0] in HandleAll(o.events);
    hide Release, HandleAll, OpsShape, Outdated, Floor;
  }

  lemma RespondKeepsVoided(s: Sys, choice: Choice)
    requires Voided(s.shared, s.ops, s.responder.stage) && Locked(s) && Floor(s) && CanRespond(s)
    ensures var s' := Respond(s, choice); Voided(s'.shared, s'.ops, s'.responder.stage)
  {
    if ReleasesSession(s) {
      ReleaseKeepsVoided(s, choice);
    } else {
      RespondAlone(s, choice);
      assert s.shared.turnLock <==> s.ops != [] && s.ops[0].StoreVoid?;
      hide OpsShape, Locked, Release, HandleAll, Before;
    }
  }

  lemma WriteKeepsVoided(s: Sys)
    requires Voided(s.shared, s.ops, s.responder.stage) && CanWrite(s)
    ensures var s' := Write(s); Voided(s'.shared, s'.ops, s'.responder.stage)
  {
  }

  predicate Unfinished(stage: ResponderStage) {
    Responding(stage) && stage != ReleaseAtEnd && stage != ReleasingAtEnd
  }

  predicate Unpublished(stage: ResponderStage) {
    stage == Begin || stage == LowerCancel || stage == Publish
  }

  /** Every answer noted as overtaken stays cancelled to its end. */
  predicate Overtaken(over: set<Key>, started: seq<Key>, answer: Key, cancel: bool, r: ResponderAt) {
    && (forall k :: k in over ==> k in started)
    && (Unpublished(r.stage) ==> r.key !in over)
    && (answer in over && (OnFloor(r.stage) || r.stage == SendTerminal) ==> cancel)
  }

  predicate DoneKept(frames: seq<Frame>, over: set<Key>, started: seq<Key>, r: ResponderAt) {
    forall f :: f in frames && f.Done? ==>
      f.key in started && f.key !in over && (Unfinished(r.stage) ==> f.key != r.key)
  }

  predicate Honest(s: Sys) {
    && Overtaken(s.past.overtaken, s.past.started, s.shared.answer, s.shared.cancel, s.responder)
    && DoneKept(s.past.frames, s.past.overtaken, s.past.started, s.responder)
  }

  /** Whoever looks at the floor with the turn lock free finds it honest. */
  lemma NotedKeepsHonest(s: Sys)
    requires Honest(s) && Voided(s.shared, s.ops, s.responder.stage) && Floor(s) && JobsInOrder(s)
    ensures Honest(Noted(s))
  {
  }

  /** Handling an event closes no answer and lowers no cancel. */
  lemma DeliverSays(s: Sys)
    requires SaysSpeech(s.ops) && CanDeliver(s)
    ensures var s' := Deliver(s);
            && (s.shared.cancel ==> s'.shared.cancel)
            && (forall f :: f in s'.past.frames && f.Done? ==> f in s.past.frames)
  {
    hide Outdated;
    assert s.ops[0] in s.ops;
    match s.ops[0] {
      case Say(f) => assert !f.Done?;
      case _ =>
    }
  }

  lemma DeliverKeepsHonest(s: Sys)
    requires Honest(s) && SaysSpeech(s.ops) && CanDeliver(s)
    ensures Honest(Deliver(s))
  {
    hide Deliver;
    DeliverAlone(s);
    DeliverSays(s);
  }

  lemma ReadKeepsHonest(m: Setup, s: Sys, move: ReaderMove)
    requires Honest(s) && m.Valid() && CanRead(m, s, move)
    ensures Honest(Read(m, s, move))
  {
  }

  lemma RecognizeKeepsHonest(s: Sys, heard: bool)
    requires Honest(s) && CanRecognize(s)
    ensures Honest(Recognize(s, heard))
  {
  }

  lemma TakeJobKeepsHonest(s: Sys)
    requires Honest(s) && JobsInOrder(s) && Increasing(s.past.jobs)
    requires s.responder.stage == AwaitJob && s.answers != [] && !s.shared.stop
    ensures Honest(Respond(s, SpeakNext))
  {
    var k := s.answers[0];
    assert s.past.jobs[|s.past.started|] == k;
    forall k' | k' in s.past.started
      ensures k' != k
    {
      var i :| 0 <= i < |s.past.started| && s.past.started[i] == k';
      assert s.past.jobs[i] == k';
    }
  }

  lemma RespondKeepsOvertaken(s: Sys, choice: Choice)
    requires Honest(s) && CanRespond(s) && (s.responder.stage == AwaitJob ==> s.shared.stop)
    ensures var s' := Respond(s, choice);
            Overtaken(s'.past.overtaken, s'.past.started, s'.shared.answer, s'.shared.cancel, s'.responder)
  {
    hide Release, HandleAll, DoneKept, Outdated, Before, TakesTurnLock;
  }

  lemma RespondKeepsDone(s: Sys, choice: Choice)
    requires Honest(s) && Floor(s) && JobsInOrder(s) && CanRespond(s)
    requires s.responder.stage == AwaitJob ==> s.shared.stop
    ensures var s' := Respond(s, choice);
            DoneKept(s'.past.frames, s'.past.overtaken, s'.past.started, s'.responder)
  {
    RespondStays(s, choice);
    RespondLets(s, choice);
    UnfinishedBefore(s, choice);
    assert Responding(s.responder.stage) ==> s.responder.key in s.past.started;
    hide Respond;
  }

  lemma UnfinishedBefore(s: Sys, choice: Choice)
    requires CanRespond(s) && (s.responder.stage == AwaitJob ==> s.shared.stop)
    ensures var s' := Respond(s, choice);
            && (Unfinished(s'.responder.stage) ==> Unfinished(s.responder.stage) && s.responder.stage != SendTerminal)
            && s'.past.overtaken == s.past.overtaken
  {
  }

  lemma RespondKeepsHonest(s: Sys, choice: Choice)
    requires Honest(s) && Floor(s) && JobsInOrder(s) && Increasing(s.past.jobs) && CanRespond(s)
    ensures Honest(Respond(s, choice))
  {
    if s.responder.stage == AwaitJob && !s.shared.stop {
      TakeJobKeepsHonest(s);
      RespondIgnoresChoice(s, choice);
    } else {
      RespondKeepsOvertaken(s, choice);
      RespondKeepsDone(s, choice);
    }
    hide Respond;
  }

  lemma WriteKeepsHonest(s: Sys)
    requires Honest(s) && CanWrite(s)
    ensures Honest(Write(s))
  {
  }
}
