/** The two queues keep the order of the commits, from the session to the
    recognizer to the responder to the client. */
module ConversationQueues {
  import opened Session
  import opened SessionTrace
  import opened Conversation
  import opened ConversationInvariants

  function CommitKeys(log: seq<Event>): seq<Key> {
    if log == [] then []
    else
      var e := log[|log| - 1];
      CommitKeys(log[..|log| - 1]) + (if e.kind == TurnCommitted then [KeyOf(e)] else [])
  }

  /** The commits still to be queued by the handlers. */
  function QueuedBy(ops: seq<Op>): seq<Key> {
    if ops == [] then []
    else
      var op := ops[|ops| - 1];
      QueuedBy(ops[..|ops| - 1]) + (if op.Enqueue? then [op.key] else [])
  }

  function TranscriptKeys(frames: seq<Frame>): seq<Key> {
    if frames == [] then []
    else
      var f := frames[|frames| - 1];
      TranscriptKeys(frames[..|frames| - 1]) + (if f.Transcript? then [f.key] else [])
  }

  function CreatedKeys(frames: seq<Frame>): seq<Key> {
    if frames == [] then []
    else
      var f := frames[|frames| - 1];
      CreatedKeys(frames[..|frames| - 1]) + (if f.Created? then [f.key] else [])
  }

  predicate Increasing(keys: seq<Key>) {
    forall i, j :: 0 <= i < j < |keys| ==> Before(keys[i], keys[j])
  }

  predicate Within(part: seq<Key>, whole: seq<Key>) {
    forall k :: k in part ==> k in whole
  }

  predicate Recognizing(stage: RecognizerStage) {
    stage != AwaitTurn && stage != RecognizerDone
  }

  predicate Responding(stage: ResponderStage) {
    stage != AwaitJob && stage != ResponderDone
  }

  predicate LastIs(keys: seq<Key>, k: Key) {
    keys != [] && keys[|keys| - 1] == k
  }

  /** Nothing is lost, added or overtaken on the way to the recognizer. */
  predicate TurnsInOrder(s: Sys) {
    && s.past.taken + s.queue + QueuedBy(s.ops) == CommitKeys(s.past.log)
    && (Recognizing(s.recognizer.stage) ==> LastIs(s.past.taken, s.recognizer.key))
  }

  /** Nor on the way to the responder. */
  predicate JobsInOrder(s: Sys) {
    && s.past.started + s.answers == s.past.jobs
    && (Responding(s.responder.stage) ==> LastIs(s.past.started, s.responder.key))
  }

  predicate BeforeTranscript(stage: RecognizerStage) {
    stage == CheckRevised || stage == Transcribe || stage == SendTranscript
  }

  predicate BeforeHandOver(stage: RecognizerStage) {
    BeforeTranscript(stage) || stage == HandOver
  }

  predicate BeforeCreated(stage: ResponderStage) {
    stage == Begin || stage == LowerCancel || stage == Publish || stage == SendCreated
  }

  /** What a thread let out of what it took in: in order, each once, and not
      yet the one it is working on while `pending`. */
  predicate Emits(out: seq<Key>, source: seq<Key>, pending: bool, k: Key) {
    Increasing(out) && Within(out, source) && (pending ==> k !in out)
  }

  predicate RecognizerEmits(s: Sys) {
    && Emits(s.past.jobs, s.past.taken, BeforeHandOver(s.recognizer.stage), s.recognizer.key)
    && Emits(TranscriptKeys(s.past.frames), s.past.taken, BeforeTranscript(s.recognizer.stage), s.recognizer.key)
  }

  predicate ResponderEmits(s: Sys) {
    Emits(CreatedKeys(s.past.frames), s.past.started, BeforeCreated(s.responder.stage), s.responder.key)
  }

  predicate SaysSpeech(ops: seq<Op>) {
    forall op :: op in ops && op.Say? ==> op.frame == SpeechFrame
  }

  // ------------------------------------------------------------ projections

  lemma {:induction false} CommitKeysAppend(a: seq<Event>, b: seq<Event>)
    ensures CommitKeys(a + b) == CommitKeys(a) + CommitKeys(b)
  {
    if b == [] {
      assert a + b == a;
    } else {
      var before := b[..|b| - 1];
      assert (a + b)[..|a + b| - 1] == a + before;
      CommitKeysAppend(a, before);
    }
  }

  lemma {:induction false} QueuedByAppend(a: seq<Op>, b: seq<Op>)
    ensures QueuedBy(a + b) == QueuedBy(a) + QueuedBy(b)
  {
    if b == [] {
      assert a + b == a;
    } else {
      var before := b[..|b| - 1];
      assert (a + b)[..|a + b| - 1] == a + before;
      QueuedByAppend(a, before);
    }
  }

  lemma QueuedByOne(op: Op)
    ensures QueuedBy([op]) == if op.Enqueue? then [op.key] else []
  {
  }

  lemma HandleQueues(e: Event)
    ensures QueuedBy(Handle(e)) == if e.kind == TurnCommitted then [KeyOf(e)] else []
  {
    var ops := Handle(e);
    if |ops| == 1 {
      QueuedByOne(ops[0]);
      assert ops == [ops[0]];
    } else if |ops| == 2 {
      QueuedByAppend([ops[0]], [ops[1]]);
      QueuedByOne(ops[0]);
      QueuedByOne(ops[1]);
      assert ops == [ops[0]] + [ops[1]];
    }
  }

  lemma {:induction false} HandlersQueueCommits(events: seq<Event>)
    ensures QueuedBy(HandleAll(events)) == CommitKeys(events)
  {
    hide Handle, QueuedBy;
    if events != [] {
      var before := events[..|events| - 1];
      HandlersQueueCommits(before);
      QueuedByAppend(HandleAll(before), Handle(events[|events| - 1]));
      HandleQueues(events[|events| - 1]);
    } else {
      QueuedByNone();
    }
  }

  lemma QueuedByNone()
    ensures QueuedBy([]) == []
  {
  }

  lemma {:induction false} HandlersSaySpeech(events: seq<Event>)
    ensures SaysSpeech(HandleAll(events))
  {
    if events != [] {
      HandlersSaySpeech(events[..|events| - 1]);
      assert SaysSpeech(Handle(events[|events| - 1]));
    }
  }

  lemma {:induction false} CommitKeyHas(log: seq<Event>, k: Key)
    requires k in CommitKeys(log)
    ensures Has(log, TurnCommitted, k)
  {
    var n := |log| - 1;
    if log[n].kind == TurnCommitted && KeyOf(log[n]) == k {
    } else {
      CommitKeyHas(log[..n], k);
      var i :| 0 <= i < n && log[..n][i].kind == TurnCommitted && KeyOf(log[..n][i]) == k;
      assert log[i].kind == TurnCommitted && KeyOf(log[i]) == k;
    }
  }

  lemma {:induction false} CommitKeysIncrease(log: seq<Event>)
    requires CommitsAdvance(log)
    ensures Increasing(CommitKeys(log))
  {
    if log != [] {
      var n := |log| - 1;
      var before := log[..n];
      assert CommitsAdvance(before) by {
        assert forall i :: 0 <= i < n ==> before[i] == log[i];
      }
      CommitKeysIncrease(before);
      if log[n].kind == TurnCommitted {
        forall i | 0 <= i < |CommitKeys(before)|
          ensures Before(CommitKeys(before)[i], KeyOf(log[n]))
        {
          CommitKeyHas(before, CommitKeys(before)[i]);
        }
      }
    }
  }

  lemma FrameKeys(frames: seq<Frame>, f: Frame)
    ensures TranscriptKeys(frames + [f]) == TranscriptKeys(frames) + (if f.Transcript? then [f.key] else [])
    ensures CreatedKeys(frames + [f]) == CreatedKeys(frames) + (if f.Created? then [f.key] else [])
  {
  }

  // ------------------------------------------------------------ the steps

  lemma DeliverKeepsTurns(s: Sys)
    requires TurnsInOrder(s) && CanDeliver(s)
    ensures TurnsInOrder(Deliver(s))
  {
    DeliverAlone(s);
    DeliverMovesKeys(s);
    hide Deliver, QueuedBy, CommitKeys;
    assert s.past.taken + s.queue + QueuedBy(s.ops) == s.past.taken + (s.queue + QueuedBy(s.ops));
  }

  /** A key leaves the handlers as it enters the queue. */
  lemma DeliverMovesKeys(s: Sys)
    requires CanDeliver(s)
    ensures Deliver(s).queue + QueuedBy(Deliver(s).ops) == s.queue + QueuedBy(s.ops)
  {
    hide QueuedBy, Deliver;
    var op, rest := s.ops[0], s.ops[1..];
    assert s.ops == [op] + rest;
    QueuedByAppend([op], rest);
    QueuedByOne(op);
    DeliverLets(s);
    DeliverQueues(s);
    if Deliver(s).ops != rest {
      var more := Deliver(s).ops[0];
      assert Deliver(s).ops == [more] + rest;
      QueuedByAppend([more], rest);
      QueuedByOne(more);
    }
  }

  lemma DeliverQueues(s: Sys)
    requires CanDeliver(s)
    ensures Deliver(s).queue == s.queue + (if s.ops[0].Enqueue? then [s.ops[0].key] else [])
    ensures Deliver(s).ops != s.ops[1..] ==> s.ops[0].Opened?
  {
  }

  lemma DeliverLets(s: Sys)
    requires CanDeliver(s)
    ensures var frames := Deliver(s).past.frames;
            frames == s.past.frames || (s.ops[0].Say? && frames == s.past.frames + [s.ops[0].frame])
    ensures var ops := Deliver(s).ops;
            ops == s.ops[1..] || (|ops| == |s.ops| && ops[0].StoreVoid? && ops[1..] == s.ops[1..])
  {
  }

  lemma DeliverKeepsFrames(s: Sys)
    requires SaysSpeech(s.ops) && CanDeliver(s)
    ensures SaysSpeech(Deliver(s).ops)
    ensures TranscriptKeys(Deliver(s).past.frames) == TranscriptKeys(s.past.frames)
    ensures CreatedKeys(Deliver(s).past.frames) == CreatedKeys(s.past.frames)
  {
  }

  lemma DeliverKeepsEmits(s: Sys)
    requires RecognizerEmits(s) && ResponderEmits(s) && SaysSpeech(s.ops) && CanDeliver(s)
    ensures RecognizerEmits(Deliver(s)) && ResponderEmits(Deliver(s)) && SaysSpeech(Deliver(s).ops)
  {
    DeliverAlone(s);
    DeliverKeepsFrames(s);
    hide Deliver, TranscriptKeys, CreatedKeys, Emits;
    assert BeforeCreated(Deliver(s).responder.stage) == BeforeCreated(s.responder.stage);
  }

  lemma MovedKeepsTurns(s: Sys, o: Outcome, holder: Thread)
    requires TurnsInOrder(s) && s.ops == []
    ensures TurnsInOrder(Moved(s, o, holder)) && SaysSpeech(Moved(s, o, holder).ops)
  {
    HandlersQueueCommits(o.events);
    HandlersSaySpeech(o.events);
    CommitKeysAppend(s.past.log, o.events);
    QueuedByNone();
    hide HandleAll, CommitKeys, QueuedBy;
    assert s.past.taken + s.queue + [] == s.past.taken + s.queue;
  }

  lemma TakenInOrder(s: Sys)
    requires TurnsInOrder(s) && CommitsAdvance(s.past.log)
    ensures Increasing(s.past.taken) && Increasing(s.past.taken + s.queue)
    ensures forall k :: k in s.past.taken ==> Has(s.past.log, TurnCommitted, k)
  {
    CommitKeysIncrease(s.past.log);
    var all := CommitKeys(s.past.log);
    assert forall i :: 0 <= i < |s.past.taken + s.queue| ==> (s.past.taken + s.queue)[i] == all[i];
    assert forall i :: 0 <= i < |s.past.taken| ==> s.past.taken[i] == all[i];
    forall k | k in s.past.taken
      ensures Has(s.past.log, TurnCommitted, k)
    {
      CommitKeyHas(s.past.log, k);
    }
  }

  lemma EmitsOne(out: seq<Key>, source: seq<Key>, k: Key)
    requires Emits(out, source, true, k) && Increasing(source) && LastIs(source, k)
    ensures Emits(out + [k], source, false, k)
  {
    forall i | 0 <= i < |out|
      ensures Before(out[i], k)
    {
      assert out[i] in out;
      var j :| 0 <= j < |source| && source[j] == out[i];
    }
  }

  lemma EmitsNext(out: seq<Key>, source: seq<Key>, rest: seq<Key>, pending: bool, k: Key)
    requires Emits(out, source, pending, k) && Increasing(source + rest) && rest != []
    ensures Emits(out, source + [rest[0]], true, rest[0])
  {
    forall k' | k' in out
      ensures k' != rest[0]
    {
      var j :| 0 <= j < |source| && source[j] == k';
      assert (source + rest)[j] == k' && (source + rest)[|source|] == rest[0];
    }
  }

  lemma EmitsLess(out: seq<Key>, source: seq<Key>, pending: bool, k: Key, pending': bool)
    requires Emits(out, source, pending, k) && (pending' ==> pending)
    ensures Emits(out, source, pending', k)
  {
  }

  lemma TakeTurn(s: Sys)
    requires TurnsInOrder(s) && RecognizerEmits(s) && CommitsAdvance(s.past.log)
    requires s.recognizer.stage == AwaitTurn && s.queue != [] && !s.shared.stop
    ensures TurnsInOrder(Recognize(s, true)) && RecognizerEmits(Recognize(s, true))
  {
    TakenInOrder(s);
    EmitsNext(s.past.jobs, s.past.taken, s.queue, BeforeHandOver(AwaitTurn), s.recognizer.key);
    EmitsNext(TranscriptKeys(s.past.frames), s.past.taken, s.queue, BeforeTranscript(AwaitTurn), s.recognizer.key);
    hide CommitKeys, QueuedBy, TranscriptKeys, Emits, Increasing;
    assert s.past.taken + s.queue == s.past.taken + [s.queue[0]] + s.queue[1..];
  }

  lemma SendsTranscript(s: Sys)
    requires TurnsInOrder(s) && RecognizerEmits(s) && ResponderEmits(s) && CommitsAdvance(s.past.log)
    requires s.recognizer.stage == SendTranscript
    ensures RecognizerEmits(Recognize(s, true)) && ResponderEmits(Recognize(s, true))
  {
    TakenInOrder(s);
    EmitsOne(TranscriptKeys(s.past.frames), s.past.taken, s.recognizer.key);
    EmitsLess(TranscriptKeys(s.past.frames), s.past.taken, true, s.recognizer.key, false);
    FrameKeys(s.past.frames, Transcript(s.recognizer.key));
    hide TranscriptKeys, CreatedKeys, Emits;
    assert BeforeHandOver(SendTranscript) && BeforeHandOver(HandOver);
  }

  lemma HandsOverJob(s: Sys)
    requires TurnsInOrder(s) && JobsInOrder(s) && RecognizerEmits(s) && CommitsAdvance(s.past.log)
    requires s.recognizer.stage == HandOver
    ensures JobsInOrder(Recognize(s, true)) && RecognizerEmits(Recognize(s, true))
  {
    TakenInOrder(s);
    EmitsOne(s.past.jobs, s.past.taken, s.recognizer.key);
    hide TranscriptKeys, Emits;
    assert s.past.started + (s.answers + [s.recognizer.key]) == s.past.started + s.answers + [s.recognizer.key];
  }

  /** The other moves of the recognizer only give up what was pending. */
  lemma RecognizerMovesOn(s: Sys, heard: bool)
    requires TurnsInOrder(s) && RecognizerEmits(s) && CanRecognize(s)
    requires s.recognizer.stage == CheckRevised || s.recognizer.stage == Transcribe
          || (s.recognizer.stage == AwaitTurn && s.shared.stop)
    ensures TurnsInOrder(Recognize(s, heard)) && RecognizerEmits(Recognize(s, heard))
    ensures Recognize(s, heard).answers == s.answers && Recognize(s, heard).past == s.past
  {
  }

  lemma RecognizeKeepsOrder(s: Sys, heard: bool)
    requires TurnsInOrder(s) && JobsInOrder(s) && RecognizerEmits(s) && ResponderEmits(s)
    requires CommitsAdvance(s.past.log) && CanRecognize(s)
    requires s.recognizer.stage != GiveUp && s.recognizer.stage != GivingUp
    ensures var s' := Recognize(s, heard);
            TurnsInOrder(s') && JobsInOrder(s') && RecognizerEmits(s') && ResponderEmits(s')
  {
    hide CommitKeys, QueuedBy, TranscriptKeys, CreatedKeys, Emits;
    match s.recognizer.stage {
      case AwaitTurn =>
        if s.shared.stop { RecognizerMovesOn(s, heard); } else { TakeTurn(s); }
      case SendTranscript => SendsTranscript(s);
      case HandOver => HandsOverJob(s);
      case _ => RecognizerMovesOn(s, heard);
    }
  }

  lemma StartedInOrder(s: Sys)
    requires JobsInOrder(s) && RecognizerEmits(s)
    ensures Increasing(s.past.started) && Increasing(s.past.started + s.answers)
  {
    assert forall i :: 0 <= i < |s.past.started| ==> s.past.started[i] == s.past.jobs[i];
  }

  lemma TakeJob(s: Sys)
    requires JobsInOrder(s) && RecognizerEmits(s) && ResponderEmits(s)
    requires s.responder.stage == AwaitJob && s.answers != [] && !s.shared.stop
    ensures JobsInOrder(Respond(s, SpeakNext)) && ResponderEmits(Respond(s, SpeakNext))
  {
    StartedInOrder(s);
    EmitsNext(CreatedKeys(s.past.frames), s.past.started, s.answers, BeforeCreated(AwaitJob), s.responder.key);
    hide CreatedKeys, Emits, Increasing;
    assert s.past.started + s.answers == s.past.started + [s.answers[0]] + s.answers[1..];
  }

  lemma SendsCreated(s: Sys)
    requires JobsInOrder(s) && RecognizerEmits(s) && ResponderEmits(s) && s.responder.stage == SendCreated
    ensures ResponderEmits(Respond(s, SpeakNext))
  {
    StartedInOrder(s);
    EmitsOne(CreatedKeys(s.past.frames), s.past.started, s.responder.key);
    EmitsLess(CreatedKeys(s.past.frames), s.past.started, true, s.responder.key, false);
    FrameKeys(s.past.frames, Created(s.responder.key));
    hide CreatedKeys, Emits;
  }

  /** Frames the responder queues: at most one, and never a transcript. */
  lemma RespondFrames(s: Sys, choice: Choice)
    requires CanRespond(s)
    ensures var s' := Respond(s, choice);
            && TranscriptKeys(s'.past.frames) == TranscriptKeys(s.past.frames)
            && (s.responder.stage != SendCreated ==> CreatedKeys(s'.past.frames) == CreatedKeys(s.past.frames))
  {
    var k := s.responder.key;
    FrameKeys(s.past.frames, Created(k));
    FrameKeys(s.past.frames, Voice(k));
    FrameKeys(s.past.frames, Done(k));
    FrameKeys(s.past.frames, Cancelled(k));
    hide CreatedKeys, TranscriptKeys, Release, HandleAll;
  }

  /** The rest of the moves of the responder take no job. */
  lemma RespondStays(s: Sys, choice: Choice)
    requires CanRespond(s) && (s.responder.stage == AwaitJob ==> s.shared.stop)
    ensures var s' := Respond(s, choice);
            && s'.past.started == s.past.started && s'.answers == s.answers && s'.past.jobs == s.past.jobs
            && s'.responder.key == s.responder.key
            && (Responding(s'.responder.stage) ==> Responding(s.responder.stage))
            && (BeforeCreated(s'.responder.stage) ==> BeforeCreated(s.responder.stage))
  {
  }

  lemma RespondKeepsOrder(s: Sys, choice: Choice)
    requires JobsInOrder(s) && RecognizerEmits(s) && ResponderEmits(s) && CanRespond(s)
    ensures JobsInOrder(Respond(s, choice)) && ResponderEmits(Respond(s, choice))
  {
    hide Respond, CreatedKeys, Emits;
    if s.responder.stage == AwaitJob && !s.shared.stop {
      TakeJob(s);
      RespondIgnoresChoice(s, choice);
    } else {
      RespondStays(s, choice);
      RespondFrames(s, choice);
      if s.responder.stage == SendCreated {
        SendsCreated(s);
        RespondIgnoresChoice(s, choice);
      } else {
        EmitsLess(CreatedKeys(s.past.frames), s.past.started, BeforeCreated(s.responder.stage), s.responder.key,
                  BeforeCreated(Respond(s, choice).responder.stage));
      }
    }
  }

  lemma RespondIgnoresChoice(s: Sys, choice: Choice)
    requires CanRespond(s) && s.responder.stage != Work
    ensures Respond(s, choice) == Respond(s, SpeakNext)
  {
  }
}
