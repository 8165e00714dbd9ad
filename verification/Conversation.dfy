/** One conversation as a transition system: a reader, a recognizer, a
    responder and a writer over one session, two queues, four locks, three
    atomics and a condition variable. A step is one critical section, one
    atomic access, or the raising of one frame; any thread may take the next.

    The session runs under its lock and its events are handled by the thread
    that holds it, one critical section at a time, so every other thread may
    run between two of them: `ops` is what is left of the handling. */
module Conversation {
  import opened Session
  import opened SessionTrace

  datatype Thread = Nobody | Reader | Recognizer | Responder

  /** Frames queued for the client. Transcripts, answers and sound carry the
      turn and revision they belong to. */
  datatype Frame =
    | SpeechFrame
    | Transcript(key: Key)
    | Created(key: Key)
    | Voice(key: Key)
    | Done(key: Key)
    | Cancelled(key: Key)

  /** What handling one session event does, one critical section each.
      `StoreVoid` is the end of the section `Opened` begins: between the two
      the turn lock is held and the atomics may still move. */
  datatype Op =
    | Say(frame: Frame)
    | Opened(key: Key)
    | StoreVoid(void: bool)
    | Finalled(turn: nat)
    | RaiseCancel
    | Notify
    | Enqueue(key: Key)

  datatype ReaderAt = Reading | Pushing | CancelRaised | StopRaised | StopSet | Closed

  datatype RecognizerStage =
    | AwaitTurn
    | CheckRevised
    | Transcribe
    | SendTranscript
    | HandOver
    | GiveUp
    | GivingUp
    | RecognizerDone

  datatype ResponderStage =
    | AwaitJob
    | Begin
    | LowerCancel
    | Publish
    | SendCreated
    | Work
    | ReleaseForGate
    | ReleasingForGate
    | AtGate
    | Asleep
    | CloseFloor
    | SendTerminal
    | ReleaseAtEnd
    | ReleasingAtEnd
    | ResponderDone

  datatype WriterAt = Writing | SendFailed | WriterStopRaised | WriterStopSet | WriterDone

  datatype RecognizerAt = RecognizerAt(stage: RecognizerStage, key: Key)

  datatype ResponderAt = ResponderAt(stage: ResponderStage, key: Key)

  /** The fields the threads share, `gated` the responder's alone. */
  datatype Shared = Shared(
    open: Key,
    finalTurn: nat,
    answer: Key,
    gated: bool,
    cancel: bool,
    speaking: bool,
    stop: bool,
    outStop: bool,
    turnLock: bool)

  /** What has happened, for the statements alone: every event the session
      raised, every frame queued, every turn the recognizer took, every job it
      handed over, every job the responder took, and the answers that were
      overtaken while they held the floor. */
  datatype History = History(
    log: seq<Event>,
    frames: seq<Frame>,
    taken: seq<Key>,
    jobs: seq<Key>,
    started: seq<Key>,
    overtaken: set<Key>)

  datatype Sys = Sys(
    session: State,
    owner: Thread,
    ops: seq<Op>,
    shared: Shared,
    queue: seq<Key>,
    answers: seq<Key>,
    reader: ReaderAt,
    recognizer: RecognizerAt,
    responder: ResponderAt,
    writer: WriterAt,
    past: History)

  function Start(m: Setup, p: Params, vad: VadState): Sys
    requires m.Valid()
  {
    var none := Key(0, 0);
    Sys(Initial(m, p, vad), Nobody, [], Shared(none, 0, none, false, false, false, false, false, false), [], [],
        Reading, RecognizerAt(AwaitTurn, none), ResponderAt(AwaitJob, none), Writing,
        History([], [], [], [], [], {}))
  }

  // ------------------------------------------------------------ handlers

  function Handle(e: Event): seq<Op> {
    match e.kind
    case SpeechStarted => [Say(SpeechFrame), Opened(KeyOf(e))]
    case TurnResumed => [Say(SpeechFrame), Opened(KeyOf(e))]
    case TurnFinal => [Finalled(e.turn)]
    case BargeIn => [RaiseCancel, Notify]
    case TurnCommitted => [Enqueue(KeyOf(e))]
    case SpeechStopped => []
    case TurnReopened => []
  }

  function HandleAll(events: seq<Event>): seq<Op> {
    if events == [] then [] else HandleAll(events[..|events| - 1]) + Handle(events[|events| - 1])
  }

  /** Whether something opened after the answer in flight. */
  predicate Outdated(c: Shared) {
    Before(c.answer, c.open)
  }

  /** What the responder waits for at the gate. */
  predicate Wakes(c: Shared) {
    c.stop || c.cancel || c.finalTurn >= c.answer.turn || Outdated(c)
  }

  function WithFrame(s: Sys, f: Frame): Sys {
    if s.shared.outStop then s else s.(past := s.past.(frames := s.past.frames + [f]))
  }

  /** A notification sends a sleeping responder back to its test. */
  function Woken(s: Sys): Sys {
    if s.responder.stage == Asleep then s.(responder := s.responder.(stage := AtGate)) else s
  }

  /** The session moved under its lock, held by `by`. */
  function Moved(s: Sys, o: Outcome, holder: Thread): Sys {
    s.(session := o.state, owner := holder, ops := HandleAll(o.events), past := s.past.(log := s.past.log + o.events))
  }

  // --------------------------------------------- delivering an event

  predicate CanDeliver(s: Sys) {
    s.owner != Nobody && s.ops != [] && (TakesTurnLock(s.ops[0]) ==> !s.shared.turnLock)
  }

  predicate TakesTurnLock(op: Op) {
    op.Opened? || op.Finalled? || op.Notify?
  }

  function Deliver(s: Sys): Sys
    requires CanDeliver(s)
  {
    var c := s.shared;
    var rest := s.(ops := s.ops[1..]);
    match s.ops[0]
    case Say(f) => WithFrame(rest, f)
    case Opened(key) =>
      var open := if Before(c.open, key) then key else c.open;
      var void := c.speaking && !c.cancel && Before(c.answer, open);
      s.(ops := [StoreVoid(void)] + s.ops[1..], shared := c.(open := open, turnLock := true))
    case StoreVoid(void) => Woken(rest.(shared := c.(cancel := c.cancel || void, turnLock := false)))
    case Finalled(turn) => Woken(rest.(shared := c.(finalTurn := if turn > c.finalTurn then turn else c.finalTurn)))
    case RaiseCancel => rest.(shared := c.(cancel := true))
    case Notify => Woken(rest)
    case Enqueue(key) => rest.(queue := s.queue + [key])
  }

  // ------------------------------------------------------------ reader

  datatype ReaderMove =
    | StartPush
    | HearOne(w: Audio)
    | EndPush
    | NewParams(params: Params)
    | CancelRequest
    | CancelNotify
    | CloseRaise
    | CloseSet
    | CloseNotify

  predicate CanRead(m: Setup, s: Sys, move: ReaderMove) {
    match move
    case StartPush => s.reader == Reading && s.owner == Nobody
    case HearOne(w) => s.reader == Pushing && s.ops == [] && |w| == m.window
    case EndPush => s.reader == Pushing && s.ops == []
    case NewParams(_) => s.reader == Reading && s.owner == Nobody
    case CancelRequest => s.reader == Reading
    case CancelNotify => s.reader == CancelRaised && !s.shared.turnLock
    case CloseRaise => s.reader == Reading
    case CloseSet => s.reader == StopRaised
    case CloseNotify => s.reader == StopSet && !s.shared.turnLock
  }

  function Read(m: Setup, s: Sys, move: ReaderMove): Sys
    requires m.Valid() && CanRead(m, s, move)
  {
    match move
    case StartPush =>
      s.(reader := Pushing, owner := Reader, session := s.session.(speaking := s.shared.speaking))
    case HearOne(w) => Moved(s, Hear(m, s.session, w), Reader)
    case EndPush => s.(reader := Reading, owner := Nobody)
    case NewParams(p) => s.(session := Tune(m, s.session, p))
    case CancelRequest => s.(reader := CancelRaised, shared := s.shared.(cancel := true))
    case CancelNotify => Woken(s.(reader := Reading))
    case CloseRaise => s.(reader := StopRaised, shared := s.shared.(cancel := true))
    case CloseSet => s.(reader := StopSet, shared := s.shared.(stop := true))
    case CloseNotify => Woken(s.(reader := Closed))
  }

  // ------------------------------------------------------------ recognizer

  predicate CanRecognize(s: Sys) {
    match s.recognizer.stage
    case AwaitTurn => s.shared.stop || s.queue != []
    case CheckRevised => !s.shared.turnLock
    case GiveUp => s.owner == Nobody
    case GivingUp => s.ops == []
    case RecognizerDone => false
    case _ => true
  }

  /** `heard`: whether the recognition gave a transcript that is let through. */
  function Recognize(s: Sys, heard: bool): Sys
    requires CanRecognize(s)
  {
    var at := s.recognizer;
    match at.stage
    case AwaitTurn =>
      if s.shared.stop then s.(recognizer := at.(stage := RecognizerDone))
      else s.(recognizer := RecognizerAt(CheckRevised, s.queue[0]), queue := s.queue[1..],
              past := s.past.(taken := s.past.taken + [s.queue[0]]))
    case CheckRevised =>
      var revised := s.shared.open.turn == at.key.turn && s.shared.open.revision > at.key.revision;
      s.(recognizer := at.(stage := if revised then GiveUp else Transcribe))
    case Transcribe => s.(recognizer := at.(stage := if heard then SendTranscript else GiveUp))
    case SendTranscript => WithFrame(s.(recognizer := at.(stage := HandOver)), Transcript(at.key))
    case HandOver =>
      s.(recognizer := at.(stage := AwaitTurn), answers := s.answers + [at.key],
         past := s.past.(jobs := s.past.jobs + [at.key]))
    case GiveUp =>
      Moved(s, Release(s.session, at.key.turn, at.key.revision), Recognizer).(recognizer := at.(stage := GivingUp))
    case GivingUp => s.(recognizer := at.(stage := AwaitTurn), owner := Nobody)
    case RecognizerDone => s
  }

  // ------------------------------------------------------------ responder

  datatype Choice = SpeakNext | FinishAnswer

  predicate CanRespond(s: Sys) {
    match s.responder.stage
    case AwaitJob => s.shared.stop || s.answers != []
    case Publish => !s.shared.turnLock
    case AtGate => !s.shared.turnLock
    case ReleaseForGate => s.owner == Nobody
    case ReleasingForGate => s.ops == []
    case ReleaseAtEnd => s.owner == Nobody
    case ReleasingAtEnd => s.ops == []
    case ResponderDone => false
    case _ => true
  }

  /** The test of the gate, under the turn lock: asleep unless something woke
      it, void when something opened, and through when it is final. */
  function PassGate(s: Sys): Sys {
    var c := s.shared;
    if !Wakes(c) then s.(responder := s.responder.(stage := Asleep))
    else
      var cancel := c.cancel || Outdated(c);
      s.(responder := s.responder.(stage := Work),
         shared := c.(cancel := cancel, gated := !c.stop && !cancel))
  }

  /** The answer in flight, published with the floor under the turn lock. */
  function Published(s: Sys): Sys {
    var c := s.shared.(answer := s.responder.key, gated := false, speaking := true);
    s.(responder := s.responder.(stage := SendCreated), shared := c.(cancel := c.cancel || Outdated(c)))
  }

  function Respond(s: Sys, choice: Choice): Sys
    requires CanRespond(s)
  {
    var at := s.responder;
    var go := (stage: ResponderStage) => s.(responder := at.(stage := stage));
    match at.stage
    case AwaitJob =>
      if s.shared.stop then go(ResponderDone)
      else s.(responder := ResponderAt(Begin, s.answers[0]), answers := s.answers[1..],
              past := s.past.(started := s.past.started + [s.answers[0]]))
    case Begin => go(if s.shared.stop then ReleaseAtEnd else LowerCancel)
    case LowerCancel => go(Publish).(shared := s.shared.(cancel := false))
    case Publish => Published(s)
    case SendCreated => WithFrame(go(Work), Created(at.key))
    case Work =>
      if choice.FinishAnswer? then go(CloseFloor)
      else if s.shared.gated then WithFrame(s, Voice(at.key))
      else go(ReleaseForGate)
    case ReleaseForGate =>
      Moved(s, Release(s.session, at.key.turn, at.key.revision), Responder)
        .(responder := at.(stage := ReleasingForGate))
    case ReleasingForGate => go(AtGate).(owner := Nobody)
    case AtGate => PassGate(s)
    case Asleep => go(AtGate)
    case CloseFloor => go(SendTerminal).(shared := s.shared.(speaking := false))
    case SendTerminal => WithFrame(go(ReleaseAtEnd), if s.shared.cancel then Cancelled(at.key) else Done(at.key))
    case ReleaseAtEnd =>
      Moved(s, Release(s.session, at.key.turn, at.key.revision), Responder).(responder := at.(stage := ReleasingAtEnd))
    case ReleasingAtEnd => go(AwaitJob).(owner := Nobody)
    case ResponderDone => s
  }

  // ------------------------------------------------------------ writer

  predicate CanWrite(s: Sys) {
    s.writer != WriterDone && (s.writer == WriterStopSet ==> !s.shared.turnLock)
  }

  /** A failed send drops what is queued and ends the talking half. */
  function Write(s: Sys): Sys
    requires CanWrite(s)
  {
    match s.writer
    case Writing => s.(writer := SendFailed, shared := s.shared.(outStop := true))
    case SendFailed => s.(writer := WriterStopRaised, shared := s.shared.(cancel := true))
    case WriterStopRaised => s.(writer := WriterStopSet, shared := s.shared.(stop := true))
    case WriterStopSet => Woken(s.(writer := WriterDone))
    case WriterDone => s
  }

  // ------------------------------------------------------------ the system

  datatype Step =
    | DeliverOne
    | ReaderStep(move: ReaderMove)
    | RecognizerStep(heard: bool)
    | ResponderStep(choice: Choice)
    | WriterStep

  predicate Enabled(m: Setup, s: Sys, step: Step) {
    match step
    case DeliverOne => CanDeliver(s)
    case ReaderStep(move) => CanRead(m, s, move)
    case RecognizerStep(_) => CanRecognize(s)
    case ResponderStep(_) => CanRespond(s)
    case WriterStep => CanWrite(s)
  }

  function Take(m: Setup, s: Sys, step: Step): Sys
    requires m.Valid() && Enabled(m, s, step)
  {
    match step
    case DeliverOne => Deliver(s)
    case ReaderStep(move) => Read(m, s, move)
    case RecognizerStep(heard) => Recognize(s, heard)
    case ResponderStep(choice) => Respond(s, choice)
    case WriterStep => Write(s)
  }

  /** Notes an answer overtaken while it holds the floor, seen by whoever may
      look: with the turn lock free. */
  function Noted(s: Sys): Sys {
    if s.shared.speaking && !s.shared.turnLock && Outdated(s.shared) then
      s.(past := s.past.(overtaken := s.past.overtaken + {s.shared.answer}))
    else s
  }

  function Next(m: Setup, s: Sys, step: Step): Sys
    requires m.Valid() && Enabled(m, s, step)
  {
    Noted(Take(m, s, step))
  }

  /** A run: its states, from the start, and the steps between them. */
  datatype Run = Run(states: seq<Sys>, steps: seq<Step>)

  predicate IsRun(m: Setup, p: Params, vad: VadState, run: Run)
    requires m.Valid()
  {
    && |run.states| == |run.steps| + 1 && run.states[0] == Start(m, p, vad)
    && (forall i :: 0 <= i < |run.steps| ==>
          && Enabled(m, run.states[i], run.steps[i])
          && run.states[i + 1] == Next(m, run.states[i], run.steps[i]))
  }
}
