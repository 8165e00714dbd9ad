/** The turn state machine of one conversation, on values: one window of audio,
    one release, one change of the floor or of the thresholds at a time. The
    class in TurnSession.dfy is proved to compute exactly these functions; the
    promises of the protocol are proved about them in SessionTrace.dfy,
    SessionAudio.dfy and SessionTiming.dfy. */
module Session {
  import opened Seqs

  type Audio = seq<real>

  /** The recurrent state of the voice detector: a vector of numbers. */
  type VadState = seq<real>

  datatype Params = Params(
    vadNegThreshold: real,
    vadThreshold: real,
    minSpeechMs: int,
    bargeInMs: int,
    minSilenceMs: int,
    minSpeechContinuationMs: int,
    speechPadMs: int,
    turnThreshold: real,
    incompleteDelayMs: int,
    turnMaxWaitMs: int,
    reopenGraceMs: int)

  /** Every threshold as a count of windows. */
  datatype RawLimits = RawLimits(
    open: nat,
    barge: nat,
    reopen: nat,
    close: nat,
    pad: nat,
    delay: nat,
    wait: nat,
    grace: nat)

  type Limits = l: RawLimits
    | l.open > 0 && l.barge > 0 && l.reopen > 0 && l.close > 0 && l.pad > 0 && 0 < l.delay <= l.wait
    witness RawLimits(1, 1, 1, 1, 1, 1, 1, 0)

  /** What surrounds the machine: the size of a window, and the two networks
      as arbitrary functions. */
  datatype Setup = Setup(
    window: nat,
    sampleRate: nat,
    classifierWindow: nat,
    prob: (VadState, Audio) -> (real, VadState),
    predict: Audio -> real)
  {
    predicate Valid() {
      window > 0 && sampleRate > 0
    }
  }

  datatype Phase = Idle | UserSpeaking | PendingEnd

  datatype Kind =
    | SpeechStarted
    | SpeechStopped
    | TurnReopened
    | TurnCommitted
    | TurnFinal
    | TurnResumed
    | BargeIn

  /** What the callback receives. `pcm` is the audio handed to the recognizer,
      `held` everything the turn holds; both are empty unless it is a commit. */
  datatype Event = Event(
    kind: Kind,
    turn: nat,
    revision: nat,
    at: nat,
    score: real,
    pcm: Audio,
    held: Audio,
    grace: nat)

  datatype State = State(
    params: Params,
    limits: Limits,
    phase: Phase,
    turnPcm: Audio,
    speechEnd: nat,
    lookback: Audio,
    stream: Audio,
    speechRun: nat,
    silenceRun: nat,
    pendingRun: nat,
    graceLeft: nat,
    graceGiven: nat,
    committed: bool,
    released: bool,
    turnId: nat,
    revision: nat,
    speaking: bool,
    inSpeech: bool,
    nWindows: nat,
    vad: VadState)

  datatype Outcome = Outcome(state: State, events: seq<Event>)

  // ---------------------------------------------------------------- limits

  /** Rounds a duration to windows: at least one, whatever was asked. */
  function Windows(m: Setup, ms: int): (n: nat)
    requires m.Valid()
    ensures n > 0
  {
    var windowMs := 1000.0 * (m.window as real) / (m.sampleRate as real);
    var n := (ms as real / windowMs + 0.5).Floor;
    if n > 0 then n else 1
  }

  /** A duration is the nearest count of windows, and never less than one. */
  predicate Rounds(m: Setup, ms: int, n: nat)
    requires m.Valid()
  {
    var asked := ms as real / (1000.0 * (m.window as real) / (m.sampleRate as real));
    if asked < 0.5 then n == 1 else n as real - 0.5 <= asked < n as real + 0.5
  }

  lemma WindowsRound(m: Setup, ms: int)
    requires m.Valid()
    ensures Rounds(m, ms, Windows(m, ms))
  {
  }

  function LimitsOf(m: Setup, p: Params): Limits
    requires m.Valid()
  {
    var wait := Windows(m, p.turnMaxWaitMs);
    RawLimits(
      Windows(m, p.minSpeechMs),
      Windows(m, p.bargeInMs),
      Windows(m, p.minSpeechContinuationMs),
      Windows(m, p.minSilenceMs),
      Windows(m, p.speechPadMs),
      Min(wait, Windows(m, p.incompleteDelayMs)),
      wait,
      if p.reopenGraceMs > 0 then Windows(m, p.reopenGraceMs) else 0)
  }

  /** Each threshold is its own duration, rounded; a judgement waits no longer
      than a turn may, and no grace at all is a grace of none. */
  lemma LimitsRound(m: Setup, p: Params)
    requires m.Valid()
    ensures var l := LimitsOf(m, p);
            && Rounds(m, p.minSpeechMs, l.open) && Rounds(m, p.bargeInMs, l.barge)
            && Rounds(m, p.minSpeechContinuationMs, l.reopen) && Rounds(m, p.minSilenceMs, l.close)
            && Rounds(m, p.speechPadMs, l.pad) && Rounds(m, p.turnMaxWaitMs, l.wait)
            && (exists d :: Rounds(m, p.incompleteDelayMs, d) && l.delay == Min(l.wait, d))
            && (if p.reopenGraceMs <= 0 then l.grace == 0 else Rounds(m, p.reopenGraceMs, l.grace))
  {
    hide Windows, Rounds;
    WindowsRound(m, p.minSpeechMs);
    WindowsRound(m, p.bargeInMs);
    WindowsRound(m, p.minSpeechContinuationMs);
    WindowsRound(m, p.minSilenceMs);
    WindowsRound(m, p.speechPadMs);
    WindowsRound(m, p.turnMaxWaitMs);
    WindowsRound(m, p.incompleteDelayMs);
    WindowsRound(m, p.reopenGraceMs);
  }

  function LookbackCapacity(m: Setup, l: Limits): nat {
    (Max(l.open, l.barge) + l.pad) * m.window
  }

  function Initial(m: Setup, p: Params, vad: VadState): State
    requires m.Valid()
  {
    State(p, LimitsOf(m, p), Idle, [], 0, [], [], 0, 0, 0, 0, 0, false, false, 0, 0, false, false, 0, vad)
  }

  // ---------------------------------------------------------------- events

  function Report(s: State, kind: Kind, score: real): Event {
    Event(kind, s.turnId, s.revision, s.nWindows, score, [], [], 0)
  }

  /** The committed audio ends the speech pad after the last speech. */
  function CommitReport(m: Setup, s: State, score: real): Event
  {
    Report(s, TurnCommitted, score).(
      pcm := s.turnPcm[..Min(|s.turnPcm|, s.speechEnd + s.limits.pad * m.window)],
      held := s.turnPcm,
      grace := s.graceGiven)
  }

  // ----------------------------------------------------------------- steps

  function TryFinal(s: State): Outcome {
    if s.committed && s.released && s.graceLeft == 0 then
      var s' := s.(committed := false, turnPcm := []);
      Outcome(s', [Report(s', TurnFinal, 0.0)])
    else
      Outcome(s, [])
  }

  function Release(s: State, turn: nat, revision: nat): Outcome {
    if !s.committed || turn != s.turnId || revision != s.revision then
      Outcome(s, [])
    else
      TryFinal(s.(released := true))
  }

  function OpenTurn(s: State): Outcome {
    var s' := s.(
      turnId := s.turnId + 1,
      revision := 0,
      graceLeft := 0,
      committed := false,
      turnPcm := s.lookback,
      speechEnd := |s.lookback|,
      phase := UserSpeaking);
    Outcome(s', [Report(s', SpeechStarted, 0.0)])
  }

  function Commit(m: Setup, s: State, score: real, grace: nat): Outcome {
    var s' := s.(
      phase := Idle,
      pendingRun := 0,
      speechRun := 0,
      committed := true,
      released := false,
      graceLeft := grace,
      graceGiven := grace);
    Outcome(s', [CommitReport(m, s', score)])
  }

  /** The grace counts the windows after the one that committed. */
  function TickGrace(s: State): Outcome {
    if s.graceLeft > 0 then
      var s' := s.(graceLeft := s.graceLeft - 1);
      if s'.graceLeft == 0 then TryFinal(s') else Outcome(s', [])
    else
      Outcome(s, [])
  }

  predicate Live(s: State) {
    s.phase != Idle || s.committed
  }

  function InSpeech(m: Setup, s: State, w: Audio): bool {
    var prob := m.prob(s.vad, w).0;
    var stay := if s.params.vadNegThreshold < s.params.vadThreshold then s.params.vadNegThreshold
                else s.params.vadThreshold;
    prob >= (if s.inSpeech then stay else s.params.vadThreshold)
  }

  /** The voice detector and its hysteresis, the runs, the two rings, and the
      audio of the turn. */
  function Listen(m: Setup, s: State, w: Audio): State {
    var speech := InSpeech(m, s, w);
    var live := Live(s);
    s.(
      vad := m.prob(s.vad, w).1,
      inSpeech := speech,
      speechRun := if speech then s.speechRun + 1 else 0,
      silenceRun := if speech then 0 else s.silenceRun + 1,
      lookback := Last(s.lookback + w, LookbackCapacity(m, s.limits)),
      stream := Last(s.stream + w, m.classifierWindow),
      turnPcm := if live then s.turnPcm + w else s.turnPcm,
      speechEnd := if live && speech then |s.turnPcm| + |w| else s.speechEnd)
  }

  /** Windows of speech a new turn needs. */
  function OpenNeed(s: State): nat {
    if s.speaking then s.limits.barge else s.limits.open
  }

  function DecideIdle(s: State): Outcome {
    if s.committed && s.speechRun >= s.limits.reopen then
      var s' := s.(graceLeft := 0, committed := false, revision := s.revision + 1, phase := UserSpeaking);
      Outcome(s', [Report(s', TurnResumed, 0.0)])
    else if s.speechRun >= OpenNeed(s) then
      var turn := OpenTurn(s);
      Outcome(turn.state, (if s.speaking then [Report(s, BargeIn, 0.0)] else []) + turn.events)
    else
      Outcome(s, [])
  }

  /** The classifier reads its own window of the stream, laid out whole. */
  function DecideSpeaking(m: Setup, s: State): Outcome {
    if s.silenceRun >= s.limits.close then
      var s' := s.(phase := PendingEnd, pendingRun := 0);
      var score := m.predict(s'.stream);
      var stopped := [Report(s', SpeechStopped, 0.0)];
      if score >= s'.params.turnThreshold then
        var done := Commit(m, s', score, s'.limits.grace);
        Outcome(done.state, stopped + done.events)
      else
        Outcome(s', stopped + [Report(s', TurnReopened, score)])
    else
      Outcome(s, [])
  }

  function DecidePending(m: Setup, s: State): Outcome {
    var s' := s.(pendingRun := s.pendingRun + 1);
    if s'.speechRun >= s'.limits.reopen then
      var back := s'.(revision := s'.revision + 1, phase := UserSpeaking);
      Outcome(back, [Report(back, SpeechStarted, 0.0)])
    else if s'.pendingRun >= s'.limits.delay then
      Commit(m, s', 0.0, s'.limits.wait - s'.limits.delay)
    else
      Outcome(s', [])
  }

  function Decide(m: Setup, s: State): Outcome {
    match s.phase
    case Idle => DecideIdle(s)
    case UserSpeaking => DecideSpeaking(m, s)
    case PendingEnd => DecidePending(m, s)
  }

  /** One window: the grace, the probability, then the state machine. */
  function Hear(m: Setup, s: State, w: Audio): Outcome {
    var ticked := TickGrace(s);
    var decided := Decide(m, Listen(m, ticked.state, w));
    Outcome(decided.state.(nWindows := decided.state.nWindows + 1), ticked.events + decided.events)
  }

  function Tune(m: Setup, s: State, p: Params): State
    requires m.Valid()
  {
    var l := LimitsOf(m, p);
    s.(params := p, limits := l, lookback := Last(s.lookback, LookbackCapacity(m, l)))
  }

  // ------------------------------------------------------------------ runs

  datatype Act =
    | Window(w: Audio)
    | SetSpeaking(speaking: bool)
    | Free(turn: nat, revision: nat)
    | SetParams(params: Params)

  predicate ValidAct(m: Setup, a: Act) {
    a.Window? ==> |a.w| == m.window
  }

  function Apply(m: Setup, s: State, a: Act): Outcome
    requires m.Valid() && ValidAct(m, a)
  {
    match a
    case Window(w) => Hear(m, s, w)
    case SetSpeaking(b) => Outcome(s.(speaking := b), [])
    case Free(turn, revision) => Release(s, turn, revision)
    case SetParams(p) => Outcome(Tune(m, s, p), [])
  }

  predicate ValidActs(m: Setup, acts: seq<Act>) {
    forall i :: 0 <= i < |acts| ==> ValidAct(m, acts[i])
  }

  /** A whole run: the last state and every event in order. */
  function Run(m: Setup, s: State, acts: seq<Act>): Outcome
    requires m.Valid() && ValidActs(m, acts)
  {
    if acts == [] then Outcome(s, [])
    else
      var before := Run(m, s, acts[..|acts| - 1]);
      var after := Apply(m, before.state, acts[|acts| - 1]);
      Outcome(after.state, before.events + after.events)
  }

  /** What every step keeps of the flags and counters. */
  predicate Sound(s: State) {
    && (Live(s) ==> s.speechEnd <= |s.turnPcm| && s.turnId > 0)
    && (s.committed ==> s.phase == Idle)
    && (s.graceLeft > 0 ==> s.committed)
    && (s.committed ==> s.graceLeft <= s.graceGiven)
    && (s.committed && s.released ==> s.graceLeft > 0)
  }

  lemma DecideKeepsSound(m: Setup, s: State)
    requires Sound(s)
    ensures Sound(Decide(m, s).state)
  {
  }

  lemma HearKeepsSound(m: Setup, s: State, w: Audio)
    requires Sound(s)
    ensures Sound(Hear(m, s, w).state)
  {
    assert Sound(TickGrace(s).state);
    DecideKeepsSound(m, Listen(m, TickGrace(s).state, w));
  }

  lemma ApplyKeepsSound(m: Setup, s: State, a: Act)
    requires m.Valid() && ValidAct(m, a) && Sound(s)
    ensures Sound(Apply(m, s, a).state)
  {
    match a {
      case Window(w) => HearKeepsSound(m, s, w);
      case _ =>
    }
  }
}
