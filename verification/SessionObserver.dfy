/** What a session reports, told from outside: from the verdicts of the detector,
    the calls made and the reports so far, with no look at its counters. Over
    every run each call reports exactly what this says. */
module SessionObserver {
  import opened Seqs
  import opened Session
  import opened SessionTrace
  import opened SessionAudio
  import opened SessionTiming
  import opened SessionResume

  // ------------------------------------------------------------ the verdicts

  /** The state of the detector after some calls. */
  function VadAfter(m: Setup, vad: VadState, acts: seq<Act>): VadState {
    if acts == [] then vad
    else
      var before := VadAfter(m, vad, acts[..|acts| - 1]);
      match acts[|acts| - 1]
      case Window(w) => m.prob(before, w).1
      case _ => before
  }

  /** The settings in force after some calls. */
  function ParamsAfter(p: Params, acts: seq<Act>): Params {
    if acts == [] then p
    else
      match acts[|acts| - 1]
      case SetParams(q) => q
      case _ => ParamsAfter(p, acts[..|acts| - 1])
  }

  function LastVerdict(voiced: seq<bool>): bool {
    voiced != [] && voiced[|voiced| - 1]
  }

  /** Unvoiced windows in a row up to now. */
  function UnvoicedRun(voiced: seq<bool>): (n: nat)
    ensures n <= |voiced|
    ensures forall i :: |voiced| - n <= i < |voiced| ==> !voiced[i]
    ensures n < |voiced| ==> voiced[|voiced| - 1 - n]
  {
    if voiced == [] || voiced[|voiced| - 1] then 0
    else UnvoicedRun(voiced[..|voiced| - 1]) + 1
  }

  lemma UnvoicedAppend(voiced: seq<bool>, speech: bool)
    ensures UnvoicedRun(voiced + [speech]) == if speech then 0 else UnvoicedRun(voiced) + 1
  {
  }

  // ------------------------------------------------------------ the log

  predicate LastIs(log: seq<Event>, kind: Kind) {
    log != [] && log[|log| - 1].kind == kind
  }

  /** The turn and revision last named. */
  function KeyNow(log: seq<Event>): Key {
    if log == [] then Key(0, 0) else KeyOf(log[|log| - 1])
  }

  /** The phase a log leaves. */
  function PhaseOf(log: seq<Event>): Phase {
    if LastIs(log, SpeechStarted) || LastIs(log, TurnResumed) then UserSpeaking
    else if LastIs(log, TurnReopened) then PendingEnd
    else Idle
  }

  /** What the last of some calls reported. */
  function Reported(m: Setup, s: State, acts: seq<Act>): seq<Event>
    requires m.Valid() && ValidActs(m, acts) && acts != []
  {
    Apply(m, Run(m, s, acts[..|acts| - 1]).state, acts[|acts| - 1]).events
  }

  /** The verdicts since the last commit, if there was one. */
  function SinceCommit(m: Setup, s: State, acts: seq<Act>): seq<bool>
    requires m.Valid() && ValidActs(m, acts)
  {
    if acts == [] then []
    else
      var since := SinceCommit(m, s, acts[..|acts| - 1]);
      if !acts[|acts| - 1].Window? then since
      else if LastIs(Reported(m, s, acts), TurnCommitted) then []
      else since + [Run(m, s, acts).state.inSpeech]
  }

  /** Whether the turn last committed was released since. */
  predicate ReleasedSince(m: Setup, s: State, acts: seq<Act>)
    requires m.Valid() && ValidActs(m, acts)
  {
    acts != []
    && var before := acts[..|acts| - 1];
       var log := Run(m, s, before).events;
       match acts[|acts| - 1]
       case Window(_) => ReleasedSince(m, s, before) && !LastIs(Reported(m, s, acts), TurnCommitted)
       case Free(turn, revision) =>
         ReleasedSince(m, s, before) || (LastIs(log, TurnCommitted) && KeyNow(log) == Key(turn, revision))
       case _ => ReleasedSince(m, s, before)
  }

  // ------------------------------------------------------------ the reports

  /** A report, its audio aside. */
  datatype Brief = Brief(kind: Kind, key: Key, at: nat, score: real, grace: nat)

  function BriefOf(e: Event): Brief {
    Brief(e.kind, KeyOf(e), e.at, e.score, e.grace)
  }

  function Briefs(events: seq<Event>): seq<Brief> {
    seq(|events|, i requires 0 <= i < |events| => BriefOf(events[i]))
  }

  /** What surrounds a window: the thresholds and the floor in force, whether
      the last commit was released, the voiced windows in a row since that
      commit and the unvoiced ones in a row, this one included, its place in
      the stream, and what the classifier would say. */
  datatype Moment = Moment(
    limits: Limits,
    turnThreshold: real,
    floor: bool,
    released: bool,
    speech: nat,
    silence: nat,
    at: nat,
    score: real)

  /** The grace of the last commit ends on this window, and it was released. */
  predicate EndsGrace(log: seq<Event>, now: Moment) {
    LastIs(log, TurnCommitted) && now.released && log[|log| - 1].at + log[|log| - 1].grace == now.at
  }

  /** Silence long enough ends the speech, and the classifier decides. */
  function OnSilence(k: Key, now: Moment): seq<Brief> {
    if now.silence < now.limits.close then []
    else
      [Brief(SpeechStopped, k, now.at, 0.0, 0),
       if now.score >= now.turnThreshold then Brief(TurnCommitted, k, now.at, now.score, now.limits.grace)
       else Brief(TurnReopened, k, now.at, now.score, 0)]
  }

  /** Speech long enough resumes the turn committed, or opens the next one. */
  function OnSpeech(k: Key, committed: bool, now: Moment): seq<Brief> {
    if committed && now.speech >= now.limits.reopen then
      [Brief(TurnResumed, Key(k.turn, k.revision + 1), now.at, 0.0, 0)]
    else if now.floor && now.speech >= now.limits.barge then
      [Brief(BargeIn, k, now.at, 0.0, 0), Brief(SpeechStarted, Key(k.turn + 1, 0), now.at, 0.0, 0)]
    else if !now.floor && now.speech >= now.limits.open then
      [Brief(SpeechStarted, Key(k.turn + 1, 0), now.at, 0.0, 0)]
    else []
  }

  /** A turn judged unfinished goes on with speech, or ends with the delay. */
  function OnDelay(k: Key, judged: nat, now: Moment): seq<Brief> {
    if now.speech >= now.limits.reopen then
      [Brief(SpeechStarted, Key(k.turn, k.revision + 1), now.at, 0.0, 0)]
    else if now.at >= judged + now.limits.delay then
      [Brief(TurnCommitted, k, now.at, 0.0, now.limits.wait - now.limits.delay)]
    else []
  }

  /** Everything a window reports. */
  function OnWindow(log: seq<Event>, now: Moment): seq<Brief> {
    var k := KeyNow(log);
    match PhaseOf(log)
    case Idle =>
      if EndsGrace(log, now) then [Brief(TurnFinal, k, now.at, 0.0, 0)] + OnSpeech(k, false, now)
      else OnSpeech(k, LastIs(log, TurnCommitted), now)
    case UserSpeaking => OnSilence(k, now)
    case PendingEnd => OnDelay(k, log[|log| - 1].at, now)
  }

  /** Everything a release reports: the turn is final at once when it is the one
      committed and its grace is over. */
  function OnRelease(log: seq<Event>, key: Key, windows: nat): seq<Brief> {
    if LastIs(log, TurnCommitted) && KeyNow(log) == key
       && log[|log| - 1].at + log[|log| - 1].grace < windows then
      [Brief(TurnFinal, key, windows, 0.0, 0)]
    else []
  }

  // ------------------------------------------------------------ the invariant

  function LeftOf(end: nat, windows: nat): nat {
    if end > windows then end - windows else 0
  }

  /** The counters of a session are what its calls and its log say. */
  predicate Tells(s: State, log: seq<Event>, released: bool) {
    && s.phase == PhaseOf(log) && s.committed == LastIs(log, TurnCommitted) && Current(s) == KeyNow(log)
    && (s.phase == PendingEnd ==> s.pendingRun + log[|log| - 1].at + 1 == s.nWindows)
    && (s.committed ==>
          && s.released == released
          && s.graceLeft == LeftOf(log[|log| - 1].at + 1 + log[|log| - 1].grace, s.nWindows))
  }

  /** A moment seen from the counters. */
  function MomentIn(m: Setup, s: State, w: Audio, score: real): Moment {
    var v := InSpeech(m, s, w);
    Moment(s.limits, s.params.turnThreshold, s.speaking, s.released,
           if v then s.speechRun + 1 else 0, if v then 0 else s.silenceRun + 1, s.nWindows, score)
  }

  lemma LogGrows(log: seq<Event>, events: seq<Event>)
    ensures events == [] ==> log + events == log
    ensures events != [] ==>
              && KeyNow(log + events) == KeyOf(events[|events| - 1])
              && (log + events)[|log + events| - 1] == events[|events| - 1]
              && (forall kind :: LastIs(log + events, kind) <==> LastIs(events, kind))
  {
  }

  /** The state and the reports of one window agree with what the log tells. */
  predicate Agrees(m: Setup, s: State, w: Audio, log: seq<Event>, now: Moment) {
    var o := Hear(m, s, w);
    && Briefs(o.events) == OnWindow(log, now)
    && Tells(o.state, log + o.events, now.released && !LastIs(o.events, TurnCommitted))
  }

  lemma SpeakingAgrees(m: Setup, s: State, w: Audio, log: seq<Event>)
    requires Sound(s) && s.phase == UserSpeaking && Tells(s, log, s.released)
    ensures Agrees(m, s, w, log, MomentIn(m, s, w, m.predict(Listen(m, s, w).stream)))
  {
    hide InSpeech, LookbackCapacity, Last;
    var o := Hear(m, s, w);
    assert TickGrace(s) == Outcome(s, []);
    LogGrows(log, o.events);
  }

  lemma BriefsJoin(a: seq<Event>, b: seq<Event>)
    ensures Briefs(a + b) == Briefs(a) + Briefs(b)
  {
  }

  /** Speech in an idle session, its grace aside. */
  lemma IdleDecides(m: Setup, s: State, k: Key, now: Moment)
    requires s.phase == Idle && Current(s) == k
    requires now.limits == s.limits && now.floor == s.speaking && now.speech == s.speechRun && now.at == s.nWindows
    ensures var o := Decide(m, s);
            && Briefs(o.events) == OnSpeech(k, s.committed, now)
            && (o.events == [] ==> o.state == s)
            && (o.events != [] ==>
                  && o.state.phase == UserSpeaking && !o.state.committed && IsOpening(o.events[|o.events| - 1])
                  && Current(o.state) == KeyOf(o.events[|o.events| - 1]))
  {
  }

  /** The grace of an idle session at a window. */
  lemma IdleTicks(s: State, log: seq<Event>, now: Moment)
    requires Sound(s) && s.phase == Idle && Tells(s, log, s.released)
    requires now.released == s.released && now.at == s.nWindows
    ensures var o := TickGrace(s);
            if EndsGrace(log, now) then
              && o.state == s.(graceLeft := 0, committed := false, turnPcm := [])
              && |o.events| == 1 && o.events[0].kind == TurnFinal && KeyOf(o.events[0]) == KeyNow(log)
              && Briefs(o.events) == [Brief(TurnFinal, KeyNow(log), now.at, 0.0, 0)]
            else
              && o.events == []
              && o.state == s.(graceLeft := o.state.graceLeft)
              && (s.committed ==>
                    o.state.graceLeft == LeftOf(log[|log| - 1].at + 1 + log[|log| - 1].grace, s.nWindows + 1))
  {
  }

  lemma SameVerdict(m: Setup, s: State, t: State, w: Audio)
    requires s.vad == t.vad && s.params == t.params && s.inSpeech == t.inSpeech
    ensures InSpeech(m, s, w) == InSpeech(m, t, w)
  {
  }

  lemma TellsMeans(s: State, log: seq<Event>)
    requires Tells(s, log, s.released)
    ensures s.phase == PhaseOf(log) && s.committed == LastIs(log, TurnCommitted) && Current(s) == KeyNow(log)
  {
  }

  lemma NoBriefs()
    ensures Briefs([]) == []
  {
  }

  lemma OpenedTells(s: State, log: seq<Event>, events: seq<Event>)
    requires events != [] && IsOpening(events[|events| - 1]) && Current(s) == KeyOf(events[|events| - 1])
    requires s.phase == UserSpeaking && !s.committed
    ensures !LastIs(events, TurnCommitted) && forall released :: Tells(s, log + events, released)
  {
    LogGrows(log, events);
  }

  lemma FinalTells(s: State, log: seq<Event>, events: seq<Event>)
    requires |events| == 1 && events[0].kind == TurnFinal && Current(s) == KeyOf(events[0])
    requires s.phase == Idle && !s.committed
    ensures !LastIs(events, TurnCommitted) && forall released :: Tells(s, log + events, released)
  {
    LogGrows(log, events);
  }

  lemma StillTells(s: State, s': State, log: seq<Event>)
    requires Tells(s, log, s.released) && s.phase == Idle && s'.phase == Idle
    requires s'.committed == s.committed && s'.released == s.released && Current(s') == Current(s)
    requires s'.nWindows == s.nWindows + 1
    requires s.committed ==> s'.graceLeft == LeftOf(log[|log| - 1].at + 1 + log[|log| - 1].grace, s.nWindows + 1)
    ensures Tells(s', log, s.released)
  {
  }

  /** A window in a turn judged unfinished. */
  lemma PendingDecides(m: Setup, s: State, k: Key, judged: nat, now: Moment)
    requires s.phase == PendingEnd && Current(s) == k && s.pendingRun + judged + 1 == s.nWindows
    requires now.limits == s.limits && now.speech == s.speechRun && now.at == s.nWindows
    ensures var o := Decide(m, s);
            && Briefs(o.events) == OnDelay(k, judged, now)
            && (o.events == [] ==> o.state == s.(pendingRun := s.pendingRun + 1))
            && (o.events != [] ==>
                  |o.events| == 1 && Current(o.state) == KeyOf(o.events[0]) && o.state.nWindows == s.nWindows
                  && if IsOpening(o.events[0]) then o.state.phase == UserSpeaking && o.state.committed == s.committed
                     else JustCommitted(o.state, o.events[0]))
  {
  }

  /** A session right after its commit e, the window not yet counted. */
  predicate JustCommitted(s: State, e: Event) {
    && e.kind == TurnCommitted && s.phase == Idle && s.committed && !s.released
    && s.graceLeft == e.grace && e.at == s.nWindows
  }

  lemma CommittedTells(s: State, log: seq<Event>, events: seq<Event>)
    requires events != [] && Current(s) == KeyOf(events[|events| - 1]) && JustCommitted(s, events[|events| - 1])
    ensures LastIs(events, TurnCommitted) && Tells(s.(nWindows := s.nWindows + 1), log + events, false)
  {
    LogGrows(log, events);
  }

  lemma PendingTells(s: State, s': State, log: seq<Event>)
    requires Tells(s, log, s.released) && s.phase == PendingEnd && s'.phase == PendingEnd && !s'.committed
    requires Current(s') == Current(s) && s'.pendingRun == s.pendingRun + 1 && s'.nWindows == s.nWindows + 1
    ensures Tells(s', log, s.released)
  {
  }

  lemma PendingAgrees(m: Setup, s: State, w: Audio, log: seq<Event>)
    requires Sound(s) && s.phase == PendingEnd && Tells(s, log, s.released)
    ensures Agrees(m, s, w, log, MomentIn(m, s, w, m.predict(Listen(m, s, w).stream)))
  {
    hide InSpeech, LookbackCapacity, Last, Decide, Tells, Briefs, OnDelay, OnSilence, OnSpeech, JustCommitted;
    var now := MomentIn(m, s, w, m.predict(Listen(m, s, w).stream));
    assert TickGrace(s) == Outcome(s, []) && !s.committed;
    hide TickGrace;
    var listened := Listen(m, s, w);
    var decided := Decide(m, listened);
    TellsMeans(s, log);
    PendingJudged(s, log);
    PendingDecides(m, listened, KeyNow(log), log[|log| - 1].at, now);
    assert [] + decided.events == decided.events;
    if decided.events == [] {
      PendingTells(s, Hear(m, s, w).state, log);
      assert log + [] == log;
    } else if IsOpening(decided.events[0]) {
      OpenedTells(Hear(m, s, w).state, log, decided.events);
    } else {
      CommittedTells(decided.state, log, decided.events);
    }
  }

  lemma PendingJudged(s: State, log: seq<Event>)
    requires Tells(s, log, s.released) && s.phase == PendingEnd
    ensures log != [] && s.pendingRun + log[|log| - 1].at + 1 == s.nWindows
  {
  }

  /** The two halves of a window in an idle session. */
  predicate IdleParts(m: Setup, s: State, w: Audio, log: seq<Event>, now: Moment) {
    var ticked := TickGrace(s);
    var listened := Listen(m, ticked.state, w);
    && Briefs(ticked.events) == (if EndsGrace(log, now) then [Brief(TurnFinal, KeyNow(log), now.at, 0.0, 0)] else [])
    && Briefs(Decide(m, listened).events)
       == OnSpeech(KeyNow(log), LastIs(log, TurnCommitted) && !EndsGrace(log, now), now)
  }

  lemma IdleReports(m: Setup, s: State, w: Audio, log: seq<Event>)
    requires Sound(s) && s.phase == Idle && Tells(s, log, s.released)
    ensures IdleParts(m, s, w, log, MomentIn(m, s, w, m.predict(Listen(m, s, w).stream)))
  {
    hide InSpeech, LookbackCapacity, Last, TickGrace, Decide, OnSpeech, Tells, Briefs;
    var now := MomentIn(m, s, w, m.predict(Listen(m, s, w).stream));
    var ticked := TickGrace(s);
    TellsMeans(s, log);
    IdleTicks(s, log, now);
    SameVerdict(m, s, ticked.state, w);
    IdleDecides(m, Listen(m, ticked.state, w), KeyNow(log), now);
    NoBriefs();
  }

  lemma PartsJoin(m: Setup, s: State, w: Audio, log: seq<Event>, now: Moment)
    requires s.phase == Idle && PhaseOf(log) == Idle && IdleParts(m, s, w, log, now)
    ensures Briefs(Hear(m, s, w).events) == OnWindow(log, now)
  {
    hide Listen, TickGrace, Decide, OnSpeech, Briefs, EndsGrace;
    var ticked := TickGrace(s);
    var spoken := OnSpeech(KeyNow(log), LastIs(log, TurnCommitted) && !EndsGrace(log, now), now);
    BriefsJoin(ticked.events, Decide(m, Listen(m, ticked.state, w)).events);
    assert [] + spoken == spoken;
  }

  lemma IdleStays(m: Setup, s: State, w: Audio, log: seq<Event>)
    requires Sound(s) && s.phase == Idle && Tells(s, log, s.released)
    ensures var o := Hear(m, s, w);
            Tells(o.state, log + o.events, s.released) && !LastIs(o.events, TurnCommitted)
  {
    hide InSpeech, LookbackCapacity, Last, TickGrace, Decide, OnSpeech, Tells, Briefs;
    var now := MomentIn(m, s, w, m.predict(Listen(m, s, w).stream));
    var ticked := TickGrace(s);
    var listened := Listen(m, ticked.state, w);
    var decided := Decide(m, listened);
    var all := ticked.events + decided.events;
    TellsMeans(s, log);
    IdleTicks(s, log, now);
    SameVerdict(m, s, ticked.state, w);
    IdleDecides(m, listened, KeyNow(log), now);
    if decided.events != [] {
      LogGrows(ticked.events, decided.events);
      OpenedTells(Hear(m, s, w).state, log, all);
    } else {
      assert all == ticked.events;
      if EndsGrace(log, now) {
        FinalTells(Hear(m, s, w).state, log, all);
      } else {
        StillTells(s, Hear(m, s, w).state, log);
        assert log + all == log;
      }
    }
  }

  lemma IdleAgrees(m: Setup, s: State, w: Audio, log: seq<Event>)
    requires Sound(s) && s.phase == Idle && Tells(s, log, s.released)
    ensures Agrees(m, s, w, log, MomentIn(m, s, w, m.predict(Listen(m, s, w).stream)))
  {
    hide Hear, Listen, Tells, IdleParts;
    TellsMeans(s, log);
    IdleReports(m, s, w, log);
    PartsJoin(m, s, w, log, MomentIn(m, s, w, m.predict(Listen(m, s, w).stream)));
    IdleStays(m, s, w, log);
  }

  lemma WindowAgrees(m: Setup, s: State, w: Audio, log: seq<Event>)
    requires Sound(s) && Tells(s, log, s.released)
    ensures Agrees(m, s, w, log, MomentIn(m, s, w, m.predict(Listen(m, s, w).stream)))
  {
    hide Hear, Listen, Tells, Agrees, Sound;
    match s.phase {
      case Idle => IdleAgrees(m, s, w, log);
      case UserSpeaking => SpeakingAgrees(m, s, w, log);
      case PendingEnd => PendingAgrees(m, s, w, log);
    }
  }

  // ------------------------------------------------------------ the counters

  /** The verdict on a window: the upper threshold, or the lower one while the
      last window was speech. */
  predicate Heeds(m: Setup, vad: VadState, p: Params, last: bool, w: Audio) {
    var prob := m.prob(vad, w).0;
    prob >= p.vadThreshold || (last && prob >= p.vadNegThreshold)
  }

  lemma InSpeechIs(m: Setup, s: State, w: Audio)
    ensures InSpeech(m, s, w) == Heeds(m, s.vad, s.params, s.inSpeech, w)
  {
  }

  /** What a decision leaves of the counters. */
  predicate CountsKept(s: State, o: Outcome) {
    && o.state.speechRun == (if LastIs(o.events, TurnCommitted) then 0 else s.speechRun)
    && o.state.silenceRun == s.silenceRun && o.state.inSpeech == s.inSpeech
    && o.state.nWindows == s.nWindows && o.state.vad == s.vad
    && o.state.params == s.params && o.state.limits == s.limits && o.state.speaking == s.speaking
  }

  lemma IdleCounts(s: State)
    ensures CountsKept(s, DecideIdle(s))
  {
  }

  lemma SpeakingCounts(m: Setup, s: State)
    ensures CountsKept(s, DecideSpeaking(m, s))
  {
  }

  lemma PendingCounts(m: Setup, s: State)
    ensures CountsKept(s, DecidePending(m, s))
  {
  }

  lemma DecideCounts(m: Setup, s: State)
    ensures CountsKept(s, Decide(m, s))
  {
    hide CountsKept, DecideIdle, DecideSpeaking, DecidePending;
    IdleCounts(s);
    SpeakingCounts(m, s);
    PendingCounts(m, s);
  }

  lemma TickCounts(s: State)
    ensures var o := TickGrace(s);
            && o.state == s.(graceLeft := o.state.graceLeft, committed := o.state.committed, turnPcm := o.state.turnPcm)
            && !LastIs(o.events, TurnCommitted)
  {
  }

  /** The counters after a window. */
  lemma HearCounts(m: Setup, s: State, w: Audio)
    ensures var o, v := Hear(m, s, w), InSpeech(m, s, w);
            && o.state.speechRun == (if LastIs(o.events, TurnCommitted) || !v then 0 else s.speechRun + 1)
            && o.state.silenceRun == (if v then 0 else s.silenceRun + 1) && o.state.inSpeech == v
            && o.state.nWindows == s.nWindows + 1 && o.state.vad == m.prob(s.vad, w).1
            && o.state.params == s.params && o.state.limits == s.limits && o.state.speaking == s.speaking
  {
    hide InSpeech, LookbackCapacity, Last, TickGrace, Decide;
    var ticked := TickGrace(s);
    var listened := Listen(m, ticked.state, w);
    TickCounts(s);
    SameVerdict(m, s, ticked.state, w);
    DecideCounts(m, listened);
    var decided := Decide(m, listened);
    if decided.events != [] {
      LogGrows(ticked.events, decided.events);
    } else {
      assert ticked.events + decided.events == ticked.events;
    }
  }

  /** The counters are the runs of the verdicts. */
  predicate Counts(s: State, since: seq<bool>, voiced: seq<bool>) {
    && s.speechRun == VoicedRun(since) && s.silenceRun == UnvoicedRun(voiced)
    && s.inSpeech == LastVerdict(voiced) && s.nWindows == |voiced|
  }

  lemma HearKeepsCounts(m: Setup, s: State, w: Audio, since: seq<bool>, voiced: seq<bool>)
    requires Counts(s, since, voiced)
    ensures var o := Hear(m, s, w);
            var v := o.state.inSpeech;
            Counts(o.state, if LastIs(o.events, TurnCommitted) then [] else since + [v], voiced + [v])
  {
    hide Hear, InSpeech;
    HearCounts(m, s, w);
    VoicedAppend(since, InSpeech(m, s, w));
    UnvoicedAppend(voiced, InSpeech(m, s, w));
    hide VoicedRun, UnvoicedRun;
    NothingVoiced();
  }

  lemma NothingVoiced()
    ensures VoicedRun([]) == 0 && UnvoicedRun([]) == 0
  {
  }

  /** What the settings and the detector are. */
  predicate Settled(m: Setup, p: Params, vad: VadState, acts: seq<Act>, s: State)
    requires m.Valid()
  {
    && s.params == ParamsAfter(p, acts) && s.limits == LimitsOf(m, s.params)
    && s.speaking == FloorAfter(Initial(m, p, vad), acts) && s.vad == VadAfter(m, vad, acts)
  }

  // ------------------------------------------------------------ other calls

  lemma ReleaseTells(s: State, log: seq<Event>, released: bool, turn: nat, revision: nat)
    requires Sound(s) && Tells(s, log, released)
    ensures var o := Release(s, turn, revision);
            && Briefs(o.events) == OnRelease(log, Key(turn, revision), s.nWindows)
            && Tells(o.state, log + o.events,
                     released || (LastIs(log, TurnCommitted) && KeyNow(log) == Key(turn, revision)))
  {
    var o := Release(s, turn, revision);
    LogGrows(log, o.events);
  }

  lemma ReleaseCounts(s: State, turn: nat, revision: nat)
    ensures var t := Release(s, turn, revision).state;
            && t.speechRun == s.speechRun && t.silenceRun == s.silenceRun && t.inSpeech == s.inSpeech
            && t.nWindows == s.nWindows && t.vad == s.vad
            && t.params == s.params && t.limits == s.limits && t.speaking == s.speaking
  {
  }

  lemma TellsRest(s: State, s': State, log: seq<Event>, released: bool)
    requires Tells(s, log, released) && s'.phase == s.phase && s'.committed == s.committed
    requires Current(s') == Current(s) && s'.pendingRun == s.pendingRun && s'.nWindows == s.nWindows
    requires s'.released == s.released && s'.graceLeft == s.graceLeft
    ensures Tells(s', log, released)
  {
  }

  // ------------------------------------------------------------ every run

  /** The whole invariant of a run. */
  predicate Observed(m: Setup, p: Params, vad: VadState, acts: seq<Act>)
    requires m.Valid() && ValidActs(m, acts)
  {
    var s0 := Initial(m, p, vad);
    var o := Run(m, s0, acts);
    && Sound(o.state) && Tells(o.state, o.events, ReleasedSince(m, s0, acts))
    && Counts(o.state, SinceCommit(m, s0, acts), Verdicts(m, s0, acts))
    && Settled(m, p, vad, acts, o.state) && |Verdicts(m, s0, acts)| == Hears(acts)
  }

  /** A session is told the same by its own flag when that matters. */
  lemma TellsOwn(s: State, log: seq<Event>, released: bool)
    requires Tells(s, log, released)
    ensures Tells(s, log, s.released) && (LastIs(log, TurnCommitted) ==> s.released == released)
  {
  }

  /** The moment a window is heard, from the calls alone. */
  function MomentAt(m: Setup, p: Params, vad: VadState, acts: seq<Act>, w: Audio): Moment
    requires m.Valid() && ValidActs(m, acts)
  {
    var s, q := Initial(m, p, vad), ParamsAfter(p, acts);
    var voiced := Verdicts(m, s, acts);
    var v := Heeds(m, VadAfter(m, vad, acts), q, LastVerdict(voiced), w);
    Moment(LimitsOf(m, q), q.turnThreshold, FloorAfter(s, acts), ReleasedSince(m, s, acts),
           VoicedRun(SinceCommit(m, s, acts) + [v]), UnvoicedRun(voiced + [v]), Hears(acts),
           m.predict(Last(Heard(acts) + w, m.classifierWindow)))
  }

  /** Its flag aside, it is the moment the counters give. */
  lemma MomentsAgree(m: Setup, p: Params, vad: VadState, acts: seq<Act>, w: Audio)
    requires m.Valid() && ValidActs(m, acts) && |w| == m.window && Observed(m, p, vad, acts)
    ensures var s0 := Initial(m, p, vad);
            var s := Run(m, s0, acts).state;
            MomentAt(m, p, vad, acts, w) ==
              MomentIn(m, s, w, m.predict(Listen(m, s, w).stream)).(released := ReleasedSince(m, s0, acts))
  {
    hide Run, Tells, VoicedRun, UnvoicedRun, LimitsOf, FloorAfter, ReleasedSince, SinceCommit, Verdicts, VadAfter,
         InSpeech, Sound, ParamsAfter, Heard, Last, Heeds;
    var s0 := Initial(m, p, vad);
    var s := Run(m, s0, acts).state;
    EveryRunFollows(m, p, vad, acts);
    StreamOf(m, s, Heard(acts), Verdicts(m, s0, acts), w);
    InSpeechIs(m, s, w);
    VoicedAppend(SinceCommit(m, s0, acts), InSpeech(m, s, w));
    UnvoicedAppend(Verdicts(m, s0, acts), InSpeech(m, s, w));
  }

  lemma StreamOf(m: Setup, s: State, heard: Audio, voiced: seq<bool>, w: Audio)
    requires Follows(m, s, heard, voiced)
    ensures Listen(m, s, w).stream == Last(heard + w, m.classifierWindow)
  {
    LastOfAppend(heard, w, m.classifierWindow);
  }

  lemma OnWindowSame(log: seq<Event>, now: Moment, released: bool)
    requires LastIs(log, TurnCommitted) ==> now.released == released
    ensures OnWindow(log, now) == OnWindow(log, now.(released := released))
  {
    hide LastIs;
  }

  lemma WindowKeepsObserved(m: Setup, p: Params, vad: VadState, acts: seq<Act>, w: Audio)
    requires m.Valid() && ValidActs(m, acts) && |w| == m.window && Observed(m, p, vad, acts)
    ensures var all := acts + [Window(w)];
            && ValidActs(m, all) && Observed(m, p, vad, all)
            && Briefs(Hear(m, Run(m, Initial(m, p, vad), acts).state, w).events)
               == OnWindow(Run(m, Initial(m, p, vad), acts).events, MomentAt(m, p, vad, acts, w))
  {
    hide Hear, Tells, Counts, LimitsOf, Sound, OnWindow, MomentIn, Listen, MomentAt, LastIs;
    var s0 := Initial(m, p, vad);
    hide Initial;
    var all := acts + [Window(w)];
    assert all[..|all| - 1] == acts;
    var o, r := Run(m, s0, acts), ReleasedSince(m, s0, acts);
    var step := Hear(m, o.state, w);
    TellsOwn(o.state, o.events, r);
    WindowAgrees(m, o.state, w, o.events);
    var now := MomentIn(m, o.state, w, m.predict(Listen(m, o.state, w).stream));
    OwnReleased(m, o.state, w, m.predict(Listen(m, o.state, w).stream));
    MomentsAgree(m, p, vad, acts, w);
    OnWindowSame(o.events, now, r);
    HearKeepsSound(m, o.state, w);
    HearCounts(m, o.state, w);
    HearKeepsCounts(m, o.state, w, SinceCommit(m, s0, acts), Verdicts(m, s0, acts));
    TellsAfterWindow(m, o.state, step, o.events, r);
  }

  lemma OwnReleased(m: Setup, s: State, w: Audio, score: real)
    ensures MomentIn(m, s, w, score).released == s.released
  {
  }

  lemma TellsAfterWindow(m: Setup, s: State, step: Outcome, log: seq<Event>, r: bool)
    requires Tells(s, log, r)
    requires Tells(step.state, log + step.events, s.released && !LastIs(step.events, TurnCommitted))
    ensures Tells(step.state, log + step.events, r && !LastIs(step.events, TurnCommitted))
  {
    LogGrows(log, step.events);
  }

  lemma FreeKeepsObserved(m: Setup, p: Params, vad: VadState, acts: seq<Act>, turn: nat, revision: nat)
    requires m.Valid() && ValidActs(m, acts) && Observed(m, p, vad, acts)
    ensures var all := acts + [Free(turn, revision)];
            && ValidActs(m, all) && Observed(m, p, vad, all)
            && Briefs(Release(Run(m, Initial(m, p, vad), acts).state, turn, revision).events)
               == OnRelease(Run(m, Initial(m, p, vad), acts).events, Key(turn, revision), Hears(acts))
  {
    hide Release, Tells, LimitsOf, Sound, OnRelease, LastIs, Briefs, VoicedRun, UnvoicedRun, LastVerdict, KeyNow;
    var s0 := Initial(m, p, vad);
    hide Initial;
    var all := acts + [Free(turn, revision)];
    assert all[..|all| - 1] == acts;
    var o := Run(m, s0, acts);
    ReleaseTells(o.state, o.events, ReleasedSince(m, s0, acts), turn, revision);
    ApplyKeepsSound(m, o.state, Free(turn, revision));
    ReleaseCounts(o.state, turn, revision);
    assert Verdicts(m, s0, acts) + [] == Verdicts(m, s0, acts);
  }

  lemma OtherKeepsObserved(m: Setup, p: Params, vad: VadState, acts: seq<Act>, a: Act)
    requires m.Valid() && ValidActs(m, acts) && Observed(m, p, vad, acts) && (a.SetSpeaking? || a.SetParams?)
    ensures var all := acts + [a];
            && ValidActs(m, all) && Observed(m, p, vad, all)
            && Apply(m, Run(m, Initial(m, p, vad), acts).state, a).events == []
  {
    hide Tells, LimitsOf, LookbackCapacity, Last, Sound, LastIs, VoicedRun, UnvoicedRun, LastVerdict, KeyNow;
    var s0 := Initial(m, p, vad);
    hide Initial;
    var all := acts + [a];
    assert all[..|all| - 1] == acts;
    var o := Run(m, s0, acts);
    var s' := Apply(m, o.state, a).state;
    TellsRest(o.state, s', o.events, ReleasedSince(m, s0, acts));
    ApplyKeepsSound(m, o.state, a);
    assert Verdicts(m, s0, acts) + [] == Verdicts(m, s0, acts);
    assert o.events + [] == o.events;
  }

  lemma InitialObserved(m: Setup, p: Params, vad: VadState)
    requires m.Valid()
    ensures Observed(m, p, vad, [])
  {
  }

  lemma {:induction false} EveryRunObserved(m: Setup, p: Params, vad: VadState, acts: seq<Act>)
    requires m.Valid() && ValidActs(m, acts)
    ensures Observed(m, p, vad, acts)
  {
    hide Observed, Hear, Apply;
    if acts == [] {
      InitialObserved(m, p, vad);
    } else {
      var before, a := acts[..|acts| - 1], acts[|acts| - 1];
      assert before + [a] == acts;
      EveryRunObserved(m, p, vad, before);
      match a {
        case Window(w) => WindowKeepsObserved(m, p, vad, before, w);
        case Free(turn, revision) => FreeKeepsObserved(m, p, vad, before, turn, revision);
        case _ => OtherKeepsObserved(m, p, vad, before, a);
      }
    }
  }

  /** Over every run, new thresholds, releases and changes of the floor included:
      a window reports what the log so far, the verdicts and the settings say,
      and nothing else. */
  lemma EveryWindowReports(m: Setup, p: Params, vad: VadState, acts: seq<Act>, w: Audio)
    requires m.Valid() && ValidActs(m, acts) && |w| == m.window
    ensures var o := Run(m, Initial(m, p, vad), acts);
            Briefs(Hear(m, o.state, w).events) == OnWindow(o.events, MomentAt(m, p, vad, acts, w))
  {
    hide Hear, Observed, MomentAt, OnWindow, Run, Initial;
    EveryRunObserved(m, p, vad, acts);
    WindowKeepsObserved(m, p, vad, acts, w);
  }

  /** So does a release; changes of the floor and of the thresholds report
      nothing. */
  lemma EveryOtherCallReports(m: Setup, p: Params, vad: VadState, acts: seq<Act>, a: Act)
    requires m.Valid() && ValidActs(m, acts) && !a.Window?
    ensures var o := Run(m, Initial(m, p, vad), acts);
            Briefs(Apply(m, o.state, a).events) ==
              if a.Free? then OnRelease(o.events, Key(a.turn, a.revision), Hears(acts)) else []
  {
    hide Observed, OnRelease, Run, Initial, Release, Hear;
    EveryRunObserved(m, p, vad, acts);
    NoBriefs();
    if a.Free? {
      FreeKeepsObserved(m, p, vad, acts, a.turn, a.revision);
    } else {
      OtherKeepsObserved(m, p, vad, acts, a);
    }
  }

  /** Over every run the verdict on a window is the one of the two thresholds. */
  lemma EveryVerdict(m: Setup, p: Params, vad: VadState, acts: seq<Act>, w: Audio)
    requires m.Valid() && ValidActs(m, acts) && |w| == m.window
    ensures var s, all := Initial(m, p, vad), acts + [Window(w)];
            var voiced := Verdicts(m, s, acts);
            && ValidActs(m, all)
            && Verdicts(m, s, all) ==
                 voiced + [Heeds(m, VadAfter(m, vad, acts), ParamsAfter(p, acts), LastVerdict(voiced), w)]
  {
    hide Hear, Tells, LimitsOf, Sound, SinceCommit, ReleasedSince, FloorAfter, VoicedRun, UnvoicedRun, Heeds, InSpeech;
    var s := Initial(m, p, vad);
    hide Initial;
    var all := acts + [Window(w)];
    assert all[..|all| - 1] == acts;
    EveryRunObserved(m, p, vad, acts);
    HearCounts(m, Run(m, s, acts).state, w);
    InSpeechIs(m, Run(m, s, acts).state, w);
  }

  // ------------------------------------------------------------ the silence that ends speech

  /** A session in speech has not yet counted the silence that ends it. */
  predicate StillSpeaking(s: State) {
    s.phase == UserSpeaking ==> s.silenceRun < s.limits.close
  }

  lemma DecideKeepsSpeaking(m: Setup, s: State)
    requires s.phase != UserSpeaking && s.speechRun > 0 ==> s.silenceRun == 0
    ensures StillSpeaking(Decide(m, s).state)
  {
  }

  lemma HearKeepsSpeaking(m: Setup, s: State, w: Audio)
    ensures StillSpeaking(Hear(m, s, w).state)
  {
    hide InSpeech, LookbackCapacity, Last, TickGrace, Decide;
    var listened := Listen(m, TickGrace(s).state, w);
    DecideKeepsSpeaking(m, listened);
  }

  lemma {:induction false} EveryRunStillSpeaks(m: Setup, p: Params, vad: VadState, acts: seq<Act>)
    requires m.Valid() && ValidActs(m, acts) && Untuned(acts)
    ensures StillSpeaking(Run(m, Initial(m, p, vad), acts).state)
    ensures Run(m, Initial(m, p, vad), acts).state.limits == LimitsOf(m, p)
  {
    hide Hear, LimitsOf;
    if acts != [] {
      var before, a := acts[..|acts| - 1], acts[|acts| - 1];
      EveryRunStillSpeaks(m, p, vad, before);
      if a.Window? {
        HearKeepsSpeaking(m, Run(m, Initial(m, p, vad), before).state, a.w);
        HearKeepsLimits(m, Run(m, Initial(m, p, vad), before).state, a.w);
      }
    }
  }

  predicate BriefsHave(briefs: seq<Brief>, kind: Kind) {
    exists i :: 0 <= i < |briefs| && briefs[i].kind == kind
  }

  lemma OnlySilenceStops(log: seq<Event>, now: Moment)
    ensures BriefsHave(OnWindow(log, now), SpeechStopped) <==>
              PhaseOf(log) == UserSpeaking && now.silence >= now.limits.close
  {
    if PhaseOf(log) == UserSpeaking && now.silence >= now.limits.close {
      assert OnWindow(log, now)[0].kind == SpeechStopped;
    }
  }

  /** Under unchanged thresholds speech stops on exactly the window that
      completes as many unvoiced windows in a row as configured, and only while
      the user speaks. */
  lemma SpeechStopsExactly(m: Setup, p: Params, vad: VadState, acts: seq<Act>, w: Audio)
    requires m.Valid() && ValidActs(m, acts) && Untuned(acts) && |w| == m.window
    ensures var s, all := Initial(m, p, vad), acts + [Window(w)];
            && ValidActs(m, all)
            && (Reports(Hear(m, Run(m, s, acts).state, w).events, SpeechStopped) <==>
                  && PhaseOf(Run(m, s, acts).events) == UserSpeaking
                  && UnvoicedRun(Verdicts(m, s, all)) == LimitsOf(m, p).close)
  {
    hide Hear, Run, LimitsOf, OnWindow, Verdicts, Reports, Heeds, Tells, SinceCommit, ReleasedSince, FloorAfter,
         PhaseOf, Sound, VadAfter, VoicedRun;
    var s := Initial(m, p, vad);
    hide Initial;
    var o, now := Run(m, s, acts), MomentAt(m, p, vad, acts, w);
    EveryWindowReports(m, p, vad, acts, w);
    EveryVerdict(m, p, vad, acts, w);
    EveryRunObserved(m, p, vad, acts);
    EveryRunStillSpeaks(m, p, vad, acts);
    TellsPhase(o.state, o.events, ReleasedSince(m, s, acts));
    OnlySilenceStops(o.events, now);
    ReportsBriefly(Hear(m, o.state, w).events, SpeechStopped);
    UntunedParams(p, acts);
    UnvoicedAppend(Verdicts(m, s, acts),
                   Heeds(m, VadAfter(m, vad, acts), ParamsAfter(p, acts), LastVerdict(Verdicts(m, s, acts)), w));
  }

  lemma TellsPhase(s: State, log: seq<Event>, released: bool)
    requires Tells(s, log, released)
    ensures s.phase == PhaseOf(log)
  {
  }

  lemma ReportsBriefly(events: seq<Event>, kind: Kind)
    ensures Reports(events, kind) <==> BriefsHave(Briefs(events), kind)
  {
    if Reports(events, kind) {
      var i :| 0 <= i < |events| && events[i].kind == kind;
      assert Briefs(events)[i].kind == kind;
    }
    if BriefsHave(Briefs(events), kind) {
      var i :| 0 <= i < |events| && Briefs(events)[i].kind == kind;
      assert events[i].kind == kind;
    }
  }

  lemma {:induction false} UntunedParams(p: Params, acts: seq<Act>)
    requires Untuned(acts)
    ensures ParamsAfter(p, acts) == p
  {
    if acts != [] {
      UntunedParams(p, acts[..|acts| - 1]);
    }
  }

  /** Silence along the way stays shorter than configured. */
  predicate Unsilenced(m: Setup, p: Params, vad: VadState, acts: seq<Act>, more: seq<Act>)
    requires m.Valid() && ValidActs(m, acts + more)
  {
    more == [] ||
    var before := more[..|more| - 1];
    && ValidActs(m, acts + before) && Unsilenced(m, p, vad, acts, before)
    && UnvoicedRun(Verdicts(m, Initial(m, p, vad), acts + more)) < LimitsOf(m, p).close
  }

  /** Until then nothing is reported, whatever else is called, and the turn goes
      on under its name. */
  lemma {:induction false} UntilSilence(m: Setup, p: Params, vad: VadState, acts: seq<Act>, more: seq<Act>)
    requires m.Valid() && ValidActs(m, acts + more) && Untuned(acts + more) && Unsilenced(m, p, vad, acts, more)
    requires ValidActs(m, acts) && PhaseOf(Run(m, Initial(m, p, vad), acts).events) == UserSpeaking
    ensures var s := Initial(m, p, vad);
            var now := Run(m, s, acts + more);
            && now.events == Run(m, s, acts).events && now.state.phase == UserSpeaking
            && Current(now.state) == Current(Run(m, s, acts).state)
    decreases |more|
  {
    hide Hear, Apply, OnWindow, LimitsOf, PhaseOf, Initial, Observed, OnRelease;
    var s := Initial(m, p, vad);
    if more == [] {
      assert acts + more == acts;
      EveryRunObserved(m, p, vad, acts);
      SpeakingNow(m, p, vad, acts);
    } else {
      var before, a := more[..|more| - 1], more[|more| - 1];
      assert acts + more == acts + before + [a];
      assert (acts + more)[..|acts + more| - 1] == acts + before;
      UntilSilence(m, p, vad, acts, before);
      NothingReported(m, p, vad, acts + before, a);
      EveryRunObserved(m, p, vad, acts);
      EveryRunObserved(m, p, vad, acts + more);
      SpeakingNow(m, p, vad, acts);
      SpeakingNow(m, p, vad, acts + more);
      assert Run(m, s, acts + before).events + [] == Run(m, s, acts + before).events;
    }
  }

  lemma SpeakingNow(m: Setup, p: Params, vad: VadState, acts: seq<Act>)
    requires m.Valid() && ValidActs(m, acts) && Observed(m, p, vad, acts)
    ensures var o := Run(m, Initial(m, p, vad), acts);
            o.state.phase == PhaseOf(o.events) && Current(o.state) == KeyNow(o.events)
  {
    hide Run, PhaseOf, KeyNow, SinceCommit, ReleasedSince, Verdicts, Settled, Counts;
  }

  /** One call while the user speaks, short of the silence. */
  lemma NothingReported(m: Setup, p: Params, vad: VadState, acts: seq<Act>, a: Act)
    requires m.Valid() && ValidActs(m, acts) && ValidAct(m, a) && Untuned(acts + [a])
    requires PhaseOf(Run(m, Initial(m, p, vad), acts).events) == UserSpeaking && ValidActs(m, acts + [a])
    requires UnvoicedRun(Verdicts(m, Initial(m, p, vad), acts + [a])) < LimitsOf(m, p).close
    ensures Apply(m, Run(m, Initial(m, p, vad), acts).state, a).events == []
  {
    hide Hear, Run, LimitsOf, Initial, Verdicts, Heeds, ReleasedSince, SinceCommit, FloorAfter, VadAfter, VoicedRun;
    assert forall i :: 0 <= i < |acts| ==> acts[i] == (acts + [a])[i];
    UntunedParams(p, acts);
    var s := Initial(m, p, vad);
    match a {
      case Window(w) =>
        EveryWindowReports(m, p, vad, acts, w);
        EveryVerdict(m, p, vad, acts, w);
        BriefsEmpty(Hear(m, Run(m, s, acts).state, w).events);
      case _ =>
        EveryOtherCallReports(m, p, vad, acts, a);
        hide Apply;
        BriefsEmpty(Apply(m, Run(m, s, acts).state, a).events);
    }
  }

  lemma BriefsEmpty(events: seq<Event>)
    ensures Briefs(events) == [] <==> events == []
  {
    assert |Briefs(events)| == |events|;
  }

  /** A turn the classifier finds unfinished waits, its count at zero. */
  lemma UnfinishedWaits(m: Setup, s: State, w: Audio)
    requires Reports(Hear(m, s, w).events, TurnReopened)
    ensures var t := Hear(m, s, w).state; t.phase == PendingEnd && t.pendingRun == 0 && Current(t) == Current(s)
  {
    hide InSpeech, LookbackCapacity, Last, TickGrace;
    TickCounts(s);
    TickReopensNothing(s);
  }

  lemma TickReopensNothing(s: State)
    ensures !Reports(TickGrace(s).events, TurnReopened)
  {
  }
}
