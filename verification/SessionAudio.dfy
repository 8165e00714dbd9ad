/** The audio of a turn, against the whole stream the session heard: what a
    turn holds is an exact suffix of the stream, what a commit hands over ends
    the speech pad after the last speech and leaves out no speech since the
    turn opened, and a turn opens on audio that reaches back before the speech
    that opened it. */
module SessionAudio {
  import opened Seqs
  import opened Session
  import opened SessionTrace

  // ---------------------------------------------------- the whole stream

  function Heard(acts: seq<Act>): Audio {
    if acts == [] then []
    else Heard(acts[..|acts| - 1]) + (if acts[|acts| - 1].Window? then acts[|acts| - 1].w else [])
  }

  /** The verdict of the detector on every window. */
  function Verdicts(m: Setup, s: State, acts: seq<Act>): seq<bool>
    requires m.Valid() && ValidActs(m, acts)
  {
    if acts == [] then []
    else
      var before := acts[..|acts| - 1];
      Verdicts(m, s, before) + (if acts[|acts| - 1].Window? then [Run(m, s, acts).state.inSpeech] else [])
  }

  /** One past the last voiced window, 0 when there is none. */
  function VoicedEnd(voiced: seq<bool>): (n: nat)
    ensures n <= |voiced|
    ensures forall i :: n <= i < |voiced| ==> !voiced[i]
    ensures n > 0 ==> voiced[n - 1]
  {
    if voiced == [] then 0
    else if voiced[|voiced| - 1] then |voiced|
    else VoicedEnd(voiced[..|voiced| - 1])
  }

  /** Voiced windows in a row up to now. */
  function VoicedRun(voiced: seq<bool>): (n: nat)
    ensures n <= |voiced|
    ensures forall i :: |voiced| - n <= i < |voiced| ==> voiced[i]
    ensures n < |voiced| ==> !voiced[|voiced| - 1 - n]
  {
    if voiced == [] || !voiced[|voiced| - 1] then 0
    else VoicedRun(voiced[..|voiced| - 1]) + 1
  }

  // ------------------------------------------------------- the invariant

  /** While a turn is live its audio is an exact suffix of the stream, and
      speechEnd marks the end of the last voiced window of that stream. */
  predicate TurnAudio(m: Setup, s: State, heard: Audio, voiced: seq<bool>) {
    Live(s) ==>
      && IsSuffix(s.turnPcm, heard)
      && m.window <= s.speechEnd <= |s.turnPcm|
      && |heard| - |s.turnPcm| + s.speechEnd == VoicedEnd(voiced) * m.window
  }

  predicate Follows(m: Setup, s: State, heard: Audio, voiced: seq<bool>) {
    && Sound(s)
    && |heard| == |voiced| * m.window
    && IsSuffix(s.lookback, heard)
    && s.stream == Last(heard, m.classifierWindow)
    && s.speechRun <= VoicedRun(voiced)
    && TurnAudio(m, s, heard, voiced)
  }

  lemma VoicedAppend(voiced: seq<bool>, speech: bool)
    ensures VoicedEnd(voiced + [speech]) == if speech then |voiced| + 1 else VoicedEnd(voiced)
    ensures VoicedRun(voiced + [speech]) == if speech then VoicedRun(voiced) + 1 else 0
  {
  }

  lemma CapacityHolds(m: Setup, l: Limits, windows: nat)
    requires windows <= Max(l.open, l.barge) + l.pad
    ensures windows * m.window <= LookbackCapacity(m, l)
  {
  }

  lemma ListenTurnAudio(m: Setup, s: State, heard: Audio, voiced: seq<bool>, w: Audio)
    requires |w| == m.window && |heard| == |voiced| * m.window && TurnAudio(m, s, heard, voiced)
    ensures var s' := Listen(m, s, w); TurnAudio(m, s', heard + w, voiced + [s'.inSpeech])
  {
    hide InSpeech, LookbackCapacity, Last, VoicedEnd, IsSuffix;
    VoicedAppend(voiced, InSpeech(m, s, w));
    assert (|voiced| + 1) * m.window == |voiced| * m.window + m.window;
    if Live(s) {
      SuffixOfAppend(s.turnPcm, heard, w);
    }
  }

  lemma ListenRings(m: Setup, s: State, heard: Audio, w: Audio)
    requires |w| == m.window && IsSuffix(s.lookback, heard) && s.stream == Last(heard, m.classifierWindow)
    ensures var s' := Listen(m, s, w);
            && IsSuffix(s'.lookback, heard + w)
            && |s'.lookback| >= m.window
            && s'.stream == Last(heard + w, m.classifierWindow)
  {
    hide InSpeech, LookbackCapacity;
    SuffixOfAppend(s.lookback, heard, w);
    LastIsSuffix(s.lookback + w, heard + w, LookbackCapacity(m, s.limits));
    CapacityHolds(m, s.limits, 1);
    LastOfAppend(heard, w, m.classifierWindow);
  }

  /** What holds once a window is in the rings and in the turn, before the
      state machine looks at it. */
  lemma ListenFollows(m: Setup, s: State, heard: Audio, voiced: seq<bool>, w: Audio)
    requires m.Valid() && |w| == m.window && Follows(m, s, heard, voiced)
    ensures var s' := Listen(m, s, w);
            && Follows(m, s', heard + w, voiced + [s'.inSpeech])
            && |s'.lookback| >= m.window
            && (s'.speechRun > 0 ==> s'.inSpeech)
  {
    ListenTurnAudio(m, s, heard, voiced, w);
    ListenRings(m, s, heard, w);
    hide InSpeech, TurnAudio, LookbackCapacity, Last, IsSuffix;
    VoicedAppend(voiced, InSpeech(m, s, w));
    assert (|voiced| + 1) * m.window == |voiced| * m.window + m.window;
  }

  /** A new turn starts from a suffix of the stream that ends on speech. */
  lemma OpenTurnFollows(m: Setup, s: State, heard: Audio, voiced: seq<bool>)
    requires m.Valid() && Follows(m, s, heard, voiced) && |s.lookback| >= m.window
    requires VoicedEnd(voiced) == |voiced|
    ensures Follows(m, OpenTurn(s).state, heard, voiced)
  {
  }

  lemma DecideFollows(m: Setup, s: State, heard: Audio, voiced: seq<bool>)
    requires m.Valid() && Follows(m, s, heard, voiced) && |s.lookback| >= m.window
    requires s.speechRun > 0 ==> VoicedEnd(voiced) == |voiced|
    ensures Follows(m, Decide(m, s).state, heard, voiced)
  {
    hide Follows, OpenTurn, Decide;
    FollowsMeansSound(m, s, heard, voiced);
    DecideKeepsSound(m, s);
    if s.phase == Idle && s.speechRun >= OpenNeed(s) && !(s.committed && s.speechRun >= s.limits.reopen) {
      DecideOpensTurn(m, s);
      OpenTurnFollows(m, s, heard, voiced);
    } else {
      DecideGoesOn(m, s);
      SameFollows(m, s, Decide(m, s).state, heard, voiced);
    }
  }

  lemma DecideOpensTurn(m: Setup, s: State)
    requires s.phase == Idle && s.speechRun >= OpenNeed(s) && !(s.committed && s.speechRun >= s.limits.reopen)
    ensures Decide(m, s).state == OpenTurn(s).state
  {
  }

  /** A decision that opens no turn leaves the audio as it is. */
  lemma DecideGoesOn(m: Setup, s: State)
    requires Sound(s)
    requires s.phase == Idle && s.speechRun >= OpenNeed(s) ==> s.committed && s.speechRun >= s.limits.reopen
    ensures var s' := Decide(m, s).state;
            && s'.speechRun <= s.speechRun && s'.lookback == s.lookback && s'.stream == s.stream
            && (Live(s') ==> Live(s) && s'.turnPcm == s.turnPcm && s'.speechEnd == s.speechEnd)
  {
    hide OpenTurn;
  }

  lemma FollowsMeansSound(m: Setup, s: State, heard: Audio, voiced: seq<bool>)
    requires Follows(m, s, heard, voiced)
    ensures Sound(s)
  {
  }

  /** A step that hears nothing and opens no turn. */
  lemma SameFollows(m: Setup, s: State, s': State, heard: Audio, voiced: seq<bool>)
    requires Follows(m, s, heard, voiced) && Sound(s') && s'.speechRun <= s.speechRun
    requires s'.lookback == s.lookback && s'.stream == s.stream
    requires Live(s') ==> Live(s) && s'.turnPcm == s.turnPcm && s'.speechEnd == s.speechEnd
    ensures Follows(m, s', heard, voiced)
  {
  }

  lemma CountFollows(m: Setup, s: State, heard: Audio, voiced: seq<bool>, n: nat)
    requires Follows(m, s, heard, voiced)
    ensures Follows(m, s.(nWindows := n), heard, voiced)
  {
  }

  lemma TickFollows(m: Setup, s: State, heard: Audio, voiced: seq<bool>)
    requires Follows(m, s, heard, voiced)
    ensures Follows(m, TickGrace(s).state, heard, voiced)
  {
  }

  lemma DecideKeepsVerdict(m: Setup, s: State)
    ensures Decide(m, s).state.inSpeech == s.inSpeech && Decide(m, s).state.limits == s.limits
  {
  }

  lemma HearFollows(m: Setup, s: State, heard: Audio, voiced: seq<bool>, w: Audio)
    requires m.Valid() && |w| == m.window && Follows(m, s, heard, voiced)
    ensures var s' := Hear(m, s, w).state;
            Follows(m, s', heard + w, voiced + [s'.inSpeech])
  {
    hide TickGrace, Listen, Decide, Follows;
    var ticked := TickGrace(s).state;
    var listened := Listen(m, ticked, w);
    var decided := Decide(m, listened).state;
    TickFollows(m, s, heard, voiced);
    ListenFollows(m, ticked, heard, voiced, w);
    VoicedAppend(voiced, listened.inSpeech);
    DecideFollows(m, listened, heard + w, voiced + [listened.inSpeech]);
    DecideKeepsVerdict(m, listened);
    CountFollows(m, decided, heard + w, voiced + [listened.inSpeech], decided.nWindows + 1);
  }

  lemma ApplyFollows(m: Setup, s: State, heard: Audio, voiced: seq<bool>, a: Act)
    requires m.Valid() && ValidAct(m, a) && Follows(m, s, heard, voiced)
    ensures var s' := Apply(m, s, a).state;
            if a.Window? then Follows(m, s', heard + a.w, voiced + [s'.inSpeech]) else Follows(m, s', heard, voiced)
  {
    hide Hear;
    match a {
      case Window(w) => HearFollows(m, s, heard, voiced, w);
      case SetParams(p) => LastIsSuffix(s.lookback, heard, LookbackCapacity(m, LimitsOf(m, p)));
      case _ =>
    }
  }

  lemma InitialFollows(m: Setup, p: Params, vad: VadState)
    requires m.Valid()
    ensures Follows(m, Initial(m, p, vad), [], [])
  {
  }

  /** Over every run, new thresholds and releases included. */
  lemma {:induction false} EveryRunFollows(m: Setup, p: Params, vad: VadState, acts: seq<Act>)
    requires m.Valid() && ValidActs(m, acts)
    ensures var s := Initial(m, p, vad);
            Follows(m, Run(m, s, acts).state, Heard(acts), Verdicts(m, s, acts))
  {
    hide Apply, Follows, Initial;
    var s := Initial(m, p, vad);
    if acts == [] {
      InitialFollows(m, p, vad);
    } else {
      var before := acts[..|acts| - 1];
      EveryRunFollows(m, p, vad, before);
      ApplyFollows(m, Run(m, s, before).state, Heard(before), Verdicts(m, s, before), acts[|acts| - 1]);
      assert Heard(before) + [] == Heard(before);
      assert Verdicts(m, s, before) + [] == Verdicts(m, s, before);
    }
  }

  // ---------------------------------------------------- since the opening

  /** The report that a turn has opened. */
  predicate Begins(e: Event, turn: nat) {
    e.kind == SpeechStarted && e.turn == turn && e.revision == 0
  }

  /** The turn was reported open, and audio that starts at `start` takes in
      the window it was reported on. */
  predicate Reaches(m: Setup, log: seq<Event>, turn: nat, start: int) {
    && (exists i :: 0 <= i < |log| && Begins(log[i], turn))
    && (forall i :: 0 <= i < |log| && Begins(log[i], turn) ==> start <= log[i].at * m.window)
  }

  /** The same of the live turn, when n samples have been heard. */
  predicate Anchored(m: Setup, s: State, n: nat, log: seq<Event>) {
    Live(s) ==> Reaches(m, log, s.turnId, n - |s.turnPcm|)
  }

  /** A step that opens no turn: what the turn holds grows with the stream. */
  lemma GoesOn(m: Setup, s: State, s': State, n: nat, n': nat, log: seq<Event>, more: seq<Event>)
    requires Anchored(m, s, n, log)
    requires Live(s') ==> Live(s) && s'.turnId == s.turnId && n' - |s'.turnPcm| == n - |s.turnPcm|
    requires forall e :: e in more ==> !Begins(e, s.turnId)
    ensures Anchored(m, s', n', log + more)
  {
    if Live(s') {
      var i :| 0 <= i < |log| && Begins(log[i], s.turnId);
      assert (log + more)[i] == log[i];
      forall j | |log| <= j < |log + more|
        ensures !Begins((log + more)[j], s.turnId)
      {
        assert (log + more)[j] in more;
      }
    }
  }

  /** The lookback holds the window that opens a turn. */
  lemma OpeningAnchors(m: Setup, s: State, n: nat, log: seq<Event>, before: seq<Event>)
    requires Named(s, log) && n == (s.nWindows + 1) * m.window && |s.lookback| >= m.window
    requires forall e :: e in before ==> e.turn == s.turnId
    ensures Anchored(m, OpenTurn(s).state, n, log + (before + OpenTurn(s).events))
  {
    var all := log + (before + OpenTurn(s).events);
    var last := |log| + |before|;
    assert all[last] == OpenTurn(s).events[0];
    forall i | 0 <= i < last
      ensures all[i].turn <= s.turnId
    {
      if i < |log| {
        assert all[i] == log[i];
      } else {
        assert all[i] in before;
      }
    }
    assert n - m.window == s.nWindows * m.window;
  }

  lemma DecideIdleAnchored(m: Setup, s: State, n: nat, log: seq<Event>)
    requires Named(s, log) && Anchored(m, s, n, log) && s.phase == Idle
    requires n == (s.nWindows + 1) * m.window && |s.lookback| >= m.window
    ensures Anchored(m, DecideIdle(s).state, n, log + DecideIdle(s).events)
  {
    hide Anchored, Named;
    var o := DecideIdle(s);
    if (!s.committed || s.speechRun < s.limits.reopen) && s.speechRun >= OpenNeed(s) {
      OpeningAnchors(m, s, n, log, if s.speaking then [Report(s, BargeIn, 0.0)] else []);
    } else {
      GoesOn(m, s, o.state, n, n, log, o.events);
    }
  }

  lemma DecideAnchored(m: Setup, s: State, n: nat, log: seq<Event>)
    requires Named(s, log) && Anchored(m, s, n, log)
    requires n == (s.nWindows + 1) * m.window && |s.lookback| >= m.window
    ensures Anchored(m, Decide(m, s).state, n, log + Decide(m, s).events)
  {
    hide Anchored, Named, DecideIdle;
    if s.phase == Idle {
      DecideIdleAnchored(m, s, n, log);
    } else {
      var o := Decide(m, s);
      GoesOn(m, s, o.state, n, n, log, o.events);
    }
  }

  lemma TickAnchored(m: Setup, s: State, n: nat, log: seq<Event>)
    requires Sound(s) && Anchored(m, s, n, log)
    ensures Anchored(m, TickGrace(s).state, n, log + TickGrace(s).events)
    ensures TickGrace(s).state.nWindows == s.nWindows
  {
    hide Anchored;
    GoesOn(m, s, TickGrace(s).state, n, n, log, TickGrace(s).events);
  }

  lemma ListenAnchored(m: Setup, s: State, n: nat, log: seq<Event>, w: Audio)
    requires |w| == m.window && Anchored(m, s, n, log)
    ensures Anchored(m, Listen(m, s, w), n + |w|, log) && Listen(m, s, w).nWindows == s.nWindows
  {
    hide Anchored, InSpeech, LookbackCapacity, Last;
    GoesOn(m, s, Listen(m, s, w), n, n + |w|, log, []);
    assert log + [] == log;
  }

  lemma CountsAnchored(m: Setup, s: State, n: nat, log: seq<Event>, count: nat)
    requires Anchored(m, s, n, log)
    ensures Anchored(m, s.(nWindows := count), n, log)
  {
  }

  lemma DecideKeepsCount(m: Setup, s: State)
    ensures Decide(m, s).state.nWindows == s.nWindows
  {
  }

  lemma HearAnchored(m: Setup, s: State, heard: Audio, voiced: seq<bool>, log: seq<Event>, w: Audio)
    requires m.Valid() && |w| == m.window && Follows(m, s, heard, voiced) && Traced(s, log)
    requires |heard| == s.nWindows * m.window && Anchored(m, s, |heard|, log)
    ensures var o := Hear(m, s, w);
            Anchored(m, o.state, |heard + w|, log + o.events) && |heard + w| == o.state.nWindows * m.window
  {
    hide TickGrace, Listen, Decide, Follows, Traced, Anchored, Named;
    var ticked := TickGrace(s);
    var listened := Listen(m, ticked.state, w);
    var decided := Decide(m, listened);
    SoundAndNamed(s, log);
    TickAnchored(m, s, |heard|, log);
    TickFollows(m, s, heard, voiced);
    TickKeepsTraced(s, log);
    ListenAnchored(m, ticked.state, |heard|, log + ticked.events, w);
    ListenFollows(m, ticked.state, heard, voiced, w);
    ListenKeepsTraced(m, ticked.state, log + ticked.events, w);
    SoundAndNamed(listened, log + ticked.events);
    assert (s.nWindows + 1) * m.window == s.nWindows * m.window + m.window;
    DecideAnchored(m, listened, |heard + w|, log + ticked.events);
    DecideKeepsCount(m, listened);
    assert log + ticked.events + decided.events == log + (ticked.events + decided.events);
    CountsAnchored(m, decided.state, |heard + w|, log + (ticked.events + decided.events), listened.nWindows + 1);
  }

  lemma SoundAndNamed(s: State, log: seq<Event>)
    requires Traced(s, log)
    ensures Sound(s) && Named(s, log)
  {
  }

  lemma ApplyAnchored(m: Setup, s: State, heard: Audio, voiced: seq<bool>, log: seq<Event>, a: Act)
    requires m.Valid() && ValidAct(m, a) && Follows(m, s, heard, voiced) && Traced(s, log)
    requires |heard| == s.nWindows * m.window && Anchored(m, s, |heard|, log)
    ensures var o := Apply(m, s, a);
            var heard' := if a.Window? then heard + a.w else heard;
            Anchored(m, o.state, |heard'|, log + o.events) && |heard'| == o.state.nWindows * m.window
  {
    hide Hear, Follows, Traced, Anchored, LookbackCapacity, LimitsOf, Last;
    SoundAndNamed(s, log);
    if a.Window? {
      HearAnchored(m, s, heard, voiced, log, a.w);
    } else {
      var o := Apply(m, s, a);
      GoesOn(m, s, o.state, |heard|, |heard|, log, o.events);
    }
  }

  /** Over every run, the live turn holds the stream from the window that
      opened it, or from before it. */
  lemma {:induction false} EveryRunAnchored(m: Setup, p: Params, vad: VadState, acts: seq<Act>)
    requires m.Valid() && ValidActs(m, acts)
    ensures var o := Run(m, Initial(m, p, vad), acts);
            && Anchored(m, o.state, |Heard(acts)|, o.events)
            && |Heard(acts)| == o.state.nWindows * m.window
  {
    hide Apply, Follows, Traced, Anchored, LimitsOf;
    var s := Initial(m, p, vad);
    if acts == [] {
      InitialAnchored(m, p, vad);
    } else {
      var before := acts[..|acts| - 1];
      var o := Run(m, s, before);
      EveryRunAnchored(m, p, vad, before);
      EveryRunFollows(m, p, vad, before);
      EveryRunIsTraced(m, p, vad, before);
      ApplyAnchored(m, o.state, Heard(before), Verdicts(m, s, before), o.events, acts[|acts| - 1]);
      assert Heard(before) + [] == Heard(before);
    }
  }

  lemma InitialAnchored(m: Setup, p: Params, vad: VadState)
    requires m.Valid()
    ensures Anchored(m, Initial(m, p, vad), 0, [])
  {
  }

  // ---------------------------------------------------------- the commits

  /** What a commit hands over, out of the stream heard so far: everything the
      turn holds, up to the speech pad after the last voiced window. */
  predicate HandsOver(m: Setup, pad: nat, e: Event, heard: Audio, voiced: seq<bool>) {
    var start := |heard| - |e.held|;
    var end := Min(|heard|, (VoicedEnd(voiced) + pad) * m.window);
    && IsSuffix(e.held, heard)
    && start + m.window <= VoicedEnd(voiced) * m.window <= end
    && e.pcm == heard[start..end]
  }

  lemma DecideHandsOver(m: Setup, s: State, heard: Audio, voiced: seq<bool>, e: Event)
    requires m.Valid() && Follows(m, s, heard, voiced)
    requires e in Decide(m, s).events && e.kind == TurnCommitted
    ensures HandsOver(m, s.limits.pad, e, heard, voiced)
  {
    assert Live(s) && e.held == s.turnPcm
        && e.pcm == s.turnPcm[..Min(|s.turnPcm|, s.speechEnd + s.limits.pad * m.window)];
    HeldHandsOver(m, s, e, heard, voiced);
  }

  lemma Products(end: nat, pad: nat, windows: nat, window: nat)
    requires end <= windows
    ensures (end + pad) * window == end * window + pad * window && end * window <= windows * window
  {
  }

  lemma HeldHandsOver(m: Setup, s: State, e: Event, heard: Audio, voiced: seq<bool>)
    requires |heard| == |voiced| * m.window && TurnAudio(m, s, heard, voiced) && Live(s)
    requires e.held == s.turnPcm
    requires e.pcm == s.turnPcm[..Min(|s.turnPcm|, s.speechEnd + s.limits.pad * m.window)]
    ensures HandsOver(m, s.limits.pad, e, heard, voiced)
  {
    hide HandsOver, VoicedEnd, IsSuffix;
    var end, pad := VoicedEnd(voiced), s.limits.pad;
    var voicedEnd, padded := end * m.window, pad * m.window;
    Products(end, pad, |voiced|, m.window);
    PaddedCut(s.turnPcm, heard, s.speechEnd, voicedEnd, padded);
    HandsOverIs(m, pad, e, heard, voiced, voicedEnd, padded);
  }

  lemma HandsOverIs(m: Setup, pad: nat, e: Event, heard: Audio, voiced: seq<bool>, voicedEnd: nat, padded: nat)
    requires IsSuffix(e.held, heard) && |heard| - |e.held| + m.window <= voicedEnd <= |heard|
    requires VoicedEnd(voiced) * m.window == voicedEnd && (VoicedEnd(voiced) + pad) * m.window == voicedEnd + padded
    requires e.pcm == heard[|heard| - |e.held|..Min(|heard|, voicedEnd + padded)]
    ensures HandsOver(m, pad, e, heard, voiced)
  {
  }

  /** Up to the pad after the speech in the turn is up to the pad after it in
      the stream. */
  lemma PaddedCut(held: Audio, heard: Audio, speechEnd: nat, voicedEnd: nat, padded: nat)
    requires IsSuffix(held, heard) && |heard| - |held| + speechEnd == voicedEnd <= |heard|
    ensures held[..Min(|held|, speechEnd + padded)] == heard[|heard| - |held|..Min(|heard|, voicedEnd + padded)]
  {
  }

  lemma TickCommitsNothing(s: State)
    ensures forall e :: e in TickGrace(s).events ==> e.kind == TurnFinal
    ensures TickGrace(s).state.limits == s.limits
  {
  }

  lemma CommitHandsOver(m: Setup, s: State, heard: Audio, voiced: seq<bool>, w: Audio, e: Event)
    requires m.Valid() && |w| == m.window && Follows(m, s, heard, voiced)
    requires e in Hear(m, s, w).events && e.kind == TurnCommitted
    ensures HandsOver(m, s.limits.pad, e, heard + w, voiced + [Hear(m, s, w).state.inSpeech])
  {
    var ticked := TickGrace(s).state;
    var listened := Listen(m, ticked, w);
    assert listened.limits == ticked.limits;
    TickCommitsNothing(s);
    hide TickGrace, Listen, Decide, Follows, HandsOver;
    TickFollows(m, s, heard, voiced);
    ListenFollows(m, ticked, heard, voiced, w);
    DecideKeepsVerdict(m, listened);
    DecideHandsOver(m, listened, heard + w, voiced + [listened.inSpeech], e);
  }

  /** Window k of the stream, as the recognizer receives it. */
  predicate Inside(m: Setup, e: Event, heard: Audio, k: nat) {
    var start := |heard| - |e.held|;
    var from := k * m.window;
    && 0 <= start <= from && from + m.window <= Min(|heard|, start + |e.pcm|)
    && e.pcm[from - start..from - start + m.window] == heard[from..from + m.window]
  }

  /** Every window with speech in it, from the opening of the turn on, is in
      the audio of the commit. */
  predicate MissesNoSpeech(m: Setup, log: seq<Event>, e: Event, heard: Audio, voiced: seq<bool>) {
    && Reaches(m, log, e.turn, |heard| - |e.held|)
    && forall i, k :: 0 <= i < |log| && Begins(log[i], e.turn) && log[i].at <= k < |voiced| && voiced[k] ==>
         Inside(m, e, heard, k)
  }

  lemma VoicedInside(m: Setup, pad: nat, e: Event, heard: Audio, voiced: seq<bool>, at: nat, k: nat)
    requires HandsOver(m, pad, e, heard, voiced)
    requires |heard| - |e.held| <= at * m.window && at <= k < |voiced| && voiced[k]
    ensures Inside(m, e, heard, k)
  {
    var start, end := |heard| - |e.held|, VoicedEnd(voiced);
    var first, from, voicedEnd, padded := at * m.window, k * m.window, end * m.window, (end + pad) * m.window;
    assert k < end;
    WindowBefore(at, k, end, m.window);
    InsideCut(m, e, heard, k, start, from, Min(|heard|, padded));
  }

  lemma WindowBefore(at: nat, k: nat, end: nat, window: nat)
    requires at <= k < end
    ensures at * window <= k * window && k * window + window <= end * window
  {
    Grow(at, k, window);
    Grow(k + 1, end, window);
    assert (k + 1) * window == k * window + window;
  }

  lemma InsideCut(m: Setup, e: Event, heard: Audio, k: nat, start: nat, from: nat, end: nat)
    requires start == |heard| - |e.held| && from == k * m.window
    requires start <= from && from + m.window <= end <= |heard| && e.pcm == heard[start..end]
    ensures Inside(m, e, heard, k)
  {
    CutOfCut(e.pcm, heard, start, end, from, m.window);
  }

  lemma Grow(a: nat, b: nat, window: nat)
    requires a <= b
    ensures a * window <= b * window
  {
  }

  lemma CutOfCut(cut: Audio, heard: Audio, start: nat, end: nat, from: nat, n: nat)
    requires start <= from && from + n <= end <= |heard| && cut == heard[start..end]
    ensures cut[from - start..from - start + n] == heard[from..from + n]
  {
    var a, b := cut[from - start..from - start + n], heard[from..from + n];
    assert |a| == |b| && forall i :: 0 <= i < |a| ==> a[i] == b[i];
  }

  lemma CommitMissesNoSpeech(m: Setup, pad: nat, log: seq<Event>, e: Event, heard: Audio, voiced: seq<bool>)
    requires HandsOver(m, pad, e, heard, voiced) && Reaches(m, log, e.turn, |heard| - |e.held|)
    ensures MissesNoSpeech(m, log, e, heard, voiced)
  {
    hide HandsOver, Inside;
    forall i, k | 0 <= i < |log| && Begins(log[i], e.turn) && log[i].at <= k < |voiced| && voiced[k]
      ensures Inside(m, e, heard, k)
    {
      VoicedInside(m, pad, e, heard, voiced, log[i].at, k);
    }
  }

  /** Only an idle session is changed by its grace. */
  lemma TickAlone(s: State)
    requires Sound(s)
    ensures s.phase == Idle ==> TickGrace(s).state.phase == Idle
    ensures s.phase != Idle ==> TickGrace(s).state == s
  {
  }

  lemma DecideCommits(m: Setup, s: State, e: Event)
    requires e in Decide(m, s).events && e.kind == TurnCommitted
    ensures s.phase != Idle && e.turn == s.turnId && e.held == s.turnPcm
  {
  }

  /** What a commit holds is what the turn held, and the window. */
  lemma CommitHolds(m: Setup, s: State, w: Audio, e: Event)
    requires Sound(s) && e in Hear(m, s, w).events && e.kind == TurnCommitted
    ensures Live(s) && e.turn == s.turnId && e.held == s.turnPcm + w
  {
    hide TickGrace, Decide, InSpeech, LookbackCapacity, Last;
    TickCommitsNothing(s);
    TickAlone(s);
    DecideCommits(m, Listen(m, TickGrace(s).state, w), e);
  }

  /** Every commit of every run: the audio ends the pad after the last speech
      and holds all of it since the turn opened. */
  lemma EveryCommitHandsOver(m: Setup, p: Params, vad: VadState, acts: seq<Act>, w: Audio, e: Event)
    requires m.Valid() && ValidActs(m, acts) && |w| == m.window
    requires e in Hear(m, Run(m, Initial(m, p, vad), acts).state, w).events && e.kind == TurnCommitted
    ensures var s := Initial(m, p, vad);
            var all := acts + [Window(w)];
            && ValidActs(m, all)
            && HandsOver(m, Run(m, s, acts).state.limits.pad, e, Heard(all), Verdicts(m, s, all))
            && MissesNoSpeech(m, Run(m, s, acts).events, e, Heard(all), Verdicts(m, s, all))
  {
    hide Hear, Follows, Initial, HandsOver, Traced, Reaches, MissesNoSpeech;
    var s := Initial(m, p, vad);
    var all := acts + [Window(w)];
    var before := Run(m, s, acts);
    assert all[..|all| - 1] == acts;
    EveryRunFollows(m, p, vad, acts);
    EveryRunIsTraced(m, p, vad, acts);
    EveryRunAnchored(m, p, vad, acts);
    SoundAndNamed(before.state, before.events);
    CommitHandsOver(m, before.state, Heard(acts), Verdicts(m, s, acts), w, e);
    CommitHolds(m, before.state, w, e);
    var pad := before.state.limits.pad;
    CommitMissesNoSpeech(m, pad, before.events, e, Heard(all), Verdicts(m, s, all));
  }

  // ------------------------------------------------------------ the onset

  /** Under unchanged thresholds the lookback holds all it can, an idle
      session has not counted enough speech to open a turn, and the run it
      counts is the voiced run but for fewer windows than a resumption takes,
      those a commit made in the middle of speech has set aside. */
  predicate Poised(m: Setup, s: State, heard: Audio, voiced: seq<bool>) {
    && s.lookback == Last(heard, LookbackCapacity(m, s.limits))
    && (s.phase == Idle ==> s.speechRun < Max(s.limits.open, s.limits.barge))
    && s.speechRun <= VoicedRun(voiced) < s.speechRun + s.limits.reopen
    && (s.phase == PendingEnd || s.silenceRun > 0 ==> s.speechRun == VoicedRun(voiced))
    && (s.silenceRun > 0 ==> s.speechRun == 0)
  }

  lemma ListenPoised(m: Setup, s: State, heard: Audio, voiced: seq<bool>, w: Audio)
    requires m.Valid() && Poised(m, s, heard, voiced)
    ensures var s' := Listen(m, s, w);
            && Heeded(m, s', heard + w, voiced + [s'.inSpeech])
            && (s.phase == Idle ==> s'.speechRun <= Max(s.limits.open, s.limits.barge))
  {
  }

  /** The same before the state machine has decided. */
  predicate Heeded(m: Setup, s: State, heard: Audio, voiced: seq<bool>) {
    && s.lookback == Last(heard, LookbackCapacity(m, s.limits))
    && s.speechRun <= VoicedRun(voiced) < s.speechRun + s.limits.reopen
    && (s.phase == PendingEnd || s.silenceRun > 0 ==> s.speechRun == VoicedRun(voiced))
    && (s.silenceRun > 0 ==> s.speechRun == 0)
  }

  lemma DecidePoised(m: Setup, s: State, heard: Audio, voiced: seq<bool>)
    requires Heeded(m, s, heard, voiced)
    ensures Poised(m, Decide(m, s).state, heard, voiced)
    ensures Decide(m, s).state.inSpeech == s.inSpeech
  {
    hide LookbackCapacity, VoicedRun, Last;
  }

  lemma HearPoised(m: Setup, s: State, heard: Audio, voiced: seq<bool>, w: Audio)
    requires m.Valid() && Poised(m, s, heard, voiced)
    ensures var s' := Hear(m, s, w).state; Poised(m, s', heard + w, voiced + [s'.inSpeech])
  {
    var ticked := TickGrace(s).state;
    assert Poised(m, ticked, heard, voiced);
    hide TickGrace, Listen, Decide, VoicedRun;
    var listened := Listen(m, ticked, w);
    ListenPoised(m, ticked, heard, voiced, w);
    DecidePoised(m, listened, heard + w, voiced + [listened.inSpeech]);
  }

  lemma ApplyPoised(m: Setup, s: State, heard: Audio, voiced: seq<bool>, a: Act)
    requires m.Valid() && ValidAct(m, a) && !a.SetParams? && Poised(m, s, heard, voiced)
    ensures var s' := Apply(m, s, a).state;
            if a.Window? then Poised(m, s', heard + a.w, voiced + [s'.inSpeech]) else Poised(m, s', heard, voiced)
  {
    hide Hear, VoicedRun, LookbackCapacity;
    if a.Window? {
      HearPoised(m, s, heard, voiced, a.w);
    }
  }

  /** The audio a new turn opens with, out of the stream heard so far. */
  predicate OpensOn(m: Setup, l: Limits, opening: State, heard: Audio, voiced: seq<bool>) {
    var run := opening.speechRun;
    var start := |heard| - |opening.turnPcm|;
    && IsSuffix(opening.turnPcm, heard)
    && 0 < run <= VoicedRun(voiced) < run + l.reopen
    && (forall i :: |voiced| - run <= i < |voiced| ==> voiced[i])
    && (start == 0 || start <= |heard| - (run + l.pad) * m.window)
  }

  lemma OpenedOnRun(m: Setup, s: State, heard: Audio, voiced: seq<bool>)
    requires m.Valid() && Heeded(m, s, heard, voiced)
    requires s.phase == Idle && OpenNeed(s) <= s.speechRun <= Max(s.limits.open, s.limits.barge)
    ensures OpensOn(m, s.limits, OpenTurn(s).state, heard, voiced)
  {
    CapacityHolds(m, s.limits, s.speechRun + s.limits.pad);
    hide LookbackCapacity, VoicedRun;
  }

  lemma DecideOpens(m: Setup, s: State)
    requires Decide(m, s).state.turnId > s.turnId
    ensures s.phase == Idle && OpenNeed(s) <= s.speechRun && Decide(m, s).state == OpenTurn(s).state
  {
  }

  /** Whenever a new turn opens under unchanged thresholds, its audio contains
      the whole run that opened it and at least the speech pad before it, or
      the stream from its start, whatever `speaking` did during the run. */
  lemma OpeningReachesBack(m: Setup, s: State, heard: Audio, voiced: seq<bool>, w: Audio)
    requires m.Valid() && |w| == m.window && Poised(m, s, heard, voiced)
    requires Hear(m, s, w).state.turnId > s.turnId
    ensures var s' := Hear(m, s, w).state;
            OpensOn(m, s.limits, s', heard + w, voiced + [s'.inSpeech])
  {
    hide TickGrace, Listen, Decide, VoicedRun, Poised, Heeded, OpensOn, IsSuffix;
    var ticked := TickGrace(s).state;
    TickPoised(m, s, heard, voiced);
    ListenPoised(m, ticked, heard, voiced, w);
    ListenAlone(m, ticked, w);
    var listened := Listen(m, ticked, w);
    DecideOpens(m, listened);
    OpenedOnRun(m, listened, heard + w, voiced + [listened.inSpeech]);
    CountOpens(m, s.limits, OpenTurn(listened).state, heard + w, voiced + [listened.inSpeech], listened.nWindows + 1);
  }

  lemma TickPoised(m: Setup, s: State, heard: Audio, voiced: seq<bool>)
    requires Poised(m, s, heard, voiced)
    ensures var t := TickGrace(s).state;
            Poised(m, t, heard, voiced) && t.turnId == s.turnId && t.limits == s.limits && t.phase == s.phase
  {
    hide VoicedRun, Last, LookbackCapacity;
  }

  lemma ListenAlone(m: Setup, s: State, w: Audio)
    ensures var t := Listen(m, s, w); t.turnId == s.turnId && t.limits == s.limits && t.phase == s.phase
  {
  }

  lemma CountOpens(m: Setup, l: Limits, opening: State, heard: Audio, voiced: seq<bool>, n: nat)
    requires OpensOn(m, l, opening, heard, voiced)
    ensures OpensOn(m, l, opening.(nWindows := n), heard, voiced)
  {
  }

  predicate Untuned(acts: seq<Act>) {
    forall i :: 0 <= i < |acts| ==> !acts[i].SetParams?
  }

  lemma InitialPoised(m: Setup, p: Params, vad: VadState)
    requires m.Valid()
    ensures Poised(m, Initial(m, p, vad), [], [])
  {
  }

  lemma {:induction false} EveryRunPoised(m: Setup, p: Params, vad: VadState, acts: seq<Act>)
    requires m.Valid() && ValidActs(m, acts) && Untuned(acts)
    ensures var s := Initial(m, p, vad);
            Poised(m, Run(m, s, acts).state, Heard(acts), Verdicts(m, s, acts))
  {
    hide Apply, Poised, LimitsOf;
    var s := Initial(m, p, vad);
    if acts == [] {
      InitialPoised(m, p, vad);
    } else {
      var before := acts[..|acts| - 1];
      EveryRunPoised(m, p, vad, before);
      ApplyPoised(m, Run(m, s, before).state, Heard(before), Verdicts(m, s, before), acts[|acts| - 1]);
      assert Heard(before) + [] == Heard(before);
      assert Verdicts(m, s, before) + [] == Verdicts(m, s, before);
    }
  }

  /** Every opening of every run with unchanged thresholds. */
  lemma EveryOpeningReachesBack(m: Setup, p: Params, vad: VadState, acts: seq<Act>, w: Audio)
    requires m.Valid() && ValidActs(m, acts) && Untuned(acts) && |w| == m.window
    requires var before := Run(m, Initial(m, p, vad), acts).state;
             Hear(m, before, w).state.turnId > before.turnId
    ensures var s := Initial(m, p, vad);
            var all := acts + [Window(w)];
            && ValidActs(m, all)
            && OpensOn(m, LimitsOf(m, p), Run(m, s, all).state, Heard(all), Verdicts(m, s, all))
  {
    hide Hear, Poised, LimitsOf, OpensOn;
    var s := Initial(m, p, vad);
    var all := acts + [Window(w)];
    assert all[..|all| - 1] == acts;
    EveryRunPoised(m, p, vad, acts);
    LimitsUnchanged(m, s, acts);
    OpeningReachesBack(m, Run(m, s, acts).state, Heard(acts), Verdicts(m, s, acts), w);
  }

  lemma HearKeepsLimits(m: Setup, s: State, w: Audio)
    ensures Hear(m, s, w).state.limits == s.limits
  {
    assert TickGrace(s).state.limits == s.limits;
    hide TickGrace, InSpeech, LookbackCapacity;
  }

  lemma {:induction false} LimitsUnchanged(m: Setup, s: State, acts: seq<Act>)
    requires m.Valid() && ValidActs(m, acts) && Untuned(acts)
    ensures Run(m, s, acts).state.limits == s.limits
  {
    hide Hear;
    if acts != [] {
      var before := acts[..|acts| - 1];
      LimitsUnchanged(m, s, before);
      if acts[|acts| - 1].Window? {
        HearKeepsLimits(m, Run(m, s, before).state, acts[|acts| - 1].w);
      }
    }
  }

  // ------------------------------------------------------- nothing kept

  /** Audio is held for a live turn only. */
  predicate LetsGo(s: State) {
    !Live(s) ==> s.turnPcm == []
  }

  lemma HearLetsGo(m: Setup, s: State, w: Audio)
    requires Sound(s) && LetsGo(s)
    ensures LetsGo(Hear(m, s, w).state)
  {
    hide LookbackCapacity, Last;
  }

  lemma ApplyLetsGo(m: Setup, s: State, a: Act)
    requires m.Valid() && ValidAct(m, a) && Sound(s) && LetsGo(s)
    ensures LetsGo(Apply(m, s, a).state)
  {
    match a {
      case Window(w) => HearLetsGo(m, s, w);
      case _ =>
    }
    hide Hear;
  }

  /** Once a turn is final, nothing of its audio is kept. */
  lemma {:induction false} EveryRunLetsGo(m: Setup, p: Params, vad: VadState, acts: seq<Act>)
    requires m.Valid() && ValidActs(m, acts)
    ensures LetsGo(Run(m, Initial(m, p, vad), acts).state)
  {
    hide Apply, LimitsOf, Sound;
    if acts != [] {
      var before := acts[..|acts| - 1];
      EveryRunLetsGo(m, p, vad, before);
      EveryRunIsTraced(m, p, vad, before);
      TracedMeansSound(m, p, vad, before);
      ApplyLetsGo(m, Run(m, Initial(m, p, vad), before).state, acts[|acts| - 1]);
    }
  }

  lemma TracedMeansSound(m: Setup, p: Params, vad: VadState, acts: seq<Act>)
    requires m.Valid() && ValidActs(m, acts)
    ensures Sound(Run(m, Initial(m, p, vad), acts).state)
  {
    hide Run, Initial;
    EveryRunIsTraced(m, p, vad, acts);
  }
}
