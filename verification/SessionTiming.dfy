/** Deadlines, counted in windows of audio: when an unfinished turn commits,
    when a grace ends, and when a turn becomes final. */
module SessionTiming {
  import opened Seqs
  import opened Session
  import opened SessionTrace

  /** Windows heard during a run. */
  function Hears(acts: seq<Act>): nat {
    if acts == [] then 0
    else Hears(acts[..|acts| - 1]) + (if acts[|acts| - 1].Window? then 1 else 0)
  }

  /** Whether the caller released the turn along the way. */
  predicate Frees(acts: seq<Act>, key: Key) {
    exists i :: 0 <= i < |acts| && acts[i] == Free(key.turn, key.revision)
  }

  /** No window along the run completes a resumption, nor the speech a new
      turn needs. */
  predicate Quiet(m: Setup, s: State, acts: seq<Act>)
    requires m.Valid() && ValidActs(m, acts)
  {
    forall i :: 0 <= i < |acts| && acts[i].Window? ==> QuietWindow(m, Run(m, s, acts[..i]).state, acts[i].w)
  }

  predicate QuietWindow(m: Setup, s: State, w: Audio) {
    var run := Listen(m, s, w).speechRun;
    run < s.limits.reopen && (s.phase == Idle ==> run < OpenNeed(s))
  }

  lemma QuietPrefix(m: Setup, s: State, acts: seq<Act>)
    requires m.Valid() && ValidActs(m, acts) && Quiet(m, s, acts) && acts != []
    ensures Quiet(m, s, acts[..|acts| - 1])
    ensures acts[|acts| - 1].Window? ==>
              QuietWindow(m, Run(m, s, acts[..|acts| - 1]).state, acts[|acts| - 1].w)
  {
    var before := acts[..|acts| - 1];
    hide Run, QuietWindow;
    forall i | 0 <= i < |before| && before[i].Window?
      ensures QuietWindow(m, Run(m, s, before[..i]).state, before[i].w)
    {
      assert before[..i] == acts[..i];
    }
  }

  lemma FreesAppend(acts: seq<Act>, key: Key)
    requires acts != []
    ensures Frees(acts, key) <==>
            Frees(acts[..|acts| - 1], key) || acts[|acts| - 1] == Free(key.turn, key.revision)
  {
  }

  // ------------------------------------------------- the grace of a commit

  /** Within its grace a committed turn only counts down, and remembers that
      it was released. */
  predicate CountsDown(s: State, s': State, heard: nat, freed: bool) {
    && s'.committed && s'.phase == Idle
    && Current(s') == Current(s)
    && s'.graceLeft == s.graceLeft - heard
    && s'.nWindows == s.nWindows + heard
    && s'.released == (s.released || freed)
  }

  lemma QuietWindowCounts(m: Setup, s: State, w: Audio)
    requires s.committed && s.phase == Idle && s.graceLeft > 1 && QuietWindow(m, s, w)
    ensures CountsDown(s, Hear(m, s, w).state, 1, false) && Hear(m, s, w).events == []
  {
  }

  lemma LastQuietWindow(m: Setup, s: State, w: Audio)
    requires s.committed && s.phase == Idle && s.graceLeft == 1 && QuietWindow(m, s, w)
    ensures var o := Hear(m, s, w);
            && Current(o.state) == Current(s) && o.state.nWindows == s.nWindows + 1
            && o.state.graceLeft == 0 && o.state.committed == !s.released
            && o.events == if s.released then
                             [Event(TurnFinal, s.turnId, s.revision, s.nWindows, 0.0, [], [], 0)] else []
  {
  }

  lemma {:induction false} WithinGrace(m: Setup, s: State, acts: seq<Act>)
    requires m.Valid() && ValidActs(m, acts) && Quiet(m, s, acts)
    requires s.committed && s.phase == Idle && Hears(acts) < s.graceLeft
    ensures CountsDown(s, Run(m, s, acts).state, Hears(acts), Frees(acts, Current(s)))
    ensures Run(m, s, acts).events == []
  {
    hide Hear, Quiet, QuietWindow, Frees;
    if acts == [] {
      assert !Frees(acts, Current(s)) by { NothingFrees(Current(s)); }
    } else {
      var before := acts[..|acts| - 1];
      QuietPrefix(m, s, acts);
      FreesAppend(acts, Current(s));
      WithinGrace(m, s, before);
      var s1 := Run(m, s, before).state;
      if acts[|acts| - 1].Window? {
        QuietWindowCounts(m, s1, acts[|acts| - 1].w);
      }
    }
  }

  lemma NothingFrees(key: Key)
    ensures !Frees([], key)
  {
  }

  /** The grace ends exactly when its windows are heard: a turn released by
      then is final on that very window, and not before. */
  lemma GraceEnds(m: Setup, s: State, acts: seq<Act>, w: Audio)
    requires m.Valid() && ValidActs(m, acts) && |w| == m.window
    requires s.committed && s.phase == Idle && s.graceLeft == Hears(acts) + 1
    requires var all := acts + [Window(w)]; ValidActs(m, all) && Quiet(m, s, all)
    ensures var o := Run(m, s, acts + [Window(w)]);
            var freed := s.released || Frees(acts, Current(s));
            && o.state.graceLeft == 0 && o.state.committed == !freed
            && Current(o.state) == Current(s)
            && o.events == if freed then
                             [Event(TurnFinal, s.turnId, s.revision, s.nWindows + s.graceLeft - 1, 0.0, [], [], 0)]
                           else []
  {
    hide Hear, Quiet, QuietWindow, Frees;
    var all := acts + [Window(w)];
    assert all[..|all| - 1] == acts;
    QuietPrefix(m, s, all);
    WithinGrace(m, s, acts);
    LastQuietWindow(m, Run(m, s, acts).state, w);
  }

  // ---------------------------------------- a turn the classifier judged

  lemma QuietWindowPends(m: Setup, s: State, w: Audio)
    requires s.phase == PendingEnd && Sound(s) && QuietWindow(m, s, w)
    ensures var o := Hear(m, s, w);
            if s.pendingRun + 1 < s.limits.delay then
              && o.events == []
              && o.state.phase == PendingEnd && o.state.pendingRun == s.pendingRun + 1
              && o.state.nWindows == s.nWindows + 1 && Current(o.state) == Current(s)
              && o.state.limits == s.limits && Sound(o.state)
            else
              && CommittedNow(s, o, s.limits.wait - s.limits.delay, 0.0)
  {
  }

  /** The window that just went by committed the turn, with this grace. */
  predicate CommittedNow(s: State, o: Outcome, grace: nat, score: real) {
    && o.state.phase == Idle && o.state.committed && !o.state.released
    && o.state.graceLeft == o.state.graceGiven == grace
    && o.state.nWindows == s.nWindows + 1 && Current(o.state) == Current(s)
    && |o.events| > 0
    && var e := o.events[|o.events| - 1];
       && e.kind == TurnCommitted && KeyOf(e) == Current(s) && e.at == s.nWindows
       && e.grace == grace && e.score == score
  }

  lemma {:induction false} WithinDelay(m: Setup, s: State, acts: seq<Act>)
    requires m.Valid() && ValidActs(m, acts) && Quiet(m, s, acts)
    requires forall i :: 0 <= i < |acts| ==> !acts[i].SetParams?
    requires s.phase == PendingEnd && Sound(s) && s.pendingRun + Hears(acts) < s.limits.delay
    ensures var o := Run(m, s, acts);
            && o.events == []
            && o.state.phase == PendingEnd && o.state.pendingRun == s.pendingRun + Hears(acts)
            && o.state.nWindows == s.nWindows + Hears(acts) && Current(o.state) == Current(s)
            && o.state.limits == s.limits && Sound(o.state)
  {
    hide Hear, Quiet, QuietWindow, Sound;
    if acts != [] {
      var before := acts[..|acts| - 1];
      QuietPrefix(m, s, acts);
      WithinDelay(m, s, before);
      var s1 := Run(m, s, before).state;
      ApplyKeepsSound(m, s1, acts[|acts| - 1]);
      PendingIsOpen(s1);
      if acts[|acts| - 1].Window? {
        QuietWindowPends(m, s1, acts[|acts| - 1].w);
      }
    }
  }

  lemma PendingIsOpen(s: State)
    requires s.phase == PendingEnd && Sound(s)
    ensures !s.committed
  {
  }

  /** A turn judged unfinished at window p commits exactly at p + delay, with
      the rest of the wait as its grace. */
  lemma UnfinishedCommits(m: Setup, s: State, acts: seq<Act>, w: Audio)
    requires m.Valid() && ValidActs(m, acts) && |w| == m.window
    requires forall i :: 0 <= i < |acts| ==> !acts[i].SetParams?
    requires s.phase == PendingEnd && Sound(s) && s.pendingRun == 0 && Hears(acts) + 1 == s.limits.delay
    requires var all := acts + [Window(w)]; ValidActs(m, all) && Quiet(m, s, all)
    ensures var o := Run(m, s, acts + [Window(w)]);
            && |o.events| == 1 && o.events[0].kind == TurnCommitted
            && o.events[0].at + 1 == s.nWindows + s.limits.delay
            && o.events[0].grace == s.limits.wait - s.limits.delay
            && o.state.committed && !o.state.released && o.state.phase == Idle
            && o.state.graceLeft == s.limits.wait - s.limits.delay
            && Current(o.state) == Current(s) && o.state.nWindows == s.nWindows + s.limits.delay
  {
    hide Hear, Quiet, QuietWindow, Sound, CommittedNow;
    var all := acts + [Window(w)];
    assert all[..|all| - 1] == acts;
    QuietPrefix(m, s, all);
    WithinDelay(m, s, acts);
    var s1 := Run(m, s, acts).state;
    QuietWindowPends(m, s1, w);
    PendingCommitIsAlone(m, s1, w);
    CommittedNowMeans(s1, Hear(m, s1, w), s.limits.wait - s.limits.delay, 0.0);
    assert [] + Hear(m, s1, w).events == Hear(m, s1, w).events;
  }

  lemma CommittedNowMeans(s: State, o: Outcome, grace: nat, score: real)
    requires CommittedNow(s, o, grace, score) && |o.events| <= 1
    ensures |o.events| == 1
    ensures o.state.phase == Idle && o.state.committed && !o.state.released && o.state.graceLeft == grace
    ensures o.state.nWindows == s.nWindows + 1 && Current(o.state) == Current(s)
    ensures var e := o.events[0]; e.kind == TurnCommitted && e.at == s.nWindows && e.grace == grace
  {
  }

  lemma PendingCommitIsAlone(m: Setup, s: State, w: Audio)
    requires s.phase == PendingEnd && Sound(s)
    ensures |Hear(m, s, w).events| <= 1
  {
  }

  /** Heard in silence, the answer to an unfinished turn is held until
      p + wait, whatever the delay: released in time, the turn is final on
      that window. */
  lemma UnfinishedIsFinalAtWait(
      m: Setup, s: State, delay: seq<Act>, w: Audio, grace: seq<Act>, w': Audio)
    requires m.Valid() && ValidActs(m, delay) && |w| == m.window && ValidActs(m, grace) && |w'| == m.window
    requires forall i :: 0 <= i < |delay| ==> !delay[i].SetParams?
    requires s.phase == PendingEnd && Sound(s) && s.pendingRun == 0 && Hears(delay) + 1 == s.limits.delay
    requires s.limits.delay + Hears(grace) + 1 == s.limits.wait
    requires var all := delay + [Window(w)]; ValidActs(m, all) && Quiet(m, s, all)
    requires var all := grace + [Window(w')];
             ValidActs(m, all) && Quiet(m, Run(m, s, delay + [Window(w)]).state, all)
    requires Frees(grace, Current(s))
    ensures Run(m, Run(m, s, delay + [Window(w)]).state, grace + [Window(w')]).events
         == [Event(TurnFinal, s.turnId, s.revision, s.nWindows - 1 + s.limits.wait, 0.0, [], [], 0)]
  {
    hide Run, Quiet, Frees, Hears;
    UnfinishedCommits(m, s, delay, w);
    GraceEnds(m, Run(m, s, delay + [Window(w)]).state, grace, w');
  }

  /** A turn judged complete commits on the window that closed its speech, and
      its grace is the one of the thresholds. */
  lemma CompleteCommits(m: Setup, s: State, w: Audio)
    requires Sound(s) && s.phase == UserSpeaking
    requires var l := Listen(m, s, w);
             l.silenceRun >= s.limits.close && m.predict(l.stream) >= s.params.turnThreshold
    ensures CommittedNow(s, Hear(m, s, w), s.limits.grace, m.predict(Listen(m, s, w).stream))
  {
  }

  // ------------------------------------------------- a release is answered

  lemma DecideNamesOnlyGrow(m: Setup, s: State)
    ensures !Before(Current(Decide(m, s).state), Current(s))
  {
  }

  lemma NamesOnlyGrow(m: Setup, s: State, a: Act)
    requires m.Valid() && ValidAct(m, a)
    ensures !Before(Current(Apply(m, s, a).state), Current(s))
  {
    hide Decide, InSpeech, LookbackCapacity, Last, LimitsOf;
    match a {
      case Window(w) =>
        assert Current(TickGrace(s).state) == Current(s);
        DecideNamesOnlyGrow(m, Listen(m, TickGrace(s).state, w));
      case _ =>
    }
  }

  /** Still silent, `left` windows from being final. */
  predicate Released(s: State, key: Key, left: nat) {
    Sound(s) && s.committed && s.released && Current(s) == key && s.graceLeft == left
  }

  lemma ReleasedStep(m: Setup, s: State, a: Act)
    requires m.Valid() && ValidAct(m, a) && Released(s, Current(s), s.graceLeft)
    ensures var o := Apply(m, s, a);
            || Before(Current(s), Current(o.state))
            || (Current(s) == Current(o.state) && Has(o.events, TurnFinal, Current(s)))
            || (if a.Window? then s.graceLeft > 1 && Released(o.state, Current(s), s.graceLeft - 1)
                else Released(o.state, Current(s), s.graceLeft))
  {
    ApplyKeepsSound(m, s, a);
    var o := Apply(m, s, a);
    if a.Window? && s.graceLeft == 1 {
      assert o.events[0].kind == TurnFinal && KeyOf(o.events[0]) == Current(s);
    }
    hide InSpeech, LookbackCapacity, Last, LimitsOf;
  }

  /** Something newer opened, or it is final, or `left` windows are. */
  predicate EndsWithin(o: Outcome, key: Key, left: int) {
    || Before(key, Current(o.state))
    || (key == Current(o.state) && Has(o.events, TurnFinal, key))
    || (left > 0 && Released(o.state, key, left))
  }

  lemma EndsStep(m: Setup, o: Outcome, key: Key, left: int, a: Act)
    requires m.Valid() && ValidAct(m, a) && EndsWithin(o, key, left)
    ensures var next := Apply(m, o.state, a);
            EndsWithin(Outcome(next.state, o.events + next.events), key, if a.Window? then left - 1 else left)
  {
    hide Apply, Released, Has;
    NamesOnlyGrow(m, o.state, a);
    HasInBoth(o.events, Apply(m, o.state, a).events, TurnFinal, key);
    if left > 0 && Released(o.state, key, left) {
      ReleasedMeans(o.state, key, left);
      ReleasedStep(m, o.state, a);
    }
  }

  /** Once released, a committed turn lasts no longer than its grace: by then
      it is final, or the user opened something newer. */
  lemma {:induction false} ReleasedTurnEnds(m: Setup, s: State, acts: seq<Act>)
    requires m.Valid() && ValidActs(m, acts) && Released(s, Current(s), s.graceLeft)
    ensures EndsWithin(Run(m, s, acts), Current(s), s.graceLeft - Hears(acts))
  {
    if acts == [] {
      ReleasedMeans(s, Current(s), s.graceLeft);
    } else {
      hide Apply, EndsWithin;
      var before := acts[..|acts| - 1];
      ReleasedTurnEnds(m, s, before);
      EndsStep(m, Run(m, s, before), Current(s), s.graceLeft - Hears(before), acts[|acts| - 1]);
    }
  }

  lemma ReleasedMeans(s: State, key: Key, left: nat)
    requires Released(s, key, left)
    ensures Current(s) == key && s.graceLeft == left > 0
  {
  }

  lemma HasInBoth(a: seq<Event>, b: seq<Event>, kind: Kind, key: Key)
    ensures Has(a, kind, key) || Has(b, kind, key) ==> Has(a + b, kind, key)
  {
    if Has(a, kind, key) {
      var i :| 0 <= i < |a| && a[i].kind == kind && KeyOf(a[i]) == key;
      assert (a + b)[i] == a[i];
    }
    if Has(b, kind, key) {
      var i :| 0 <= i < |b| && b[i].kind == kind && KeyOf(b[i]) == key;
      assert (a + b)[|a| + i] == b[i];
    }
  }

  // --------------------------------------- final never precedes the grace

  /** A turn is final no earlier than its commit plus the grace it was given. */
  predicate FinalAfterGrace(log: seq<Event>) {
    forall i, j |
      && 0 <= i < |log| && log[i].kind == TurnCommitted
      && 0 <= j < |log| && log[j].kind == TurnFinal && KeyOf(log[i]) == KeyOf(log[j])
      :: log[i].at + log[i].grace <= log[j].at
  }

  /** The same of the grace still running, `passed` windows into the stream. */
  predicate GraceRuns(s: State, log: seq<Event>, passed: nat) {
    s.committed ==>
      forall i :: 0 <= i < |log| && log[i].kind == TurnCommitted && KeyOf(log[i]) == Current(s) ==>
                    && log[i].at + 1 + log[i].grace <= passed + s.graceLeft
                    && (s.graceLeft > 0 ==> log[i].at + 1 + log[i].grace == passed + s.graceLeft)
  }

  predicate Timed(s: State, log: seq<Event>) {
    Traced(s, log) && FinalAfterGrace(log) && GraceRuns(s, log, s.nWindows)
  }

  lemma TickTimed(s: State, log: seq<Event>)
    requires FinalAfterGrace(log) && GraceRuns(s, log, s.nWindows)
    ensures var o := TickGrace(s);
            FinalAfterGrace(log + o.events) && GraceRuns(o.state, log + o.events, s.nWindows + 1)
  {
  }

  lemma DecideIdleTimed(s: State, log: seq<Event>)
    requires FinalAfterGrace(log) && GraceRuns(s, log, s.nWindows + 1)
    ensures var o := DecideIdle(s);
            FinalAfterGrace(log + o.events) && GraceRuns(o.state, log + o.events, s.nWindows + 1)
  {
  }

  lemma DecideSpeakingTimed(m: Setup, s: State, log: seq<Event>)
    requires Traced(s, log) && s.phase == UserSpeaking && FinalAfterGrace(log)
    ensures var o := DecideSpeaking(m, s);
            FinalAfterGrace(log + o.events) && GraceRuns(o.state, log + o.events, s.nWindows + 1)
  {
  }

  lemma DecidePendingTimed(m: Setup, s: State, log: seq<Event>)
    requires Traced(s, log) && s.phase == PendingEnd && FinalAfterGrace(log)
    ensures var o := DecidePending(m, s);
            FinalAfterGrace(log + o.events) && GraceRuns(o.state, log + o.events, s.nWindows + 1)
  {
  }

  lemma DecideTimed(m: Setup, s: State, log: seq<Event>)
    requires Traced(s, log) && FinalAfterGrace(log) && GraceRuns(s, log, s.nWindows + 1)
    ensures var o := Decide(m, s);
            && FinalAfterGrace(log + o.events) && GraceRuns(o.state, log + o.events, s.nWindows + 1)
            && o.state.nWindows == s.nWindows
  {
    DecideKeepsClock(m, s);
    hide Traced, FinalAfterGrace, GraceRuns, DecideIdle, DecideSpeaking, DecidePending;
    match s.phase {
      case Idle => DecideIdleTimed(s, log);
      case UserSpeaking => DecideSpeakingTimed(m, s, log);
      case PendingEnd => DecidePendingTimed(m, s, log);
    }
  }

  lemma HearTimed(m: Setup, s: State, log: seq<Event>, w: Audio)
    requires Timed(s, log)
    ensures var o := Hear(m, s, w);
            FinalAfterGrace(log + o.events) && GraceRuns(o.state, log + o.events, o.state.nWindows)
  {
    hide TickGrace, Listen, Decide, Traced, FinalAfterGrace, GraceRuns;
    var ticked := TickGrace(s);
    var listened := Listen(m, ticked.state, w);
    TickTimed(s, log);
    TickKeepsTraced(s, log);
    ListenKeepsTraced(m, ticked.state, log + ticked.events, w);
    ListenKeepsClock(m, s, w, log + ticked.events);
    DecideTimed(m, listened, log + ticked.events);
    CountTimed(Decide(m, listened), log, ticked.events);
  }

  lemma CountTimed(d: Outcome, log: seq<Event>, earlier: seq<Event>)
    requires FinalAfterGrace(log + earlier + d.events)
    requires GraceRuns(d.state, log + earlier + d.events, d.state.nWindows + 1)
    ensures FinalAfterGrace(log + (earlier + d.events))
    ensures GraceRuns(d.state.(nWindows := d.state.nWindows + 1), log + (earlier + d.events), d.state.nWindows + 1)
  {
    assert log + earlier + d.events == log + (earlier + d.events);
  }

  lemma ListenKeepsClock(m: Setup, s: State, w: Audio, log: seq<Event>)
    requires GraceRuns(TickGrace(s).state, log, s.nWindows + 1)
    ensures Listen(m, TickGrace(s).state, w).nWindows == s.nWindows
    ensures GraceRuns(Listen(m, TickGrace(s).state, w), log, s.nWindows + 1)
  {
  }

  lemma DecideKeepsClock(m: Setup, s: State)
    ensures Decide(m, s).state.nWindows == s.nWindows
  {
  }

  lemma SameGraceRuns(s: State, s': State, log: seq<Event>)
    requires GraceRuns(s, log, s.nWindows) && s'.committed == s.committed && Current(s') == Current(s)
    requires s'.graceLeft == s.graceLeft && s'.nWindows == s.nWindows
    ensures GraceRuns(s', log, s'.nWindows)
  {
  }

  lemma ApplyTimed(m: Setup, s: State, log: seq<Event>, a: Act)
    requires m.Valid() && ValidAct(m, a) && Timed(s, log)
    ensures Timed(Apply(m, s, a).state, log + Apply(m, s, a).events)
  {
    hide Hear, Traced, Release, FinalAfterGrace, GraceRuns, LimitsOf, LookbackCapacity;
    ApplyKeepsTraced(m, s, log, a);
    assert log + [] == log;
    match a {
      case Window(w) => HearTimed(m, s, log, w);
      case Free(turn, revision) => ReleaseTimed(s, log, turn, revision);
      case SetSpeaking(b) => SameGraceRuns(s, s.(speaking := b), log);
      case SetParams(p) => SameGraceRuns(s, Tune(m, s, p), log);
    }
  }

  lemma ReleaseTimed(s: State, log: seq<Event>, turn: nat, revision: nat)
    requires FinalAfterGrace(log) && GraceRuns(s, log, s.nWindows)
    ensures var o := Release(s, turn, revision);
            FinalAfterGrace(log + o.events) && GraceRuns(o.state, log + o.events, o.state.nWindows)
  {
  }

  /** Over every run, new thresholds included. */
  lemma {:induction false} EveryFinalAfterGrace(m: Setup, p: Params, vad: VadState, acts: seq<Act>)
    requires m.Valid() && ValidActs(m, acts)
    ensures var o := Run(m, Initial(m, p, vad), acts); Timed(o.state, o.events)
  {
    if acts == [] {
      InitialIsTraced(m, p, vad);
      hide Traced;
    } else {
      hide Apply, Timed, Initial;
      var before := acts[..|acts| - 1];
      EveryFinalAfterGrace(m, p, vad, before);
      var o := Run(m, Initial(m, p, vad), before);
      ApplyTimed(m, o.state, o.events, acts[|acts| - 1]);
    }
  }
}
