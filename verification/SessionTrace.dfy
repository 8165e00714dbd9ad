/** The order of what a session reports, over every run: releases, changes of
    the floor and new thresholds included. */
module SessionTrace {
  import opened Session

  /** A turn and its revision, in the order they come. */
  datatype Key = Key(turn: nat, revision: nat)

  predicate Before(a: Key, b: Key) {
    a.turn < b.turn || (a.turn == b.turn && a.revision < b.revision)
  }

  function KeyOf(e: Event): Key {
    Key(e.turn, e.revision)
  }

  function Current(s: State): Key {
    Key(s.turnId, s.revision)
  }

  predicate Has(log: seq<Event>, kind: Kind, key: Key) {
    exists i :: 0 <= i < |log| && log[i].kind == kind && KeyOf(log[i]) == key
  }

  predicate IsOpening(e: Event) {
    e.kind == SpeechStarted || e.kind == TurnResumed
  }

  predicate HasOpening(log: seq<Event>, key: Key) {
    exists i :: 0 <= i < |log| && IsOpening(log[i]) && KeyOf(log[i]) == key
  }

  // ------------------------------------------------- the promises of a log

  /** Events never name something older than what was named before. */
  predicate Ordered(log: seq<Event>) {
    forall i, j :: 0 <= i < j < |log| ==> !Before(KeyOf(log[j]), KeyOf(log[i]))
  }

  /** Each turn and revision is committed once, and what it holds only grows
      from one revision of a turn to the next. */
  predicate CommitsAdvance(log: seq<Event>) {
    forall i, j :: 0 <= i < j < |log| && log[i].kind == TurnCommitted && log[j].kind == TurnCommitted ==>
      && Before(KeyOf(log[i]), KeyOf(log[j]))
      && (log[i].turn == log[j].turn ==> log[i].held <= log[j].held)
  }

  /** Nothing names a turn once it is final, except the barge-in that ends it. */
  predicate FinalIsLast(log: seq<Event>) {
    forall i, j :: 0 <= i < j < |log| && log[i].kind == TurnFinal ==>
      log[i].turn < log[j].turn || (log[i].turn == log[j].turn && log[j].kind == BargeIn)
  }

  /** A turn becomes final under a revision that was committed. */
  predicate FinalsCommitted(log: seq<Event>) {
    forall i :: 0 <= i < |log| && log[i].kind == TurnFinal ==> Has(log[..i], TurnCommitted, KeyOf(log[i]))
  }

  predicate LogPromises(log: seq<Event>) {
    Ordered(log) && CommitsAdvance(log) && FinalIsLast(log) && FinalsCommitted(log)
  }

  // ------------------------------------- what ties the log to the state

  predicate Named(s: State, log: seq<Event>) {
    && (forall i :: 0 <= i < |log| ==> !Before(Current(s), KeyOf(log[i])))
    && (s.turnId > 0 ==> HasOpening(log, Current(s)))
  }

  predicate CommitsSeen(s: State, log: seq<Event>) {
    && (s.committed ==> Has(log, TurnCommitted, Current(s)))
    && (forall i :: 0 <= i < |log| && log[i].kind == TurnCommitted ==>
          && log[i].turn > 0
          && (Before(KeyOf(log[i]), Current(s)) || (KeyOf(log[i]) == Current(s) && s.phase == Idle))
          && (log[i].turn == s.turnId && Live(s) ==> log[i].held <= s.turnPcm))
  }

  predicate FinalsSeen(s: State, log: seq<Event>) {
    && (s.turnId > 0 && !Live(s) ==> Has(log, TurnFinal, Current(s)))
    && (forall i :: 0 <= i < |log| && log[i].kind == TurnFinal ==>
          log[i].turn < s.turnId || (KeyOf(log[i]) == Current(s) && !Live(s)))
  }

  predicate Traced(s: State, log: seq<Event>) {
    Sound(s) && LogPromises(log) && Named(s, log) && CommitsSeen(s, log) && FinalsSeen(s, log)
  }

  // ------------------------------------------------- one event at a time

  lemma HasInMore(log: seq<Event>, more: seq<Event>)
    ensures forall kind, key :: Has(log, kind, key) ==> Has(log + more, kind, key)
    ensures forall key :: HasOpening(log, key) ==> HasOpening(log + more, key)
  {
    assert forall i :: 0 <= i < |log| ==> (log + more)[i] == log[i];
  }

  lemma FinalsCommittedAppend(log: seq<Event>, e: Event)
    requires FinalsCommitted(log)
    requires e.kind == TurnFinal ==> Has(log, TurnCommitted, KeyOf(e))
    ensures FinalsCommitted(log + [e])
  {
    forall i | 0 <= i < |log + [e]| && (log + [e])[i].kind == TurnFinal
      ensures Has((log + [e])[..i], TurnCommitted, KeyOf((log + [e])[i]))
    {
      assert (log + [e])[..i] == log[..i];
      if i == |log| {
        assert log[..i] == log;
      }
    }
  }

  lemma PromisesAppend(log: seq<Event>, e: Event)
    requires LogPromises(log)
    requires forall i :: 0 <= i < |log| ==> !Before(KeyOf(e), KeyOf(log[i]))
    requires forall i :: 0 <= i < |log| && log[i].kind == TurnFinal ==>
                           log[i].turn < e.turn || (log[i].turn == e.turn && e.kind == BargeIn)
    requires e.kind == TurnCommitted ==>
               forall i :: 0 <= i < |log| && log[i].kind == TurnCommitted ==>
                             Before(KeyOf(log[i]), KeyOf(e)) && (log[i].turn == e.turn ==> log[i].held <= e.held)
    requires e.kind == TurnFinal ==> Has(log, TurnCommitted, KeyOf(e))
    ensures LogPromises(log + [e])
  {
    FinalsCommittedAppend(log, e);
  }

  /** A step that reports nothing: the turn goes on under its name. */
  lemma Silent(s: State, s': State, log: seq<Event>)
    requires Traced(s, log) && Sound(s')
    requires Current(s') == Current(s) && s'.phase == s.phase && s'.committed == s.committed
    requires Live(s) ==> s.turnPcm <= s'.turnPcm
    ensures Traced(s', log)
  {
  }

  /** An event that is neither a commit nor a final names the current turn. */
  lemma Mention(s: State, log: seq<Event>, e: Event)
    requires Traced(s, log) && KeyOf(e) == Current(s)
    requires e.kind == BargeIn || (Live(s) && e.kind != TurnCommitted && e.kind != TurnFinal)
    ensures Traced(s, log + [e])
  {
    HasInMore(log, [e]);
    PromisesAppend(log, e);
  }

  /** The user opens something newer: the next turn, or the next revision. */
  lemma Opens(s: State, s': State, log: seq<Event>, e: Event)
    requires Traced(s, log) && Sound(s')
    requires KeyOf(e) == Current(s') && IsOpening(e) && s'.phase == UserSpeaking
    requires s'.turnId == s.turnId + 1
          || (s'.turnId == s.turnId && s'.revision == s.revision + 1 && Live(s) && s.turnPcm <= s'.turnPcm)
    ensures Traced(s', log + [e])
  {
    HasInMore(log, [e]);
    PromisesAppend(log, e);
    assert (log + [e])[|log|] == e;
  }

  lemma Commits(m: Setup, s: State, log: seq<Event>, score: real, grace: nat)
    requires Traced(s, log) && s.phase != Idle
    ensures Traced(Commit(m, s, score, grace).state, log + Commit(m, s, score, grace).events)
  {
    var e := Commit(m, s, score, grace).events[0];
    HasInMore(log, [e]);
    PromisesAppend(log, e);
    assert (log + [e])[|log|] == e;
  }

  lemma Finals(s: State, log: seq<Event>)
    requires Traced(s.(released := false), log)
    requires s.graceLeft == 0 || !s.released ==> Sound(s.(released := false))
    ensures Traced(TryFinal(s).state, log + TryFinal(s).events)
  {
    hide Ordered, CommitsAdvance, FinalIsLast, FinalsCommitted;
    if s.committed && s.released && s.graceLeft == 0 {
      var e := TryFinal(s).events[0];
      HasInMore(log, [e]);
      PromisesAppend(log, e);
      assert (log + [e])[|log|] == e;
    } else {
      assert log + [] == log;
      Silent(s.(released := false), s, log);
    }
  }

  // ------------------------------------------------------------ one step

  lemma TickKeepsTraced(s: State, log: seq<Event>)
    requires Traced(s, log)
    ensures Traced(TickGrace(s).state, log + TickGrace(s).events)
  {
    assert log + [] == log;
    if s.graceLeft > 0 {
      var s' := s.(graceLeft := s.graceLeft - 1);
      if s'.graceLeft == 0 {
        Silent(s, s'.(released := false), log);
        Finals(s', log);
      } else {
        Silent(s, s', log);
      }
    }
  }

  lemma OpenTurnKeepsTraced(s: State, log: seq<Event>)
    requires Traced(s, log) && s.phase == Idle
    ensures Traced(OpenTurn(s).state, log + OpenTurn(s).events)
  {
    Opens(s, OpenTurn(s).state, log, OpenTurn(s).events[0]);
  }

  lemma BargeInKeepsTraced(s: State, log: seq<Event>)
    requires Traced(s, log) && s.phase == Idle
    ensures Traced(OpenTurn(s).state, log + ([Report(s, BargeIn, 0.0)] + OpenTurn(s).events))
  {
    var barge := [Report(s, BargeIn, 0.0)];
    Mention(s, log, barge[0]);
    OpenTurnKeepsTraced(s, log + barge);
    assert log + barge + OpenTurn(s).events == log + (barge + OpenTurn(s).events);
  }

  lemma DecideIdleKeepsTraced(s: State, log: seq<Event>)
    requires Traced(s, log) && s.phase == Idle
    ensures Traced(DecideIdle(s).state, log + DecideIdle(s).events)
  {
    var o := DecideIdle(s);
    if s.committed && s.speechRun >= s.limits.reopen {
      Opens(s, o.state, log, o.events[0]);
    } else if s.speechRun >= OpenNeed(s) {
      if s.speaking {
        BargeInKeepsTraced(s, log);
      } else {
        OpenTurnKeepsTraced(s, log);
        assert [] + OpenTurn(s).events == OpenTurn(s).events;
      }
    } else {
      assert log + [] == log;
    }
  }

  lemma DecideSpeakingKeepsTraced(m: Setup, s: State, log: seq<Event>)
    requires Traced(s, log) && s.phase == UserSpeaking
    ensures Traced(DecideSpeaking(m, s).state, log + DecideSpeaking(m, s).events)
  {
    var o := DecideSpeaking(m, s);
    if s.silenceRun >= s.limits.close {
      var s' := s.(phase := PendingEnd, pendingRun := 0);
      var stopped := Report(s', SpeechStopped, 0.0);
      assert Traced(s', log);
      Mention(s', log, stopped);
      var score := m.predict(s'.stream);
      if score >= s'.params.turnThreshold {
        Commits(m, s', log + [stopped], score, s'.limits.grace);
        assert log + [stopped] + Commit(m, s', score, s'.limits.grace).events == log + o.events;
      } else {
        Mention(s', log + [stopped], Report(s', TurnReopened, score));
        assert log + [stopped] + [Report(s', TurnReopened, score)] == log + o.events;
      }
    } else {
      assert log + [] == log;
    }
  }

  lemma CountsKeepTraced(s: State, log: seq<Event>, pendingRun: nat, nWindows: nat)
    requires Traced(s, log)
    ensures Traced(s.(pendingRun := pendingRun, nWindows := nWindows), log)
  {
  }

  lemma PendingReopens(m: Setup, s: State, log: seq<Event>)
    requires Traced(s, log) && s.phase == PendingEnd && s.speechRun >= s.limits.reopen
    ensures var o := DecidePending(m, s); Traced(o.state, log + o.events)
  {
    var o := DecidePending(m, s);
    assert o.events == [Report(o.state, SpeechStarted, 0.0)];
    Opens(s, o.state, log, o.events[0]);
  }

  lemma PendingWaits(m: Setup, s: State, log: seq<Event>)
    requires Traced(s, log) && s.phase == PendingEnd && s.speechRun < s.limits.reopen
    ensures var o := DecidePending(m, s); Traced(o.state, log + o.events)
  {
    hide Traced;
    var o := DecidePending(m, s);
    CountsKeepTraced(s, log, s.pendingRun + 1, s.nWindows);
    if s.pendingRun + 1 >= s.limits.delay {
      Commits(m, s.(pendingRun := s.pendingRun + 1), log, 0.0, s.limits.wait - s.limits.delay);
    } else {
      assert log + [] == log;
    }
  }

  lemma DecidePendingKeepsTraced(m: Setup, s: State, log: seq<Event>)
    requires Traced(s, log) && s.phase == PendingEnd
    ensures var o := DecidePending(m, s); Traced(o.state, log + o.events)
  {
    if s.speechRun >= s.limits.reopen {
      PendingReopens(m, s, log);
    } else {
      PendingWaits(m, s, log);
    }
  }

  lemma DecideKeepsTraced(m: Setup, s: State, log: seq<Event>)
    requires Traced(s, log)
    ensures Traced(Decide(m, s).state, log + Decide(m, s).events)
  {
    match s.phase {
      case Idle => DecideIdleKeepsTraced(s, log);
      case UserSpeaking => DecideSpeakingKeepsTraced(m, s, log);
      case PendingEnd => DecidePendingKeepsTraced(m, s, log);
    }
  }

  lemma ListenKeepsTraced(m: Setup, s: State, log: seq<Event>, w: Audio)
    requires Traced(s, log)
    ensures Traced(Listen(m, s, w), log)
  {
  }

  lemma HearKeepsTraced(m: Setup, s: State, log: seq<Event>, w: Audio)
    requires Traced(s, log)
    ensures Traced(Hear(m, s, w).state, log + Hear(m, s, w).events)
  {
    hide Traced, TickGrace, Listen, Decide;
    var ticked := TickGrace(s);
    var heard := Listen(m, ticked.state, w);
    var decided := Decide(m, heard);
    TickKeepsTraced(s, log);
    ListenKeepsTraced(m, ticked.state, log + ticked.events, w);
    DecideKeepsTraced(m, heard, log + ticked.events);
    assert log + ticked.events + decided.events == log + (ticked.events + decided.events);
    var all := log + (ticked.events + decided.events);
    CountsKeepTraced(decided.state, all, decided.state.pendingRun, decided.state.nWindows + 1);
  }

  lemma ReleaseKeepsTraced(s: State, log: seq<Event>, turn: nat, revision: nat)
    requires Traced(s, log)
    ensures Traced(Release(s, turn, revision).state, log + Release(s, turn, revision).events)
  {
    if !s.committed || turn != s.turnId || revision != s.revision {
      assert log + [] == log;
    } else {
      var s' := s.(released := true);
      Silent(s, s'.(released := false), log);
      Finals(s', log);
    }
  }

  lemma ApplyKeepsTraced(m: Setup, s: State, log: seq<Event>, a: Act)
    requires m.Valid() && ValidAct(m, a) && Traced(s, log)
    ensures Traced(Apply(m, s, a).state, log + Apply(m, s, a).events)
  {
    match a {
      case Window(w) => HearKeepsTraced(m, s, log, w);
      case Free(turn, revision) => ReleaseKeepsTraced(s, log, turn, revision);
      case SetSpeaking(b) =>
        Silent(s, s.(speaking := b), log);
        assert log + [] == log;
      case SetParams(p) =>
        Silent(s, Tune(m, s, p), log);
        assert log + [] == log;
    }
  }

  // --------------------------------------------------------- every run

  lemma InitialIsTraced(m: Setup, p: Params, vad: VadState)
    requires m.Valid()
    ensures Traced(Initial(m, p, vad), [])
  {
  }

  /** Over every run: commits advance strictly, a final turn was committed and
      is never named again, and the log always agrees with the state. */
  lemma {:induction false} EveryRunIsTraced(m: Setup, p: Params, vad: VadState, acts: seq<Act>)
    requires m.Valid() && ValidActs(m, acts)
    ensures var o := Run(m, Initial(m, p, vad), acts); Traced(o.state, o.events)
  {
    hide Apply, Traced, Initial;
    if acts == [] {
      InitialIsTraced(m, p, vad);
    } else {
      var before := acts[..|acts| - 1];
      EveryRunIsTraced(m, p, vad, before);
      var o := Run(m, Initial(m, p, vad), before);
      ApplyKeepsTraced(m, o.state, o.events, acts[|acts| - 1]);
    }
  }
}
