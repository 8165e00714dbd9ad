/** What it takes to resume a committed turn: windows of speech after the commit,
    and nothing else. Whether the word they belong to began before the commit
    does not matter. */
module SessionResume {
  import opened Seqs
  import opened Session
  import opened SessionTrace
  import opened SessionTiming
  import opened SessionAudio

  predicate Reports(events: seq<Event>, kind: Kind) {
    exists i :: 0 <= i < |events| && events[i].kind == kind
  }

  /** A commit sets aside the speech counted before it. */
  lemma CommitSetsAside(m: Setup, s: State, w: Audio)
    requires Reports(Hear(m, s, w).events, TurnCommitted)
    ensures Hear(m, s, w).state.speechRun == 0 && Hear(m, s, w).state.committed
  {
    var ticked := TickGrace(s);
    assert !Reports(ticked.events, TurnCommitted);
    var listened := Listen(m, ticked.state, w);
    hide Listen, TickGrace;
    DecideSetsAside(m, listened);
    hide Decide;
  }

  lemma DecideSetsAside(m: Setup, s: State)
    ensures Reports(Decide(m, s).events, TurnCommitted) ==>
              Decide(m, s).state.speechRun == 0 && Decide(m, s).state.committed
  {
  }

  lemma HearCountsRun(m: Setup, s: State, w: Audio)
    ensures Hear(m, s, w).state.speechRun <= if Hear(m, s, w).state.inSpeech then s.speechRun + 1 else 0
  {
  }

  /** The run counted since a moment it stood at zero is speech heard since. */
  lemma {:induction false} RunIsSince(m: Setup, s: State, acts: seq<Act>)
    requires m.Valid() && ValidActs(m, acts) && s.speechRun == 0
    ensures Run(m, s, acts).state.speechRun <= VoicedRun(Verdicts(m, s, acts))
  {
    hide Hear;
    if acts != [] {
      var before, a := acts[..|acts| - 1], acts[|acts| - 1];
      RunIsSince(m, s, before);
      if a.Window? {
        HearCountsRun(m, Run(m, s, before).state, a.w);
        VoicedAppend(Verdicts(m, s, before), Run(m, s, acts).state.inSpeech);
      } else {
        assert Verdicts(m, s, before) + [] == Verdicts(m, s, before);
      }
    }
  }

  /** From a commit on, new thresholds included: a turn resumes only on as many
      windows of speech in a row, all of them after the commit, as a resumption
      takes. */
  lemma ResumesOnNewSpeech(m: Setup, s: State, acts: seq<Act>, w: Audio)
    requires m.Valid() && ValidActs(m, acts) && |w| == m.window && s.speechRun == 0
    requires Reports(Hear(m, Run(m, s, acts).state, w).events, TurnResumed)
    ensures var before := Run(m, s, acts).state;
            VoicedRun(Verdicts(m, s, acts) + [Hear(m, before, w).state.inSpeech]) >= before.limits.reopen
  {
    RunIsSince(m, s, acts);
    var before := Run(m, s, acts).state;
    ResumeNeedsRun(m, before, w);
    VoicedAppend(Verdicts(m, s, acts), Hear(m, before, w).state.inSpeech);
    hide Hear;
  }

  lemma ResumeNeedsRun(m: Setup, s: State, w: Audio)
    requires Reports(Hear(m, s, w).events, TurnResumed)
    ensures Hear(m, s, w).state.inSpeech && s.speechRun + 1 >= s.limits.reopen
  {
    var ticked := TickGrace(s);
    assert !Reports(ticked.events, TurnResumed) && ticked.state.speechRun == s.speechRun
        && ticked.state.limits == s.limits;
    var listened := Listen(m, ticked.state, w);
    assert listened.speechRun == (if listened.inSpeech then s.speechRun + 1 else 0) && listened.limits == s.limits;
    hide Listen, TickGrace;
    DecideResumes(m, listened);
    hide Decide;
  }

  lemma DecideResumes(m: Setup, s: State)
    ensures Reports(Decide(m, s).events, TurnResumed) ==> s.speechRun >= s.limits.reopen
    ensures Decide(m, s).state.inSpeech == s.inSpeech
  {
  }

  // ------------------------------------------------ the rest of a word

  /** Windows of speech, with releases and changes of the floor among them. */
  predicate AllSpeech(m: Setup, s: State, acts: seq<Act>)
    requires m.Valid() && ValidActs(m, acts)
  {
    Untuned(acts) && VoicedRun(Verdicts(m, s, acts)) == |Verdicts(m, s, acts)|
  }

  /** Whether the assistant holds the floor after some calls. */
  function FloorAfter(s: State, acts: seq<Act>): bool {
    if acts == [] then s.speaking
    else
      match acts[|acts| - 1]
      case SetSpeaking(b) => b
      case _ => FloorAfter(s, acts[..|acts| - 1])
  }

  /** Windows of speech a new turn takes then. */
  function NeedAfter(s: State, acts: seq<Act>): nat {
    if FloorAfter(s, acts) then s.limits.barge else s.limits.open
  }

  /** No window along the way completes the speech a new turn takes. */
  predicate Unopened(s: State, acts: seq<Act>) {
    acts == [] ||
    var before := acts[..|acts| - 1];
    Unopened(s, before) && (acts[|acts| - 1].Window? ==> Hears(acts) < NeedAfter(s, before))
  }

  predicate FreedBy(s: State, acts: seq<Act>) {
    s.released || Frees(acts, Current(s))
  }

  lemma LastIsSpeech(m: Setup, s: State, acts: seq<Act>)
    requires m.Valid() && ValidActs(m, acts) && AllSpeech(m, s, acts) && acts != []
    ensures var before, a := acts[..|acts| - 1], acts[|acts| - 1];
            && AllSpeech(m, s, before) && !a.SetParams?
            && Run(m, s, acts).state == Apply(m, Run(m, s, before).state, a).state
            && Run(m, s, acts).events == Run(m, s, before).events + Apply(m, Run(m, s, before).state, a).events
            && (a.Window? ==> Run(m, s, acts).state.inSpeech)
  {
    hide Apply;
    var before, a := acts[..|acts| - 1], acts[|acts| - 1];
    if a.Window? {
      VoicedAppend(Verdicts(m, s, before), Run(m, s, acts).state.inSpeech);
    } else {
      assert Verdicts(m, s, before) + [] == Verdicts(m, s, before);
    }
  }

  /** Still committed after `acts`, and what is left of its grace. */
  predicate Held(was: State, s: State, acts: seq<Act>) {
    && s.phase == Idle && s.committed && s.limits == was.limits && Current(s) == Current(was)
    && s.speechRun == Hears(acts) && s.speaking == FloorAfter(was, acts) && s.released == FreedBy(was, acts)
    && s.graceLeft == (if was.graceLeft > Hears(acts) then was.graceLeft - Hears(acts) else 0)
    && Unopened(was, acts)
  }

  /** Final, or overtaken by a new turn. */
  predicate Gone(s: State) {
    !s.committed && s.phase != PendingEnd
  }

  /** By then a new turn has opened, or the turn is final. */
  predicate GoneBy(was: State, acts: seq<Act>) {
    !Unopened(was, acts) || (FreedBy(was, acts) && was.graceLeft <= Hears(acts))
  }

  lemma HeldWindow(m: Setup, s: State, w: Audio)
    requires Sound(s) && s.phase == Idle && s.committed && s.speechRun + 1 < s.limits.reopen
    requires Hear(m, s, w).state.inSpeech
    ensures var o := Hear(m, s, w);
            var left := if s.graceLeft > 0 then s.graceLeft - 1 else 0;
            && !Reports(o.events, TurnResumed)
            && if s.speechRun + 1 >= OpenNeed(s) || (s.released && left == 0) then Gone(o.state)
               else
                 && o.state.phase == Idle && o.state.committed && o.state.speechRun == s.speechRun + 1
                 && o.state.limits == s.limits && o.state.speaking == s.speaking && o.state.released == s.released
                 && Current(o.state) == Current(s) && o.state.graceLeft == left
  {
    hide LookbackCapacity, Last;
  }

  lemma HeldStep(m: Setup, was: State, s: State, acts: seq<Act>)
    requires acts != [] && m.Valid() && ValidActs(m, acts) && !acts[|acts| - 1].SetParams?
    requires var a := acts[|acts| - 1]; a.Window? ==> Apply(m, s, a).state.inSpeech
    requires Sound(s) && Held(was, s, acts[..|acts| - 1]) && Hears(acts) < was.limits.reopen
    ensures var o := Apply(m, s, acts[|acts| - 1]);
            && (Held(was, o.state, acts) || (Gone(o.state) && GoneBy(was, acts)))
            && !Reports(o.events, TurnResumed)
  {
    hide Hear, Frees;
    var a := acts[|acts| - 1];
    FreesAppend(acts, Current(was));
    match a {
      case Window(w) => HeldWindow(m, s, w);
      case Free(turn, revision) =>
      case SetSpeaking(b) =>
    }
  }

  lemma GoneStep(m: Setup, s: State, a: Act)
    requires m.Valid() && ValidAct(m, a) && !a.SetParams? && Sound(s) && Gone(s)
    requires a.Window? ==> Apply(m, s, a).state.inSpeech
    ensures Gone(Apply(m, s, a).state) && !Reports(Apply(m, s, a).events, TurnResumed)
  {
    hide LookbackCapacity, Last, LimitsOf;
  }

  lemma GoneByStays(was: State, acts: seq<Act>)
    requires acts != [] && GoneBy(was, acts[..|acts| - 1])
    ensures GoneBy(was, acts)
  {
    hide Frees;
    FreesAppend(acts, Current(was));
  }

  lemma LastStep(m: Setup, was: State, s: State, before: seq<Act>, w: Audio)
    requires Sound(s) && Held(was, s, before) && Hears(before) == was.limits.reopen - 1
    requires Hear(m, s, w).state.inSpeech
    ensures var o := Hear(m, s, w);
            && (Reports(o.events, TurnResumed) <==> (FreedBy(was, before) ==> was.graceLeft > was.limits.reopen))
            && (Reports(o.events, TurnResumed) ==> Current(o.state) == Key(was.turnId, was.revision + 1))
  {
    hide LookbackCapacity, Last, Unopened, Frees, FloorAfter, Hears;
    var o := Hear(m, s, w);
    if FreedBy(was, before) ==> was.graceLeft > was.limits.reopen {
      assert o.events[|o.events| - 1].kind == TurnResumed;
    }
  }

  lemma ReportsAppend(a: seq<Event>, b: seq<Event>, kind: Kind)
    ensures Reports(a + b, kind) <==> Reports(a, kind) || Reports(b, kind)
  {
    assert forall i :: 0 <= i < |a| ==> (a + b)[i] == a[i];
    assert forall i :: 0 <= i < |b| ==> (a + b)[|a| + i] == b[i];
  }

  /** Before the count is complete nothing resumes, and the turn is gone only
      when a new one has opened or it is final. */
  lemma {:induction false} SpeechBefore(m: Setup, s: State, acts: seq<Act>)
    requires m.Valid() && ValidActs(m, acts) && AllSpeech(m, s, acts) && Hears(acts) < s.limits.reopen
    requires Sound(s) && s.committed && s.speechRun == 0
    ensures var o := Run(m, s, acts);
            && Sound(o.state) && !Reports(o.events, TurnResumed)
            && (Held(s, o.state, acts) || (Gone(o.state) && GoneBy(s, acts)))
  {
    hide Apply, Held, Gone, GoneBy, AllSpeech, Run, Sound, Reports;
    if acts == [] {
      NothingRun(m, s);
    } else {
      var before, a := acts[..|acts| - 1], acts[|acts| - 1];
      LastIsSpeech(m, s, acts);
      SpeechBefore(m, s, before);
      var o := Run(m, s, before);
      ApplyKeepsSound(m, o.state, a);
      ReportsAppend(o.events, Apply(m, o.state, a).events, TurnResumed);
      if Held(s, o.state, before) {
        HeldStep(m, s, o.state, acts);
      } else {
        GoneStep(m, o.state, a);
        GoneByStays(s, acts);
      }
    }
  }

  lemma NothingRun(m: Setup, s: State)
    requires m.Valid() && Sound(s) && s.committed && s.speechRun == 0
    ensures var o := Run(m, s, []); o.state == s && !Reports(o.events, TurnResumed) && Held(s, s, [])
  {
    NothingFrees(Current(s));
  }

  lemma HeldMeans(was: State, s: State, acts: seq<Act>)
    requires Held(was, s, acts)
    ensures Unopened(was, acts)
  {
  }

  /** From a commit on, with speech in every window, releases and changes of the
      floor among them: the turn resumes by the window that completes the count,
      and then on exactly that window, if and only if no window before it
      completes the speech a new turn takes and the turn is not released before
      it with a grace that ends by then. A commit made in the middle of a word
      resumes on the rest of it in no other case. */
  lemma RestOfWordResumes(m: Setup, s: State, acts: seq<Act>)
    requires m.Valid() && ValidActs(m, acts) && AllSpeech(m, s, acts)
    requires acts != [] && acts[|acts| - 1].Window? && Hears(acts) == s.limits.reopen
    requires Sound(s) && s.committed && s.speechRun == 0
    ensures !Reports(Run(m, s, acts[..|acts| - 1]).events, TurnResumed)
    ensures var before, o := acts[..|acts| - 1], Run(m, s, acts);
            && (Reports(o.events, TurnResumed) <==>
                  Unopened(s, before) && (FreedBy(s, before) ==> s.graceLeft > s.limits.reopen))
            && (Reports(o.events, TurnResumed) ==> Current(o.state) == Key(s.turnId, s.revision + 1))
  {
    hide Hear, Held, Gone, AllSpeech, Run, Sound, Reports, Unopened, FreedBy;
    var before, a := acts[..|acts| - 1], acts[|acts| - 1];
    LastIsSpeech(m, s, acts);
    SpeechBefore(m, s, before);
    var o := Run(m, s, before);
    ReportsAppend(o.events, Apply(m, o.state, a).events, TurnResumed);
    if Held(s, o.state, before) {
      HeldMeans(s, o.state, before);
      LastStep(m, s, o.state, before, a.w);
    } else {
      GoneStep(m, o.state, a);
    }
  }

  lemma {:induction false} OnWindowsAlone(s: State, acts: seq<Act>)
    requires forall i :: 0 <= i < |acts| ==> acts[i].Window?
    ensures Hears(acts) == |acts| && FloorAfter(s, acts) == s.speaking
    ensures Unopened(s, acts) <==> |acts| < OpenNeed(s)
    ensures FreedBy(s, acts) == s.released
  {
    if acts != [] {
      OnWindowsAlone(s, acts[..|acts| - 1]);
    }
  }

  /** On windows of speech alone the condition is one on the state: a new turn
      takes no fewer windows, and a released turn has grace left. */
  lemma WindowsAloneResume(m: Setup, s: State, acts: seq<Act>)
    requires m.Valid() && ValidActs(m, acts) && AllSpeech(m, s, acts) && |acts| == s.limits.reopen
    requires forall i :: 0 <= i < |acts| ==> acts[i].Window?
    requires Sound(s) && s.committed && s.speechRun == 0
    ensures Reports(Run(m, s, acts).events, TurnResumed) <==>
              s.limits.reopen <= OpenNeed(s) && (s.released ==> s.graceLeft > s.limits.reopen)
  {
    hide Run, AllSpeech, Reports, Sound, FloorAfter, Hears, Unopened, FreedBy;
    OnWindowsAlone(s, acts);
    OnWindowsAlone(s, acts[..|acts| - 1]);
    RestOfWordResumes(m, s, acts);
  }

  // ------------------------------------------------ a word cut in two

  /** Windows of one sample and one millisecond; a sample is its own speech
      probability and no turn is ever judged complete. */
  function Toy(): Setup {
    Setup(1, 1000, 1, (vad, w) => (if w == [] then 0.0 else w[0], vad), audio => 0.0)
  }

  /** Two windows open or resume a turn, one of silence asks the classifier,
      which is given one more. */
  function ToyParams(): Params {
    Params(0.5, 0.5, 2, 2, 1, 2, 1, 0.5, 1, 5, 0)
  }

  function ToyLimits(): Limits {
    RawLimits(2, 2, 2, 1, 1, 1, 5, 0)
  }

  function Loud(): Act {
    Window([1.0])
  }

  function Soft(): Act {
    Window([0.0])
  }

  predicate Stands(s: State, phase: Phase, speechRun: nat, turn: nat, revision: nat, committed: bool) {
    && s.params == ToyParams() && s.limits == ToyLimits() && !s.speaking && !s.released
    && s.phase == phase && s.speechRun == speechRun && s.turnId == turn && s.revision == revision
    && s.committed == committed && (phase == PendingEnd ==> s.pendingRun == 0)
  }

  lemma ToyBegins()
    ensures Toy().Valid() && Stands(Initial(Toy(), ToyParams(), []), Idle, 0, 0, 0, false)
    ensures Initial(Toy(), ToyParams(), []).graceLeft == 0
  {
    hide LookbackCapacity;
    ToyWindows(2);
    ToyWindows(1);
    ToyWindows(5);
  }

  lemma ToyWindows(ms: nat)
    requires ms > 0
    ensures Toy().Valid() && Windows(Toy(), ms) == ms
  {
    assert 1000.0 * (1 as real) / (1000 as real) == 1.0;
    assert ms as real / 1.0 == ms as real;
  }

  lemma ToyHears(s: State, loud: bool)
    requires s.params == ToyParams() && s.limits == ToyLimits() && !s.released
    ensures var w: Audio := if loud then [1.0] else [0.0];
            var t := Listen(Toy(), TickGrace(s).state, w);
            && t.inSpeech == loud && t.speechRun == (if loud then s.speechRun + 1 else 0)
            && (if loud then t.silenceRun == 0 else t.silenceRun > 0)
            && t.params == s.params && t.limits == s.limits && t.speaking == s.speaking && !t.released
            && t.phase == s.phase && t.turnId == s.turnId && t.revision == s.revision && t.committed == s.committed
            && t.pendingRun == s.pendingRun && TickGrace(s).events == []
  {
    hide LookbackCapacity, Last;
  }

  lemma ToyStep(s: State, loud: bool, phase: Phase, run: nat, turn: nat, revision: nat, committed: bool)
    requires Stands(s, phase, run, turn, revision, committed)
    ensures var o := Hear(Toy(), s, if loud then [1.0] else [0.0]);
            && o.state.inSpeech == loud
            && (phase == Idle && !committed && loud && run == 0 ==> Stands(o.state, Idle, 1, turn, revision, false))
            && (phase == Idle && !committed && loud && run == 1 ==>
                  Stands(o.state, UserSpeaking, 2, turn + 1, 0, false))
            && (phase == UserSpeaking && !loud ==> Stands(o.state, PendingEnd, 0, turn, revision, committed))
            && (phase == PendingEnd && loud && run == 0 ==>
                  Stands(o.state, Idle, 0, turn, revision, true) && Reports(o.events, TurnCommitted))
            && (phase == Idle && committed && loud && run == 0 ==> Stands(o.state, Idle, 1, turn, revision, true))
            && (phase == Idle && committed && loud && run == 1 ==>
                  Stands(o.state, UserSpeaking, 2, turn, revision + 1, false) && Reports(o.events, TurnResumed))
  {
    ToyHears(s, loud);
    hide Listen, TickGrace;
    var o := Hear(Toy(), s, if loud then [1.0] else [0.0]);
    if phase == PendingEnd && loud && run == 0 {
      assert o.events[0].kind == TurnCommitted;
    }
    if phase == Idle && committed && loud && run == 1 {
      assert o.events[0].kind == TurnResumed;
    }
  }

  lemma RunOneMore(m: Setup, s: State, acts: seq<Act>, a: Act)
    requires m.Valid() && ValidActs(m, acts) && ValidAct(m, a) && a.Window?
    ensures ValidActs(m, acts + [a])
    ensures Run(m, s, acts + [a]).state == Hear(m, Run(m, s, acts).state, a.w).state
    ensures forall kind :: Reports(Hear(m, Run(m, s, acts).state, a.w).events, kind) ==>
                             Reports(Run(m, s, acts + [a]).events, kind)
  {
    hide Hear;
    var all := acts + [a];
    assert all[..|all| - 1] == acts;
    var was, now := Run(m, s, acts).events, Hear(m, Run(m, s, acts).state, a.w).events;
    forall kind | Reports(now, kind)
      ensures Reports(was + now, kind)
    {
      ReportsAppend(was, now, kind);
    }
  }

  /** A word, a dip, and the next word up to the window the commit falls on. */
  lemma CommitInMidWord()
    ensures var m, s := Toy(), Initial(Toy(), ToyParams(), []);
            var acts := [Loud(), Loud(), Soft(), Loud()];
            && m.Valid() && ValidActs(m, acts)
            && Reports(Run(m, s, acts).events, TurnCommitted) && Run(m, s, acts).state.inSpeech
            && Stands(Run(m, s, acts).state, Idle, 0, 1, 0, true)
  {
    hide Hear, Initial, Stands, Reports, Run;
    var m, s := Toy(), Initial(Toy(), ToyParams(), []);
    ToyBegins();
    RunOfNone(m, s);
    RunOneMore(m, s, [], Loud());
    ToyStep(s, true, Idle, 0, 0, 0, false);
    var one: seq<Act> := [] + [Loud()];
    RunOneMore(m, s, one, Loud());
    ToyStep(Run(m, s, one).state, true, Idle, 1, 0, 0, false);
    var two := one + [Loud()];
    RunOneMore(m, s, two, Soft());
    ToyStep(Run(m, s, two).state, false, UserSpeaking, 2, 1, 0, false);
    var three := two + [Soft()];
    RunOneMore(m, s, three, Loud());
    ToyStep(Run(m, s, three).state, true, PendingEnd, 0, 1, 0, false);
    assert three + [Loud()] == [Loud(), Loud(), Soft(), Loud()];
  }

  lemma RunOfNone(m: Setup, s: State)
    requires m.Valid()
    ensures Run(m, s, []).state == s
  {
  }

  /** A run from the start: a word opens a turn, a dip ends it, and the commit
      falls on the first window of the next word; two windows on, in the same
      word, the turn resumes. */
  lemma MidWordCommitResumes()
    ensures var m, s := Toy(), Initial(Toy(), ToyParams(), []);
            var cut := [Loud(), Loud(), Soft(), Loud()];
            var on, all := cut + [Loud()], cut + [Loud()] + [Loud()];
            && m.Valid() && ValidActs(m, cut) && ValidActs(m, on) && ValidActs(m, all)
            && Reports(Run(m, s, cut).events, TurnCommitted) && Run(m, s, cut).state.committed
            && Run(m, s, cut).state.inSpeech && Run(m, s, on).state.inSpeech && Run(m, s, all).state.inSpeech
            && Reports(Run(m, s, all).events, TurnResumed) && Current(Run(m, s, all).state) == Key(1, 1)
  {
    hide Hear, Initial, Reports, Run;
    var m, s := Toy(), Initial(Toy(), ToyParams(), []);
    var cut := [Loud(), Loud(), Soft(), Loud()];
    CommitInMidWord();
    RunOneMore(m, s, cut, Loud());
    ToyStep(Run(m, s, cut).state, true, Idle, 0, 1, 0, true);
    RunOneMore(m, s, cut + [Loud()], Loud());
    ToyStep(Run(m, s, cut + [Loud()]).state, true, Idle, 1, 1, 0, true);
  }
}
