/** A run in which a turn that went on is recognized all the same: the client
    raises what a turn needs to resume while the recognizer is behind, the user
    opens the next turn, and the check no longer sees that the last one went on. */
module ConversationHurried {
  import opened Seqs
  import opened Session
  import opened SessionTrace
  import opened Conversation
  import opened ConversationCalls
  import opened ConversationOpenings

  /** Windows of one sample and one millisecond; a sample is its own speech
      probability and every silence is the end of its turn. */
  function Toy(): Setup {
    Setup(1, 1000, 1, (vad, w) => (if w == [] then 0.0 else w[0], vad), audio => 1.0)
  }

  /** One window opens a turn, `resume` bring it back. */
  function Asks(resume: nat): Params {
    Params(0.5, 0.5, 1, 1, 1, resume, 1, 0.5, 1, 1, 0)
  }

  function AsksFor(resume: nat): RawLimits {
    RawLimits(1, 1, resume, 1, 1, 1, 1, 0)
  }

  lemma ToyWindows(ms: nat)
    requires ms > 0
    ensures Toy().Valid() && Windows(Toy(), ms) == ms
  {
    assert 1000.0 * (1 as real) / (1000 as real) == 1.0;
    assert ms as real / 1.0 == ms as real;
  }

  lemma ToyLimits(resume: nat)
    requires resume > 0
    ensures Toy().Valid() && LimitsOf(Toy(), Asks(resume)) == AsksFor(resume)
  {
    ToyWindows(1);
    ToyWindows(resume);
    hide Windows;
  }

  /** The session inside a push, every event handled: in the turn `key`, or with
      that turn committed, not given back. */
  predicate Stands(s: State, resume: nat, key: Key, inTurn: bool) {
    && s.params == Asks(resume) && s.limits == AsksFor(resume) && !s.speaking && !s.released && s.graceLeft == 0
    && Current(s) == key && s.phase == (if inTurn then UserSpeaking else Idle)
    && s.committed == (!inTurn && key.turn > 0) && (!inTurn ==> s.speechRun == 0)
  }

  predicate At(s: Sys, resume: nat, key: Key, inTurn: bool, queue: seq<Key>, at: RecognizerAt, open: Key) {
    && Stands(s.session, resume, key, inTurn) && s.reader == Pushing && s.owner == Reader && s.ops == []
    && !s.shared.turnLock && !s.shared.speaking && !s.shared.stop
    && s.queue == queue && s.recognizer == at && s.shared.open == open
  }

  /** The turn a window of speech opens: the last one again, or the next. */
  function Opening(resume: nat, key: Key): Key {
    if key.turn > 0 && resume == 1 then Key(key.turn, key.revision + 1) else Key(key.turn + 1, 0)
  }

  lemma HearsSpeech(s: State, resume: nat, key: Key)
    requires Stands(s, resume, key, false) && resume > 0
    ensures var o := Hear(Toy(), s, [1.0]);
            && Stands(o.state, resume, Opening(resume, key), true) && |o.events| == 1
            && IsOpening(o.events[0]) && KeyOf(o.events[0]) == Opening(resume, key)
  {
    hide LookbackCapacity, Last;
  }

  lemma HearsSilence(s: State, resume: nat, key: Key)
    requires Stands(s, resume, key, true) && key.turn > 0
    ensures var o := Hear(Toy(), s, [0.0]);
            && Stands(o.state, resume, key, false) && |o.events| == 2
            && o.events[0].kind == SpeechStopped && o.events[1].kind == TurnCommitted && KeyOf(o.events[1]) == key
  {
    hide LookbackCapacity, Last;
  }

  // ------------------------------------------------------------ the run

  predicate ToyRun(run: Run) {
    Toy().Valid() && IsRun(Toy(), Asks(1), [], run) && Whole(run)
  }

  function LastState(run: Run): Sys
    requires Whole(run)
  {
    run.states[|run.steps|]
  }

  predicate Extends(more: Run, run: Run) {
    run.states <= more.states && run.steps <= more.steps
  }

  function OneMore(run: Run, step: Step): Run
    requires ToyRun(run) && Enabled(Toy(), LastState(run), step)
  {
    Run(run.states + [Next(Toy(), LastState(run), step)], run.steps + [step])
  }

  lemma Goes(run: Run, step: Step) returns (more: Run)
    requires ToyRun(run) && Enabled(Toy(), LastState(run), step)
    ensures ToyRun(more) && Extends(more, run) && LastState(more) == Next(Toy(), LastState(run), step)
    ensures more.states == run.states + [LastState(more)] && more.steps == run.steps + [step]
  {
    hide Enabled, Next, Start;
    more := OneMore(run, step);
    forall i | 0 <= i < |more.steps|
      ensures Enabled(Toy(), more.states[i], more.steps[i])
      ensures more.states[i + 1] == Next(Toy(), more.states[i], more.steps[i])
    {
      if i < |run.steps| {
        assert more.states[i] == run.states[i] && more.states[i + 1] == run.states[i + 1];
      } else {
        assert more.states[i] == LastState(run);
      }
    }
  }

  lemma ExtendsThrough(more: Run, middle: Run, run: Run)
    requires Extends(more, middle) && Extends(middle, run)
    ensures Extends(more, run)
  {
  }

  lemma StillTells(more: Run, run: Run, j: nat, key: Key)
    requires Whole(run) && Whole(more) && Extends(more, run) && j < |run.steps| && TellsOpen(run, j, key)
    ensures TellsOpen(more, j, key)
  {
  }

  lemma Begins() returns (run: Run)
    ensures ToyRun(run) && At(LastState(run), 1, Key(0, 0), false, [], RecognizerAt(AwaitTurn, Key(0, 0)), Key(0, 0))
  {
    hide LookbackCapacity, Windows;
    ToyLimits(1);
    var m, start := Toy(), Start(Toy(), Asks(1), []);
    var none := Run([start], []);
    assert ToyRun(none);
    run := Goes(none, ReaderStep(StartPush));
  }

  /** The same inside a push, with this left to handle. */
  predicate Handling(
      s: Sys, resume: nat, key: Key, inTurn: bool, queue: seq<Key>, at: RecognizerAt, open: Key, ops: seq<Op>) {
    && Stands(s.session, resume, key, inTurn) && s.reader == Pushing && s.owner == Reader && s.ops == ops
    && (s.shared.turnLock <==> ops != [] && ops[0].StoreVoid?) && !s.shared.speaking && !s.shared.stop
    && s.queue == queue && s.recognizer == at && s.shared.open == open
  }

  lemma HandlesOne(e: Event)
    ensures HandleAll([e]) == Handle(e)
  {
    assert [e][..0] == [];
  }

  lemma HandlesStop(stopped: Event, done: Event)
    requires stopped.kind == SpeechStopped
    ensures HandleAll([stopped, done]) == Handle(done)
  {
    HandlesOne(stopped);
    assert [stopped, done][..1] == [stopped];
  }

  lemma HearsOpening(s: Sys, resume: nat, key: Key, queue: seq<Key>, at: RecognizerAt, open: Key)
    requires Toy().Valid() && At(s, resume, key, false, queue, at, open) && resume > 0
    ensures var step := ReaderStep(HearOne([1.0]));
            var next := Opening(resume, key);
            && Enabled(Toy(), s, step)
            && Handling(Next(Toy(), s, step), resume, next, true, queue, at, open, [Say(SpeechFrame), Opened(next)])
  {
    hide Hear, HandleAll, Stands;
    HearsSpeech(s.session, resume, key);
    var o := Hear(Toy(), s.session, [1.0]);
    HandlesOne(o.events[0]);
    assert o.events == [o.events[0]];
  }

  lemma HearsCommit(s: Sys, resume: nat, key: Key, queue: seq<Key>, at: RecognizerAt, open: Key)
    requires Toy().Valid() && At(s, resume, key, true, queue, at, open) && key.turn > 0
    ensures var step := ReaderStep(HearOne([0.0]));
            && Enabled(Toy(), s, step)
            && Handling(Next(Toy(), s, step), resume, key, false, queue, at, open, [Enqueue(key)])
  {
    hide Hear, HandleAll, Stands;
    HearsSilence(s.session, resume, key);
    var o := Hear(Toy(), s.session, [0.0]);
    HandlesStop(o.events[0], o.events[1]);
    assert o.events == [o.events[0], o.events[1]];
  }

  /** What handling one of these leaves. */
  lemma Handles(s: Sys, resume: nat, key: Key, inTurn: bool, queue: seq<Key>, at: RecognizerAt, open: Key, ops: seq<Op>)
    returns (left: seq<Op>)
    requires Toy().Valid() && Handling(s, resume, key, inTurn, queue, at, open, ops) && ops != []
    requires ops[0].Say? || ops[0].Opened? || ops[0].StoreVoid? || ops[0].Enqueue?
    requires ops[1..] != [] ==> !ops[1..][0].StoreVoid?
    ensures if ops[0].Opened? then |left| == |ops| && left[0].StoreVoid? && left[1..] == ops[1..] else left == ops[1..]
    ensures Enabled(Toy(), s, DeliverOne)
    ensures Handling(Next(Toy(), s, DeliverOne), resume, key, inTurn,
                     if ops[0].Enqueue? then queue + [ops[0].key] else queue, at,
                     if ops[0].Opened? && Before(open, ops[0].key) then ops[0].key else open, left)
  {
    hide Stands, Outdated, Before;
    left := Deliver(s).ops;
    match s.ops[0] {
      case Say(_) =>
      case Opened(_) =>
      case StoreVoid(_) =>
      case _ =>
    }
  }

  predicate OpensBetween(run: Run, from: nat, key: Key)
    requires Whole(run)
  {
    exists j :: from <= j < |run.steps| && TellsOpen(run, j, key)
  }

  /** A window of speech, with its opening handled. */
  lemma Speaks(run: Run, resume: nat, key: Key, queue: seq<Key>, at: RecognizerAt, open: Key) returns (more: Run)
    requires ToyRun(run) && At(LastState(run), resume, key, false, queue, at, open) && resume > 0
    requires Before(open, Opening(resume, key))
    ensures ToyRun(more) && Extends(more, run)
    ensures At(LastState(more), resume, Opening(resume, key), true, queue, at, Opening(resume, key))
    ensures OpensBetween(more, |run.steps|, Opening(resume, key))
  {
    hide Stands, Enabled, Next, IsRun, Opening, Before, Extends, TellsOpen;
    var next := Opening(resume, key);
    HearsOpening(LastState(run), resume, key, queue, at, open);
    var heard := Goes(run, ReaderStep(HearOne([1.0])));
    var left := Handles(LastState(heard), resume, next, true, queue, at, open, [Say(SpeechFrame), Opened(next)]);
    var said := Goes(heard, DeliverOne);
    left := Handles(LastState(said), resume, next, true, queue, at, open, left);
    var told := Goes(said, DeliverOne);
    Tells(said, told, next);
    left := Handles(LastState(told), resume, next, true, queue, at, next, left);
    more := Goes(told, DeliverOne);
    StillTells(more, told, |said.steps|, next);
    ExtendsThrough(told, said, heard);
    ExtendsThrough(more, told, heard);
    ExtendsThrough(more, heard, run);
  }

  lemma Tells(run: Run, more: Run, key: Key)
    requires Whole(run) && LastState(run).ops != [] && LastState(run).ops[0] == Opened(key)
    requires |more.states| == |run.states| + 1 && more.states[..|run.states|] == run.states
    requires more.steps == run.steps + [DeliverOne]
    ensures TellsOpen(more, |run.steps|, key)
  {
    assert more.states[|run.steps|] == LastState(run);
  }

  /** A window of silence, with its commit queued. */
  lemma Stops(run: Run, resume: nat, key: Key, queue: seq<Key>, at: RecognizerAt, open: Key) returns (more: Run)
    requires ToyRun(run) && At(LastState(run), resume, key, true, queue, at, open) && key.turn > 0
    ensures ToyRun(more) && Extends(more, run)
    ensures At(LastState(more), resume, key, false, queue + [key], at, open)
  {
    hide Stands, Enabled, Next, IsRun, Before, Extends;
    HearsCommit(LastState(run), resume, key, queue, at, open);
    var heard := Goes(run, ReaderStep(HearOne([0.0])));
    var left := Handles(LastState(heard), resume, key, false, queue, at, open, [Enqueue(key)]);
    more := Goes(heard, DeliverOne);
    ExtendsThrough(more, heard, run);
  }

  lemma Recognizes(run: Run, resume: nat, key: Key, inTurn: bool, queue: seq<Key>, at: RecognizerAt, open: Key)
    returns (more: Run)
    requires ToyRun(run) && At(LastState(run), resume, key, inTurn, queue, at, open)
    requires at.stage == AwaitTurn && queue != []
    ensures ToyRun(more) && Extends(more, run)
    ensures At(LastState(more), resume, key, inTurn, queue[1..], RecognizerAt(CheckRevised, queue[0]), open)
  {
    hide Stands, IsRun, Extends;
    more := Goes(run, RecognizerStep(true));
  }

  /** New thresholds, between two pushes. */
  lemma Asked(run: Run, was: nat, resume: nat, key: Key, queue: seq<Key>, at: RecognizerAt, open: Key)
    returns (more: Run)
    requires ToyRun(run) && At(LastState(run), was, key, false, queue, at, open) && resume > 0
    ensures ToyRun(more) && Extends(more, run)
    ensures At(LastState(more), resume, key, false, queue, at, open)
  {
    hide IsRun, Extends, LimitsOf, LookbackCapacity;
    ToyLimits(resume);
    var ended := Goes(run, ReaderStep(EndPush));
    var tuned := Goes(ended, ReaderStep(NewParams(Asks(resume))));
    more := Goes(tuned, ReaderStep(StartPush));
    ExtendsThrough(tuned, ended, run);
    ExtendsThrough(more, tuned, run);
  }

  /** The user speaks, goes on while the recognizer is about to look, and speaks
      again under the new thresholds: the turn went on, and is not given up. */
  lemma WentOnYetRecognized() returns (run: Run, n: nat)
    ensures ToyRun(run) && n < |run.steps| && ChecksAt(run, n, Key(1, 0))
    ensures ResumedBy(run, n, Key(1, 0)) && !Skipped(run, n, Key(1, 0))
    ensures run.states[n + 1].recognizer == RecognizerAt(Transcribe, Key(1, 0))
  {
    hide IsRun, At, OpensBetween, ChecksAt, ResumedBy, Enabled, Next, Skipped, TellsOpen;
    var none, first, second := RecognizerAt(AwaitTurn, Key(0, 0)), Key(1, 0), Key(1, 1);
    var check := RecognizerAt(CheckRevised, first);
    run := Begins();
    run := Speaks(run, 1, Key(0, 0), [], none, Key(0, 0));
    run := Stops(run, 1, first, [], none, first);
    assert [] + [first] == [first] && [first][1..] == [];
    run := Recognizes(run, 1, first, false, [first], none, first);
    var before := run;
    run := Speaks(run, 1, first, [], check, first);
    var went := run;
    assert [] + [second] == [second];
    run := Stops(run, 1, second, [], check, second);
    var stopped := run;
    run := Asked(run, 1, 2, second, [second], check, second);
    var asked := run;
    run := Speaks(run, 2, second, [second], check, second);
    ExtendsThrough(run, asked, stopped);
    ExtendsThrough(run, stopped, went);
    n := |run.steps|;
    var checked := Checks(run, 2, Key(2, 0), [second], first);
    ExtendsThrough(checked, run, went);
    WentOn(checked, went, |before.steps|, n, first, second);
    SeesTheLatest(checked, n, first, Key(2, 0));
    run := checked;
  }

  lemma Checks(run: Run, resume: nat, key: Key, queue: seq<Key>, k: Key) returns (more: Run)
    requires ToyRun(run) && At(LastState(run), resume, key, true, queue, RecognizerAt(CheckRevised, k), key)
    requires key.turn != k.turn
    ensures ToyRun(more) && Extends(more, run) && |more.steps| == |run.steps| + 1
    ensures more.states[|run.steps|] == LastState(run)
    ensures ChecksAt(more, |run.steps|, k)
    ensures more.states[|run.steps|].shared.open == key
    ensures more.states[|run.steps| + 1].recognizer == RecognizerAt(Transcribe, k)
  {
    hide Stands, IsRun, Extends;
    more := Goes(run, RecognizerStep(true));
    assert more.states[|run.steps|] == LastState(run);
  }

  lemma WentOn(run: Run, went: Run, from: nat, n: nat, k: Key, later: Key)
    requires Whole(run) && Whole(went) && Extends(run, went) && |went.steps| <= n <= |run.steps|
    requires OpensBetween(went, from, later) && later.turn == k.turn && later.revision > k.revision
    ensures ResumedBy(run, n, k)
  {
    var j :| from <= j < |went.steps| && TellsOpen(went, j, later);
    StillTells(run, went, j, later);
    assert Resumes(run, j, k);
  }

  lemma SeesTheLatest(run: Run, n: nat, k: Key, open: Key)
    requires ToyRun(run) && n <= |run.steps| && run.states[n].shared.open == open && open.turn != k.turn
    ensures !Skipped(run, n, k)
  {
    hide IsRun, Skipped;
    SkippedMeans(Toy(), Asks(1), [], run, n, k);
  }
}
