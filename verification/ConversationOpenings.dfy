/** What opened, as the handlers tell it step by step, and the check it is for:
    a turn that went on under a later revision is not recognized. */
module ConversationOpenings {
  import opened Session
  import opened SessionTrace
  import opened Conversation
  import opened ConversationInvariants
  import opened ConversationQueues
  import opened ConversationFloor
  import opened ConversationRuns
  import opened ConversationCalls

  // ------------------------------------------------------------ openings

  /** Step j tells the conversation that `key` opened. */
  predicate TellsOpen(run: Run, j: nat, key: Key)
    requires Whole(run) && j < |run.steps|
  {
    run.steps[j].DeliverOne? && run.states[j].ops != [] && run.states[j].ops[0] == Opened(key)
  }

  predicate OpenedBy(run: Run, n: nat, key: Key)
    requires Whole(run) && n <= |run.steps|
  {
    exists j :: 0 <= j < n && TellsOpen(run, j, key)
  }

  /** Step j tells the conversation that `k` goes on under a later revision. */
  predicate Resumes(run: Run, j: nat, k: Key)
    requires Whole(run) && j < |run.steps|
  {
    && run.steps[j].DeliverOne? && run.states[j].ops != [] && run.states[j].ops[0].Opened?
    && run.states[j].ops[0].key.turn == k.turn && run.states[j].ops[0].key.revision > k.revision
  }

  predicate ResumedBy(run: Run, n: nat, k: Key)
    requires Whole(run) && n <= |run.steps|
  {
    exists j :: 0 <= j < n && Resumes(run, j, k)
  }

  /** Step j tells the conversation that a turn after that of `k` opened. */
  predicate OpensLater(run: Run, j: nat, k: Key)
    requires Whole(run) && j < |run.steps|
  {
    && run.steps[j].DeliverOne? && run.states[j].ops != [] && run.states[j].ops[0].Opened?
    && run.states[j].ops[0].key.turn > k.turn
  }

  predicate LeftBehindBy(run: Run, n: nat, k: Key)
    requires Whole(run) && n <= |run.steps|
  {
    exists j :: 0 <= j < n && OpensLater(run, j, k)
  }

  lemma OpenAfter(m: Setup, s: Sys, step: Step)
    requires m.Valid() && Enabled(m, s, step)
    ensures var open := s.shared.open;
            Next(m, s, step).shared.open ==
            if step.DeliverOne? && s.ops[0].Opened? && Before(open, s.ops[0].key) then s.ops[0].key else open
  {
    hide Deliver, Read, Respond, Recognize, Write, CanRead, CanRespond, CanRecognize, CanWrite, Outdated, Before;
    match step {
      case DeliverOne => OpenOfHandler(s);
      case ReaderStep(move) => OpenOfReader(m, s, move);
      case RecognizerStep(heard) => OpenOfRecognizer(s, heard);
      case ResponderStep(choice) => OpenOfResponder(s, choice);
      case WriterStep => OpenOfWriter(s);
    }
  }

  lemma OpenOfHandler(s: Sys)
    requires CanDeliver(s)
    ensures var open := s.shared.open;
            Deliver(s).shared.open == if s.ops[0].Opened? && Before(open, s.ops[0].key) then s.ops[0].key else open
  {
    hide Outdated, Before, TakesTurnLock;
    match s.ops[0] {
      case Opened(_) =>
      case Say(_) =>
      case _ =>
    }
  }

  lemma OpenOfReader(m: Setup, s: Sys, move: ReaderMove)
    requires m.Valid() && CanRead(m, s, move)
    ensures Read(m, s, move).shared.open == s.shared.open
  {
    hide Hear, HandleAll, Tune;
  }

  lemma OpenOfRecognizer(s: Sys, heard: bool)
    requires CanRecognize(s)
    ensures Recognize(s, heard).shared == s.shared
  {
    hide Release, HandleAll;
  }

  lemma OpenOfResponder(s: Sys, choice: Choice)
    requires CanRespond(s)
    ensures Respond(s, choice).shared.open == s.shared.open
  {
    hide Release, HandleAll, Wakes, Outdated;
  }

  lemma OpenOfWriter(s: Sys)
    requires CanWrite(s)
    ensures Write(s).shared.open == s.shared.open
  {
  }

  lemma OneMoreOpened(run: Run, n: nat, key: Key)
    requires Whole(run) && n < |run.steps|
    ensures OpenedBy(run, n + 1, key) <==> OpenedBy(run, n, key) || TellsOpen(run, n, key)
  {
    hide TellsOpen;
    if OpenedBy(run, n + 1, key) {
      var j :| 0 <= j < n + 1 && TellsOpen(run, j, key);
    }
  }

  lemma StartOpen(m: Setup, p: Params, vad: VadState)
    requires m.Valid()
    ensures Start(m, p, vad).shared.open == Key(0, 0)
  {
  }

  /** What is open is the last of the openings delivered so far. */
  lemma {:induction false} OpenIsLatest(m: Setup, p: Params, vad: VadState, run: Run, n: nat)
    requires m.Valid() && IsRun(m, p, vad, run) && Whole(run) && n <= |run.steps|
    ensures var open := run.states[n].shared.open;
            && (open == Key(0, 0) || OpenedBy(run, n, open))
            && (forall key :: OpenedBy(run, n, key) ==> !Before(open, key))
  {
    hide IsRun, Enabled, Next, OpenedBy;
    if n == 0 {
      NoneOpenedYet(m, p, vad, run);
    } else {
      OpenIsLatest(m, p, vad, run, n - 1);
      StepOf(m, p, vad, run, n - 1);
      var s, step := run.states[n - 1], run.steps[n - 1];
      OpenAfter(m, s, step);
      if step.DeliverOne? {
        EnabledDelivery(m, s, step);
      }
      forall key
        ensures OpenedBy(run, n, key) <==> OpenedBy(run, n - 1, key) || TellsOpen(run, n - 1, key)
      {
        OneMoreOpened(run, n - 1, key);
      }
    }
  }

  lemma EnabledDelivery(m: Setup, s: Sys, step: Step)
    requires m.Valid() && Enabled(m, s, step) && step.DeliverOne?
    ensures s.ops != []
  {
  }

  lemma NoneOpenedYet(m: Setup, p: Params, vad: VadState, run: Run)
    requires m.Valid() && IsRun(m, p, vad, run) && Whole(run)
    ensures run.states[0].shared.open == Key(0, 0)
    ensures forall key :: !OpenedBy(run, 0, key)
  {
    StartOpen(m, p, vad);
    hide Start, Enabled, Next, TellsOpen;
  }

  /** The recognizer skips this turn: it went on under a later revision, and no
      later turn opened since. */
  predicate Skipped(run: Run, n: nat, k: Key)
    requires Whole(run) && n <= |run.steps|
  {
    ResumedBy(run, n, k) && !LeftBehindBy(run, n, k)
  }

  lemma SkippedMeans(m: Setup, p: Params, vad: VadState, run: Run, n: nat, k: Key)
    requires m.Valid() && IsRun(m, p, vad, run) && Whole(run) && n <= |run.steps|
    ensures var open := run.states[n].shared.open;
            Skipped(run, n, k) <==> open.turn == k.turn && open.revision > k.revision
  {
    hide IsRun;
    OpenIsLatest(m, p, vad, run, n);
    var open := run.states[n].shared.open;
    if open != Key(0, 0) {
      var j :| 0 <= j < n && TellsOpen(run, j, open);
      assert open.turn == k.turn && open.revision > k.revision ==> Resumes(run, j, k);
      assert open.turn > k.turn ==> OpensLater(run, j, k);
    }
    if ResumedBy(run, n, k) {
      var j :| 0 <= j < n && Resumes(run, j, k);
      assert TellsOpen(run, j, run.states[j].ops[0].key);
      assert OpenedBy(run, n, run.states[j].ops[0].key);
    }
    if LeftBehindBy(run, n, k) {
      var j :| 0 <= j < n && OpensLater(run, j, k);
      assert TellsOpen(run, j, run.states[j].ops[0].key);
      assert OpenedBy(run, n, run.states[j].ops[0].key);
    }
  }

  predicate ChecksAt(run: Run, n: nat, k: Key)
    requires Whole(run) && n < |run.steps|
  {
    run.steps[n].RecognizerStep? && run.states[n].recognizer == RecognizerAt(CheckRevised, k)
  }

  /** A turn taken for recognition is given up at its check exactly when it went
      on under a later revision and no later turn opened; else it is recognized. */
  lemma CheckIsExact(m: Setup, p: Params, vad: VadState, run: Run, n: nat, k: Key)
    requires m.Valid() && IsRun(m, p, vad, run) && Whole(run) && n < |run.steps| && ChecksAt(run, n, k)
    ensures run.states[n + 1].recognizer == RecognizerAt(if Skipped(run, n, k) then GiveUp else Transcribe, k)
  {
    hide IsRun, Skipped, Enabled, Next;
    SkippedMeans(m, p, vad, run, n, k);
    StepOf(m, p, vad, run, n);
    CheckStep(m, run.states[n], run.steps[n].heard);
  }

  lemma CheckStep(m: Setup, s: Sys, heard: bool)
    requires m.Valid() && Enabled(m, s, RecognizerStep(heard)) && s.recognizer.stage == CheckRevised
    ensures var k, open := s.recognizer.key, s.shared.open;
            Next(m, s, RecognizerStep(heard)).recognizer ==
            RecognizerAt(if open.turn == k.turn && open.revision > k.revision then GiveUp else Transcribe, k)
  {
  }

  // ------------------------------------------------- openings and the log

  lemma {:induction false} OpenedFrom(events: seq<Event>, key: Key)
    ensures Opened(key) in HandleAll(events) <==> HasOpening(events, key)
  {
    if events != [] {
      var n := |events| - 1;
      var before, e := events[..n], events[n];
      OpenedFrom(before, key);
      HandlesOpening(e, key);
      hide HandleAll, Handle, IsOpening;
      assert HandleAll(events) == HandleAll(before) + Handle(e);
      if HasOpening(before, key) {
        var i :| 0 <= i < n && IsOpening(before[i]) && KeyOf(before[i]) == key;
        assert events[i] == before[i];
      }
      if HasOpening(events, key) && !(IsOpening(e) && KeyOf(e) == key) {
        var i :| 0 <= i < |events| && IsOpening(events[i]) && KeyOf(events[i]) == key;
        assert before[i] == events[i];
      }
    }
  }

  lemma HandlesOpening(e: Event, key: Key)
    ensures Opened(key) in Handle(e) <==> IsOpening(e) && KeyOf(e) == key
  {
  }

  /** Every opening in the log was delivered, or is still to be. */
  predicate OpeningsTold(run: Run, n: nat, key: Key)
    requires Whole(run) && n <= |run.steps|
  {
    HasOpening(run.states[n].past.log, key) <==> OpenedBy(run, n, key) || Opened(key) in run.states[n].ops
  }

  lemma {:induction false} EveryOpeningIsTold(m: Setup, p: Params, vad: VadState, run: Run, n: nat, key: Key)
    requires m.Valid() && IsRun(m, p, vad, run) && Whole(run) && n <= |run.steps|
    ensures OpeningsTold(run, n, key)
  {
    hide IsRun, Enabled, Next, OpenedBy, HasOpening, TellsOpen, Inv;
    if n == 0 {
      NothingToldYet(m, p, vad, run, key);
    } else {
      EveryOpeningIsTold(m, p, vad, run, n - 1, key);
      EveryRunKeepsInv(m, p, vad, run, n - 1);
      StepOf(m, p, vad, run, n - 1);
      OneMoreOpened(run, n - 1, key);
      TellsOpening(m, run, n - 1, key);
    }
  }

  lemma NothingToldYet(m: Setup, p: Params, vad: VadState, run: Run, key: Key)
    requires m.Valid() && IsRun(m, p, vad, run) && Whole(run)
    ensures OpeningsTold(run, 0, key)
  {
    hide Enabled, Next, TellsOpen, Initial;
  }

  lemma OpeningsAppend(log: seq<Event>, more: seq<Event>, key: Key)
    ensures HasOpening(log + more, key) <==> HasOpening(log, key) || HasOpening(more, key)
  {
    hide IsOpening;
    HasInMore(log, more);
    if HasOpening(more, key) {
      var i :| 0 <= i < |more| && IsOpening(more[i]) && KeyOf(more[i]) == key;
      assert (log + more)[|log| + i] == more[i];
    }
    if HasOpening(log + more, key) {
      var i :| 0 <= i < |log + more| && IsOpening((log + more)[i]) && KeyOf((log + more)[i]) == key;
      assert i < |log| ==> (log + more)[i] == log[i];
      assert i >= |log| ==> (log + more)[i] == more[i - |log|];
    }
  }

  /** What a step reports, and whether it reports at all. */
  predicate Reports(s: Sys, s': Sys, more: seq<Event>) {
    && s'.past.log == s.past.log + more
    && (if s.ops == [] then s'.ops == HandleAll(more) else more == [] && s'.ops == s.ops)
  }

  lemma ReaderReports(m: Setup, s: Sys, move: ReaderMove) returns (more: seq<Event>)
    requires m.Valid() && CanRead(m, s, move)
    ensures Reports(s, Read(m, s, move), more)
  {
    more := if move.HearOne? then Hear(m, s.session, move.w).events else [];
    hide Hear, Tune;
    assert s.past.log + [] == s.past.log;
  }

  lemma RecognizerReports(s: Sys, heard: bool) returns (more: seq<Event>)
    requires CanRecognize(s) && Locked(s)
    ensures Reports(s, Recognize(s, heard), more)
  {
    more := if s.recognizer.stage == GiveUp
            then Release(s.session, s.recognizer.key.turn, s.recognizer.key.revision).events else [];
    hide Release, OpsShape;
    assert s.past.log + [] == s.past.log;
  }

  lemma ResponderReports(s: Sys, choice: Choice) returns (more: seq<Event>)
    requires CanRespond(s) && Locked(s)
    ensures Reports(s, Respond(s, choice), more)
  {
    more := if AtRelease(s.responder.stage)
            then Release(s.session, s.responder.key.turn, s.responder.key.revision).events else [];
    hide Release, OpsShape, Wakes, Outdated;
    assert s.past.log + [] == s.past.log;
  }

  lemma WriterReports(s: Sys)
    requires CanWrite(s)
    ensures Reports(s, Write(s), [])
  {
    assert s.past.log + [] == s.past.log;
  }

  /** All but the handlers leave what is left to handle alone, and report only
      when nothing is. */
  lemma StepReports(m: Setup, s: Sys, step: Step) returns (more: seq<Event>)
    requires m.Valid() && Enabled(m, s, step) && Inv(s) && !step.DeliverOne?
    ensures Reports(s, Next(m, s, step), more)
  {
    hide Reports, Locked, Read, Recognize, Respond, Write, CanRead, CanRecognize, CanRespond, CanWrite, HandleAll;
    hide Known, Queued, FloorKept, GateKept, Floor;
    match step {
      case ReaderStep(move) => more := ReaderReports(m, s, move);
      case RecognizerStep(heard) => more := RecognizerReports(s, heard);
      case ResponderStep(choice) => more := ResponderReports(s, choice);
      case WriterStep => more := []; WriterReports(s);
    }
    assert Reports(s, Take(m, s, step), more);
    NotedReports(s, Take(m, s, step), more);
  }

  lemma NotedReports(s: Sys, s': Sys, more: seq<Event>)
    requires Reports(s, s', more)
    ensures Reports(s, Noted(s'), more)
  {
    hide Outdated, HandleAll;
  }

  lemma DeliverTells(s: Sys, key: Key)
    requires CanDeliver(s)
    ensures Noted(Deliver(s)).past.log == s.past.log
    ensures Opened(key) in s.ops <==> Opened(key) in Noted(Deliver(s)).ops || s.ops[0] == Opened(key)
  {
    DeliverAlone(s);
    DeliverLets(s);
    hide Deliver, Outdated;
  }

  lemma TellsOpening(m: Setup, run: Run, n: nat, key: Key)
    requires m.Valid() && Whole(run) && n < |run.steps| && Inv(run.states[n])
    requires Enabled(m, run.states[n], run.steps[n]) && run.states[n + 1] == Next(m, run.states[n], run.steps[n])
    requires OpeningsTold(run, n, key)
    requires OpenedBy(run, n + 1, key) <==> OpenedBy(run, n, key) || TellsOpen(run, n, key)
    ensures OpeningsTold(run, n + 1, key)
  {
    hide Inv, OpenedBy, HasOpening, Deliver, Noted, CanDeliver, CanRead, CanRecognize, CanRespond, CanWrite;
    hide Read, Recognize, Respond, Write, HandleAll;
    var s, step := run.states[n], run.steps[n];
    if step.DeliverOne? {
      DeliverTells(s, key);
    } else {
      var more := StepReports(m, s, step);
      OpeningsAppend(s.past.log, more, key);
      OpenedFrom(more, key);
      NoOpenings(key);
    }
  }

  lemma NoOpenings(key: Key)
    ensures !HasOpening([], key)
  {
  }
}
