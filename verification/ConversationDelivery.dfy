/** What the conversation knows of its session: every event the session raised
    is either delivered to the shared fields or still to be handled. */
module ConversationDelivery {
  import opened Session
  import opened SessionTrace
  import opened Conversation

  /** `open` is past every opening and `finalTurn` past every final, but for
      those still in the handlers; what is final was opened before. */
  predicate DeliveredTo(log: seq<Event>, ops: seq<Op>, open: Key, finalTurn: nat) {
    && (forall i :: 0 <= i < |log| && IsOpening(log[i]) ==>
          Opened(KeyOf(log[i])) in ops || !Before(open, KeyOf(log[i])))
    && (forall i :: 0 <= i < |log| && log[i].kind == TurnFinal ==>
          && (Finalled(log[i].turn) in ops || log[i].turn <= finalTurn)
          && !Before(open, KeyOf(log[i])))
    && (finalTurn > 0 ==> HasFinalTurn(log, finalTurn))
    && (forall op :: op in ops && op.Finalled? ==> HasFinalTurn(log, op.turn))
  }

  predicate HasFinalTurn(log: seq<Event>, turn: nat) {
    exists i :: 0 <= i < |log| && log[i].kind == TurnFinal && log[i].turn == turn
  }

  predicate Delivered(s: Sys) {
    DeliveredTo(s.past.log, s.ops, s.shared.open, s.shared.finalTurn)
  }

  lemma {:induction false} HandledIn(events: seq<Event>, i: nat)
    requires i < |events|
    ensures forall op :: op in Handle(events[i]) ==> op in HandleAll(events)
  {
    var n := |events| - 1;
    if i < n {
      HandledIn(events[..n], i);
      assert events[..n][i] == events[i];
    }
  }

  lemma {:induction false} FinalledFrom(events: seq<Event>, op: Op)
    requires op in HandleAll(events) && op.Finalled?
    ensures HasFinalTurn(events, op.turn)
  {
    var n := |events| - 1;
    if op in Handle(events[n]) {
      assert events[n].kind == TurnFinal && events[n].turn == op.turn;
    } else {
      FinalledFrom(events[..n], op);
      var i :| 0 <= i < n && events[..n][i].kind == TurnFinal && events[..n][i].turn == op.turn;
      assert events[i].kind == TurnFinal && events[i].turn == op.turn;
    }
  }

  /** The session makes final only the turn it has committed. */
  predicate FinalsAreCurrent(s: State, events: seq<Event>) {
    forall i :: 0 <= i < |events| && events[i].kind == TurnFinal ==> KeyOf(events[i]) == Current(s) && s.turnId > 0
  }

  lemma HearFinalsAreCurrent(m: Setup, s: State, w: Audio)
    requires Sound(s)
    ensures FinalsAreCurrent(s, Hear(m, s, w).events)
  {
    var ticked := TickGrace(s);
    var listened := Listen(m, ticked.state, w);
    assert FinalsAreCurrent(s, ticked.events);
    DecideMakesNoFinal(m, listened);
    hide TickGrace, Listen, Decide;
  }

  lemma DecideMakesNoFinal(m: Setup, s: State)
    ensures forall i :: 0 <= i < |Decide(m, s).events| ==> Decide(m, s).events[i].kind != TurnFinal
  {
  }

  lemma ReleaseFinalsAreCurrent(s: State, turn: nat, revision: nat)
    requires Sound(s)
    ensures FinalsAreCurrent(s, Release(s, turn, revision).events)
  {
  }

  lemma HasFinalInMore(log: seq<Event>, more: seq<Event>, turn: nat)
    ensures HasFinalTurn(log, turn) || HasFinalTurn(more, turn) ==> HasFinalTurn(log + more, turn)
  {
    if HasFinalTurn(log, turn) {
      var i :| 0 <= i < |log| && log[i].kind == TurnFinal && log[i].turn == turn;
      assert (log + more)[i] == log[i];
    } else if HasFinalTurn(more, turn) {
      var i :| 0 <= i < |more| && more[i].kind == TurnFinal && more[i].turn == turn;
      assert (log + more)[|log| + i] == more[i];
    }
  }

  lemma CurrentIsOpen(s: State, log: seq<Event>, open: Key, finalTurn: nat)
    requires Traced(s, log) && DeliveredTo(log, [], open, finalTurn) && s.turnId > 0
    ensures !Before(open, Current(s))
  {
  }

  /** An opening or a final that is in the shared fields, or still to be. */
  predicate DeliveredOne(e: Event, ops: seq<Op>, open: Key, finalTurn: nat) {
    && (IsOpening(e) ==> Opened(KeyOf(e)) in ops || !Before(open, KeyOf(e)))
    && (e.kind == TurnFinal ==> (Finalled(e.turn) in ops || e.turn <= finalTurn) && !Before(open, KeyOf(e)))
  }

  lemma EventDelivered(s: State, events: seq<Event>, i: nat, open: Key, finalTurn: nat)
    requires i < |events| && FinalsAreCurrent(s, events) && (s.turnId > 0 ==> !Before(open, Current(s)))
    ensures DeliveredOne(events[i], HandleAll(events), open, finalTurn)
  {
    hide HandleAll, Before;
    HandledIn(events, i);
  }

  lemma EventsDelivered(s: State, log: seq<Event>, open: Key, finalTurn: nat, events: seq<Event>)
    requires Traced(s, log) && DeliveredTo(log, [], open, finalTurn) && FinalsAreCurrent(s, events)
    ensures DeliveredTo(log + events, HandleAll(events), open, finalTurn)
  {
    hide Traced, HandleAll, IsOpening, Before;
    if s.turnId > 0 {
      CurrentIsOpen(s, log, open, finalTurn);
    }
    var all := log + events;
    var ops := HandleAll(events);
    forall i | 0 <= i < |all|
      ensures DeliveredOne(all[i], ops, open, finalTurn)
    {
      if i < |log| {
        assert all[i] == log[i];
      } else {
        assert all[i] == events[i - |log|];
        EventDelivered(s, events, i - |log|, open, finalTurn);
      }
    }
    HasFinalInMore(log, events, finalTurn);
    forall op | op in ops && op.Finalled?
      ensures HasFinalTurn(all, op.turn)
    {
      FinalledFrom(events, op);
      HasFinalInMore(log, events, op.turn);
    }
  }

  lemma OpenedDelivers(log: seq<Event>, ops: seq<Op>, open: Key, finalTurn: nat, void: bool)
    requires DeliveredTo(log, ops, open, finalTurn) && ops != [] && ops[0].Opened?
    ensures var key := ops[0].key;
            DeliveredTo(log, [StoreVoid(void)] + ops[1..], if Before(open, key) then key else open, finalTurn)
  {
  }

  lemma FinalledDelivers(log: seq<Event>, ops: seq<Op>, open: Key, finalTurn: nat)
    requires DeliveredTo(log, ops, open, finalTurn) && ops != [] && ops[0].Finalled?
    ensures DeliveredTo(log, ops[1..], open, if ops[0].turn > finalTurn then ops[0].turn else finalTurn)
  {
  }

  lemma OtherDelivers(log: seq<Event>, ops: seq<Op>, open: Key, finalTurn: nat)
    requires DeliveredTo(log, ops, open, finalTurn) && ops != [] && !ops[0].Opened? && !ops[0].Finalled?
    ensures DeliveredTo(log, ops[1..], open, finalTurn)
  {
  }

  lemma DeliverKeepsDelivered(s: Sys)
    requires Delivered(s) && CanDeliver(s)
    ensures Delivered(Deliver(s))
  {
    hide DeliveredTo;
    var c := s.shared;
    match s.ops[0] {
      case Opened(key) => OpenedDelivers(s.past.log, s.ops, c.open, c.finalTurn, Deliver(s).ops[0].void);
      case Finalled(turn) => FinalledDelivers(s.past.log, s.ops, c.open, c.finalTurn);
      case _ => OtherDelivers(s.past.log, s.ops, c.open, c.finalTurn);
    }
  }

  lemma MovedKeepsDelivered(s: Sys, o: Outcome, holder: Thread)
    requires Delivered(s) && s.ops == [] && Traced(s.session, s.past.log) && FinalsAreCurrent(s.session, o.events)
    ensures Delivered(Moved(s, o, holder))
  {
    EventsDelivered(s.session, s.past.log, s.shared.open, s.shared.finalTurn, o.events);
  }
}
