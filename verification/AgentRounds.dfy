/** How many rounds a run has, how it ends, and where each message of it lies:
    all from the rounds alone. */
module AgentRounds {
  import opened Seqs
  import opened Utf8
  import opened Agent

  /** A round that is followed by another: its stream ended, it asked for calls,
      and all of them were answered. */
  predicate GoesOn(r: Round) {
    r.ended && r.calls != [] && Stopped !in r.replies
  }

  predicate AllGoOn(rounds: seq<Round>, n: int)
    requires n <= |rounds|
  {
    forall i :: 0 <= i < n ==> GoesOn(rounds[i])
  }

  /** Round j is the last: every round before it goes on, and it does not. */
  predicate EndsAt(rounds: seq<Round>, maxRounds: int, j: int)
    requires maxRounds <= |rounds|
  {
    0 <= j < maxRounds && AllGoOn(rounds, j) && !GoesOn(rounds[j])
  }

  /** What the last round makes of the run. */
  predicate EndsWith(r: Round, ran: Ran, j: nat) {
    && ran.outcome == (if r.ended && r.calls == [] then Answered else Failed)
    && ran.rounds == (if r.ended then j + 1 else j)
  }

  predicate AllValid(rounds: seq<Round>) {
    forall r :: r in rounds ==> ValidRound(r)
  }

  lemma {:induction false} EndsFrom(rounds: seq<Round>, maxRounds: int, i: nat, a: Answer)
    requires maxRounds <= |rounds| && AllValid(rounds) && i <= |rounds| && AllGoOn(rounds, i)
    ensures var ran := RunFrom(rounds, maxRounds, i, a);
            || (ran.outcome == Exhausted && ran.rounds == (if i < maxRounds then maxRounds else i)
                && (i < maxRounds ==> AllGoOn(rounds, maxRounds)))
            || (exists j :: i <= j && EndsAt(rounds, maxRounds, j) && EndsWith(rounds[j], ran, j))
    decreases maxRounds - i
  {
    hide Grow, PassAll, Delivered, NeedsSpace;
    if i < maxRounds {
      assert rounds[i] in rounds;
      if GoesOn(rounds[i]) {
        EndsFrom(rounds, maxRounds, i + 1, Grow(a, rounds[i]));
      } else {
        assert EndsAt(rounds, maxRounds, i);
        if Stopped in rounds[i].replies {
          StoppedHasCalls(rounds[i]);
        }
      }
    }
  }

  /** A run is exhausted exactly if every round it may have goes on; else it ends
      at the first that does not: answered if that round came to its end and
      asked for nothing, failed if its stream or one of its calls was given up.
      Its rounds are those whose streams came to their end. */
  lemma RunEnds(rounds: seq<Round>, maxRounds: int, messages: seq<Message>)
    requires maxRounds <= |rounds| && AllValid(rounds)
    ensures var ran := RunFrom(rounds, maxRounds, 0, Answer([], [], messages));
            && (ran.outcome == Exhausted <==> AllGoOn(rounds, maxRounds))
            && (ran.outcome == Exhausted ==> ran.rounds == if maxRounds > 0 then maxRounds else 0)
            && (ran.outcome != Exhausted ==> exists j :: EndsAt(rounds, maxRounds, j))
            && (forall j :: EndsAt(rounds, maxRounds, j) ==> EndsWith(rounds[j], ran, j))
  {
    hide RunFrom, ValidRound, GoesOn;
    EndsFrom(rounds, maxRounds, 0, Answer([], [], messages));
  }

  // ------------------------------------------------------------ the messages

  /** How many calls of a round were answered: those before the one stopped. */
  function Kept(replies: seq<Reply>): (n: nat)
    ensures n <= |replies| && Stopped !in replies[..n] && (n < |replies| ==> replies[n].Stopped?)
  {
    if replies == [] || replies[0].Stopped? then 0
    else
      assert replies[1..][..Kept(replies[1..])] == replies[1..][..Kept(replies[1..])];
      1 + Kept(replies[1..])
  }

  /** How many messages a round adds. */
  function Weight(r: Round): nat {
    if r.calls == [] then 0 else 1 + Kept(r.replies)
  }

  /** Where the messages of round n begin. */
  function Place(rounds: seq<Round>, n: nat): nat
    requires n <= |rounds|
  {
    if n == 0 then 0 else Place(rounds, n - 1) + Weight(rounds[n - 1])
  }

  /** The messages of a round lie from place p on: what it said with the calls it
      asked for, and the reply to each call under its id. */
  predicate LiesAt(ms: seq<Message>, p: nat, r: Round) {
    r.calls != [] ==>
      && p + Weight(r) <= |ms| && ms[p] == Assistant(Concat(r.deltas), r.calls)
      && Kept(r.replies) <= |r.calls|
      && (forall i :: 0 <= i < Kept(r.replies) ==>
            !r.replies[i].Stopped? && ms[p + 1 + i] == Tool(r.replies[i].content, r.calls[i].id))
  }

  predicate LaidOut(start: seq<Message>, ms: seq<Message>, rounds: seq<Round>, n: nat)
    requires n <= |rounds|
  {
    && start <= ms && |ms| == |start| + Place(rounds, n)
    && (forall j :: 0 <= j < n ==> LiesAt(ms, |start| + Place(rounds, j), rounds[j]))
  }

  lemma {:induction false} RepliesLie(calls: seq<Call>, replies: seq<Reply>)
    requires |calls| == |replies|
    ensures |Replies(calls, replies)| == Kept(replies)
    ensures forall i :: 0 <= i < Kept(replies) ==>
                          !replies[i].Stopped? && Replies(calls, replies)[i] == Tool(replies[i].content, calls[i].id)
  {
    if calls != [] && !replies[0].Stopped? {
      RepliesLie(calls[1..], replies[1..]);
    }
  }

  lemma LiesInMore(ms: seq<Message>, more: seq<Message>, p: nat, r: Round)
    requires LiesAt(ms, p, r)
    ensures LiesAt(ms + more, p, r)
  {
  }

  function Added(r: Round): seq<Message>
    requires ValidRound(r)
  {
    if r.calls == [] then [] else [Assistant(Concat(r.deltas), r.calls)] + Replies(r.calls, r.replies)
  }

  lemma GrowAdds(a: Answer, r: Round)
    requires ValidRound(r)
    ensures Grow(a, r).messages == a.messages + Added(r) && |Added(r)| == Weight(r)
  {
    hide PassAll, Concat, Replies, NeedsSpace;
    RepliesLie(r.calls, r.replies);
  }

  lemma NextPlace(rounds: seq<Round>, n: nat)
    requires n < |rounds|
    ensures Place(rounds, n + 1) == Place(rounds, n) + Weight(rounds[n])
  {
  }

  lemma StartsStill(start: seq<Message>, ms: seq<Message>, more: seq<Message>)
    requires start <= ms
    ensures start <= ms + more
  {
  }

  lemma GrowLaysOut(start: seq<Message>, a: Answer, rounds: seq<Round>, n: nat)
    requires n < |rounds| && ValidRound(rounds[n]) && LaidOut(start, a.messages, rounds, n)
    ensures LaidOut(start, Grow(a, rounds[n]).messages, rounds, n + 1)
  {
    hide Grow, Added, LiesAt, Weight, ValidRound, Place;
    var r := rounds[n];
    GrowAdds(a, r);
    OneLies(a.messages, r);
    NextPlace(rounds, n);
    var ms := Grow(a, r).messages;
    StartsStill(start, a.messages, Added(r));
    forall j | 0 <= j < n + 1
      ensures LiesAt(ms, |start| + Place(rounds, j), rounds[j])
    {
      if j < n {
        LiesInMore(a.messages, Added(r), |start| + Place(rounds, j), rounds[j]);
      }
    }
  }

  lemma OneLies(ms: seq<Message>, r: Round)
    requires ValidRound(r)
    ensures LiesAt(ms + Added(r), |ms|, r)
  {
    hide Concat, Replies;
    RepliesLie(r.calls, r.replies);
  }

  lemma {:induction false} RunLaysOut(
      rounds: seq<Round>, maxRounds: int, i: nat, a: Answer, start: seq<Message>)
    requires maxRounds <= |rounds| && AllValid(rounds) && i <= |rounds| && LaidOut(start, a.messages, rounds, i)
    ensures var ran := RunFrom(rounds, maxRounds, i, a);
            ran.rounds <= |rounds| && LaidOut(start, ran.answer.messages, rounds, ran.rounds)
    decreases maxRounds - i
  {
    hide LaidOut, Grow, PassAll, Delivered, NeedsSpace;
    if i < maxRounds && rounds[i].ended {
      assert rounds[i] in rounds;
      GrowLaysOut(start, a, rounds, i);
      if GoesOn(rounds[i]) {
        RunLaysOut(rounds, maxRounds, i + 1, Grow(a, rounds[i]), start);
      }
    }
  }

  /** However a run ends, its messages are those it was given and then, one round
      after the other, what the round said with its calls and the reply to each
      call up to the one stopped: each in its place, and nothing else. */
  lemma EveryMessageHasItsPlace(rounds: seq<Round>, maxRounds: int, messages: seq<Message>)
    requires maxRounds <= |rounds| && AllValid(rounds)
    ensures var ran := RunFrom(rounds, maxRounds, 0, Answer([], [], messages));
            ran.rounds <= |rounds| && LaidOut(messages, ran.answer.messages, rounds, ran.rounds)
  {
    hide RunFrom, ValidRound;
    RunLaysOut(rounds, maxRounds, 0, Answer([], [], messages), messages);
  }

  // ------------------------------------------------- what a failed round hands

  /** The bytes after which no space is put. */
  lemma SpaceBytes(b: Byte)
    ensures IsSpaceByte(b) <==> b in {0x09, 0x0A, 0x0B, 0x0C, 0x0D, 0x20}
  {
  }

  /** The words of a round meet those before it: both are there, and no space is
      between them yet. */
  predicate Meets(text: Text, read: Text) {
    NeedsSpace(text) && read != [] && !IsSpaceByte(read[0])
  }

  lemma {:induction false} StillSeparate(tap: Tap, deltas: seq<Text>)
    requires !tap.spaced
    ensures PassAll(tap, deltas).separate <==> tap.separate && ReadAs(deltas) == []
    ensures PassAll(tap, deltas).spaced <==> tap.separate && ReadAs(deltas) != [] && !IsSpaceByte(ReadAs(deltas)[0])
  {
    if deltas != [] {
      StillSeparate(tap, deltas[..|deltas| - 1]);
      hide CStr;
    }
  }

  /** A stream given up: the caller was handed its words as they read, after a
      space if they meet those before, or that space alone if it was refused,
      and then none of its words. */
  lemma GivenUpHands(a: Answer, r: Round)
    ensures var t := Delivered(Tap(NeedsSpace(a.text), false, a.handed), r.deltas, r.refusedSpace);
            var read := ReadAs(r.deltas);
            var space: Text := if Meets(a.text, read) then [SPACE] else [];
            var refused := r.refusedSpace && space != [] && ReadAs(r.deltas[..|r.deltas| - 1]) == [];
            Concat(t.handed) == Concat(a.handed) + if refused then space else space + read
  {
    hide PassAll, Concat, NeedsSpace, CStr, IsSpaceByte, ReadAs;
    var tap, h, read := Tap(NeedsSpace(a.text), false, a.handed), Concat(a.handed), ReadAs(r.deltas);
    PassAllReads(tap, r.deltas);
    StillSeparate(tap, r.deltas);
    assert h + [SPACE] + read == h + ([SPACE] + read) && h + [] + read == h + ([] + read);
    if r.deltas == [] {
      PassNothing(tap);
    } else {
      var before, last := r.deltas[..|r.deltas| - 1], r.deltas[|r.deltas| - 1];
      PassOne(tap, r.deltas, |r.deltas| - 1);
      assert r.deltas[..|r.deltas|] == r.deltas;
      RefusedSpace(tap, before, last);
      ReadLast(r.deltas);
      var space: Text := [SPACE];
      var t := Delivered(tap, r.deltas, r.refusedSpace);
      if r.refusedSpace && TakesSpace(PassAll(tap, before), last) {
        assert t.handed == PassAll(tap, before).handed + [space];
        assert Concat(t.handed) == h + space;
      } else {
        assert t == PassAll(tap, r.deltas);
        assert h + Inserted(t) + read == h + (Inserted(t) + read);
      }
    }
  }

  lemma ReadLast(deltas: seq<Text>)
    requires deltas != []
    ensures var before, c := deltas[..|deltas| - 1], CStr(deltas[|deltas| - 1]);
            ReadAs(deltas) == ReadAs(before) + c && (ReadAs(before) == [] ==> ReadAs(deltas) == c)
  {
    hide CStr;
  }

  /** The space before the next delta, refused. */
  lemma RefusedSpace(tap: Tap, before: seq<Text>, last: Text)
    requires !tap.spaced
    ensures var t, space: Text := PassAll(tap, before), [SPACE];
            && (TakesSpace(t, last) <==>
                  tap.separate && ReadAs(before) == [] && CStr(last) != [] && !IsSpaceByte(CStr(last)[0]))
            && (TakesSpace(t, last) ==> Concat(t.handed + [space]) == Concat(tap.handed) + space)
  {
    hide PassAll, Concat, CStr, IsSpaceByte, ReadAs;
    PassAllReads(tap, before);
    StillSeparate(tap, before);
    var t, space: Text := PassAll(tap, before), [SPACE];
    ConcatLast(t.handed, space);
    assert Concat(tap.handed) + [] + [] == Concat(tap.handed);
  }

  lemma {:induction false} RunReaches(rounds: seq<Round>, maxRounds: int, j: nat, i: nat, a: Answer)
    requires maxRounds <= |rounds| && AllValid(rounds) && i <= j < maxRounds && AllGoOn(rounds, j)
    ensures var before := RunFrom(rounds, j, i, a);
            && before.outcome == Exhausted
            && RunFrom(rounds, maxRounds, i, a) == RunFrom(rounds, maxRounds, j, before.answer)
    decreases j - i
  {
    hide Grow, PassAll, Delivered, NeedsSpace;
    if i < j {
      assert rounds[i] in rounds && GoesOn(rounds[i]);
      RunReaches(rounds, maxRounds, j, i + 1, Grow(a, rounds[i]));
    }
  }

  /** A run that ends with a stream given up keeps the text and the messages of
      the rounds before it, and handed on of that stream what GivenUpHands says. */
  lemma FailedRunKeeps(rounds: seq<Round>, maxRounds: int, messages: seq<Message>, j: nat)
    requires maxRounds <= |rounds| && AllValid(rounds) && EndsAt(rounds, maxRounds, j) && !rounds[j].ended
    ensures var start := Answer([], [], messages);
            var before, after := RunFrom(rounds, j, 0, start).answer, RunFrom(rounds, maxRounds, 0, start).answer;
            var read := ReadAs(rounds[j].deltas);
            var space: Text := if Meets(before.text, read) then [SPACE] else [];
            var refused := rounds[j].refusedSpace && space != []
                           && ReadAs(rounds[j].deltas[..|rounds[j].deltas| - 1]) == [];
            && after.text == before.text && after.messages == before.messages
            && Concat(after.handed) == Concat(before.handed) + if refused then space else space + read
  {
    hide Grow, PassAll, Delivered, NeedsSpace, Concat, ReadAs, Meets, ValidRound, GoesOn;
    var start := Answer([], [], messages);
    RunReaches(rounds, maxRounds, j, 0, start);
    GivenUpHands(RunFrom(rounds, j, 0, start).answer, rounds[j]);
  }
}
