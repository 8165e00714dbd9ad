/** The rounds of an answer: words, calls, their results, words again. What each
    stream delivers and what each tool replies are arbitrary. Text crosses to
    the caller as C strings, so a NUL ends a delta there. */
module Agent {
  import opened Seqs
  import opened Utf8
  import EventStream

  const SPACE := 0x20

  predicate IsSpaceByte(b: Byte) {
    b == 0x20 || 0x09 <= b <= 0x0D
  }

  type Call = EventStream.Call

  /** What a tool gave back: its result, why it failed, or the cancellation
      that stopped it. */
  datatype Reply = Result(content: Text) | Error(content: Text) | Stopped

  /** One stream: the deltas it delivered, whether it came to its end, whether
      the caller refused the space put before the last delta, the calls it asked
      for and what each was answered. */
  datatype Round = Round(deltas: seq<Text>, ended: bool, refusedSpace: bool, calls: seq<Call>, replies: seq<Reply>)

  datatype Message = Assistant(content: Text, calls: seq<Call>) | Tool(content: Text, callId: Text)

  datatype Outcome = Answered | Failed | Exhausted

  /** How a run ended, with what, and how many rounds its text holds. */
  datatype Ran = Ran(outcome: Outcome, answer: Answer, rounds: nat)

  /** The answer so far: its text, what the caller was handed, the messages. */
  datatype Answer = Answer(text: Text, handed: seq<Text>, messages: seq<Message>)

  // ------------------------------------------------------------ the tap

  datatype Tap = Tap(separate: bool, spaced: bool, handed: seq<Text>)

  /** A space goes before the first word of a round that follows other words. */
  predicate TakesSpace(tap: Tap, delta: Text) {
    var c := CStr(delta);
    tap.separate && c != [] && !IsSpaceByte(c[0])
  }

  /** One delta on its way to the caller. */
  function Pass(tap: Tap, delta: Text): Tap {
    var c := CStr(delta);
    if TakesSpace(tap, delta) then Tap(false, true, tap.handed + [[SPACE], c])
    else tap.(separate := tap.separate && c == [], handed := tap.handed + [c])
  }

  function PassAll(tap: Tap, deltas: seq<Text>): Tap {
    if deltas == [] then tap else Pass(PassAll(tap, deltas[..|deltas| - 1]), deltas[|deltas| - 1])
  }

  /** The deltas of a stream; a space refused keeps the last one back. */
  function Delivered(tap: Tap, deltas: seq<Text>, refusedSpace: bool): Tap {
    if deltas == [] then tap
    else
      var before, last := PassAll(tap, deltas[..|deltas| - 1]), deltas[|deltas| - 1];
      if refusedSpace && TakesSpace(before, last) then Tap(false, true, before.handed + [[SPACE]])
      else Pass(before, last)
  }

  predicate NeedsSpace(text: Text) {
    text != [] && !IsSpaceByte(text[|text| - 1])
  }

  // ------------------------------------------------------------ the rounds

  /** One tool message per call, up to the one a cancellation stopped. */
  function Replies(calls: seq<Call>, replies: seq<Reply>): seq<Message>
    requires |calls| == |replies|
  {
    if calls == [] || replies[0].Stopped? then []
    else [Tool(replies[0].content, calls[0].id)] + Replies(calls[1..], replies[1..])
  }

  /** A refusal ends no stream. */
  predicate ValidRound(r: Round) {
    |r.calls| == |r.replies| && (r.ended ==> !r.refusedSpace)
  }

  /** A round whose stream ended: its words, and its calls with their replies. */
  function Grow(a: Answer, r: Round): Answer
    requires ValidRound(r)
  {
    var tap := PassAll(Tap(NeedsSpace(a.text), false, a.handed), r.deltas);
    var answer := Concat(r.deltas);
    Answer(
      a.text + (if tap.spaced then [SPACE] + answer else answer),
      tap.handed,
      if r.calls == [] then a.messages
      else a.messages + [Assistant(answer, r.calls)] + Replies(r.calls, r.replies))
  }

  /** At most maxRounds rounds: an answer when one of them asks for nothing, a
      failure when a stream or the caller gives up. */
  function RunFrom(rounds: seq<Round>, maxRounds: int, i: nat, a: Answer): (r: Ran)
    requires maxRounds <= |rounds| && forall r :: r in rounds ==> ValidRound(r)
    ensures r.rounds <= |rounds| || r.rounds == i
    decreases maxRounds - i
  {
    if i >= maxRounds then Ran(Exhausted, a, i)
    else if !rounds[i].ended then
      var tap := Tap(NeedsSpace(a.text), false, a.handed);
      Ran(Failed, a.(handed := Delivered(tap, rounds[i].deltas, rounds[i].refusedSpace).handed), i)
    else
      assert rounds[i] in rounds;
      var more := Grow(a, rounds[i]);
      if rounds[i].calls == [] then Ran(Answered, more, i + 1)
      else if Stopped in rounds[i].replies then Ran(Failed, more, i + 1)
      else RunFrom(rounds, maxRounds, i + 1, more)
  }

  method Run(rounds: seq<Round>, maxRounds: int, messages: seq<Message>) returns (outcome: Outcome, a: Answer)
    requires maxRounds <= |rounds| && forall r :: r in rounds ==> ValidRound(r)
    ensures var ran := RunFrom(rounds, maxRounds, 0, Answer([], [], messages));
            outcome == ran.outcome && a == ran.answer
  {
    a := Answer([], [], messages);
    var round := 0;
    hide PassAll, Delivered, Concat, Grow, Replies;
    while round < maxRounds
      invariant 0 <= round
      invariant RunFrom(rounds, maxRounds, 0, Answer([], [], messages)) == RunFrom(rounds, maxRounds, round, a)
    {
      var r := rounds[round];
      assert r in rounds;
      var tap := Deliver(Tap(NeedsSpace(a.text), false, a.handed), r.deltas, r.refusedSpace);
      if !r.ended {
        return Failed, a.(handed := tap.handed);
      }
      NothingRefused(Tap(NeedsSpace(a.text), false, a.handed), r.deltas);
      var stopped;
      a, stopped := AfterStream(a, r, tap);
      if r.calls == [] {
        return Answered, a;
      }
      if stopped {
        return Failed, a;
      }
      round := round + 1;
    }
    outcome := Exhausted;
  }

  /** The words of a round, then its calls if it asks for any. */
  method AfterStream(a: Answer, r: Round, tap: Tap) returns (more: Answer, stopped: bool)
    requires ValidRound(r) && tap == PassAll(Tap(NeedsSpace(a.text), false, a.handed), r.deltas)
    ensures more == Grow(a, r) && (stopped <==> Stopped in r.replies)
  {
    hide PassAll, Concat, Replies, NeedsSpace;
    var answer := Concat(r.deltas);
    var text := a.text + (if tap.spaced then [SPACE] + answer else answer);
    if r.calls == [] {
      return a.(text := text, handed := tap.handed), false;
    }
    var log;
    log, stopped := AnswerCalls(a.messages + [Assistant(answer, r.calls)], r.calls, r.replies);
    more := Answer(text, tap.handed, log);
  }

  lemma NothingRefused(tap: Tap, deltas: seq<Text>)
    ensures Delivered(tap, deltas, false) == PassAll(tap, deltas)
  {
  }

  method Deliver(start: Tap, deltas: seq<Text>, refusedSpace: bool) returns (tap: Tap)
    ensures tap == Delivered(start, deltas, refusedSpace)
  {
    hide PassAll, CStr;
    tap := start;
    var i := 0;
    PassNothing(start);
    while i < |deltas|
      invariant 0 <= i <= |deltas| && tap == PassAll(start, deltas[..i])
      invariant i == |deltas| > 0 ==>
        !(refusedSpace && TakesSpace(PassAll(start, deltas[..i - 1]), deltas[i - 1]))
    {
      PassOne(start, deltas, i);
      var c := CStr(deltas[i]);
      if tap.separate && c != [] {
        tap := tap.(separate := false);
        if !IsSpaceByte(c[0]) {
          tap := tap.(spaced := true, handed := tap.handed + [[SPACE]]);
          if refusedSpace && i == |deltas| - 1 {
            return;
          }
        }
      }
      tap := tap.(handed := tap.handed + [c]);
      i := i + 1;
    }
    assert deltas[..|deltas|] == deltas;
    if deltas != [] {
      PassOne(start, deltas, |deltas| - 1);
    }
  }

  lemma PassNothing(start: Tap)
    ensures PassAll(start, []) == start
  {
  }

  lemma PassOne(start: Tap, deltas: seq<Text>, i: nat)
    requires i < |deltas|
    ensures PassAll(start, deltas[..i + 1]) == Pass(PassAll(start, deltas[..i]), deltas[i])
  {
    assert deltas[..i + 1][..i] == deltas[..i];
  }

  /** Runs the calls in order, until a cancellation stops them. */
  method AnswerCalls(log: seq<Message>, calls: seq<Call>, replies: seq<Reply>)
    returns (more: seq<Message>, stopped: bool)
    requires |calls| == |replies|
    ensures stopped <==> Stopped in replies
    ensures more == log + Replies(calls, replies)
  {
    more := log;
    var i := 0;
    while i < |calls|
      invariant 0 <= i <= |calls| && Stopped !in replies[..i]
      invariant log + Replies(calls, replies) == more + Replies(calls[i..], replies[i..])
    {
      if replies[i].Stopped? {
        assert more + [] == more;
        return more, true;
      }
      assert calls[i..][1..] == calls[i + 1..] && replies[i..][1..] == replies[i + 1..];
      var one := Tool(replies[i].content, calls[i].id);
      ghost var rest := Replies(calls[i + 1..], replies[i + 1..]);
      assert more + ([one] + rest) == more + [one] + rest;
      more := more + [one];
      i := i + 1;
    }
    assert replies[..i] == replies;
    stopped := false;
  }

  // ------------------------------------------------------------ text and handed

  /** No NUL in any of these. */
  predicate NoNul(deltas: seq<Text>) {
    forall i :: 0 <= i < |deltas| ==> 0 !in deltas[i]
  }

  /** What the caller reads of the deltas. */
  function ReadAs(deltas: seq<Text>): Text {
    if deltas == [] then [] else ReadAs(deltas[..|deltas| - 1]) + CStr(deltas[|deltas| - 1])
  }

  /** What NULs hide of them. */
  function Hidden(deltas: seq<Text>): nat {
    if deltas == [] then 0
    else Hidden(deltas[..|deltas| - 1]) + (|deltas[|deltas| - 1]| - |CStr(deltas[|deltas| - 1])|)
  }

  lemma {:induction false} HiddenIsNul(deltas: seq<Text>)
    ensures Hidden(deltas) == 0 <==> NoNul(deltas)
    ensures |Concat(deltas)| == |ReadAs(deltas)| + Hidden(deltas)
    ensures NoNul(deltas) ==> Concat(deltas) == ReadAs(deltas)
  {
    if deltas != [] {
      var before, last := deltas[..|deltas| - 1], deltas[|deltas| - 1];
      HiddenIsNul(before);
      assert |CStr(last)| == |last| <==> CStr(last) == last;
      assert NoNul(deltas) <==> NoNul(before) && 0 !in last;
    }
  }

  lemma ConcatTwo(pieces: seq<Text>, a: Text, b: Text)
    ensures Concat(pieces + [a, b]) == Concat(pieces) + a + b
  {
    assert pieces + [a, b] == pieces + [a] + [b];
    ConcatLast(pieces, a);
    ConcatLast(pieces + [a], b);
  }

  function Inserted(tap: Tap): Text {
    if tap.spaced then [SPACE] else []
  }

  /** One delta more: what it reads as, after the space it may need. */
  lemma PassReads(tap: Tap, delta: Text, was: Text, read: Text)
    requires Concat(tap.handed) == was + Inserted(tap) + read
    requires tap.separate ==> read == [] && !tap.spaced
    ensures var t := Pass(tap, delta);
            && Concat(t.handed) == was + Inserted(t) + (read + CStr(delta))
            && (t.separate ==> read + CStr(delta) == [] && !t.spaced)
  {
    hide Concat, CStr;
    var c := CStr(delta);
    ConcatLast(tap.handed, c);
    ConcatTwo(tap.handed, [SPACE], c);
    if tap.separate && c != [] && !IsSpaceByte(c[0]) {
      assert was + [] + [] + [SPACE] + c == was + [SPACE] + ([] + c);
    } else {
      assert was + Inserted(tap) + read + c == was + Inserted(tap) + (read + c);
    }
  }

  /** What the tap hands on over a round: the deltas as they read, after the
      space it put before the first word. */
  lemma {:induction false} PassAllReads(tap: Tap, deltas: seq<Text>)
    requires !tap.spaced
    ensures var t := PassAll(tap, deltas);
            && Concat(t.handed) == Concat(tap.handed) + Inserted(t) + ReadAs(deltas)
            && (t.separate ==> ReadAs(deltas) == [] && !t.spaced)
  {
    if deltas == [] {
      assert Concat(tap.handed) + [] + [] == Concat(tap.handed);
    } else {
      PassAllReads(tap, deltas[..|deltas| - 1]);
      hide Concat;
      PassReads(PassAll(tap, deltas[..|deltas| - 1]), deltas[|deltas| - 1], Concat(tap.handed),
                ReadAs(deltas[..|deltas| - 1]));
    }
  }

  /** The text against what was handed: `hidden` bytes longer, and equal to it
      when nothing was hidden. */
  predicate Agrees(a: Answer, hidden: nat) {
    |a.text| == |Concat(a.handed)| + hidden && (hidden == 0 ==> a.text == Concat(a.handed))
  }

  lemma GrowText(a: Answer, r: Round)
    requires ValidRound(r)
    ensures var t := PassAll(Tap(NeedsSpace(a.text), false, a.handed), r.deltas);
            Grow(a, r).text == a.text + Inserted(t) + Concat(r.deltas) && Grow(a, r).handed == t.handed
  {
    hide PassAll, Concat, NeedsSpace, Replies;
    var t := PassAll(Tap(NeedsSpace(a.text), false, a.handed), r.deltas);
    assert a.text + [] + Concat(r.deltas) == a.text + Concat(r.deltas);
    assert a.text + [SPACE] + Concat(r.deltas) == a.text + ([SPACE] + Concat(r.deltas));
  }

  lemma Lengths<T>(a: seq<T>, b: seq<T>, c: seq<T>)
    ensures |a + b + c| == |a| + |b| + |c|
  {
  }

  lemma GrowAgrees(a: Answer, r: Round, hidden: nat)
    requires Agrees(a, hidden) && ValidRound(r)
    ensures Agrees(Grow(a, r), hidden + Hidden(r.deltas))
  {
    hide PassAll, Concat, ReadAs, Hidden, NeedsSpace;
    var tap := Tap(NeedsSpace(a.text), false, a.handed);
    PassAllReads(tap, r.deltas);
    HiddenIsNul(r.deltas);
    GrowText(a, r);
    var t := PassAll(tap, r.deltas);
    Lengths(a.text, Inserted(t), Concat(r.deltas));
    Lengths(Concat(a.handed), Inserted(t), ReadAs(r.deltas));
  }

  function HiddenIn(rounds: seq<Round>): nat {
    if rounds == [] then 0 else HiddenIn(rounds[..|rounds| - 1]) + Hidden(rounds[|rounds| - 1].deltas)
  }

  predicate NoNulIn(rounds: seq<Round>) {
    forall i :: 0 <= i < |rounds| ==> NoNul(rounds[i].deltas)
  }

  lemma {:induction false} HiddenInIsNul(rounds: seq<Round>)
    ensures HiddenIn(rounds) == 0 <==> NoNulIn(rounds)
  {
    if rounds != [] {
      var before, last := rounds[..|rounds| - 1], rounds[|rounds| - 1];
      HiddenInIsNul(before);
      HiddenIsNul(last.deltas);
      hide Hidden, NoNul;
      assert NoNulIn(rounds) <==> NoNulIn(before) && NoNul(last.deltas);
    }
  }

  lemma {:induction false} RunAgrees(rounds: seq<Round>, maxRounds: int, i: nat, a: Answer)
    requires maxRounds <= |rounds| && (forall r :: r in rounds ==> ValidRound(r))
    requires i <= |rounds| && Agrees(a, HiddenIn(rounds[..i]))
    ensures var ran := RunFrom(rounds, maxRounds, i, a);
            i <= ran.rounds <= |rounds|
            && (ran.outcome != Failed ==> Agrees(ran.answer, HiddenIn(rounds[..ran.rounds])))
    decreases maxRounds - i
  {
    hide Agrees, Grow, Hidden, PassAll, NeedsSpace;
    if i < maxRounds && rounds[i].ended {
      assert rounds[i] in rounds;
      GrowAgrees(a, rounds[i], HiddenIn(rounds[..i]));
      assert rounds[..i + 1][..i] == rounds[..i];
      if rounds[i].calls != [] && Stopped !in rounds[i].replies {
        RunAgrees(rounds, maxRounds, i + 1, Grow(a, rounds[i]));
      }
    }
  }

  /** The text is the concatenation of everything handed to the caller, inserted
      spaces included, exactly when no delta that went into it holds a NUL. */
  lemma TextIsWhatWasHanded(rounds: seq<Round>, maxRounds: int, messages: seq<Message>)
    requires maxRounds <= |rounds| && forall r :: r in rounds ==> ValidRound(r)
    requires RunFrom(rounds, maxRounds, 0, Answer([], [], messages)).outcome != Failed
    ensures var ran := RunFrom(rounds, maxRounds, 0, Answer([], [], messages));
            ran.rounds <= |rounds|
            && (ran.answer.text == Concat(ran.answer.handed) <==> NoNulIn(rounds[..ran.rounds]))
  {
    assert rounds[..0] == [] && Agrees(Answer([], [], messages), 0);
    RunAgrees(rounds, maxRounds, 0, Answer([], [], messages));
    var ran := RunFrom(rounds, maxRounds, 0, Answer([], [], messages));
    HiddenInIsNul(rounds[..ran.rounds]);
    hide RunFrom, HiddenIn, NoNulIn, Concat;
  }

  /** A delta that holds a NUL, "a NUL b": the text keeps all three bytes, the
      caller reads one. */
  lemma NulHidesText()
    ensures var rounds := [Round([[0x61, 0x00, 0x62]], true, false, [], [])];
            var ran := RunFrom(rounds, 1, 0, Answer([], [], []));
            ran.outcome == Answered && ran.answer.text == [0x61, 0x00, 0x62]
            && Concat(ran.answer.handed) == [0x61]
  {
    var delta: Text := [0x61, 0x00, 0x62];
    assert delta[1..][0] == 0;
    assert CStr(delta) == [0x61];
    var deltas := [delta];
    assert deltas[..0] == [] && Concat(deltas) == [] + delta;
    var tap := Pass(Tap(false, false, []), delta);
    assert PassAll(Tap(false, false, []), deltas) == tap && tap.handed == [] + [[0x61]];
    ConcatLast([], [0x61]);
  }

  // ------------------------------------------------------------ the messages

  predicate AnsweredBy(tools: seq<Message>, calls: seq<Call>) {
    |tools| == |calls| && forall i :: 0 <= i < |calls| ==> tools[i].Tool? && tools[i].callId == calls[i].id
  }

  /** Each assistant message that asks for calls is followed by one tool message
      per call, in order, under the id of the call. */
  predicate Paired(ms: seq<Message>)
    decreases |ms|
  {
    ms == [] ||
    (&& ms[0].Assistant? && ms[0].calls != [] && |ms[0].calls| < |ms|
     && AnsweredBy(ms[1..|ms[0].calls| + 1], ms[0].calls)
     && Paired(ms[|ms[0].calls| + 1..]))
  }

  lemma {:induction false} PairedAppend(a: seq<Message>, b: seq<Message>)
    requires Paired(a) && Paired(b)
    ensures Paired(a + b)
    decreases |a|
  {
    hide AnsweredBy;
    if a == [] {
      assert a + b == b;
    } else {
      var n := |a[0].calls| + 1;
      PairedAppend(a[n..], b);
      assert (a + b)[n..] == a[n..] + b && (a + b)[1..n] == a[1..n] && (a + b)[0] == a[0];
    }
  }

  lemma {:induction false} RepliesAnswer(calls: seq<Call>, replies: seq<Reply>)
    requires |calls| == |replies| && Stopped !in replies
    ensures |Replies(calls, replies)| == |calls|
    ensures forall i :: 0 <= i < |calls| ==> Replies(calls, replies)[i] == Tool(replies[i].content, calls[i].id)
  {
    if calls != [] {
      RepliesAnswer(calls[1..], replies[1..]);
    }
  }

  lemma RoundIsPaired(answer: Text, calls: seq<Call>, replies: seq<Reply>)
    requires calls != [] && |calls| == |replies| && Stopped !in replies
    ensures Paired([Assistant(answer, calls)] + Replies(calls, replies))
  {
    RepliesAnswer(calls, replies);
    var ms := [Assistant(answer, calls)] + Replies(calls, replies);
    assert ms[|calls| + 1..] == [] && ms[1..|calls| + 1] == Replies(calls, replies);
  }

  lemma BehindStart(start: seq<Message>, more: seq<Message>)
    ensures start <= start + more && (start + more)[|start|..] == more
  {
  }

  /** One round of a run. */
  lemma RunOnce(rounds: seq<Round>, maxRounds: int, i: nat, a: Answer)
    requires maxRounds <= |rounds| && (forall r :: r in rounds ==> ValidRound(r))
    ensures var ran := RunFrom(rounds, maxRounds, i, a);
            if i >= maxRounds then ran == Ran(Exhausted, a, i)
            else if !rounds[i].ended then ran.outcome == Failed && ran.rounds == i
            else
              && rounds[i] in rounds
              && ran == if rounds[i].calls == [] then Ran(Answered, Grow(a, rounds[i]), i + 1)
                        else if Stopped in rounds[i].replies then Ran(Failed, Grow(a, rounds[i]), i + 1)
                        else RunFrom(rounds, maxRounds, i + 1, Grow(a, rounds[i]))
  {
    hide Grow;
  }

  lemma StoppedHasCalls(r: Round)
    requires ValidRound(r) && Stopped in r.replies
    ensures r.calls != []
  {
  }

  /** A round adds its calls and replies in pairs. */
  lemma GrowPairs(a: Answer, r: Round, start: seq<Message>, more: seq<Message>) returns (longer: seq<Message>)
    requires ValidRound(r) && Stopped !in r.replies && a.messages == start + more && Paired(more)
    ensures Paired(longer) && Grow(a, r).messages == start + longer
  {
    hide Paired, PassAll, Concat, Replies, NeedsSpace;
    longer := more;
    if r.calls != [] {
      var answer := Concat(r.deltas);
      var one := [Assistant(answer, r.calls)] + Replies(r.calls, r.replies);
      RoundIsPaired(answer, r.calls, r.replies);
      PairedAppend(more, one);
      longer := more + one;
      JoinThree(start, more, [Assistant(answer, r.calls)], Replies(r.calls, r.replies));
    }
  }

  lemma JoinThree<T>(a: seq<T>, b: seq<T>, c: seq<T>, d: seq<T>)
    ensures a + b + c + d == a + (b + (c + d))
  {
  }

  /** Over a whole run: the messages it was given, then calls and replies in
      pairs. */
  lemma {:induction false} CallsAreAnswered(rounds: seq<Round>, maxRounds: int, i: nat, a: Answer,
                                            start: seq<Message>, more: seq<Message>)
    requires maxRounds <= |rounds| && (forall r :: r in rounds ==> ValidRound(r))
    requires a.messages == start + more && Paired(more)
    ensures var ran := RunFrom(rounds, maxRounds, i, a);
            ran.outcome != Failed ==> start <= ran.answer.messages && Paired(ran.answer.messages[|start|..])
    decreases maxRounds - i
  {
    hide Paired, PassAll, Concat, Replies, NeedsSpace, Grow, RunFrom;
    RunOnce(rounds, maxRounds, i, a);
    BehindStart(start, more);
    if i < maxRounds && rounds[i].ended && Stopped !in rounds[i].replies {
      var r := rounds[i];
      assert r in rounds;
      var longer := GrowPairs(a, r, start, more);
      BehindStart(start, longer);
      if r.calls != [] {
        CallsAreAnswered(rounds, maxRounds, i + 1, Grow(a, r), start, longer);
      }
    } else if i < maxRounds && rounds[i].ended {
      StoppedHasCalls(rounds[i]);
    }
  }
}
