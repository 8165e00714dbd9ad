/** The receiver against the event streams of section 9.2 of the WHATWG HTML
    standard, on bytes: where lines end, and what the data of an event is. The
    receiver ends a line at a line feed alone, takes each data line as a frame
    of its own as soon as it is complete and strips all the spaces around it;
    when that makes no difference is proved here. */
module EventLines {
  import opened Seqs
  import opened Utf8
  import opened EventStream

  const LF := 0x0A
  const CR := 0x0D
  const SP := 0x20

  // ------------------------------------------------------------ the standard

  /** Place of the first line end, or the length when there is none. */
  function LineEnd(p: Text): (n: nat)
    ensures n <= |p| && (n < |p| ==> p[n] == LF || p[n] == CR)
    ensures forall i :: 0 <= i < n ==> p[i] != LF && p[i] != CR
  {
    if p == [] || p[0] == LF || p[0] == CR then 0 else 1 + LineEnd(p[1..])
  }

  /** Bytes of the line end at n: a carriage return takes a line feed along. */
  function EndLength(p: Text, n: nat): nat
    requires n < |p|
  {
    if p[n] == CR && n + 1 < |p| && p[n + 1] == LF then 2 else 1
  }

  /** The complete lines of some bytes. */
  function StdLines(p: Text): seq<Text>
    decreases |p|
  {
    var n := LineEnd(p);
    if n == |p| then [] else [p[..n]] + StdLines(p[n + EndLength(p, n)..])
  }

  const NAME: Text := DATA[..4]

  /** A line of the field "data": without a colon its value is empty. */
  predicate IsData(line: Text) {
    DATA <= line || line == NAME
  }

  /** The value of the field: what follows the colon, but for one space. */
  function FieldValue(line: Text): Text
    requires IsData(line)
  {
    if line == NAME then []
    else if |line| > 5 && line[5] == SP then line[6..]
    else line[5..]
  }

  function Field(line: Text): seq<Text> {
    if IsData(line) then [FieldValue(line)] else []
  }

  /** The values of the data lines among some lines. */
  function Values(lines: seq<Text>): seq<Text> {
    if lines == [] then [] else Field(lines[0]) + Values(lines[1..])
  }

  /** Values joined by line feeds. */
  function Join(values: seq<Text>): Text {
    if values == [] then []
    else if |values| == 1 then values[0]
    else values[0] + [LF] + Join(values[1..])
  }

  /** An event made of these values; none when there is none. */
  function Dispatch(values: seq<Text>): seq<Text> {
    if values == [] then [] else [Join(values)]
  }

  /** The data of the events, each ended by an empty line; one still open at
      the end is discarded. `open` holds the values since the last empty line. */
  function Events(lines: seq<Text>, open: seq<Text>): seq<Text>
    decreases |lines|
  {
    if lines == [] then []
    else if lines[0] == [] then Dispatch(open) + Events(lines[1..], [])
    else Events(lines[1..], open + Field(lines[0]))
  }

  /** The values of the event still open at the end. */
  function OpenAtEnd(lines: seq<Text>, open: seq<Text>): seq<Text>
    decreases |lines|
  {
    if lines == [] then open
    else OpenAtEnd(lines[1..], if lines[0] == [] then [] else open + Field(lines[0]))
  }

  /** No event is left open at the end of the stream. */
  predicate Closed(p: Text) {
    OpenAtEnd(StdLines(p), []) == []
  }

  // ------------------------------------------------------------ the receiver

  /** What the receiver takes of a line. */
  function Carried(line: Text): seq<Text> {
    match Read(line)
    case Other => []
    case Finish => [DONE]
    case Data(payload) => [payload]
  }

  function Payloads(lines: seq<Text>): seq<Text> {
    if lines == [] then [] else Carried(lines[0]) + Payloads(lines[1..])
  }

  // ------------------------------------------------------------ plain streams

  /** Place of the first carriage return of a line. */
  function Return(line: Text): (n: nat)
    ensures n <= |line| && (n < |line| ==> line[n] == CR)
    ensures forall i :: 0 <= i < n ==> line[i] != CR
  {
    if line == [] || line[0] == CR then 0 else 1 + Return(line[1..])
  }

  predicate IsBlank(b: Byte) {
    b == CR || b == SP
  }

  predicate BlankFrom(line: Text, n: nat) {
    forall i :: n <= i < |line| ==> IsBlank(line[i])
  }

  /** No space at either end. */
  predicate Unpadded(t: Text) {
    t == [] || (t[0] != SP && t[|t| - 1] != SP)
  }

  /** What stands before a line feed: a data line with at most the one space
      around its value and nothing but spaces behind a carriage return, or no
      data line even where carriage returns end lines. */
  predicate PlainLine(line: Text) {
    if DATA <= line then
      var n := Return(line);
      n >= 5 && BlankFrom(line, n) && Unpadded(FieldValue(line[..n]))
    else NoData(StdLines(line + [LF]))
  }

  predicate NoData(lines: seq<Text>) {
    forall i :: 0 <= i < |lines| ==> !IsData(lines[i])
  }

  /** Plain lines, and no data line ended by a carriage return behind the last
      line feed. */
  predicate Plain(p: Text)
    decreases |p|
  {
    var n := Newline(p);
    if n == |p| then NoData(StdLines(p)) else PlainLine(p[..n]) && Plain(p[n + 1..])
  }

  /** An empty line comes between any two data lines; `open` is whether there
      was a data line since the last empty one. */
  predicate Apart(lines: seq<Text>, open: bool) {
    lines == [] ||
    (if lines[0] == [] then Apart(lines[1..], false)
     else if IsData(lines[0]) then !open && Apart(lines[1..], true)
     else Apart(lines[1..], open))
  }

  // ------------------------------------------------------------ events

  /** An event of two values holds a line feed. */
  lemma {:induction false} JoinFeeds(values: seq<Text>)
    requires |values| > 1
    ensures LF in Join(values)
  {
    var head, tail := values[0] + [LF], Join(values[1..]);
    assert head[|values[0]|] == LF;
    assert (head + tail)[|values[0]|] == LF;
  }

  /** Values gathered in one event come out in one, or are still open. */
  lemma {:induction false} LongEventsFeed(lines: seq<Text>, open: seq<Text>)
    requires |open| > 1
    ensures OpenAtEnd(lines, open) == [] ==> |Events(lines, open)| > 0 && LF in Events(lines, open)[0]
    decreases |lines|
  {
    JoinFeeds(open);
    if lines != [] && lines[0] != [] {
      LongEventsFeed(lines[1..], open + Field(lines[0]));
    }
  }

  predicate Feedless(payloads: seq<Text>) {
    forall i :: 0 <= i < |payloads| ==> LF !in payloads[i]
  }

  /** The events and what is still open are the data lines one by one when the
      lines are apart; an event of two lines shows its line feed. */
  lemma {:induction false} EventsAreValues(lines: seq<Text>, open: seq<Text>)
    requires |open| <= 1
    ensures Apart(lines, open != []) ==> Events(lines, open) + OpenAtEnd(lines, open) == open + Values(lines)
    ensures OpenAtEnd(lines, open) == [] && Feedless(Events(lines, open)) ==> Apart(lines, open != [])
    decreases |lines|
  {
    hide IsData, Feedless;
    if lines == [] {
      assert open + [] == open == [] + open;
    } else if lines[0] == [] {
      EventsAreValues(lines[1..], []);
      var rest := Events(lines[1..], []);
      assert Dispatch(open) == open;
      NoFieldInNothing();
      assert [] + Values(lines[1..]) == Values(lines[1..]) == Values(lines);
      assert open + rest + OpenAtEnd(lines[1..], []) == open + (rest + OpenAtEnd(lines[1..], []));
      RestFeedless(open, rest);
    } else if IsData(lines[0]) {
      var more := open + Field(lines[0]);
      if open == [] {
        assert more == Field(lines[0]) && [] + Values(lines) == Values(lines);
        EventsAreValues(lines[1..], more);
      } else {
        LongEventsFeed(lines[1..], more);
        FirstFeeds(Events(lines[1..], more));
      }
    } else {
      assert open + [] == open && [] + Values(lines[1..]) == Values(lines[1..]);
      EventsAreValues(lines[1..], open);
    }
  }

  lemma NoFieldInNothing()
    ensures Field([]) == [] && !IsData([])
  {
  }

  lemma FirstFeeds(events: seq<Text>)
    ensures |events| > 0 && LF in events[0] ==> !Feedless(events)
  {
  }

  /** No more events than values, those still open set aside. */
  lemma {:induction false} FewerEvents(lines: seq<Text>, open: seq<Text>)
    ensures |Events(lines, open)| + |OpenAtEnd(lines, open)| <= |open| + |Values(lines)|
    decreases |lines|
  {
    hide IsData, Join;
    if lines != [] {
      NoFieldInNothing();
      FewerEvents(lines[1..], if lines[0] == [] then [] else open + Field(lines[0]));
    }
  }

  lemma RestFeedless(a: seq<Text>, b: seq<Text>)
    ensures Feedless(a + b) ==> Feedless(b)
  {
    assert forall i :: 0 <= i < |b| ==> (a + b)[|a| + i] == b[i];
  }

  // ------------------------------------------------------------ lines

  lemma {:induction false} LineEndIs(p: Text, n: nat)
    requires n < |p| && (p[n] == LF || p[n] == CR) && forall i :: 0 <= i < n ==> p[i] != LF && p[i] != CR
    ensures LineEnd(p) == n
  {
    if n > 0 {
      LineEndIs(p[1..], n - 1);
    }
  }

  /** A line feed ends a line wherever it stands, so what comes before it and
      what comes after are read apart. */
  lemma {:induction false} FeedParts(l: Text, rest: Text)
    requires LF !in l
    ensures StdLines(l + [LF] + rest) == StdLines(l + [LF]) + StdLines(rest)
    decreases |l|
  {
    hide StdLines, LineEnd;
    var q, p := l + [LF], l + [LF] + rest;
    var n := LineEnd(q);
    SameFirst(q, rest);
    var k := n + EndLength(q, n);
    StdOnce(q);
    StdOnce(p);
    if k == |q| {
      DropAppend(q, rest, k);
      assert q[k..] == [] && [] + rest == rest;
      StdNone();
      assert [q[..n]] + [] == [q[..n]];
    } else {
      var inner := l[k..];
      DropAppend(q, rest, k);
      DropAppend(l, [LF], k);
      FeedParts(inner, rest);
      JoinsAlike([q[..n]], StdLines(inner + [LF]), StdLines(rest));
    }
  }

  lemma DropAppend<T>(a: seq<T>, b: seq<T>, k: nat)
    requires k <= |a|
    ensures (a + b)[k..] == a[k..] + b
  {
  }

  lemma JoinsAlike<T>(a: seq<T>, b: seq<T>, c: seq<T>)
    ensures a + b + c == a + (b + c)
  {
  }

  lemma StdOnce(p: Text)
    requires LineEnd(p) < |p|
    ensures var n := LineEnd(p); StdLines(p) == [p[..n]] + StdLines(p[n + EndLength(p, n)..])
  {
    hide LineEnd, EndLength;
  }

  lemma StdNone()
    ensures StdLines([]) == []
  {
  }

  /** More behind a line feed does not move the first line end. */
  lemma SameFirst(q: Text, rest: Text)
    requires q != [] && q[|q| - 1] == LF
    ensures var n, p := LineEnd(q), q + rest;
            && n < |q| && LineEnd(p) == n && p[..n] == q[..n]
            && EndLength(p, n) == EndLength(q, n) && n + EndLength(q, n) <= |q|
  {
    var n, p := LineEnd(q), q + rest;
    assert forall i :: 0 <= i < |q| ==> p[i] == q[i];
    LineEndIs(p, n);
  }

  /** The first line of what stands before a line feed. */
  lemma FirstLine(l: Text) returns (more: seq<Text>)
    requires LF !in l
    ensures var c := Return(l);
            && StdLines(l + [LF]) == [l[..c]] + more
            && more == if c + 1 < |l| then StdLines(l[c + 1..] + [LF]) else []
  {
    hide StdLines;
    var c, q := Return(l), l + [LF];
    hide Return;
    assert forall i :: 0 <= i < |l| ==> q[i] == l[i];
    LineEndIs(q, c);
    StdOnce(q);
    assert q[..c] == l[..c];
    hide LineEnd;
    if c + 1 < |l| {
      more := StdLines(l[c + 1..] + [LF]);
      assert q[c + 1] == l[c + 1] != LF && EndLength(q, c) == 1;
      DropAppend(l, [LF], c + 1);
    } else {
      more := [];
      assert q[c + EndLength(q, c)..] == [];
      StdNone();
    }
  }

  lemma DataHasD(line: Text)
    requires IsData(line)
    ensures 0x64 in line
  {
    assert line[0] == DATA[0];
  }

  lemma {:induction false} NoDataWithoutD(p: Text)
    requires 0x64 !in p
    ensures NoData(StdLines(p))
    decreases |p|
  {
    var n := LineEnd(p);
    if n < |p| {
      NoDataWithoutD(p[n + EndLength(p, n)..]);
      if IsData(p[..n]) {
        DataHasD(p[..n]);
      }
    }
  }

  lemma BlankHasNoData(t: Text)
    requires BlankFrom(t, 0)
    ensures NoData(StdLines(t + [LF]))
  {
    NoDataWithoutD(t + [LF]);
  }

  lemma {:induction false} ValuesAppend(a: seq<Text>, b: seq<Text>)
    ensures Values(a + b) == Values(a) + Values(b)
  {
    if a == [] {
      assert a + b == b && [] + Values(b) == Values(b);
    } else {
      ValuesAppend(a[1..], b);
      assert (a + b)[1..] == a[1..] + b && (a + b)[0] == a[0];
      assert Field(a[0]) + Values(a[1..]) + Values(b) == Field(a[0]) + (Values(a[1..]) + Values(b));
      hide Field, Values;
    }
  }

  lemma {:induction false} NoDataNoValues(lines: seq<Text>)
    ensures NoData(lines) <==> Values(lines) == []
  {
    if lines != [] {
      NoDataNoValues(lines[1..]);
      assert NoData(lines) <==> !IsData(lines[0]) && NoData(lines[1..]);
    }
  }

  // ------------------------------------------------------------ one line

  lemma {:induction false} TrimIs(line: Text) returns (k: nat)
    ensures k <= |line| && TrimEnd(line) == line[..k]
    ensures BlankFrom(line, k) && (k > 0 ==> !IsBlank(line[k - 1]))
  {
    if line != [] && IsBlank(line[|line| - 1]) {
      k := TrimIs(line[..|line| - 1]);
    } else {
      k := |line|;
    }
  }

  lemma {:induction false} SkipIs(t: Text) returns (j: nat)
    ensures j <= |t| && SkipSpaces(t) == t[j..]
    ensures (forall i :: 0 <= i < j ==> t[i] == SP) && (j < |t| ==> t[j] != SP)
  {
    if t != [] && t[0] == SP {
      j := SkipIs(t[1..]);
      assert t[1..][j..] == t[j + 1..];
      j := j + 1;
    } else {
      j := 0;
    }
  }

  /** The bytes from j to k, between spaces and what is trimmed. */
  predicate TakesFrom(line: Text, j: nat, k: nat) {
    && 5 <= j <= k <= |line| && BlankFrom(line, k) && !IsBlank(line[k - 1])
    && (forall i :: 5 <= i < j ==> line[i] == SP) && (j < k ==> line[j] != SP)
  }

  /** What the receiver takes of a data line. */
  lemma TakenOf(line: Text) returns (j: nat, k: nat)
    requires DATA <= line
    ensures TakesFrom(line, j, k) && Carried(line) == [line[j..k]]
  {
    k := TrimIs(line);
    assert line[4] == DATA[4] && !IsBlank(line[4]);
    var trimmed := TrimEnd(line);
    assert DATA <= trimmed;
    var skip := SkipIs(trimmed[5..]);
    j := 5 + skip;
    assert trimmed[5..][skip..] == line[j..k];
  }

  lemma NoneTaken(line: Text)
    requires !(DATA <= line)
    ensures Carried(line) == []
  {
    var k := TrimIs(line);
    assert DATA <= line[..k] ==> DATA <= line;
  }

  lemma PlainGives(line: Text, c: nat, j: nat, k: nat)
    requires DATA <= line && c == Return(line) >= 5 && TakesFrom(line, j, k)
    requires BlankFrom(line, c) && Unpadded(FieldValue(line[..c]))
    ensures line[j..k] == FieldValue(line[..c])
  {
    var v := FieldValue(line[..c]);
    var from := c - |v|;
    assert from == 5 || (from == 6 && line[5] == SP);
    assert v == line[from..c];
    hide FieldValue, Return;
    assert k <= c;
    if v != [] {
      assert v[|v| - 1] == line[c - 1] && v[0] == line[from];
    }
  }

  lemma GivesPlain(line: Text, c: nat, j: nat, k: nat)
    requires DATA <= line && c == Return(line) >= 5 && TakesFrom(line, j, k)
    requires line[j..k] == FieldValue(line[..c])
    ensures BlankFrom(line, c) && Unpadded(FieldValue(line[..c]))
  {
    var v := FieldValue(line[..c]);
    assert forall i :: 0 <= i < |v| ==> v[i] != CR;
    assert forall i :: j <= i < k ==> v[i - j] == line[i];
    hide FieldValue, Return;
    assert k <= c;
    if v != [] {
      assert v[|v| - 1] == line[k - 1] && v[0] == line[j];
    }
  }

  /** On a data line the value and the payload are the same exactly when the
      value is unpadded and nothing but spaces follows a carriage return. */
  lemma ValueIsPayload(line: Text, c: nat)
    requires DATA <= line && c == Return(line) >= 5
    ensures Carried(line) == [FieldValue(line[..c])] <==> BlankFrom(line, c) && Unpadded(FieldValue(line[..c]))
  {
    var j, k := TakenOf(line);
    hide Carried;
    if BlankFrom(line, c) && Unpadded(FieldValue(line[..c])) {
      PlainGives(line, c, j, k);
    }
    if Carried(line) == [FieldValue(line[..c])] {
      GivesPlain(line, c, j, k);
    }
  }

  lemma DataBeforeReturn(line: Text)
    requires DATA <= line
    ensures Return(line) >= 5 && DATA <= line[..Return(line)]
  {
    assert forall i :: 0 <= i < 5 ==> line[i] == DATA[i];
  }

  lemma DataLineAgrees(l: Text)
    requires LF !in l && DATA <= l
    ensures var values := Values(StdLines(l + [LF]));
            |values| > 0 && (Carried(l) == values <==> PlainLine(l))
  {
    hide StdLines, Carried, FieldValue;
    var c := Return(l);
    DataBeforeReturn(l);
    var more := FirstLine(l);
    var s := l[..c];
    assert Values([s] + more) == [FieldValue(s)] + Values(more) by {
      assert ([s] + more)[1..] == more;
    }
    OneTaken(l);
    ValueIsPayload(l, c);
    NoDataNoValues(more);
    if BlankFrom(l, c) && c + 1 < |l| {
      BlankHasNoData(l[c + 1..]);
    }
    OneAndMore(FieldValue(s), Values(more), Carried(l));
  }

  lemma OneTaken(l: Text)
    requires DATA <= l
    ensures |Carried(l)| == 1
  {
    var j, k := TakenOf(l);
  }

  /** One line: the receiver takes at most as much of it as the standard, and
      just that exactly when the line is plain. */
  lemma LineAgrees(l: Text)
    requires LF !in l
    ensures var values := Values(StdLines(l + [LF]));
            |Carried(l)| <= |values| && (Carried(l) == values <==> PlainLine(l))
  {
    hide StdLines, Carried, Values;
    if DATA <= l {
      OneTaken(l);
      DataLineAgrees(l);
    } else {
      NoneTaken(l);
      NoDataNoValues(StdLines(l + [LF]));
    }
  }

  lemma OneAndMore(v: Text, more: seq<Text>, one: seq<Text>)
    requires |one| == 1
    ensures one == [v] + more <==> one == [v] && more == []
  {
    assert |[v] + more| == 1 + |more| && ([v] + more)[0] == v;
  }

  // ------------------------------------------------------------ whole streams

  lemma CarriedFeedless(line: Text)
    requires LF !in line
    ensures Feedless(Carried(line))
  {
    if DATA <= line {
      var j, k := TakenOf(line);
    } else {
      NoneTaken(line);
    }
  }

  lemma LineFeedless(p: Text)
    ensures LF !in p[..Newline(p)]
  {
  }

  lemma NoFeedNoPayloads(p: Text)
    requires Newline(p) == |p|
    ensures Feedless(Payloads(Lines(p)))
  {
  }

  lemma BothFeedless(a: seq<Text>, b: seq<Text>)
    requires Feedless(a) && Feedless(b)
    ensures Feedless(a + b)
  {
  }

  lemma {:induction false} PayloadsFeedless(p: Text)
    ensures Feedless(Payloads(Lines(p)))
    decreases |p|
  {
    hide Carried, Payloads, Lines, Newline, Feedless;
    var n := Newline(p);
    if n < |p| {
      PayloadsFeedless(p[n + 1..]);
      LineFeedless(p);
      CarriedFeedless(p[..n]);
      FirstPayloads(p);
      BothFeedless(Carried(p[..n]), Payloads(Lines(p[n + 1..])));
    } else {
      NoFeedNoPayloads(p);
    }
  }

  lemma FirstPayloads(p: Text)
    requires Newline(p) < |p|
    ensures var n := Newline(p); Payloads(Lines(p)) == Carried(p[..n]) + Payloads(Lines(p[n + 1..]))
  {
    hide Carried, Newline;
    var n := Newline(p);
    var rest := Lines(p[n + 1..]);
    assert Lines(p) == [p[..n]] + rest;
    assert ([p[..n]] + rest)[1..] == rest;
  }

  lemma FirstValues(p: Text)
    requires Newline(p) < |p|
    ensures var n := Newline(p);
            Values(StdLines(p)) == Values(StdLines(p[..n] + [LF])) + Values(StdLines(p[n + 1..]))
  {
    hide StdLines, Values;
    var n := Newline(p);
    var l, rest := p[..n], p[n + 1..];
    assert LF !in l && p[n] == LF;
    hide Newline;
    CutAt(p, n);
    FeedParts(l, rest);
    ValuesAppend(StdLines(l + [LF]), StdLines(rest));
  }

  lemma CutAt<T>(p: seq<T>, n: nat)
    requires n < |p|
    ensures p == p[..n] + [p[n]] + p[n + 1..]
  {
  }

  lemma SplitEqual<T>(a: seq<T>, b: seq<T>, c: seq<T>, d: seq<T>)
    requires |a| <= |c| && |b| <= |d|
    ensures |a + b| <= |c + d| && (a + b == c + d <==> a == c && b == d)
  {
    if a + b == c + d {
      assert |a| == |c|;
      assert a == (a + b)[..|a|] && b == (a + b)[|a|..];
      assert c == (c + d)[..|c|] && d == (c + d)[|c|..];
    }
  }

  /** The data lines of the standard against what the receiver takes. */
  lemma {:induction false} DataLinesAgree(p: Text)
    ensures |Payloads(Lines(p))| <= |Values(StdLines(p))|
    ensures Payloads(Lines(p)) == Values(StdLines(p)) <==> Plain(p)
    decreases |p|
  {
    hide Carried, PlainLine, StdLines, Values;
    var n := Newline(p);
    if n == |p| {
      NoDataNoValues(StdLines(p));
    } else {
      var l, rest := p[..n], p[n + 1..];
      DataLinesAgree(rest);
      LineAgrees(l);
      FirstPayloads(p);
      FirstValues(p);
      SplitEqual(Carried(l), Payloads(Lines(rest)), Values(StdLines(l + [LF])), Values(StdLines(rest)));
    }
  }

  /** On a stream that leaves no event open the receiver takes the data of the
      standard's events exactly when the stream is plain and its data lines are
      apart; on a plain stream, exactly when its data lines are apart and no
      event is left open, since it does not wait for the end of an event. */
  lemma AgreesWithStandard(p: Text)
    ensures Closed(p) ==>
              (Payloads(Lines(p)) == Events(StdLines(p), []) <==> Plain(p) && Apart(StdLines(p), false))
    ensures Plain(p) ==>
              (Payloads(Lines(p)) == Events(StdLines(p), []) <==> Closed(p) && Apart(StdLines(p), false))
  {
    hide Payloads, Lines, StdLines, Plain, Events, OpenAtEnd, Values, Feedless;
    var lines := StdLines(p);
    DataLinesAgree(p);
    PayloadsFeedless(p);
    EventsAreValues(lines, []);
    FewerEvents(lines, []);
    assert [] + Values(lines) == Values(lines) && Events(lines, []) + [] == Events(lines, []);
  }

  // ------------------------------------------------------------ what it says

  /** The frames of some payloads, up to the end, a failure or the caller's
      refusal. */
  function Says(w: World, handed: seq<Text>, payloads: seq<Text>): seq<Frame>
    decreases |payloads|
  {
    if payloads == [] || payloads[0] == DONE then []
    else
      var f := w.parse(payloads[0]);
      if f.failed then []
      else if f.delta == [] then [f] + Says(w, handed, payloads[1..])
      else
        var told := handed + [CStr(f.delta)];
        [f] + if w.takes(told) then Says(w, told, payloads[1..]) else []
  }

  lemma {:induction false} SaidOfPayloads(w: World, handed: seq<Text>, lines: seq<Text>)
    ensures Said(w, handed, lines) == Says(w, handed, Payloads(lines))
    decreases |lines|
  {
    hide Read;
    if lines != [] {
      var rest := Payloads(lines[1..]);
      PayloadIsNotDone(lines[0]);
      match Read(lines[0]) {
        case Other =>
          SaidOfPayloads(w, handed, lines[1..]);
          assert [] + rest == rest;
        case Finish =>
        case Data(payload) =>
          assert ([payload] + rest)[1..] == rest;
          var f := w.parse(payload);
          SaidOfPayloads(w, handed, lines[1..]);
          SaidOfPayloads(w, handed + [CStr(f.delta)], lines[1..]);
      }
    }
  }

  lemma PayloadIsNotDone(line: Text)
    ensures Read(line) != Data(DONE)
  {
  }

  /** The payloads up to the end mark. */
  function UpToEnd(payloads: seq<Text>): seq<Text> {
    if payloads == [] || payloads[0] == DONE then [] else [payloads[0]] + UpToEnd(payloads[1..])
  }

  /** A caller that takes everything, and frames that say just their bytes. */
  function Echo(): World {
    World(payload => Frame(payload, 0, [], [], false), payload => [], handed => true)
  }

  lemma {:induction false} SaysUpToEnd(w: World, handed: seq<Text>, payloads: seq<Text>)
    ensures Says(w, handed, payloads) == Says(w, handed, UpToEnd(payloads))
    decreases |payloads|
  {
    if payloads != [] && payloads[0] != DONE {
      var rest := UpToEnd(payloads[1..]);
      assert ([payloads[0]] + rest)[1..] == rest;
      var f := w.parse(payloads[0]);
      SaysUpToEnd(w, handed, payloads[1..]);
      SaysUpToEnd(w, handed + [CStr(f.delta)], payloads[1..]);
    }
  }

  lemma {:induction false} EchoSays(handed: seq<Text>, payloads: seq<Text>)
    ensures |Says(Echo(), handed, payloads)| == |UpToEnd(payloads)|
    ensures forall i :: 0 <= i < |UpToEnd(payloads)| ==> Says(Echo(), handed, payloads)[i].delta == UpToEnd(payloads)[i]
    decreases |payloads|
  {
    if payloads != [] && payloads[0] != DONE {
      EchoSays(handed, payloads[1..]);
      EchoSays(handed + [CStr(payloads[0])], payloads[1..]);
    }
  }

  /** What every reader of a stream makes of it is what it would make of the
      standard's events, if and only if the data lines taken are the data of
      those events up to the end mark. */
  lemma ReadersAgree(p: Text)
    ensures var events := Events(StdLines(p), []);
            (forall w: World :: Said(w, [], Lines(p)) == Says(w, [], events)) <==>
              UpToEnd(Payloads(Lines(p))) == UpToEnd(events)
  {
    hide Said, Says, UpToEnd, Payloads, Lines, Events, StdLines;
    var payloads, events := Payloads(Lines(p)), Events(StdLines(p), []);
    SaidOfPayloads(Echo(), [], Lines(p));
    EchoSays([], payloads);
    EchoSays([], events);
    if Said(Echo(), [], Lines(p)) == Says(Echo(), [], events) {
      assert UpToEnd(payloads) == UpToEnd(events);
    }
    if UpToEnd(payloads) == UpToEnd(events) {
      forall w: World
        ensures Said(w, [], Lines(p)) == Says(w, [], events)
      {
        SaidOfPayloads(w, [], Lines(p));
        SaysUpToEnd(w, [], payloads);
        SaysUpToEnd(w, [], events);
      }
    }
  }

  /** On a plain stream with its data lines apart and no event left open,
      however it is cut, the text is the deltas of the standard's events. */
  lemma StreamSaysStandard(w: World, chunks: seq<Text>)
    requires var p := Concat(chunks); Plain(p) && Apart(StdLines(p), false) && Closed(p)
    ensures FeedAll(w, Start(), chunks).text == Deltas(Says(w, [], Events(StdLines(Concat(chunks)), [])))
  {
    hide Plain, Apart, Closed, Events, Payloads, Lines, FeedAll, Concat, Deltas, Says, Said, StdLines;
    AgreesWithStandard(Concat(chunks));
    SaidOfPayloads(w, [], Lines(Concat(chunks)));
    StreamSays(w, chunks, 0);
  }
}
