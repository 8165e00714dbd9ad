/** Streams on which the receiver and section 9.2 of the WHATWG HTML standard
    differ, family by family, and one on which they agree by accident. */
module EventDifferences {
  import opened Seqs
  import opened Utf8
  import opened EventStream
  import opened EventLines

  predicate Unbroken(line: Text) {
    LF !in line && CR !in line
  }

  lemma LineThen(line: Text, end: Byte, rest: Text)
    requires Unbroken(line) && (end == LF || (end == CR && (rest == [] || rest[0] != LF)))
    ensures StdLines(line + [end] + rest) == [line] + StdLines(rest)
    ensures end == LF ==> Lines(line + [end] + rest) == [line] + Lines(rest)
  {
    hide StdLines, Newline;
    var p := line + [end] + rest;
    assert forall i :: 0 <= i < |line| ==> p[i] == line[i];
    LineEndIs(p, |line|);
    StdOnce(p);
    assert p[..|line|] == line && p[|line| + 1..] == rest;
    if end == LF {
      NewlineIs(p, |line|);
    }
  }

  /** A line and an empty one, both ended by carriage returns. */
  lemma ReturnsThen(line: Text, rest: Text)
    requires Unbroken(line) && (rest == [] || rest[0] != LF)
    ensures StdLines(line + [CR, CR] + rest) == [line, []] + StdLines(rest)
  {
    hide StdLines;
    var next: Text := [CR] + rest;
    LineThen(line, CR, next);
    LineThen([], CR, rest);
    assert [] + [CR] + rest == next;
    assert line + [CR, CR] + rest == line + [CR] + next;
    assert [line] + ([[]] + StdLines(rest)) == [line, []] + StdLines(rest);
  }

  lemma TwoEventLines(one: Text, two: Text)
    requires IsData(two) && Unbroken(one) && Unbroken(two)
    ensures StdLines(one + [CR, CR] + two + [CR, CR]) == [one, [], two, []]
  {
    hide StdLines;
    var second := two + [CR, CR];
    DataIsFirst(two, [CR, CR]);
    ReturnsThen(two, []);
    assert second + [] == second && one + [CR, CR] + two + [CR, CR] == one + [CR, CR] + second;
    ReturnsThen(one, second);
    StdNone();
    var last: seq<Text> := [two, []];
    assert last + [] == last && [one, []] + last == [one, [], two, []];
  }

  /** Two events whose lines end in bare carriage returns: the standard reads
      both, the receiver nothing. */
  lemma BareReturnsHide(one: Text, two: Text)
    requires IsData(one) && IsData(two) && Unbroken(one) && Unbroken(two)
    ensures var p := one + [CR, CR] + two + [CR, CR];
            Events(StdLines(p), []) == [FieldValue(one), FieldValue(two)] && Payloads(Lines(p)) == []
  {
    hide StdLines, Lines, FieldValue, Events;
    NoFeedNoLines(one + [CR, CR] + two + [CR, CR]);
    TwoEventLines(one, two);
    EventsOfTwo(one, two);
  }

  lemma NoFeedNoLines(p: Text)
    requires LF !in p
    ensures Lines(p) == []
  {
    assert Newline(p) == |p|;
  }

  lemma DataIsFirst(line: Text, rest: Text)
    requires IsData(line)
    ensures line != [] && (line + rest)[0] == 0x64
  {
    assert line[0] == DATA[0];
  }

  lemma EventsOfTwo(one: Text, two: Text)
    requires IsData(one) && IsData(two)
    ensures Events([one, [], two, []], []) == [FieldValue(one), FieldValue(two)]
  {
    var a, b := [FieldValue(one)], [FieldValue(two)];
    assert one != [] && two != [];
    assert [one, [], two, []][1..] == [[], two, []] && [[], two, []][1..] == [two, []];
    assert [two, []][1..] == [[]];
    assert [] + a == a && [] + b == b && Dispatch(a) == a && Dispatch(b) == b;
    assert Events([], []) == [];
    assert Events([[]], b) == b + [] == b;
    assert Events([two, []], []) == b;
    assert Events([[], two, []], a) == a + b;
  }

  /** One event of two data lines: the standard joins them, the receiver takes
      two frames. */
  lemma JoinedLinesSplit(one: Text, two: Text)
    requires DATA <= one && DATA <= two && Unbroken(one) && Unbroken(two)
    requires Unpadded(FieldValue(one)) && Unpadded(FieldValue(two))
    ensures var p := one + [LF] + two + [LF, LF];
            && Events(StdLines(p), []) == [FieldValue(one) + [LF] + FieldValue(two)]
            && Payloads(Lines(p)) == [FieldValue(one), FieldValue(two)]
  {
    hide StdLines, Lines, Carried;
    var p := one + [LF] + two + [LF, LF];
    var last: Text := [] + [LF] + [];
    var second := two + [LF] + last;
    assert p == one + [LF] + second;
    LineThen([], LF, []);
    LineThen(two, LF, last);
    LineThen(one, LF, second);
    StdNone();
    NoLines();
    assert StdLines(p) == Lines(p) == [one, two, []];
    assert one[..|one|] == one && two[..|two|] == two && Return(one) == |one| && Return(two) == |two|;
    ValueIsPayload(one, |one|);
    ValueIsPayload(two, |two|);
    NoneTaken([]);
    PayloadsOfThree(one, two);
    EventOfTwo(one, two);
  }

  lemma NoLines()
    ensures Lines([]) == []
  {
  }

  lemma PayloadsOfThree(one: Text, two: Text)
    requires Carried([]) == []
    ensures Payloads([one, two, []]) == Carried(one) + Carried(two)
  {
    hide Carried;
    var none: Text := [];
    assert [one, two, none][1..] == [two, none] && [two, none][1..] == [none] && [none][1..] == [];
    assert Payloads([none]) == [] + [];
  }

  lemma EventOfTwo(one: Text, two: Text)
    requires IsData(one) && IsData(two)
    ensures Events([one, two, []], []) == [FieldValue(one) + [LF] + FieldValue(two)]
  {
    hide FieldValue;
    var a, b := FieldValue(one), FieldValue(two);
    var none: Text := [];
    assert one != [] && two != [];
    assert [one, two, none][1..] == [two, none] && [two, none][1..] == [none] && [none][1..] == [];
    assert [] + [a] == [a] && [a] + [b] == [a, b] && [a, b][1..] == [b];
    assert Events([none], [a, b]) == Dispatch([a, b]) + Events([], []);
    assert Events([two, none], [a]) == Events([none], [a, b]);
    assert Events([one, two, none], []) == Events([two, none], [a]);
    assert Join([a, b]) == a + [LF] + Join([b]) && Join([b]) == b;
  }

  /** One data line and its line feed: the receiver takes it at once, the
      standard waits for the empty line that never comes. */
  lemma OpenEventTaken(line: Text)
    requires DATA <= line && Unbroken(line) && Unpadded(FieldValue(line))
    ensures var p := line + [LF];
            && Plain(p) && Apart(StdLines(p), false) && !Closed(p)
            && Events(StdLines(p), []) == [] && Payloads(Lines(p)) == [FieldValue(line)]
  {
    hide StdLines, Lines, Carried, FieldValue, Newline;
    var p := line + [LF];
    LineThen(line, LF, []);
    assert p + [] == p;
    StdNone();
    NoLines();
    OneLine(line);
    assert line[..|line|] == line && Return(line) == |line|;
    ValueIsPayload(line, |line|);
    DataLinesAgree(p);
  }

  lemma OneLine(line: Text)
    requires IsData(line)
    ensures Payloads([line]) == Carried(line) && Values([line]) == [FieldValue(line)]
    ensures Events([line], []) == [] && OpenAtEnd([line], []) == [FieldValue(line)] && Apart([line], false)
  {
    hide Carried, FieldValue;
    var lines := [line];
    assert lines[1..] == [] && line != [];
    var v := [FieldValue(line)];
    assert Carried(line) + [] == Carried(line) && v + [] == [] + v == v;
  }

  /** One event of one line: what differs is only what stands around the value. */
  lemma OneEvent(line: Text)
    requires DATA <= line && Unbroken(line)
    ensures var p := line + [LF, LF];
            Events(StdLines(p), []) == [FieldValue(line)] && Payloads(Lines(p)) == Carried(line)
  {
    hide StdLines, Lines, Carried, FieldValue;
    var last: Text := [] + [LF] + [];
    LineThen([], LF, []);
    LineThen(line, LF, last);
    assert line + [LF, LF] == line + [LF] + last;
    StdNone();
    NoLines();
    NoneTaken([]);
    var none: Text := [];
    var lines := [line, none];
    assert lines[1..] == [none] && [none][1..] == [] && line != [];
    assert [] + [FieldValue(line)] == [FieldValue(line)] && Dispatch([FieldValue(line)]) + [] == [FieldValue(line)];
    assert Events([none], [FieldValue(line)]) == Dispatch([FieldValue(line)]) + Events([], []);
    assert Payloads([none]) == Carried(none) + [];
  }

  function A(): Text {
    [0x61]
  }

  function B(): Text {
    [0x62]
  }

  lemma PaddedTaken()
    ensures var line := DATA + [SP, SP] + A(); Carried(line) == [A()] && FieldValue(line) == [SP] + A()
  {
    var line: Text := DATA + [SP, SP] + A();
    var j, k := TakenOf(line);
    assert line[5] == SP && line[6] == SP && line[7] == 0x61;
    assert k == 8 && j == 7;
    assert line[7..8] == A() && line[6..] == [SP] + A();
  }

  /** A stream that is not plain and leaves an event open, on which both sides
      still give the same: a hidden line makes up for the open one. */
  lemma AgreeByAccident(line: Text)
    requires DATA <= line && Unbroken(line) && Unpadded(FieldValue(line))
    ensures var p := [0x3A, CR] + line + [CR, CR, LF] + line + [LF];
            && !Plain(p) && !Closed(p)
            && Events(StdLines(p), []) == Payloads(Lines(p)) == [FieldValue(line)]
  {
    hide StdLines, Lines, Carried, FieldValue, Newline, Plain, Events, OpenAtEnd, Values, Payloads;
    var open := line + [LF];
    var hidden := line + [CR, CR, LF];
    var p := [0x3A, CR] + hidden + open;
    assert p == [0x3A, CR] + line + [CR, CR, LF] + line + [LF];
    var first: Text := [0x3A, CR] + line + [CR, CR];
    assert p == first + [LF] + open;
    OpenEventTaken(line);
    AccidentLines(line);
    var colon: Text := [0x3A];
    AccidentEvents(colon, line);
    assert first[0] == 0x3A && DATA[0] == 0x64;
    NoneTaken(first);
    FeedLine(first, open);
    PayloadsOfTwo(first, Lines(open));
    DataLinesAgree(p);
  }

  lemma FeedLine(l: Text, rest: Text)
    requires LF !in l
    ensures Lines(l + [LF] + rest) == [l] + Lines(rest)
  {
    hide Lines, Newline;
    var p := l + [LF] + rest;
    assert forall i :: 0 <= i < |l| ==> p[i] == l[i];
    assert p[..|l|] == l && p[|l| + 1..] == rest;
    NewlineIs(p, |l|);
    LinesOnce(p);
  }

  lemma PayloadsOfTwo(line: Text, lines: seq<Text>)
    ensures Payloads([line] + lines) == Carried(line) + Payloads(lines)
  {
    hide Carried;
    assert ([line] + lines)[1..] == lines;
  }

  lemma AccidentLines(line: Text)
    requires IsData(line) && Unbroken(line)
    ensures StdLines([0x3A, CR] + (line + [CR, CR, LF]) + (line + [LF])) == [[0x3A], line, [], line]
  {
    hide StdLines;
    var open := line + [LF];
    var end: Text := [CR, LF] + open;
    var second := line + [CR] + end;
    LineThen(line, LF, []);
    assert open + [] == open;
    StdNone();
    ReturnFeed(open);
    LineThen(line, CR, end);
    DataIsFirst(line, [CR] + end);
    assert second == line + ([CR] + end);
    LineThen([0x3A], CR, second);
    assert [0x3A] + [CR] + second == [0x3A, CR] + (line + [CR, CR, LF]) + open;
  }

  lemma ReturnFeed(rest: Text)
    ensures StdLines([CR, LF] + rest) == [[]] + StdLines(rest)
  {
    hide StdLines;
    var p: Text := [CR, LF] + rest;
    StdOnce(p);
    assert p[0] == CR && p[1] == LF && LineEnd(p) == 0;
    assert p[..0] == [] && p[2..] == rest;
  }

  lemma AccidentEvents(colon: Text, line: Text)
    requires colon == [0x3A] && IsData(line)
    ensures var lines := [colon, line, [], line];
            && Events(lines, []) == [FieldValue(line)] && OpenAtEnd(lines, []) == [FieldValue(line)]
            && |Values(lines)| == 2
  {
    hide FieldValue;
    var none: Text := [];
    var v := [FieldValue(line)];
    assert colon[0] != DATA[0] && !IsData(colon) && line != [];
    assert [colon, line, none, line][1..] == [line, none, line] && [line, none, line][1..] == [none, line];
    assert [none, line][1..] == [line] && [line][1..] == [];
    assert [] + v == v && Dispatch(v) + [] == v;
    NoFieldInNothing();
    OneLine(line);
    assert Events([none, line], v) == Dispatch(v) + Events([line], []);
    assert Events([line, none, line], []) == Events([none, line], v);
    assert OpenAtEnd([none, line], v) == OpenAtEnd([line], []);
    assert OpenAtEnd([line, none, line], []) == OpenAtEnd([none, line], v);
    assert [] + Field(colon) == [] && [] + Field(line) == v;
    assert Events([colon, line, none, line], []) == Events([line, none, line], []);
    assert OpenAtEnd([colon, line, none, line], []) == OpenAtEnd([line, none, line], []);
    assert Values([none, line]) == [] + Values([line]);
    assert Values([line, none, line]) == v + Values([none, line]);
  }

  /** What the standard and the receiver make of a stream. */
  predicate Gives(p: Text, events: seq<Text>, payloads: seq<Text>) {
    Events(StdLines(p), []) == events && Payloads(Lines(p)) == payloads
  }

  function BareReturns(): Text {
    DATA + [0x61, CR, CR] + DATA + [0x62, CR, CR]
  }

  function TwoLines(): Text {
    DATA + [0x61, LF] + DATA + [0x62, LF, LF]
  }

  function LeftOpen(): Text {
    DATA + [0x61, LF]
  }

  function TwoSpaces(): Text {
    DATA + [SP, SP, 0x61, LF, LF]
  }

  // The four differences, each on a stream given byte for byte.

  /** Bare carriage returns end no line of the receiver. */
  lemma BareReturnsDiffer()
    ensures Gives(BareReturns(), [A(), B()], [])
  {
    hide StdLines, Lines, Events, Payloads;
    var one, two: Text := DATA + A(), DATA + B();
    BareReturnsHide(one, two);
    assert one + [CR, CR] + two + [CR, CR] == BareReturns();
    assert FieldValue(one) == A() && FieldValue(two) == B();
  }

  /** The data lines of one event are joined, or taken one by one. */
  lemma TwoLinesDiffer()
    ensures Gives(TwoLines(), [A() + [LF] + B()], [A(), B()])
  {
    hide StdLines, Lines, Events, Payloads;
    var one, two: Text := DATA + A(), DATA + B();
    JoinedLinesSplit(one, two);
    assert one + [LF] + two + [LF, LF] == TwoLines();
    assert FieldValue(one) == A() && FieldValue(two) == B();
  }

  /** An event left open at the end is discarded, or taken already. */
  lemma LeftOpenDiffers()
    ensures Gives(LeftOpen(), [], [A()])
  {
    hide StdLines, Lines, Events, Payloads;
    var one: Text := DATA + A();
    OpenEventTaken(one);
    assert one + [LF] == LeftOpen() && FieldValue(one) == A();
  }

  /** One space goes, or all of them. */
  lemma TwoSpacesDiffer()
    ensures Gives(TwoSpaces(), [[SP] + A()], [A()])
  {
    hide StdLines, Lines, Events, Payloads;
    var wide: Text := DATA + [SP, SP] + A();
    OneEvent(wide);
    PaddedTaken();
    assert wide + [LF, LF] == TwoSpaces();
  }
}
