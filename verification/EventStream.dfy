/** The receiver of a completion: an event stream that arrives in chunks of any
    length, cut into lines, each data line a frame. What a frame says is an
    arbitrary function of its bytes, and the caller, who is handed C strings,
    any function of what it was handed so far. */
module EventStream {
  import opened Seqs
  import opened Utf8

  const CALLS_MAX := 64

  /** A piece of one tool call, tagged with the index of the call. */
  datatype Fragment = Fragment(index: int, id: Text, name: Text, arguments: Text)

  datatype Frame = Frame(delta: Text, reasoning: nat, tools: seq<Fragment>, finish: Text, failed: bool)

  datatype Call = Call(id: Text, name: Text, arguments: Text)

  /** The parser of a frame, the reason an error gives, and whether the caller
      takes the last of the deltas it was handed. */
  datatype World = World(parse: Text -> Frame, reason: Text -> Text, takes: seq<Text> -> bool)

  datatype Status = Going | Ended | Failed(reason: Text) | Refused

  datatype Reception = Reception(
    body: Text,
    pending: Text,
    text: Text,
    calls: seq<Call>,
    finish: Text,
    reasoning: nat,
    handed: seq<Text>,
    status: Status)

  const DATA: Text := [0x64, 0x61, 0x74, 0x61, 0x3A]
  const DONE: Text := [0x5B, 0x44, 0x4F, 0x4E, 0x45, 0x5D]

  function Start(): Reception {
    Reception([], [], [], [], [], 0, [], Going)
  }

  // ------------------------------------------------------------ lines

  /** Place of the first line break, or the length when there is none. */
  function Newline(p: Text): (n: nat)
    ensures n <= |p| && (n < |p| ==> p[n] == 0x0A)
    ensures forall i :: 0 <= i < n ==> p[i] != 0x0A
  {
    if p == [] || p[0] == 0x0A then 0 else 1 + Newline(p[1..])
  }

  function TrimEnd(line: Text): Text {
    if line != [] && (line[|line| - 1] == 0x0D || line[|line| - 1] == 0x20) then TrimEnd(line[..|line| - 1])
    else line
  }

  function SkipSpaces(t: Text): Text {
    if t != [] && t[0] == 0x20 then SkipSpaces(t[1..]) else t
  }

  /** What a line carries: nothing, the end, or the bytes of a frame. */
  datatype Line = Other | Finish | Data(payload: Text)

  function Read(line: Text): Line {
    var trimmed := TrimEnd(line);
    if !(DATA <= trimmed) then Other
    else
      var payload := SkipSpaces(trimmed[|DATA|..]);
      if payload == DONE then Finish else Data(payload)
  }

  // ------------------------------------------------------------ frames

  function Blank(n: nat): seq<Call> {
    seq(n, _ => Call([], [], []))
  }

  function AddFragment(calls: seq<Call>, f: Fragment): seq<Call> {
    if f.index < 0 || f.index >= CALLS_MAX then calls
    else
      var room := if f.index >= |calls| then calls + Blank(f.index + 1 - |calls|) else calls;
      var call := room[f.index];
      room[f.index := Call(call.id + f.id, call.name + f.name, call.arguments + f.arguments)]
  }

  function AddFragments(calls: seq<Call>, tools: seq<Fragment>): seq<Call>
    decreases |tools|
  {
    if tools == [] then calls else AddFragments(AddFragment(calls, tools[0]), tools[1..])
  }

  function OnFrame(w: World, r: Reception, payload: Text): Reception {
    var frame := w.parse(payload);
    if frame.failed then r.(status := Failed(w.reason(payload)))
    else
      var told := r.(
        finish := if frame.finish != [] then frame.finish else r.finish,
        reasoning := r.reasoning + frame.reasoning,
        calls := AddFragments(r.calls, frame.tools));
      if frame.delta == [] then told
      else
        var handed := r.handed + [CStr(frame.delta)];
        told.(
          text := r.text + frame.delta,
          handed := handed,
          status := if w.takes(handed) then Going else Refused)
  }

  function OnLine(w: World, r: Reception, line: Text): (r': Reception)
    ensures r'.pending == r.pending && r'.body == r.body
  {
    match Read(line)
    case Other => r
    case Finish => r.(status := Ended)
    case Data(payload) => OnFrame(w, r, payload)
  }

  /** Every complete line that is pending, until the stream is over. */
  function Drain(w: World, r: Reception): Reception
    decreases |r.pending|
  {
    var n := Newline(r.pending);
    if n == |r.pending| then r
    else
      var next := OnLine(w, r.(pending := r.pending[n + 1..]), r.pending[..n]);
      if next.status == Going then Drain(w, next) else next
  }

  function Feed(w: World, r: Reception, chunk: Text): Reception {
    if r.status != Going then r
    else Drain(w, r.(body := r.body + chunk, pending := r.pending + chunk))
  }

  function FeedAll(w: World, r: Reception, chunks: seq<Text>): Reception {
    if chunks == [] then r else Feed(w, FeedAll(w, r, chunks[..|chunks| - 1]), chunks[|chunks| - 1])
  }

  lemma {:induction false} NewlineIs(p: Text, n: nat)
    requires n <= |p| && (n < |p| ==> p[n] == 0x0A) && forall i :: 0 <= i < n ==> p[i] != 0x0A
    ensures Newline(p) == n
  {
  }

  // ------------------------------------------------------------ the receiver

  method ReadLine(line: Text) returns (l: Line)
    ensures l == Read(line)
  {
    var trimmed := line;
    while trimmed != [] && (trimmed[|trimmed| - 1] == 0x0D || trimmed[|trimmed| - 1] == 0x20)
      invariant TrimEnd(line) == TrimEnd(trimmed)
      decreases |trimmed|
    {
      trimmed := trimmed[..|trimmed| - 1];
    }
    if |trimmed| < 5 || trimmed[..5] != DATA {
      return Other;
    }
    var start := 5;
    while start < |trimmed| && trimmed[start] == 0x20
      invariant 5 <= start <= |trimmed|
      invariant SkipSpaces(trimmed[5..]) == SkipSpaces(trimmed[start..])
    {
      assert trimmed[start..][1..] == trimmed[start + 1..];
      start := start + 1;
    }
    if trimmed[start..] == DONE {
      return Finish;
    }
    return Data(trimmed[start..]);
  }

  method JoinFragments(calls: seq<Call>, tools: seq<Fragment>) returns (joined: seq<Call>)
    ensures joined == AddFragments(calls, tools)
  {
    joined := calls;
    var i := 0;
    while i < |tools|
      invariant 0 <= i <= |tools|
      invariant AddFragments(calls, tools) == AddFragments(joined, tools[i..])
    {
      var f := tools[i];
      assert tools[i..][1..] == tools[i + 1..];
      i := i + 1;
      if f.index < 0 || f.index >= CALLS_MAX {
        continue;
      }
      var room := if f.index >= |joined| then joined + Blank(f.index + 1 - |joined|) else joined;
      var call := room[f.index];
      joined := room[f.index := Call(call.id + f.id, call.name + f.name, call.arguments + f.arguments)];
    }
  }

  /** Receives one chunk; `more` is false when the request is to be aborted. */
  method Receive(w: World, r: Reception, chunk: Text) returns (s: Reception, more: bool)
    requires r.status == Going || r.status == Ended
    ensures s == Feed(w, r, chunk)
    ensures more <==> s.status == Going || s.status == Ended
  {
    hide TrimEnd, SkipSpaces, AddFragments, Newline;
    s := r;
    if s.status == Ended {
      return s, true;
    }
    s := s.(body := s.body + chunk, pending := s.pending + chunk);
    ghost var all := s;
    while true
      invariant s.status == Going && Drain(w, all) == Drain(w, s)
      decreases |s.pending|
    {
      var n := FindNewline(s.pending);
      if n == |s.pending| {
        return s, true;
      }
      var line := ReadLine(s.pending[..n]);
      s := s.(pending := s.pending[n + 1..]);
      if line.Other? {
        continue;
      }
      if line.Finish? {
        s := s.(status := Ended);
        return s, true;
      }
      var frame := w.parse(line.payload);
      if frame.failed {
        s := s.(status := Failed(w.reason(line.payload)));
        return s, false;
      }
      var calls := JoinFragments(s.calls, frame.tools);
      s := s.(
        finish := if frame.finish != [] then frame.finish else s.finish,
        reasoning := s.reasoning + frame.reasoning,
        calls := calls);
      if frame.delta == [] {
        continue;
      }
      s := s.(text := s.text + frame.delta, handed := s.handed + [CStr(frame.delta)]);
      if !w.takes(s.handed) {
        s := s.(status := Refused);
        return s, false;
      }
    }
  }

  method FindNewline(p: Text) returns (n: nat)
    ensures n == Newline(p)
  {
    n := 0;
    while n < |p| && p[n] != 0x0A
      invariant n <= |p| && forall i :: 0 <= i < n ==> p[i] != 0x0A
    {
      n := n + 1;
    }
    NewlineIs(p, n);
  }

  // ------------------------------------------------------------ any chunks

  /** What the caller can tell of a reception. What is still pending, and what
      came after the end in the same chunk, is not part of it. */
  function Seen(r: Reception): Reception {
    if r.status == Going then r else r.(pending := [], body := [])
  }

  lemma NewlineStays(p: Text, x: Text)
    requires Newline(p) < |p|
    ensures Newline(p + x) == Newline(p)
  {
    assert forall i :: 0 <= i < |p| ==> (p + x)[i] == p[i];
    NewlineIs(p + x, Newline(p));
  }

  lemma DrainOnce(w: World, r: Reception)
    ensures var n := Newline(r.pending);
            Drain(w, r) ==
              if n == |r.pending| then r
              else
                var next := OnLine(w, r.(pending := r.pending[n + 1..]), r.pending[..n]);
                if next.status == Going then Drain(w, next) else next
  {
    hide OnLine, Newline;
  }

  /** Lines that were complete read the same with more behind them. */
  lemma {:induction false} DrainAppend(w: World, r: Reception, x: Text, b: Text)
    requires r.status == Going
    ensures var one := Drain(w, r);
            var both := Drain(w, r.(pending := r.pending + x, body := b));
            if one.status == Going then both == Drain(w, one.(pending := one.pending + x, body := b))
            else both.status != Going && Seen(both) == Seen(one)
    decreases |r.pending|
  {
    hide OnLine, Newline, Drain;
    var p := r.pending;
    var n := Newline(p);
    var longer := r.(pending := p + x, body := b);
    DrainOnce(w, r);
    if n < |p| {
      DrainOnce(w, longer);
      NewlineStays(p, x);
      assert (p + x)[n + 1..] == p[n + 1..] + x && (p + x)[..n] == p[..n];
      var next := OnLine(w, r.(pending := p[n + 1..]), p[..n]);
      SameLine(w, r.(pending := p[n + 1..]), p[..n], p[n + 1..] + x, b);
      if next.status == Going {
        DrainAppend(w, next, x, b);
      }
    }
  }

  /** A line says the same whatever is pending behind it. */
  lemma SameLine(w: World, r: Reception, line: Text, pending: Text, body: Text)
    ensures OnLine(w, r.(pending := pending, body := body), line)
         == OnLine(w, r, line).(pending := pending, body := body)
  {
  }

  /** However its bytes are cut, a stream says the same: text, calls, end,
      failure, and all of its body when it neither ended nor failed. */
  lemma {:induction false} ChunksDoNotMatter(w: World, chunks: seq<Text>)
    ensures Seen(FeedAll(w, Start(), chunks)) == Seen(Feed(w, Start(), Concat(chunks)))
  {
    hide Drain, Concat;
    if chunks == [] {
      NothingReceived(w);
    } else {
      var before, x := chunks[..|chunks| - 1], chunks[|chunks| - 1];
      ChunksDoNotMatter(w, before);
      ConcatSnoc(chunks);
      var all := Concat(before);
      var r := Start().(body := all, pending := all);
      DrainAppend(w, r, x, all + x);
      BodyStays(w, r);
      assert [] + all == all && [] + (all + x) == all + x;
    }
  }

  lemma ConcatSnoc(chunks: seq<Text>)
    requires chunks != []
    ensures Concat(chunks) == Concat(chunks[..|chunks| - 1]) + chunks[|chunks| - 1]
  {
  }

  lemma NothingReceived(w: World)
    ensures Concat<Byte>([]) == [] && Feed(w, Start(), []) == Start()
  {
  }

  lemma {:induction false} BodyStays(w: World, r: Reception)
    ensures Drain(w, r).body == r.body
    decreases |r.pending|
  {
    hide OnLine;
    var n := Newline(r.pending);
    if n < |r.pending| {
      var next := OnLine(w, r.(pending := r.pending[n + 1..]), r.pending[..n]);
      if next.status == Going {
        BodyStays(w, next);
      }
    }
  }

  // ------------------------------------------------------------ what a stream says

  /** The complete lines of some bytes. */
  function Lines(p: Text): seq<Text>
    decreases |p|
  {
    var n := Newline(p);
    if n == |p| then [] else [p[..n]] + Lines(p[n + 1..])
  }

  /** The frames a stream is made of, up to its end, its failure or the
      caller's refusal. */
  function Said(w: World, handed: seq<Text>, lines: seq<Text>): seq<Frame>
    decreases |lines|
  {
    if lines == [] then []
    else
      match Read(lines[0])
      case Other => Said(w, handed, lines[1..])
      case Finish => []
      case Data(payload) =>
        var f := w.parse(payload);
        if f.failed then []
        else if f.delta == [] then [f] + Said(w, handed, lines[1..])
        else if w.takes(handed + [CStr(f.delta)]) then [f] + Said(w, handed + [CStr(f.delta)], lines[1..])
        else [f]
  }

  function Deltas(frames: seq<Frame>): Text {
    if frames == [] then [] else frames[0].delta + Deltas(frames[1..])
  }

  /** What the caller is handed of a frame, as a C string. */
  function Piece(f: Frame): seq<Text> {
    if f.delta == [] then [] else [CStr(f.delta)]
  }

  function Pieces(frames: seq<Frame>): seq<Text> {
    if frames == [] then [] else Piece(frames[0]) + Pieces(frames[1..])
  }

  function Tools(frames: seq<Frame>): seq<Fragment> {
    if frames == [] then [] else frames[0].tools + Tools(frames[1..])
  }

  lemma {:induction false} FragmentsAppend(calls: seq<Call>, a: seq<Fragment>, b: seq<Fragment>)
    ensures AddFragments(calls, a + b) == AddFragments(AddFragments(calls, a), b)
    decreases |a|
  {
    hide AddFragment;
    if a == [] {
      assert a + b == b;
    } else {
      FragmentsAppend(AddFragment(calls, a[0]), a[1..], b);
      assert (a + b)[1..] == a[1..] + b;
    }
  }

  /** What a reception has gathered, against the frames of its lines. */
  predicate Gathers(r: Reception, s: Reception, frames: seq<Frame>) {
    && s.text == r.text + Deltas(frames)
    && s.handed == r.handed + Pieces(frames)
    && s.calls == AddFragments(r.calls, Tools(frames))
  }

  lemma FirstFrame(f: Frame, frames: seq<Frame>)
    ensures Deltas([f] + frames) == f.delta + Deltas(frames)
    ensures Pieces([f] + frames) == Piece(f) + Pieces(frames)
    ensures Tools([f] + frames) == f.tools + Tools(frames)
  {
  }

  lemma GathersOne(r: Reception, s: Reception, f: Frame, frames: seq<Frame>, mid: Reception)
    requires mid.text == r.text + f.delta && mid.handed == r.handed + Piece(f)
    requires mid.calls == AddFragments(r.calls, f.tools) && Gathers(mid, s, frames)
    ensures Gathers(r, s, [f] + frames)
  {
    hide AddFragments;
    FragmentsAppend(r.calls, f.tools, Tools(frames));
    var piece := Piece(f);
    FirstFrame(f, frames);
    hide Deltas, Pieces, Piece, Tools;
    assert r.text + f.delta + Deltas(frames) == r.text + (f.delta + Deltas(frames));
    assert r.handed + piece + Pieces(frames) == r.handed + (piece + Pieces(frames));
  }

  lemma GathersNothing(r: Reception, s: Reception)
    requires s.text == r.text && s.handed == r.handed && s.calls == r.calls
    ensures Gathers(r, s, [])
  {
  }

  lemma LinesOnce(p: Text)
    ensures var n := Newline(p); Lines(p) == if n == |p| then [] else [p[..n]] + Lines(p[n + 1..])
  {
    hide Newline;
  }

  lemma SaidNothing(w: World, handed: seq<Text>)
    ensures Said(w, handed, []) == []
  {
  }

  lemma SaidOnce(w: World, handed: seq<Text>, line: Text, lines: seq<Text>)
    ensures Said(w, handed, [line] + lines) ==
              match Read(line) {
                case Other => Said(w, handed, lines)
                case Finish => []
                case Data(payload) =>
                  var f := w.parse(payload);
                  var told := handed + Piece(f);
                  if f.failed then []
                  else [f] + if f.delta == [] || w.takes(told) then Said(w, told, lines) else []
              }
  {
    hide Read;
    assert ([line] + lines)[1..] == lines;
    assert handed + [] == handed;
  }

  /** What a line does to a reception. */
  lemma LineIs(w: World, r: Reception, line: Text)
    ensures match Read(line) {
              case Other => OnLine(w, r, line) == r
              case Finish => OnLine(w, r, line) == r.(status := Ended)
              case Data(payload) =>
                && OnLine(w, r, line) == OnFrame(w, r, payload)
                && (w.parse(payload).failed ==>
                      OnFrame(w, r, payload) == r.(status := Failed(w.reason(payload))))
            }
  {
    hide Read;
  }

  lemma {:induction false} DrainGathers(w: World, r: Reception)
    requires r.status == Going
    ensures Gathers(r, Drain(w, r), Said(w, r.handed, Lines(r.pending)))
    decreases |r.pending|
  {
    hide Gathers, Read, AddFragments, Newline, Drain, Said, Lines, OnLine;
    var p := r.pending;
    var n := Newline(p);
    DrainOnce(w, r);
    LinesOnce(p);
    if n == |p| {
      SaidNothing(w, r.handed);
      GathersNothing(r, r);
      return;
    }
    var line, rest := p[..n], r.(pending := p[n + 1..]);
    var lines := Lines(p[n + 1..]);
    var next := OnLine(w, rest, line);
    SaidOnce(w, r.handed, line, lines);
    LineIs(w, rest, line);
    match Read(line) {
      case Other =>
        DrainGathers(w, rest);
        SameGathers(rest, r, Drain(w, rest), Said(w, r.handed, lines));
      case Finish =>
        GathersNothing(r, next);
      case Data(payload) =>
        var f := w.parse(payload);
        if f.failed {
          GathersNothing(r, next);
        } else {
          FrameGathers(w, r, rest, payload, next);
          if next.status == Going {
            DrainGathers(w, next);
            GathersOne(r, Drain(w, next), f, Said(w, next.handed, lines), next);
          } else {
            GathersNothing(next, next);
            GathersOne(r, next, f, [], next);
            assert [f] + [] == [f];
          }
        }
    }
  }

  lemma SameGathers(a: Reception, b: Reception, s: Reception, frames: seq<Frame>)
    requires Gathers(a, s, frames) && a.text == b.text && a.handed == b.handed && a.calls == b.calls
    ensures Gathers(b, s, frames)
  {
  }

  lemma FrameGathers(w: World, r: Reception, rest: Reception, payload: Text, next: Reception)
    requires r.status == Going && rest == r.(pending := rest.pending) && next == OnFrame(w, rest, payload)
    requires !w.parse(payload).failed
    ensures var f := w.parse(payload);
            && next.text == r.text + f.delta
            && next.handed == r.handed + Piece(f)
            && next.calls == AddFragments(r.calls, f.tools) && next.pending == rest.pending
            && (next.status == Going <==> f.delta == [] || w.takes(next.handed))
  {
  }

  /** The fragments of one call, in order. */
  function Ids(tools: seq<Fragment>, i: nat): Text {
    if tools == [] then [] else (if tools[0].index == i then tools[0].id else []) + Ids(tools[1..], i)
  }

  function Names(tools: seq<Fragment>, i: nat): Text {
    if tools == [] then [] else (if tools[0].index == i then tools[0].name else []) + Names(tools[1..], i)
  }

  function Arguments(tools: seq<Fragment>, i: nat): Text {
    if tools == [] then [] else (if tools[0].index == i then tools[0].arguments else []) + Arguments(tools[1..], i)
  }

  /** Call i, an empty one when no fragment reached it yet. */
  function CallAt(calls: seq<Call>, i: nat): Call {
    if i < |calls| then calls[i] else Call([], [], [])
  }

  lemma OneFragment(calls: seq<Call>, f: Fragment, i: nat)
    requires i < CALLS_MAX && |calls| <= CALLS_MAX
    ensures |AddFragment(calls, f)| <= CALLS_MAX
    ensures var c := CallAt(calls, i);
            var more := Call(c.id + f.id, c.name + f.name, c.arguments + f.arguments);
            CallAt(AddFragment(calls, f), i) == if f.index == i then more else c
  {
  }

  /** Each call holds its fragments in order, whatever came in between. */
  lemma {:induction false} CallsAreJoined(calls: seq<Call>, tools: seq<Fragment>, i: nat)
    requires i < CALLS_MAX && |calls| <= CALLS_MAX
    ensures |AddFragments(calls, tools)| <= CALLS_MAX
    ensures var c := CallAt(calls, i);
            var more := Call(c.id + Ids(tools, i), c.name + Names(tools, i), c.arguments + Arguments(tools, i));
            CallAt(AddFragments(calls, tools), i) == more
    decreases |tools|
  {
    hide AddFragment, CallAt;
    var c := CallAt(calls, i);
    if tools == [] {
      assert c.id + [] == c.id && c.name + [] == c.name && c.arguments + [] == c.arguments;
    } else {
      var f, rest := tools[0], tools[1..];
      OneFragment(calls, f, i);
      CallsAreJoined(AddFragment(calls, f), rest, i);
      var id, name, arguments := if f.index == i then f.id else [], if f.index == i then f.name else [],
                                 if f.index == i then f.arguments else [];
      assert c.id + [] == c.id && c.name + [] == c.name && c.arguments + [] == c.arguments;
      assert c.id + id + Ids(rest, i) == c.id + (id + Ids(rest, i));
      assert c.name + name + Names(rest, i) == c.name + (name + Names(rest, i));
      assert c.arguments + arguments + Arguments(rest, i) == c.arguments + (arguments + Arguments(rest, i));
    }
  }

  /** No NUL in what these frames say. */
  predicate NoNul(frames: seq<Frame>) {
    forall i :: 0 <= i < |frames| ==> 0 !in frames[i].delta
  }

  /** The pieces are the deltas exactly when no NUL cuts one short. */
  lemma {:induction false} PiecesAreText(frames: seq<Frame>)
    ensures |Concat(Pieces(frames))| <= |Deltas(frames)|
    ensures |Concat(Pieces(frames))| == |Deltas(frames)| <==> NoNul(frames)
    ensures Concat(Pieces(frames)) == Deltas(frames) <==> NoNul(frames)
  {
    if frames != [] {
      var delta, rest := frames[0].delta, frames[1..];
      var c := CStr(delta);
      PiecesAreText(rest);
      PieceFirst(frames[0], Pieces(rest));
      assert NoNul(frames) <==> 0 !in delta && NoNul(rest);
      assert |c| == |delta| <==> c == delta;
      hide CStr, Pieces, NoNul;
    }
  }

  lemma PieceFirst(f: Frame, more: seq<Text>)
    ensures Concat(Piece(f) + more) == CStr(f.delta) + Concat(more)
  {
    if f.delta == [] {
      assert [] + more == more && [] + Concat(more) == Concat(more);
    } else {
      assert (Piece(f) + more)[1..] == more;
      ConcatFirst(Piece(f) + more);
    }
  }

  /** Over any chunks: the text is the deltas of the frames, handed to the
      caller one by one as C strings, so that the caller has the text exactly
      when no delta holds a NUL; and each call is its own fragments. */
  lemma StreamSays(w: World, chunks: seq<Text>, i: nat)
    requires i < CALLS_MAX
    ensures var r := FeedAll(w, Start(), chunks);
            var frames := Said(w, [], Lines(Concat(chunks)));
            && r.text == Deltas(frames) && r.handed == Pieces(frames)
            && (Concat(r.handed) == r.text <==> NoNul(frames))
            && |r.calls| <= CALLS_MAX
            && CallAt(r.calls, i) == Call(Ids(Tools(frames), i), Names(Tools(frames), i), Arguments(Tools(frames), i))
  {
    hide Said, Lines, Drain, FeedAll, CallAt, AddFragments, Deltas, Pieces, Tools, Ids, Names, Arguments, NoNul;
    ChunksDoNotMatter(w, chunks);
    var all := Concat(chunks);
    assert [] + all == all;
    DrainGathers(w, Start().(body := all, pending := all));
    var tools := Tools(Said(w, [], Lines(all)));
    CallsAreJoined([], tools, i);
    PiecesAreText(Said(w, [], Lines(all)));
    assert CallAt([], i) == Call([], [], []) by { CallOfNone(i); }
    assert [] + Ids(tools, i) == Ids(tools, i) && [] + Names(tools, i) == Names(tools, i);
    assert [] + Arguments(tools, i) == Arguments(tools, i);
    assert [] + Deltas(Said(w, [], Lines(all))) == Deltas(Said(w, [], Lines(all)));
    assert [] + Pieces(Said(w, [], Lines(all))) == Pieces(Said(w, [], Lines(all)));
  }

  lemma CallOfNone(i: nat)
    ensures CallAt([], i) == Call([], [], [])
  {
  }

  // ------------------------------------------------------------ the outcome

  /** How the request ended: nothing usable came back, or a status did. */
  datatype Transport = Broken | Status(code: int)

  datatype Outcome =
    | Answered(text: Text, calls: seq<Call>)
    | EndpointFailed(reason: Text)
    | Cancelled
    | TransportFailed
    | HttpFailed(code: int, reason: Text)
    | CutShort

  function OutcomeOf(w: World, r: Reception, transport: Transport): Outcome {
    if r.status.Failed? && r.status.reason != [] then EndpointFailed(r.status.reason)
    else if r.status == Refused then Cancelled
    else if r.status == Ended then Answered(r.text, r.calls)
    else if transport == Broken then TransportFailed
    else if transport.code < 200 || transport.code >= 300 then HttpFailed(transport.code, w.reason(r.body))
    else if r.finish == [] then CutShort
    else Answered(r.text, r.calls)
  }

  /** A receiver that gives up breaks the request; but for that, the outcome is
      the same for the same bytes, the reason of an error status included. */
  lemma OutcomeIgnoresChunks(w: World, chunks: seq<Text>, transport: Transport)
    requires FeedAll(w, Start(), chunks).status.Failed? ==> transport == Broken
    ensures OutcomeOf(w, FeedAll(w, Start(), chunks), transport)
         == OutcomeOf(w, Feed(w, Start(), Concat(chunks)), transport)
  {
    hide FeedAll, Feed, Concat;
    ChunksDoNotMatter(w, chunks);
  }
}
