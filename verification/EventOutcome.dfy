/** How a request ends, from the lines of its stream and the end of its
    transport alone. */
module EventOutcome {
  import opened Seqs
  import opened Utf8
  import opened EventStream

  /** What the caller was handed of these lines. */
  function HandedBy(w: World, lines: seq<Text>): seq<Text> {
    if lines == [] then []
    else
      HandedBy(w, lines[..|lines| - 1]) +
      match Read(lines[|lines| - 1])
      case Data(payload) => Piece(w.parse(payload))
      case _ => []
  }

  /** Line i does not end the stream: it carries nothing, or a frame that did not
      fail and whose delta, if it has one, the caller took. */
  predicate Passes(w: World, lines: seq<Text>, i: nat)
    requires i < |lines|
  {
    match Read(lines[i])
    case Other => true
    case Finish => false
    case Data(payload) =>
      && !w.parse(payload).failed
      && (w.parse(payload).delta == [] || w.takes(HandedBy(w, lines[..i + 1])))
  }

  predicate AllPass(w: World, lines: seq<Text>) {
    forall i :: 0 <= i < |lines| ==> Passes(w, lines, i)
  }

  /** The stream is over with line k. */
  predicate StopsAt(w: World, lines: seq<Text>, k: int) {
    0 <= k < |lines| && AllPass(w, lines[..k]) && !Passes(w, lines, k)
  }

  /** How line k ends it: the end mark, a frame that failed, or one whose delta
      was refused. */
  function StopOf(w: World, line: Text): Status {
    match Read(line)
    case Data(payload) => if w.parse(payload).failed then Failed(w.reason(payload)) else Refused
    case _ => Ended
  }

  predicate EndsLike(w: World, lines: seq<Text>, status: Status) {
    if status == Going then AllPass(w, lines)
    else exists k :: 0 <= k < |lines| && StopsAt(w, lines, k) && status == StopOf(w, lines[k])
  }

  lemma HandedOne(w: World, lines: seq<Text>, line: Text)
    ensures HandedBy(w, lines + [line]) == HandedBy(w, lines) +
            match Read(line) {
              case Data(payload) => Piece(w.parse(payload))
              case _ => []
            }
  {
    assert (lines + [line])[..|lines|] == lines;
  }

  lemma PassesSame(w: World, lines: seq<Text>, more: seq<Text>, i: nat)
    requires i < |lines|
    ensures Passes(w, lines + more, i) <==> Passes(w, lines, i)
  {
    assert (lines + more)[..i + 1] == lines[..i + 1] && (lines + more)[i] == lines[i];
  }

  lemma AllPassOne(w: World, lines: seq<Text>, line: Text)
    requires AllPass(w, lines) && Passes(w, lines + [line], |lines|)
    ensures AllPass(w, lines + [line])
  {
    hide Passes;
    forall i | 0 <= i < |lines + [line]|
      ensures Passes(w, lines + [line], i)
    {
      if i < |lines| {
        PassesSame(w, lines, [line], i);
      }
    }
  }

  lemma Stopped(w: World, before: seq<Text>, line: Text, rest: seq<Text>)
    requires AllPass(w, before) && !Passes(w, before + [line], |before|)
    ensures EndsLike(w, before + [line] + rest, StopOf(w, line))
  {
    hide Passes;
    var all := before + [line] + rest;
    assert all[..|before|] == before && all[|before|] == line;
    PassesSame(w, before + [line], rest, |before|);
    assert StopsAt(w, all, |before|);
  }

  /** Whether a line passes, as the reception of it says. */
  lemma LinePasses(w: World, r: Reception, before: seq<Text>, line: Text)
    requires r.status == Going && r.handed == HandedBy(w, before)
    ensures var next := OnLine(w, r, line);
            && (next.status == Going <==> Passes(w, before + [line], |before|))
            && (next.status == Going ==> next.handed == HandedBy(w, before + [line]))
            && (next.status != Going ==> next.status == StopOf(w, line))
  {
    hide Read, HandedBy;
    HandedOne(w, before, line);
    var all := before + [line];
    assert all[..|before| + 1] == all && all[|before|] == line;
  }

  lemma {:induction false} DrainEnds(w: World, r: Reception, before: seq<Text>)
    requires r.status == Going && r.handed == HandedBy(w, before) && AllPass(w, before)
    ensures EndsLike(w, before + Lines(r.pending), Drain(w, r).status)
    decreases |r.pending|
  {
    hide OnLine, Newline, Drain, Lines, HandedBy, AllPass, EndsLike, Passes;
    var p := r.pending;
    var n := Newline(p);
    DrainOnce(w, r);
    LinesOnce(p);
    if n == |p| {
      assert before + [] == before;
      GoingEnds(w, before);
    } else {
      var line, rest := p[..n], r.(pending := p[n + 1..]);
      var next := OnLine(w, rest, line);
      LinePasses(w, rest, before, line);
      assert before + ([line] + Lines(p[n + 1..])) == before + [line] + Lines(p[n + 1..]);
      if next.status == Going {
        AllPassOne(w, before, line);
        DrainEnds(w, next, before + [line]);
      } else {
        Stopped(w, before, line, Lines(p[n + 1..]));
      }
    }
  }

  lemma GoingEnds(w: World, lines: seq<Text>)
    requires AllPass(w, lines)
    ensures EndsLike(w, lines, Going)
  {
  }

  // ------------------------------------------------- finish and reasoning

  function Reasoning(frames: seq<Frame>): nat {
    if frames == [] then 0 else frames[0].reasoning + Reasoning(frames[1..])
  }

  predicate NoFinish(frames: seq<Frame>) {
    forall i :: 0 <= i < |frames| ==> frames[i].finish == []
  }

  /** The last finish the frames give, none when they give none. */
  predicate FinishesWith(frames: seq<Frame>, finish: Text) {
    if finish == [] then NoFinish(frames)
    else exists i :: 0 <= i < |frames| && frames[i].finish == finish && NoFinish(frames[i + 1..])
  }

  /** What a reception makes of the frames it still takes. */
  predicate Closes(r: Reception, s: Reception, frames: seq<Frame>) {
    && s.reasoning == r.reasoning + Reasoning(frames)
    && (if NoFinish(frames) then s.finish == r.finish else FinishesWith(frames, s.finish))
  }

  lemma ClosesNothing(r: Reception, s: Reception)
    requires s.reasoning == r.reasoning && s.finish == r.finish
    ensures Closes(r, s, [])
  {
  }

  lemma ClosesOne(r: Reception, mid: Reception, s: Reception, f: Frame, frames: seq<Frame>)
    requires mid.reasoning == r.reasoning + f.reasoning
    requires mid.finish == if f.finish != [] then f.finish else r.finish
    requires Closes(mid, s, frames)
    ensures Closes(r, s, [f] + frames)
  {
    var all := [f] + frames;
    assert all[1..] == frames;
    FirstFinish(f, frames);
    hide NoFinish;
    if !NoFinish(frames) {
      LaterFinish(f, frames, s.finish);
    } else if f.finish != [] {
      assert all[0].finish == f.finish && NoFinish(all[0 + 1..]);
    }
  }

  lemma FirstFinish(f: Frame, frames: seq<Frame>)
    ensures NoFinish([f] + frames) <==> f.finish == [] && NoFinish(frames)
  {
    var all := [f] + frames;
    assert all[0] == f && forall i :: 0 <= i < |frames| ==> all[i + 1] == frames[i];
  }

  lemma LaterFinish(f: Frame, frames: seq<Frame>, finish: Text)
    requires !NoFinish(frames) && FinishesWith(frames, finish)
    ensures FinishesWith([f] + frames, finish)
  {
    var i :| 0 <= i < |frames| && frames[i].finish == finish && NoFinish(frames[i + 1..]);
    assert ([f] + frames)[i + 1] == frames[i] && ([f] + frames)[i + 2..] == frames[i + 1..];
  }

  lemma SameCloses(a: Reception, b: Reception, s: Reception, frames: seq<Frame>)
    requires Closes(a, s, frames) && a.reasoning == b.reasoning && a.finish == b.finish
    ensures Closes(b, s, frames)
  {
  }

  lemma FrameCloses(w: World, r: Reception, payload: Text)
    requires !w.parse(payload).failed
    ensures var f, next := w.parse(payload), OnFrame(w, r, payload);
            && next.reasoning == r.reasoning + f.reasoning
            && next.finish == if f.finish != [] then f.finish else r.finish
  {
    hide AddFragments;
  }

  lemma {:induction false} DrainCloses(w: World, r: Reception)
    requires r.status == Going
    ensures Closes(r, Drain(w, r), Said(w, r.handed, Lines(r.pending)))
    decreases |r.pending|
  {
    hide Closes, Read, AddFragments, Newline, Drain, Said, Lines, OnLine, OnFrame;
    var p := r.pending;
    var n := Newline(p);
    DrainOnce(w, r);
    LinesOnce(p);
    if n == |p| {
      SaidNothing(w, r.handed);
      ClosesNothing(r, r);
      return;
    }
    var line, rest := p[..n], r.(pending := p[n + 1..]);
    var lines := Lines(p[n + 1..]);
    var next := OnLine(w, rest, line);
    SaidOnce(w, r.handed, line, lines);
    LineIs(w, rest, line);
    match Read(line) {
      case Other =>
        DrainCloses(w, rest);
        SameCloses(rest, r, Drain(w, rest), Said(w, r.handed, lines));
      case Finish =>
        ClosesNothing(r, next);
      case Data(payload) =>
        var f := w.parse(payload);
        if f.failed {
          ClosesNothing(r, next);
        } else {
          FrameGathers(w, r, rest, payload, next);
          FrameCloses(w, rest, payload);
          if next.status == Going {
            DrainCloses(w, next);
            ClosesOne(r, next, Drain(w, next), f, Said(w, next.handed, lines));
          } else {
            ClosesNothing(next, next);
            ClosesOne(r, next, next, f, []);
            assert [f] + [] == [f];
          }
        }
    }
  }

  // ------------------------------------------------------------ the outcome

  /** Over any chunks: the reception ends as the first line says that does not
      pass, or goes on when all do, and its finish and reasoning are those of the
      frames it took. */
  lemma StreamEnds(w: World, chunks: seq<Text>)
    ensures var r, lines := FeedAll(w, Start(), chunks), Lines(Concat(chunks));
            && EndsLike(w, lines, r.status) && (r.status == Going ==> r.body == Concat(chunks))
            && FinishesWith(EventStream.Said(w, [], lines), r.finish)
            && r.reasoning == Reasoning(EventStream.Said(w, [], lines))
  {
    hide Said, Lines, Drain, FeedAll, EndsLike, Reasoning;
    ChunksDoNotMatter(w, chunks);
    var all := Concat(chunks);
    assert [] + all == all;
    var r := Start().(body := all, pending := all);
    DrainEnds(w, r, []);
    assert [] + Lines(all) == Lines(all);
    DrainCloses(w, r);
    BodyStays(w, r);
  }

  /** The stream neither ended nor was refused, and no frame that failed gave a
      reason: how the transport ended decides. */
  predicate LeftToTransport(w: World, lines: seq<Text>) {
    || AllPass(w, lines)
    || (exists k :: 0 <= k < |lines| && StopsAt(w, lines, k) && StopOf(w, lines[k]) == Failed([]))
  }

  predicate Fine(transport: Transport) {
    transport.Status? && 200 <= transport.code < 300
  }

  predicate StopsWith(w: World, lines: seq<Text>, status: Status) {
    exists k :: 0 <= k < |lines| && StopsAt(w, lines, k) && StopOf(w, lines[k]) == status
  }

  /** No line before the one that ends the stream ends it. */
  lemma SoonerPasses(w: World, lines: seq<Text>, j: nat, k: nat)
    requires j < k <= |lines| && AllPass(w, lines[..k])
    ensures Passes(w, lines, j)
  {
    assert Passes(w, lines[..k], j);
    assert lines[..k] + lines[k..] == lines;
    PassesSame(w, lines[..k], lines[k..], j);
  }

  lemma NotSooner(w: World, lines: seq<Text>, j: int, k: int)
    requires StopsAt(w, lines, j) && StopsAt(w, lines, k)
    ensures k <= j
  {
    if j < k {
      SoonerPasses(w, lines, j, k);
    }
  }

  lemma PassingNeverStops(w: World, lines: seq<Text>, k: int)
    requires AllPass(w, lines) && 0 <= k < |lines|
    ensures !StopsAt(w, lines, k)
  {
  }

  /** The status is the one the lines say, and no other. */
  lemma StatusIs(w: World, lines: seq<Text>, status: Status)
    requires EndsLike(w, lines, status)
    ensures (status == Going <==> AllPass(w, lines))
    ensures forall other :: other != Going ==> (status == other <==> StopsWith(w, lines, other))
  {
    hide AllPass, StopsAt;
    if status == Going {
      forall k | 0 <= k < |lines|
        ensures !StopsAt(w, lines, k)
      {
        PassingNeverStops(w, lines, k);
      }
    } else {
      var k :| 0 <= k < |lines| && StopsAt(w, lines, k) && status == StopOf(w, lines[k]);
      if AllPass(w, lines) {
        PassingNeverStops(w, lines, k);
      }
      forall j | 0 <= j < |lines| && StopsAt(w, lines, j)
        ensures j == k
      {
        NotSooner(w, lines, j, k);
        NotSooner(w, lines, k, j);
      }
    }
  }

  /** How a request ends, for any chunks and any end of the transport: with the
      reason of a frame that failed, as cancelled when a delta was refused, as
      answered at the end mark; and for want of these as the transport failed, as
      its status says, as cut short when no frame gave a finish, as answered when
      one did. */
  lemma RequestEnds(w: World, chunks: seq<Text>, transport: Transport)
    ensures var r, lines := FeedAll(w, Start(), chunks), Lines(Concat(chunks));
            var frames, left := EventStream.Said(w, [], lines), LeftToTransport(w, lines);
            var outcome := OutcomeOf(w, r, transport);
            && (forall reason :: outcome == EndpointFailed(reason) <==>
                  reason != [] && StopsWith(w, lines, Failed(reason)))
            && (outcome == Cancelled <==> StopsWith(w, lines, Refused))
            && (outcome == TransportFailed <==> left && transport == Broken)
            && (outcome.HttpFailed? <==> left && transport.Status? && !Fine(transport))
            && (outcome.HttpFailed? ==> outcome == HttpFailed(transport.code, w.reason(r.body)))
            && (AllPass(w, lines) ==> r.body == Concat(chunks))
            && (outcome == CutShort <==> left && Fine(transport) && NoFinish(frames))
            && (outcome.Answered? <==>
                  StopsWith(w, lines, Ended) || (left && Fine(transport) && !NoFinish(frames)))
            && (outcome.Answered? ==> outcome == Answered(r.text, r.calls))
  {
    hide EventStream.Said, Lines, FeedAll, Concat, AllPass, StopsAt, StopOf, EndsLike, NoFinish;
    var r, lines := FeedAll(w, Start(), chunks), Lines(Concat(chunks));
    StreamEnds(w, chunks);
    StatusIs(w, lines, r.status);
    FinishMeans(EventStream.Said(w, [], lines), r.finish);
    assert LeftToTransport(w, lines) <==> AllPass(w, lines) || StopsWith(w, lines, Failed([]));
  }

  lemma FinishMeans(frames: seq<Frame>, finish: Text)
    requires FinishesWith(frames, finish)
    ensures finish == [] <==> NoFinish(frames)
  {
  }
}
