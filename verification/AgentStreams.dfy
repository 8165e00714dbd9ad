/** A run of rounds over the streams it receives: each round delivers the deltas
    of the frames of its stream, and the text of the run is theirs. */
module AgentStreams {
  import opened Seqs
  import opened Utf8
  import opened EventStream
  import opened Agent

  /** The stream of one round: its frames and its caller, its bytes as they
      arrive, and how the request ended. */
  datatype Stream = Stream(w: World, chunks: seq<Text>, transport: Transport)

  function Received(s: Stream): Reception {
    FeedAll(s.w, Start(), s.chunks)
  }

  function FramesOf(s: Stream): seq<EventStream.Frame> {
    Said(s.w, [], Lines(Concat(s.chunks)))
  }

  /** The deltas of some frames that say something. */
  function DeltasOf(frames: seq<EventStream.Frame>): seq<Text> {
    if frames == [] then []
    else (if frames[0].delta == [] then [] else [frames[0].delta]) + DeltasOf(frames[1..])
  }

  /** A round delivers the deltas of its stream, and comes to its end when the
      stream is an answer. */
  predicate IsRoundOf(r: Round, s: Stream) {
    r.deltas == DeltasOf(FramesOf(s)) && (r.ended <==> OutcomeOf(s.w, Received(s), s.transport).Answered?)
  }

  // ------------------------------------------------------------ one stream

  lemma {:induction false} ReadAsFirst(delta: Text, deltas: seq<Text>)
    ensures ReadAs([delta] + deltas) == CStr(delta) + ReadAs(deltas)
  {
    hide CStr;
    var all := [delta] + deltas;
    if deltas == [] {
      assert all[..0] == [] && [] + CStr(delta) == CStr(delta) + [];
    } else {
      var before, last := deltas[..|deltas| - 1], deltas[|deltas| - 1];
      assert all[..|all| - 1] == [delta] + before;
      ReadAsFirst(delta, before);
      assert CStr(delta) + ReadAs(before) + CStr(last) == CStr(delta) + (ReadAs(before) + CStr(last));
    }
  }

  /** Joined, the deltas are the text of the frames; read as C strings, what
      their pieces say. */
  lemma {:induction false} DeltasSay(frames: seq<EventStream.Frame>)
    ensures Concat(DeltasOf(frames)) == Deltas(frames)
    ensures ReadAs(DeltasOf(frames)) == Concat(Pieces(frames))
  {
    hide CStr, Concat, ReadAs;
    if frames == [] {
      NothingSaid();
    } else {
      var delta, rest := frames[0].delta, DeltasOf(frames[1..]);
      DeltasSay(frames[1..]);
      PieceFirst(frames[0], Pieces(frames[1..]));
      if delta == [] {
        assert [] + rest == rest && [] + Deltas(frames[1..]) == Deltas(frames[1..]);
        NothingReads(Concat(Pieces(frames[1..])));
      } else {
        ReadAsFirst(delta, rest);
        assert ([delta] + rest)[1..] == rest;
        ConcatFirst([delta] + rest);
      }
    }
  }

  lemma NothingSaid()
    ensures Concat<Byte>([]) == [] && ReadAs([]) == []
  {
  }

  lemma NothingReads(t: Text)
    ensures CStr([]) + t == t
  {
  }

  /** What a stream leaves is what its deltas say. */
  lemma StreamLeaves(s: Stream)
    ensures Received(s).text == Concat(DeltasOf(FramesOf(s)))
    ensures Concat(Received(s).handed) == ReadAs(DeltasOf(FramesOf(s)))
  {
    hide FeedAll, Said, Lines, Concat, ReadAs, DeltasOf, Deltas, Pieces;
    StreamSays(s.w, s.chunks, 0);
    DeltasSay(FramesOf(s));
  }

  // ------------------------------------------------------------ the space

  /** The space a round opens with: after words that end without one, before
      words that begin without one. */
  function Opening(text: Text, read: Text): Text {
    if NeedsSpace(text) && read != [] && !IsSpaceByte(read[0]) then [SPACE] else []
  }

  lemma {:induction false} TapSpaces(tap: Tap, deltas: seq<Text>)
    requires !tap.spaced
    ensures var t, read := PassAll(tap, deltas), ReadAs(deltas);
            && (t.separate <==> tap.separate && read == [])
            && (t.spaced <==> tap.separate && read != [] && !IsSpaceByte(read[0]))
  {
    hide CStr;
    if deltas != [] {
      TapSpaces(tap, deltas[..|deltas| - 1]);
    }
  }

  // ------------------------------------------------------------ a run

  /** The text of an answer made of these streams: theirs, with the spaces
      between them. */
  function Woven(streams: seq<Stream>): Text {
    if streams == [] then []
    else
      var text, r := Woven(streams[..|streams| - 1]), Received(streams[|streams| - 1]);
      text + Opening(text, Concat(r.handed)) + r.text
  }

  /** The same as the caller reads it. */
  function WovenRead(streams: seq<Stream>): Text {
    if streams == [] then []
    else
      var before, r := streams[..|streams| - 1], Received(streams[|streams| - 1]);
      WovenRead(before) + Opening(Woven(before), Concat(r.handed)) + Concat(r.handed)
  }

  /** An answer says what these streams do. */
  predicate SaysStreams(a: Answer, streams: seq<Stream>) {
    a.text == Woven(streams) && Concat(a.handed) == WovenRead(streams)
  }

  lemma GrowSays(a: Answer, r: Round, streams: seq<Stream>)
    requires streams != [] && ValidRound(r) && IsRoundOf(r, streams[|streams| - 1])
    requires SaysStreams(a, streams[..|streams| - 1])
    ensures SaysStreams(Grow(a, r), streams)
  {
    hide PassAll, Concat, ReadAs, NeedsSpace, Received, FramesOf, DeltasOf, Grow;
    var s := streams[|streams| - 1];
    var tap := Tap(NeedsSpace(a.text), false, a.handed);
    StreamLeaves(s);
    GrowText(a, r);
    PassAllReads(tap, r.deltas);
    TapSpaces(tap, r.deltas);
  }

  lemma {:induction false} RunSays(rounds: seq<Round>, maxRounds: int, i: nat, a: Answer, streams: seq<Stream>)
    requires maxRounds <= |rounds| == |streams| && (forall r :: r in rounds ==> ValidRound(r))
    requires forall j :: 0 <= j < |rounds| ==> IsRoundOf(rounds[j], streams[j])
    requires i <= |rounds| && SaysStreams(a, streams[..i])
    ensures var ran := RunFrom(rounds, maxRounds, i, a);
            i <= ran.rounds <= |rounds|
            && (!ran.outcome.Failed? ==> SaysStreams(ran.answer, streams[..ran.rounds]))
    decreases maxRounds - i
  {
    hide RunFrom, Grow, SaysStreams, IsRoundOf;
    RunOnce(rounds, maxRounds, i, a);
    if i < maxRounds && rounds[i].ended {
      var upTo := streams[..i + 1];
      assert upTo[..i] == streams[..i] && upTo[i] == streams[i];
      GrowSays(a, rounds[i], upTo);
      if rounds[i].calls != [] && Stopped !in rounds[i].replies {
        RunSays(rounds, maxRounds, i + 1, Grow(a, rounds[i]), streams);
      }
    }
  }

  /** For any streams, however each is cut: a run that does not fail has the
      text of the streams of its rounds, which is the deltas of their frames,
      and the spaces put between them; the caller was handed the same as C
      strings. */
  lemma RunSaysStreams(rounds: seq<Round>, maxRounds: int, messages: seq<Message>, streams: seq<Stream>)
    requires maxRounds <= |rounds| == |streams| && (forall r :: r in rounds ==> ValidRound(r))
    requires forall j :: 0 <= j < |rounds| ==> IsRoundOf(rounds[j], streams[j])
    ensures forall j :: 0 <= j < |streams| ==> Received(streams[j]).text == Deltas(FramesOf(streams[j]))
    ensures var ran := RunFrom(rounds, maxRounds, 0, Answer([], [], messages));
            ran.rounds <= |rounds|
            && (!ran.outcome.Failed? ==>
                  && ran.answer.text == Woven(streams[..ran.rounds])
                  && Concat(ran.answer.handed) == WovenRead(streams[..ran.rounds]))
  {
    hide RunFrom, Received, FramesOf, Deltas, IsRoundOf;
    assert SaysStreams(Answer([], [], messages), streams[..0]) by {
      NothingSaid();
    }
    RunSays(rounds, maxRounds, 0, Answer([], [], messages), streams);
    forall j | 0 <= j < |streams|
      ensures Received(streams[j]).text == Deltas(FramesOf(streams[j]))
    {
      TextOfFrames(streams[j]);
    }
  }

  lemma TextOfFrames(s: Stream)
    ensures Received(s).text == Deltas(FramesOf(s))
  {
    hide FeedAll, Said, Lines, Concat, Deltas, Pieces;
    StreamSays(s.w, s.chunks, 0);
  }
}
