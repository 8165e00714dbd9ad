/** The stream of an answer cut into sentences: whatever the deltas, the same
    units, each with the place in the written text where it ends. */
module Splitter {
  import opened Seqs
  import opened Utf8
  import opened Cleaning

  predicate IsTerminator(c: Byte) {
    c == 0x2E || c == 0x21 || c == 0x3F || c == 0x3A || c == 0x3B
  }

  predicate Confirms(next: Byte) {
    next == 0x20 || next == 0x0A || next == 0x22 || next == 0x27
  }

  /** The marks that end a sentence, and what has to follow them. */
  lemma CutMarks(c: Byte)
    ensures IsTerminator(c) <==> c < 0x80 && c as char in ".!?:;"
    ensures Confirms(c) <==> c < 0x80 && c as char in " \n\"'"
  {
  }

  /** A cut falls after this byte, as far as the text is known. */
  predicate CutsAfter(p: Text, i: nat)
    requires i < |p|
  {
    p[i] == 0x0A || (IsTerminator(p[i]) && i + 1 < |p| && Confirms(p[i + 1]))
  }

  /** Length of the leading sentence from place i on, or 0. */
  function CutFrom(p: Text, i: nat): (cut: nat)
    requires i <= |p|
    ensures cut != 0 ==> i < cut <= |p| && CutsAfter(p, cut - 1)
    ensures cut != 0 ==> forall j :: i <= j < cut - 1 ==> !CutsAfter(p, j)
    ensures cut == 0 ==> forall j :: i <= j < |p| ==> !CutsAfter(p, j)
    decreases |p| - i
  {
    if i == |p| then 0 else if CutsAfter(p, i) then i + 1 else CutFrom(p, i + 1)
  }

  function CutPoint(p: Text): (cut: nat)
    ensures cut <= |p|
  {
    CutFrom(p, 0)
  }

  method FindCut(p: Text) returns (cut: nat)
    ensures cut == CutPoint(p)
  {
    var i := 0;
    while i < |p|
      invariant 0 <= i <= |p| && CutPoint(p) == CutFrom(p, i)
    {
      var c := p[i];
      if c == 0x0A {
        return i + 1;
      }
      if IsTerminator(c) && i + 1 < |p| {
        var next := p[i + 1];
        if Confirms(next) {
          return i + 1;
        }
      }
      i := i + 1;
    }
    return 0;
  }

  // ------------------------------------------------------------ pieces

  /** Everything that can be cut, in order. */
  function Pieces(p: Text): seq<Text>
    decreases |p|
  {
    var cut := CutPoint(p);
    if cut == 0 then [] else [p[..cut]] + Pieces(p[cut..])
  }

  /** What waits for the next delta. */
  function Rest(p: Text): Text
    decreases |p|
  {
    var cut := CutPoint(p);
    if cut == 0 then p else Rest(p[cut..])
  }

  /** More text never moves a cut that was made. */
  lemma CutStays(p: Text, x: Text)
    requires CutPoint(p) != 0
    ensures CutPoint(p + x) == CutPoint(p)
  {
    var cut := CutPoint(p);
    assert forall j :: 0 <= j < cut ==> (p + x)[j] == p[j];
    assert CutsAfter(p + x, cut - 1) by {
      assert cut < |p| ==> (p + x)[cut] == p[cut];
    }
    forall j | 0 <= j < cut - 1
      ensures !CutsAfter(p + x, j)
    {
      assert !CutsAfter(p, j) && (p + x)[j + 1] == p[j + 1];
    }
  }

  lemma {:induction false} PiecesAppend(p: Text, x: Text)
    ensures Pieces(p + x) == Pieces(p) + Pieces(Rest(p) + x)
    ensures Rest(p + x) == Rest(Rest(p) + x)
    decreases |p|
  {
    var cut := CutPoint(p);
    if cut != 0 {
      CutStays(p, x);
      assert (p + x)[cut..] == p[cut..] + x && (p + x)[..cut] == p[..cut];
      PiecesAppend(p[cut..], x);
      hide CutPoint;
    }
  }

  lemma PiecesOnce(p: Text)
    ensures var cut := CutPoint(p);
            && cut <= |p|
            && (cut == 0 ==> Pieces(p) == [] && Rest(p) == p)
            && (cut != 0 ==> Pieces(p) == [p[..cut]] + Pieces(p[cut..]) && Rest(p) == Rest(p[cut..]))
  {
    hide CutPoint;
  }

  lemma NoPieces()
    ensures Concat<Byte>([]) == []
  {
  }

  lemma CutEndsInAscii(p: Text)
    requires CutPoint(p) != 0
    ensures EndsInAscii(p[..CutPoint(p)])
  {
  }

  /** The first cut is the first place a cut falls after. */
  lemma CutIsFirst(p: Text, i: nat)
    requires i < |p|
    ensures CutPoint(p) == 0 || i + 1 < CutPoint(p) ==> !CutsAfter(p, i)
    ensures i + 1 == CutPoint(p) ==> CutsAfter(p, i)
  {
  }

  /** A sentence needs its confirmation: "A. B" is cut behind the stop, "3.14"
      nowhere, "A" with a line break behind the break, and "A." not yet. */
  lemma CutsForExample()
    ensures CutPoint([0x41, 0x2E, 0x20, 0x42]) == 2
    ensures CutPoint([0x33, 0x2E, 0x31, 0x34]) == 0
    ensures CutPoint([0x41, 0x0A, 0x42]) == 2
    ensures CutPoint([0x41, 0x2E]) == 0
  {
    var stop, number: Text := [0x41, 0x2E, 0x20, 0x42], [0x33, 0x2E, 0x31, 0x34];
    var line, open: Text := [0x41, 0x0A, 0x42], [0x41, 0x2E];
    hide CutFrom;
    assert !CutsAfter(stop, 0) && CutsAfter(stop, 1);
    assert forall i :: 0 <= i < |number| ==> !CutsAfter(number, i);
    assert !CutsAfter(line, 0) && CutsAfter(line, 1);
    assert !CutsAfter(open, 0) && !CutsAfter(open, 1);
  }

  /** The pieces and what waits are the written text, and each piece ends with
      an ASCII byte. */
  lemma {:induction false} PiecesAreWhole(p: Text)
    ensures Concat(Pieces(p)) + Rest(p) == p
    ensures forall piece :: piece in Pieces(p) ==> EndsInAscii(piece)
    ensures CutPoint(Rest(p)) == 0
    decreases |p|
  {
    hide CutPoint, Pieces, Rest, Concat, CutsAfter;
    var cut := CutPoint(p);
    PiecesOnce(p);
    if cut == 0 {
      NoPieces();
      assert [] + p == p;
    } else {
      var piece, more := p[..cut], Pieces(p[cut..]);
      PiecesAreWhole(p[cut..]);
      CutEndsInAscii(p);
      ConcatFirst([piece] + more);
      assert ([piece] + more)[1..] == more;
      assert p == piece + p[cut..];
      assert piece + Concat(more) + Rest(p) == piece + (Concat(more) + Rest(p));
    }
  }

  /** A piece ends at place i of the text they make. */
  predicate PieceEnds(pieces: seq<Text>, i: nat) {
    pieces != []
    && (i == |pieces[0]| || (i > |pieces[0]| && PieceEnds(pieces[1..], i - |pieces[0]|)))
  }

  /** Cut away a leading piece, the other cuts are where they were. */
  lemma CutsBehind(p: Text, cut: nat, i: nat)
    requires cut <= i < |p|
    ensures CutsAfter(p[cut..], i - cut) <==> CutsAfter(p, i)
  {
    assert p[cut..][i - cut] == p[i];
    assert i + 1 < |p| ==> p[cut..][i - cut + 1] == p[i + 1];
  }

  /** The text is cut after every byte a cut falls after, and nowhere else. */
  lemma {:induction false} CutsEverywhere(p: Text, i: nat)
    requires i < |p|
    ensures PieceEnds(Pieces(p), i + 1) <==> CutsAfter(p, i)
    decreases |p|
  {
    hide CutPoint, Pieces, CutsAfter;
    var cut := CutPoint(p);
    PiecesOnce(p);
    CutIsFirst(p, i);
    if cut != 0 {
      var piece, rest := p[..cut], p[cut..];
      assert ([piece] + Pieces(rest))[1..] == Pieces(rest);
      if i >= cut {
        CutsBehind(p, cut, i);
        CutsEverywhere(rest, i - cut);
      }
    }
  }

  // ------------------------------------------------------------ units

  datatype Unit = Unit(text: Text, end: nat)

  /** The units of the pieces, the written text `consumed` long before them;
      a piece with nothing to say gives none, but still counts. */
  function Units(pieces: seq<Text>, consumed: nat): seq<Unit> {
    if pieces == [] then []
    else UnitOf(pieces[0], consumed) + Units(pieces[1..], consumed + Utf16Len(pieces[0]))
  }

  function UnitOf(piece: Text, consumed: nat): seq<Unit> {
    var text := Clean(piece);
    if text == [] then [] else [Unit(text, consumed + Utf16Len(piece))]
  }

  function Consumed(pieces: seq<Text>): nat {
    if pieces == [] then 0 else Utf16Len(pieces[0]) + Consumed(pieces[1..])
  }

  lemma {:induction false} UnitsAppend(a: seq<Text>, b: seq<Text>, consumed: nat)
    ensures Units(a + b, consumed) == Units(a, consumed) + Units(b, consumed + Consumed(a))
    ensures Consumed(a + b) == Consumed(a) + Consumed(b)
    decreases |a|
  {
    hide UnitOf, Utf16Len;
    if a == [] {
      assert a + b == b;
    } else {
      var rest, end := a[1..], consumed + Utf16Len(a[0]);
      UnitsAppend(rest, b, end);
      assert (a + b)[1..] == rest + b;
      assert Units(a + b, consumed) == UnitOf(a[0], consumed) + Units(rest + b, end);
      assert Consumed(a + b) == Utf16Len(a[0]) + Consumed(rest + b);
      assert Units(a, consumed) == UnitOf(a[0], consumed) + Units(rest, end);
      assert Consumed(a) == Utf16Len(a[0]) + Consumed(rest);
      hide Units, Consumed;
      assert consumed + Consumed(a) == end + Consumed(rest);
    }
  }

  /** What is consumed is the UTF-16 length of the text itself: it adds up
      across the cuts, on any bytes. */
  lemma {:induction false} ConsumedIsLength(pieces: seq<Text>, more: Text)
    requires forall piece :: piece in pieces ==> EndsInAscii(piece)
    ensures Utf16Len(Concat(pieces) + more) == Consumed(pieces) + Utf16Len(more)
  {
    hide Utf16Len;
    if pieces == [] {
      assert Concat(pieces) + more == more;
    } else {
      ConsumedIsLength(pieces[1..], more);
      ConcatFirst(pieces);
      Additive(pieces[0], Concat(pieces[1..]) + more);
      assert Concat(pieces) + more == pieces[0] + (Concat(pieces[1..]) + more);
    }
  }

  // ------------------------------------------------------------ the splitter

  class SentenceSplitter {
    var pending: Text
    var consumed: nat
    ghost var written: Text  // everything fed since the start

    ghost predicate Valid()
      reads this
    {
      && pending == Rest(written)
      && consumed == Consumed(Pieces(written))
    }

    /** The units of everything fed since the start. */
    ghost function UnitsSoFar(): seq<Unit>
      reads this
    {
      Units(Pieces(written), 0)
    }

    constructor ()
      ensures Valid() && written == [] && pending == [] && consumed == 0
    {
      pending, consumed, written := [], 0, [];
    }

    /** Feeds a delta; the units it completes. */
    method Push(delta: Text) returns (units: seq<Unit>)
      requires Valid()
      modifies this
      ensures Valid() && written == old(written) + delta
      ensures UnitsSoFar() == old(UnitsSoFar()) + units
    {
      hide Units, Pieces, Rest, Consumed, Clean, Utf16Len, CutPoint;
      PiecesAppend(written, delta);
      UnitsAppend(Pieces(written), Pieces(pending + delta), 0);
      written := written + delta;
      pending := pending + delta;
      units := CutAll();
    }

    /** The loop over the sentences of what is pending. */
    method CutAll() returns (units: seq<Unit>)
      modifies this`pending, this`consumed
      ensures pending == Rest(old(pending)) && units == Units(Pieces(old(pending)), old(consumed))
      ensures consumed == old(consumed) + Consumed(Pieces(old(pending)))
    {
      hide Units, Pieces, Rest, Consumed, Clean, Utf16Len, CutPoint;
      units := [];
      ghost var all := pending;
      ghost var start := consumed;
      while true
        invariant Units(Pieces(all), start) == units + Units(Pieces(pending), consumed)
        invariant Rest(all) == Rest(pending)
        invariant start + Consumed(Pieces(all)) == consumed + Consumed(Pieces(pending))
        decreases |pending|
      {
        var cut := FindCut(pending);
        NextPiece(pending, consumed);
        if cut == 0 {
          break;
        }
        var piece := pending[..cut];
        var n := Utf16Length(piece);
        var text := CleanText(piece);
        ghost var more := Units(Pieces(pending[cut..]), consumed + n);
        assert units + (UnitOf(piece, consumed) + more) == units + UnitOf(piece, consumed) + more;
        assert units + [] == units;
        pending := pending[cut..];
        consumed := consumed + n;
        if text != [] {
          units := units + [Unit(text, consumed)];
        }
      }
    }

    /** The end of the stream: what waits is a unit, up to the very end. */
    method Flush() returns (unit: Unit)
      requires Valid()
      modifies this
      ensures unit == Unit(Clean(old(pending)), Utf16Len(old(written)))
      ensures pending == [] && consumed == Utf16Len(old(written)) && written == old(written)
    {
      PiecesAreWhole(written);
      ConsumedIsLength(Pieces(written), pending);
      var n := Utf16Length(pending);
      consumed := consumed + n;
      var text := CleanText(pending);
      unit := Unit(text, consumed);
      pending := [];
    }
  }

  /** One turn of the loop: nothing to cut, or one piece off the front. */
  lemma NextPiece(p: Text, consumed: nat)
    ensures CutPoint(p) <= |p|
    ensures CutPoint(p) == 0 ==>
              Rest(p) == p && Units(Pieces(p), consumed) == [] && Consumed(Pieces(p)) == 0
    ensures CutPoint(p) != 0 ==>
              var cut := CutPoint(p);
              var piece, n := p[..cut], Utf16Len(p[..cut]);
              && Rest(p) == Rest(p[cut..]) && Consumed(Pieces(p)) == n + Consumed(Pieces(p[cut..]))
              && Units(Pieces(p), consumed) == UnitOf(piece, consumed) + Units(Pieces(p[cut..]), consumed + n)
  {
    hide UnitOf, Utf16Len, CutPoint;
    var cut := CutPoint(p);
    assert cut != 0 ==> Pieces(p)[1..] == Pieces(p[cut..]);
  }

  // ------------------------------------------------------------ any deltas

  /** The state after some deltas, and the units they gave. */
  datatype Fed = Fed(pending: Text, consumed: nat, units: seq<Unit>)

  function Feed(deltas: seq<Text>): Fed {
    if deltas == [] then Fed([], 0, [])
    else
      var f := Feed(deltas[..|deltas| - 1]);
      var text := f.pending + deltas[|deltas| - 1];
      Fed(Rest(text), f.consumed + Consumed(Pieces(text)), f.units + Units(Pieces(text), f.consumed))
  }

  lemma NothingFed()
    ensures Rest([]) == [] && Pieces([]) == [] && Consumed([]) == 0 && Units([], 0) == []
  {
  }

  /** However the answer is cut into deltas, in the middle of a character
      included, its units are those of the whole. */
  lemma {:induction false} DeltasDoNotMatter(deltas: seq<Text>)
    ensures var all := Concat(deltas);
            Feed(deltas) == Fed(Rest(all), Consumed(Pieces(all)), Units(Pieces(all), 0))
  {
    hide Units, Consumed, Pieces, Rest;
    if deltas != [] {
      var before, delta := deltas[..|deltas| - 1], deltas[|deltas| - 1];
      var all := Concat(before);
      DeltasDoNotMatter(before);
      PiecesAppend(all, delta);
      UnitsAppend(Pieces(all), Pieces(Rest(all) + delta), 0);
    } else {
      NothingFed();
    }
  }

  /** Unit u is piece n, cleaned, and ends where that piece ends. */
  predicate EndsAt(u: Unit, pieces: seq<Text>, n: int) {
    0 <= n < |pieces| && u.text == Clean(pieces[n]) != [] && u.end == Utf16Len(Concat(pieces[..n + 1]))
  }

  predicate AllEndInAscii(pieces: seq<Text>) {
    forall i :: 0 <= i < |pieces| ==> EndsInAscii(pieces[i])
  }

  lemma ConcatEnds(pieces: seq<Text>)
    requires AllEndInAscii(pieces)
    ensures pieces != [] ==> EndsInAscii(Concat(pieces))
  {
  }

  /** The first piece after some others. */
  lemma OnePiece(before: seq<Text>, piece: Text)
    requires AllEndInAscii(before)
    ensures Concat(before + [piece]) == Concat(before) + piece
    ensures Utf16Len(Concat(before + [piece])) == Utf16Len(Concat(before)) + Utf16Len(piece)
  {
    ConcatLast(before, piece);
    ConcatEnds(before);
    Additive(Concat(before), piece);
    hide Utf16Len;
  }

  predicate Ascends(at: seq<nat>) {
    forall i, j :: 0 <= i < j < |at| ==> at[i] < at[j]
  }

  /** Unit i is the piece at[i], cleaned, and ends where that piece ends, in the
      order of the text; and every piece from k on that says something is there. */
  predicate Spoken(units: seq<Unit>, pieces: seq<Text>, at: seq<nat>, k: nat) {
    && |at| == |units| && Ascends(at)
    && (forall i :: 0 <= i < |units| ==> k <= at[i] && EndsAt(units[i], pieces, at[i]))
    && (forall n :: k <= n < |pieces| && Clean(pieces[n]) != [] ==> n in at)
  }

  /** Each unit is a piece of the written text, cleaned, and ends where that
      piece ends, counted in UTF-16 units from the start of the text; each piece
      that says something is a unit. */
  lemma {:induction false} UnitsAreSpoken(all: seq<Text>, k: nat) returns (at: seq<nat>)
    requires AllEndInAscii(all) && k <= |all|
    ensures Spoken(Units(all[k..], Utf16Len(Concat(all[..k]))), all, at, k)
    decreases |all| - k
  {
    hide Utf16Len, Clean, Concat;
    if k == |all| {
      at := [];
      return;
    }
    var piece, start := all[k], Utf16Len(Concat(all[..k]));
    OnePiece(all[..k], piece);
    assert all[..k] + [piece] == all[..k + 1] && all[k..][1..] == all[k + 1..];
    var rest := UnitsAreSpoken(all, k + 1);
    var more := Units(all[k + 1..], start + Utf16Len(piece));
    assert Units(all[k..], start) == UnitOf(piece, start) + more;
    if Clean(piece) == [] {
      at := rest;
      assert [] + more == more;
    } else {
      at := [k] + rest;
      assert EndsAt(UnitOf(piece, start)[0], all, k);
      FirstSpoken(UnitOf(piece, start)[0], more, all, rest, k);
    }
  }

  lemma FirstAscends(k: nat, rest: seq<nat>)
    requires Ascends(rest) && forall i :: 0 <= i < |rest| ==> k < rest[i]
    ensures Ascends([k] + rest)
  {
    assert forall i :: 0 <= i < |rest| ==> ([k] + rest)[i + 1] == rest[i];
  }

  lemma FirstSpoken(u: Unit, units: seq<Unit>, all: seq<Text>, rest: seq<nat>, k: nat)
    requires k < |all| && EndsAt(u, all, k) && Spoken(units, all, rest, k + 1)
    ensures Spoken([u] + units, all, [k] + rest, k)
  {
    hide EndsAt, Clean;
    var at := [k] + rest;
    FirstAscends(k, rest);
    assert forall i :: 0 < i < |at| ==> at[i] == rest[i - 1] && ([u] + units)[i] == units[i - 1];
    forall n | k <= n < |all| && Clean(all[n]) != []
      ensures n in at
    {
      if n > k {
        assert n in rest;
      }
    }
  }

  /** The whole story of an answer, in any deltas: the pieces and the tail are
      what was written; the units are, in order and each once, the pieces that
      say something, cleaned, and each ends at the UTF-16 length of the text up
      to it. */
  lemma SplitIsFaithful(deltas: seq<Text>) returns (at: seq<nat>)
    ensures var all, f := Concat(deltas), Feed(deltas);
            && Concat(Pieces(all)) + f.pending == all
            && Spoken(f.units, Pieces(all), at, 0)
            && f.consumed + Utf16Len(f.pending) == Utf16Len(all)
  {
    hide Units, Pieces, Rest, Clean, Consumed, Feed, Concat, Utf16Len, Spoken;
    var all := Concat(deltas);
    var pieces := Pieces(all);
    DeltasDoNotMatter(deltas);
    PiecesAreWhole(all);
    ConsumedIsLength(pieces, Rest(all));
    LengthOfNone();
    assert pieces[..0] == [] && pieces[0..] == pieces;
    at := UnitsAreSpoken(pieces, 0);
  }

  lemma LengthOfNone()
    ensures Concat<Byte>([]) == [] && Utf16Len([]) == 0
  {
  }
}
