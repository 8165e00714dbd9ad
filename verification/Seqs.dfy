/** Sequence vocabulary shared by the models: the most recent elements of a
    stream, and what "suffix" means for audio that only grows at its end. */
module Seqs {
  type Byte = b: int | 0 <= b < 256

  function Min(a: nat, b: nat): nat {
    if a < b then a else b
  }

  function Max(a: nat, b: nat): nat {
    if a < b then b else a
  }

  /** The last n elements of s, or all of it when it is shorter. */
  function Last<T>(s: seq<T>, n: nat): seq<T> {
    s[|s| - Min(|s|, n)..]
  }

  predicate IsSuffix<T(==)>(part: seq<T>, whole: seq<T>) {
    |part| <= |whole| && part == whole[|whole| - |part|..]
  }

  lemma LastOfAppend<T>(s: seq<T>, t: seq<T>, n: nat)
    ensures Last(Last(s, n) + t, n) == Last(s + t, n)
  {
  }

  lemma SuffixOfAppend<T>(part: seq<T>, whole: seq<T>, more: seq<T>)
    requires IsSuffix(part, whole)
    ensures IsSuffix(part + more, whole + more)
  {
  }

  lemma LastIsSuffix<T>(part: seq<T>, whole: seq<T>, n: nat)
    requires IsSuffix(part, whole)
    ensures IsSuffix(Last(part, n), whole)
  {
  }

  /** Pieces put back together. */
  function Concat<T>(pieces: seq<seq<T>>): seq<T> {
    if pieces == [] then [] else Concat(pieces[..|pieces| - 1]) + pieces[|pieces| - 1]
  }

  lemma {:induction false} ConcatFirst<T>(pieces: seq<seq<T>>)
    requires pieces != []
    ensures Concat(pieces) == pieces[0] + Concat(pieces[1..])
  {
    if |pieces| > 1 {
      var before := pieces[..|pieces| - 1];
      ConcatFirst(before);
      assert before[1..] == pieces[1..][..|pieces| - 2];
    } else {
      assert pieces[..0] == [] && pieces[1..] == [];
      assert [] + pieces[0] == pieces[0] + [];
    }
  }

  lemma ConcatLast<T>(pieces: seq<seq<T>>, piece: seq<T>)
    ensures Concat(pieces + [piece]) == Concat(pieces) + piece
  {
    assert (pieces + [piece])[..|pieces|] == pieces;
  }

  function Silence(n: nat): seq<real> {
    seq(n, _ => 0.0)
  }
}
