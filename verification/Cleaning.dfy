/** What a voice is given of a unit: the words, one space between them, without
    what is written for the eye. */
module Cleaning {
  import opened Utf8
  import Emoji

  const SPACE := 0x20

  predicate IsMarker(cp: nat) {
    cp == 0x2A || cp == 0x5F || cp == 0x60 || cp == 0x23
  }

  predicate IsBreak(cp: nat) {
    cp == 0x0A || cp == 0x0D || cp == 0x09
  }

  predicate IsSpoken(cp: nat) {
    if cp < 0x80 then 0x30 <= cp <= 0x39 || 0x61 <= cp <= 0x7A || 0x41 <= cp <= 0x5A
    else cp >= 0xC0 && !(0x2000 <= cp <= 0x2BFF) && !(0x3000 <= cp <= 0x303F)
  }

  /** The characters of these tables. */
  lemma Characters(cp: nat)
    ensures IsMarker(cp) <==> cp < 0x80 && cp as char in "*_`#"
    ensures IsBreak(cp) <==> cp < 0x80 && cp as char in "\n\r\t"
  {
  }

  /** What is spoken begins and ends at these code points: digits and letters,
      then everything from the Latin letters on but for the blocks of symbols
      and of punctuation. */
  lemma SpokenEdges(cp: nat)
    ensures !IsSpoken(0)
    ensures IsSpoken(cp + 1) != IsSpoken(cp) <==>
            cp + 1 in {'0' as nat, '9' as nat + 1, 'A' as nat, 'Z' as nat + 1, 'a' as nat, 'z' as nat + 1,
                       0xC0, 0x2000, 0x2C00, 0x3000, 0x3040}
  {
  }

  /** Line breaks, tabs and emoji part words like a space does. */
  predicate Parts(cp: nat) {
    IsBreak(cp) || Emoji.IsEmoji(cp)
  }

  // ------------------------------------------------------------ on bytes

  datatype Kept = Kept(out: Text, spoken: bool)

  predicate EndsInSpace(t: Text) {
    t != [] && t[|t| - 1] == SPACE
  }

  function Keep(k: Kept, cp: nat, bytes: Text): Kept {
    if IsMarker(cp) then k
    else if Parts(cp) then
      if k.out != [] && !EndsInSpace(k.out) then k.(out := k.out + [SPACE]) else k
    else if cp == SPACE && EndsInSpace(k.out) then k
    else Kept(k.out + bytes, k.spoken || IsSpoken(cp))
  }

  function KeepAll(k: Kept, t: Text): Kept
    decreases |t|
  {
    if t == [] then k
    else
      var p := Decode(t, 0);
      KeepAll(Keep(k, p.cp, t[..p.len]), t[p.len..])
  }

  function TrimFront(t: Text): Text {
    if t != [] && t[0] == SPACE then TrimFront(t[1..]) else t
  }

  function TrimBack(t: Text): Text {
    if EndsInSpace(t) then TrimBack(t[..|t| - 1]) else t
  }

  function Clean(t: Text): Text {
    var k := KeepAll(Kept([], false), t);
    if k.spoken then TrimBack(TrimFront(k.out)) else []
  }

  method Trim(all: Text) returns (out: Text)
    ensures out == TrimBack(TrimFront(all))
  {
    out := all;
    while out != [] && out[0] == SPACE
      invariant TrimFront(all) == TrimFront(out)
      decreases |out|
    {
      out := out[1..];
    }
    while EndsInSpace(out)
      invariant TrimBack(TrimFront(all)) == TrimBack(out)
      decreases |out|
    {
      out := out[..|out| - 1];
    }
  }

  lemma KeepOne(k: Kept, t: Text)
    requires t != []
    ensures var p := Decode(t, 0); KeepAll(k, t) == KeepAll(Keep(k, p.cp, t[..p.len]), t[p.len..])
  {
  }

  lemma KeepsOn(k: Kept, t: Text, i: nat)
    requires i < |t|
    ensures var p := Decode(t, i);
            KeepAll(k, t[i..]) == KeepAll(Keep(k, p.cp, t[i..i + p.len]), t[i + p.len..])
  {
    hide Decode, Keep, KeepAll;
    DecodeOfPart(t, i, 0);
    KeepOne(k, t[i..]);
    var p := Decode(t, i);
    assert t[i..][p.len..] == t[i + p.len..] && t[i..][..p.len] == t[i..i + p.len];
  }

  method CleanText(t: Text) returns (out: Text)
    ensures out == Clean(t)
  {
    hide Emoji.IsEmoji, KeepAll, Decode, TrimFront, TrimBack;
    out := [];
    var spoken := false;
    var i := 0;
    assert t[0..] == t;
    while i < |t|
      invariant 0 <= i <= |t|
      invariant KeepAll(Kept([], false), t) == KeepAll(Kept(out, spoken), t[i..])
      decreases |t| - i
    {
      KeepsOn(Kept(out, spoken), t, i);
      var p := DecodeAt(t, i);
      var emoji := Emoji.Search(p.cp);
      if IsMarker(p.cp) {
      } else if IsBreak(p.cp) || emoji {
        if out != [] && !EndsInSpace(out) {
          out := out + [SPACE];
        }
      } else if p.cp == SPACE && EndsInSpace(out) {
      } else {
        spoken := spoken || IsSpoken(p.cp);
        out := out + t[i..i + p.len];
      }
      i := i + p.len;
    }
    NothingLeft(Kept(out, spoken), t[i..]);
    if !spoken {
      return [];
    }
    out := Trim(out);
  }

  lemma NothingLeft(k: Kept, t: Text)
    requires t == []
    ensures KeepAll(k, t) == k
  {
  }

  // ------------------------------------------------------------ the words

  type Word = seq<nat>

  /** The words so far, and the one being spelled. */
  datatype Spelled = Spelled(words: seq<Word>, word: Word)

  /** A point that stays in a word. */
  predicate Stays(cp: nat) {
    cp != SPACE && !IsMarker(cp) && !Parts(cp)
  }

  function Spell(s: Spelled, cp: nat): Spelled {
    if Stays(cp) then s.(word := s.word + [cp])
    else if IsMarker(cp) || s.word == [] then s
    else Spelled(s.words + [s.word], [])
  }

  function SpellAll(s: Spelled, cps: seq<nat>): Spelled
    decreases |cps|
  {
    hide Spell;
    if cps == [] then s else SpellAll(Spell(s, cps[0]), cps[1..])
  }

  function Close(s: Spelled): seq<Word> {
    if s.word == [] then s.words else s.words + [s.word]
  }

  /** The maximal runs of points that stay, markers left out of them. */
  function Words(cps: seq<nat>): seq<Word> {
    Close(SpellAll(Spelled([], []), cps))
  }

  /** A word after the words, one space between. */
  function Line(words: seq<Word>, word: Word): seq<nat>
    decreases |words|
  {
    if words == [] then word else Line(words[..|words| - 1], words[|words| - 1]) + [SPACE] + word
  }

  function Join(words: seq<Word>): seq<nat> {
    if words == [] then [] else Line(words[..|words| - 1], words[|words| - 1])
  }

  predicate Says(cps: seq<nat>) {
    exists i :: 0 <= i < |cps| && Stays(cps[i]) && IsSpoken(cps[i])
  }

  /** What cleaning means: the words, joined, when there is anything to say. */
  function Tidy(cps: seq<nat>): seq<nat> {
    if Says(cps) then Join(Words(cps)) else []
  }

  // ------------------------------------------------------------ what parts words

  /** The words before are only carried along. */
  lemma {:induction false} SpellAllBehind(before: seq<Word>, s: Spelled, cps: seq<nat>)
    ensures var r := SpellAll(s, cps);
            SpellAll(Spelled(before + s.words, s.word), cps) == Spelled(before + r.words, r.word)
    decreases |cps|
  {
    hide Stays;
    if cps != [] {
      var next := Spell(s, cps[0]);
      assert before + (s.words + [s.word]) == before + s.words + [s.word];
      SpellAllBehind(before, next, cps[1..]);
    }
  }

  /** A space, a line break, a tab or an emoji parts the words, whatever is
      around it. */
  lemma BreaksPartWords(a: seq<nat>, cp: nat, b: seq<nat>)
    requires cp == SPACE || (cp < 0x80 && cp as char in "\n\r\t") || Emoji.IsEmoji(cp)
    requires !IsMarker(cp)
    ensures Words(a + [cp] + b) == Words(a) + Words(b)
  {
    hide SpellAll, Emoji.IsEmoji, IsMarker;
    var none := Spelled([], []);
    var before := SpellAll(none, a);
    SpellAppend(none, a + [cp], b);
    SpellAppend(none, a, [cp]);
    SpellOne(before, cp);
    assert Spell(before, cp) == Spelled(Close(before) + [], []);
    SpellAllBehind(Close(before), none, b);
  }

  /** A marker is as if it were not there. */
  lemma MarkersVanish(a: seq<nat>, cp: nat, b: seq<nat>)
    requires cp < 0x80 && cp as char in "*_`#"
    ensures Words(a + [cp] + b) == Words(a + b)
  {
    hide SpellAll;
    var none := Spelled([], []);
    SpellAppend(none, a + [cp], b);
    SpellAppend(none, a, [cp]);
    SpellAppend(none, a, b);
    SpellOne(SpellAll(none, a), cp);
  }

  // ------------------------------------------------------------ joined words

  predicate AllStay(word: seq<nat>) {
    forall j :: 0 <= j < |word| ==> Stays(word[j])
  }

  /** Words as cleaning makes them: none empty, each of points that stay. */
  predicate AreWords(words: seq<Word>) {
    forall i :: 0 <= i < |words| ==> words[i] != [] && AllStay(words[i])
  }

  predicate IsSpelled(s: Spelled) {
    AreWords(s.words) && AllStay(s.word)
  }

  lemma SpellKeepsSpelled(s: Spelled, cp: nat)
    requires IsSpelled(s)
    ensures IsSpelled(Spell(s, cp))
  {
  }

  lemma {:induction false} SpellAllIsSpelled(s: Spelled, cps: seq<nat>)
    requires IsSpelled(s)
    ensures IsSpelled(SpellAll(s, cps))
    decreases |cps|
  {
    hide Spell, IsSpelled;
    if cps != [] {
      SpellKeepsSpelled(s, cps[0]);
      SpellAllIsSpelled(Spell(s, cps[0]), cps[1..]);
    }
  }

  lemma WordsAreWords(cps: seq<nat>)
    ensures AreWords(Words(cps))
  {
    hide Stays, SpellAll;
    SpellAllIsSpelled(Spelled([], []), cps);
  }

  /** No marker, break or emoji, no doubled and no outer space. */
  predicate IsTidy(out: seq<nat>) {
    && (forall i :: 0 <= i < |out| ==> Stays(out[i]) || out[i] == SPACE)
    && (forall i :: 0 <= i < |out| - 1 ==> out[i] != SPACE || out[i + 1] != SPACE)
    && (out != [] ==> out[0] != SPACE && out[|out| - 1] != SPACE)
  }

  lemma {:induction false} JoinIsTidy(words: seq<Word>)
    requires AreWords(words)
    ensures IsTidy(Join(words)) && (words == [] <==> Join(words) == [])
  {
    hide Stays;
    if words != [] {
      var before := words[..|words| - 1];
      var last := words[|words| - 1];
      assert AllStay(last);
      JoinIsTidy(before);
      StaysIsNoSpace();
      assert before != [] ==> Join(words) == Join(before) + [SPACE] + last;
    }
  }

  lemma StaysIsNoSpace()
    ensures !Stays(SPACE)
  {
  }

  // ------------------------------------------------------------ nothing said is lost

  function Filter(cps: seq<nat>): seq<nat> {
    if cps == [] then [] else (if Stays(cps[0]) then [cps[0]] else []) + Filter(cps[1..])
  }

  function Letters(words: seq<Word>): seq<nat> {
    if words == [] then [] else Letters(words[..|words| - 1]) + words[|words| - 1]
  }

  lemma LettersOfClosed(s: Spelled)
    ensures Letters(Close(s)) == Letters(s.words) + s.word
  {
  }

  /** A point that does not stay leaves the words as they are, closed or not. */
  lemma SpellCloses(s: Spelled, cp: nat)
    requires !Stays(cp)
    ensures Close(Spell(s, cp)) == Close(s)
  {
    hide Stays, IsMarker;
  }

  lemma SpellLetters(s: Spelled, cp: nat)
    ensures Letters(Close(Spell(s, cp))) == Letters(Close(s)) + (if Stays(cp) then [cp] else [])
  {
    if Stays(cp) {
      hide Letters, Close, Stays;
      LettersOfClosed(s);
      LettersOfClosed(Spell(s, cp));
      assert Letters(s.words) + (s.word + [cp]) == Letters(s.words) + s.word + [cp];
    } else {
      hide Letters, Close, Stays, Spell;
      SpellCloses(s, cp);
      assert Letters(Close(s)) + [] == Letters(Close(s));
    }
  }

  /** The words hold exactly the points that stay, in order. */
  lemma {:induction false} WordsKeepLetters(s: Spelled, cps: seq<nat>)
    ensures Letters(Close(SpellAll(s, cps))) == Letters(Close(s)) + Filter(cps)
    decreases |cps|
  {
    hide Spell, Stays, Letters, Close;
    if cps == [] {
      assert Letters(Close(s)) + [] == Letters(Close(s));
    } else {
      SpellLetters(s, cps[0]);
      WordsKeepLetters(Spell(s, cps[0]), cps[1..]);
      var one := if Stays(cps[0]) then [cps[0]] else [];
      assert Letters(Close(s)) + one + Filter(cps[1..]) == Letters(Close(s)) + (one + Filter(cps[1..]));
    }
  }

  predicate SaysIn(letters: seq<nat>) {
    exists i :: 0 <= i < |letters| && IsSpoken(letters[i])
  }

  lemma SaysInAppend(a: seq<nat>, b: seq<nat>)
    ensures SaysIn(a + b) <==> SaysIn(a) || SaysIn(b)
  {
    hide IsSpoken;
    if SaysIn(a) {
      var i :| 0 <= i < |a| && IsSpoken(a[i]);
      assert (a + b)[i] == a[i];
    }
    if SaysIn(b) {
      var i :| 0 <= i < |b| && IsSpoken(b[i]);
      assert (a + b)[|a| + i] == b[i];
    }
  }

  lemma SaysOne(cps: seq<nat>)
    requires cps != []
    ensures Says(cps) <==> (Stays(cps[0]) && IsSpoken(cps[0])) || Says(cps[1..])
  {
  }

  lemma SaysNothing()
    ensures !Says([]) && !SaysIn([])
  {
  }

  lemma SaysInOne(cp: nat)
    ensures SaysIn([cp]) <==> IsSpoken(cp)
  {
    hide IsSpoken;
    assert [cp][0] == cp;
  }

  lemma {:induction false} SaysIsSaysIn(cps: seq<nat>)
    ensures Says(cps) <==> SaysIn(Filter(cps))
  {
    hide Stays, IsSpoken, Says, SaysIn;
    SaysNothing();
    if cps != [] {
      SaysIsSaysIn(cps[1..]);
      SaysOne(cps);
      SaysInOne(cps[0]);
      SaysInAppend(if Stays(cps[0]) then [cps[0]] else [], Filter(cps[1..]));
    }
  }

  // ------------------------------------------------------------ words of joined words

  lemma {:induction false} SpellAppend(s: Spelled, a: seq<nat>, b: seq<nat>)
    ensures SpellAll(s, a + b) == SpellAll(SpellAll(s, a), b)
    decreases |a|
  {
    hide Spell;
    if a == [] {
      assert a + b == b;
    } else {
      assert (a + b)[1..] == a[1..] + b;
      SpellAppend(Spell(s, a[0]), a[1..], b);
    }
  }

  lemma {:induction false} SpellWord(s: Spelled, word: seq<nat>)
    requires AllStay(word)
    ensures SpellAll(s, word) == s.(word := s.word + word)
    decreases |word|
  {
    hide Stays;
    if word == [] {
      assert s.word + [] == s.word;
    } else {
      SpellWord(s.(word := s.word + [word[0]]), word[1..]);
      assert s.word + [word[0]] + word[1..] == s.word + word;
    }
  }

  lemma SpellSpace(s: Spelled)
    ensures Spell(s, SPACE) == if s.word == [] then s else Spelled(s.words + [s.word], [])
  {
  }

  lemma SpellOne(s: Spelled, cp: nat)
    ensures SpellAll(s, [cp]) == Spell(s, cp)
  {
  }

  lemma {:induction false} SpellLine(words: seq<Word>, word: Word)
    requires AreWords(words) && AllStay(word)
    ensures SpellAll(Spelled([], []), Line(words, word)) == Spelled(words, word)
    decreases |words|
  {
    hide Stays, SpellAll, Spell;
    var none := Spelled([], []);
    if words == [] {
      SpellWord(none, word);
    } else {
      var before, last := words[..|words| - 1], words[|words| - 1];
      SpellLine(before, last);
      SpellAppend(none, Line(before, last), [SPACE]);
      SpellAppend(none, Line(before, last) + [SPACE], word);
      SpellOne(Spelled(before, last), SPACE);
      SpellSpace(Spelled(before, last));
      assert before + [last] == words;
      SpellWord(Spelled(words, []), word);
    }
  }

  lemma WordsOfJoined(words: seq<Word>)
    requires AreWords(words)
    ensures Words(Join(words)) == words
  {
    hide Stays, SpellAll, Line;
    if words == [] {
      SpellNothing();
    } else {
      SpellLine(words[..|words| - 1], words[|words| - 1]);
    }
  }

  lemma SpellNothing()
    ensures SpellAll(Spelled([], []), []) == Spelled([], [])
  {
  }

  lemma SaysByWords(cps: seq<nat>)
    ensures Says(cps) <==> SaysIn(Letters(Words(cps)))
  {
    SaysIsSaysIn(cps);
    WordsKeepLetters(Spelled([], []), cps);
    assert Letters(Close(Spelled([], []))) + Filter(cps) == Filter(cps);
    hide Says, SaysIn, Filter, SpellAll;
  }

  /** Cleaning what is clean changes nothing, what it leaves is tidy, and it
      leaves nothing exactly when there is nothing to say. */
  lemma TidyIsTidy(cps: seq<nat>)
    ensures IsTidy(Tidy(cps)) && (Tidy(cps) == [] <==> !Says(cps)) && Tidy(Tidy(cps)) == Tidy(cps)
  {
    hide Words, Join, Stays, IsSpoken, AreWords, Says, SaysIn, Letters, IsTidy;
    WordsAreWords(cps);
    JoinIsTidy(Words(cps));
    WordsOfJoined(Words(cps));
    SaysByWords(cps);
    SaysByWords(Join(Words(cps)));
    SaysNothing();
    JoinOfNone();
  }

  lemma JoinOfNone()
    ensures Join([]) == [] && IsTidy([]) && Letters([]) == []
  {
  }
}
