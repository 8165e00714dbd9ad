/** On well-formed text the cleaning of bytes is the tidying of code points. */
module CleaningProof {
  import opened Utf8
  import opened Cleaning

  // ------------------------------------------------------------ encoded lines

  lemma {:induction false} EncodeSnoc(cps: seq<nat>, cp: nat)
    requires Scalars(cps) && IsScalar(cp)
    ensures Scalars(cps + [cp]) && EncodeAll(cps + [cp]) == EncodeAll(cps) + Encode(cp)
  {
    hide Encode;
    if cps == [] {
      assert cps + [cp] == [cp] && [cp][1..] == [];
      assert Encode(cp) + [] == Encode(cp) == [] + Encode(cp);
    } else {
      EncodeSnoc(cps[1..], cp);
      assert (cps + [cp])[1..] == cps[1..] + [cp];
      assert Encode(cps[0]) + (EncodeAll(cps[1..]) + Encode(cp)) == Encode(cps[0]) + EncodeAll(cps[1..]) + Encode(cp);
    }
  }

  lemma EncodeSpace(cp: nat)
    requires IsScalar(cp)
    ensures var t := Encode(cp); (t[0] == SPACE <==> cp == SPACE) && (t[|t| - 1] == SPACE <==> cp == SPACE)
    ensures Encode(SPACE) == [SPACE]
  {
  }

  lemma StartsAsWritten(cps: seq<nat>)
    requires Scalars(cps) && cps != []
    ensures EncodeAll(cps) != [] && (EncodeAll(cps)[0] == SPACE <==> cps[0] == SPACE)
  {
  }

  lemma EndsAsWritten(cps: seq<nat>)
    requires Scalars(cps)
    ensures EncodeAll(cps) == [] <==> cps == []
    ensures EndsInSpace(EncodeAll(cps)) <==> cps != [] && cps[|cps| - 1] == SPACE
  {
    hide Encode;
    if cps != [] {
      var before, last := cps[..|cps| - 1], cps[|cps| - 1];
      assert before + [last] == cps;
      EncodeSnoc(before, last);
      EncodeSpace(last);
      hide EncodeAll;
      LastOfBoth(EncodeAll(before), Encode(last));
    }
  }

  lemma LastOfBoth(a: Text, b: Text)
    requires b != []
    ensures (a + b)[|a + b| - 1] == b[|b| - 1]
  {
  }

  lemma LineSnoc(words: seq<Word>, word: Word, cp: nat)
    ensures Line(words, word + [cp]) == Line(words, word) + [cp]
  {
  }

  lemma LineSpace(words: seq<Word>, word: Word)
    ensures Line(words + [word], []) == Line(words, word) + [SPACE]
  {
  }

  lemma LineEnd(words: seq<Word>, word: Word)
    requires AllStay(word)
    ensures Line(words, word) == [] <==> words == [] && word == []
    ensures Line(words, word) != [] ==> (Line(words, word)[|Line(words, word)| - 1] == SPACE <==> word == [])
  {
  }

  predicate IsLead(lead: Text) {
    lead == [] || lead == [SPACE]
  }

  /** The bytes kept so far: the words and the one being spelled, after at most
      one outer space. */
  predicate OnLine(out: Text, lead: Text, s: Spelled) {
    IsLead(lead) && IsSpelled(s) && Scalars(Line(s.words, s.word)) && out == lead + EncodeAll(Line(s.words, s.word))
  }

  lemma OutEnds(out: Text, lead: Text, s: Spelled)
    requires OnLine(out, lead, s)
    ensures EndsInSpace(out) <==> (s.word == [] && (s.words != [] || lead == [SPACE]))
    ensures out == [] <==> s.word == [] && s.words == [] && lead == []
    ensures out == [] || EndsInSpace(out) || s.word != []
  {
    var line := Line(s.words, s.word);
    EndsAsWritten(line);
    LineEnd(s.words, s.word);
    hide Stays, Line, EncodeAll, AreWords;
    assert EncodeAll(line) != [] ==> out[|out| - 1] == EncodeAll(line)[|EncodeAll(line)| - 1];
  }

  lemma StaysIsKept(k: Kept, cp: nat, bytes: Text)
    requires Stays(cp)
    ensures Keep(k, cp, bytes) == Kept(k.out + bytes, k.spoken || IsSpoken(cp))
  {
  }

  lemma StaysOnLine(out: Text, lead: Text, s: Spelled, cp: nat)
    requires OnLine(out, lead, s) && IsScalar(cp) && Stays(cp)
    ensures OnLine(out + Encode(cp), lead, Spell(s, cp))
  {
    hide Stays, EncodeAll, Encode, Line, IsSpelled;
    var line := Line(s.words, s.word);
    SpellKeepsSpelled(s, cp);
    LineSnoc(s.words, s.word, cp);
    EncodeSnoc(line, cp);
    assert lead + EncodeAll(line) + Encode(cp) == lead + (EncodeAll(line) + Encode(cp));
  }

  /** A space added after a word. */
  lemma SpaceAdded(out: Text, lead: Text, s: Spelled)
    requires OnLine(out, lead, s) && s.word != []
    ensures OnLine(out + [SPACE], lead, Spelled(s.words + [s.word], []))
  {
    var line := Line(s.words, s.word);
    LineSpace(s.words, s.word);
    EncodeSnoc(line, SPACE);
    EncodeSpace(SPACE);
    hide Stays, Line, EncodeAll, Encode;
    assert lead + EncodeAll(line) + [SPACE] == lead + (EncodeAll(line) + [SPACE]);
  }

  /** A marker, or what parts words where they are parted already. */
  lemma DropsOnLine(k: Kept, lead: Text, s: Spelled, cp: nat)
    requires OnLine(k.out, lead, s) && !Stays(cp)
    requires IsMarker(cp) || (s.word == [] && (EndsInSpace(k.out) || (Parts(cp) && k.out == [])))
    ensures Keep(k, cp, Encode(cp)) == k && Spell(s, cp) == s
    requires IsScalar(cp)
  {
  }

  /** What parts words, after a word. */
  lemma PartsOnLine(k: Kept, lead: Text, s: Spelled, cp: nat)
    requires OnLine(k.out, lead, s) && IsScalar(cp) && !Stays(cp) && !IsMarker(cp) && s.word != []
    ensures Keep(k, cp, Encode(cp)) == k.(out := k.out + [SPACE])
    ensures Spell(s, cp) == Spelled(s.words + [s.word], [])
  {
    assert cp == SPACE || Parts(cp) by {
      hide Parts, IsMarker;
    }
    hide Parts, IsMarker, OnLine, Encode;
    OutEnds(k.out, lead, s);
    EncodeSpace(cp);
    assert !IsSpoken(SPACE);
    hide IsSpoken, Stays;
  }

  lemma LeadOnLine(lead: Text, s: Spelled)
    requires OnLine([], lead, s)
    ensures OnLine([SPACE], [SPACE], s) && s == Spelled([], [])
  {
  }

  lemma SpaceOpens(k: Kept, cp: nat)
    requires k.out == [] && cp == SPACE
    ensures Keep(k, cp, Encode(cp)) == if Parts(cp) then k else k.(out := [SPACE])
  {
  }

  lemma PartKept(k: Kept, lead: Text, s: Spelled, cp: nat) returns (lead': Text)
    requires OnLine(k.out, lead, s) && IsScalar(cp) && !Stays(cp)
    ensures Keep(k, cp, Encode(cp)).spoken == k.spoken
    ensures OnLine(Keep(k, cp, Encode(cp)).out, lead', Spell(s, cp))
  {
    hide Parts, IsMarker, IsSpoken, OnLine, Encode, Keep, Spell;
    OutEnds(k.out, lead, s);
    assert IsMarker(cp) || cp == SPACE || Parts(cp);
    hide Stays;
    lead' := lead;
    if s.word != [] && !IsMarker(cp) {
      PartsOnLine(k, lead, s, cp);
      SpaceAdded(k.out, lead, s);
    } else if cp == SPACE && k.out == [] {
      LeadOnLine(lead, s);
      SpaceOpens(k, cp);
      SpellSpace(s);
      lead' := if Parts(cp) then lead else [SPACE];
    } else {
      DropsOnLine(k, lead, s, cp);
    }
  }

  lemma {:induction false} KeptOnLine(k: Kept, lead: Text, s: Spelled, cps: seq<nat>) returns (lead': Text)
    requires OnLine(k.out, lead, s) && Scalars(cps)
    ensures OnLine(KeepAll(k, EncodeAll(cps)).out, lead', SpellAll(s, cps))
    ensures KeepAll(k, EncodeAll(cps)).spoken <==> k.spoken || Says(cps)
    decreases |cps|
  {
    hide OnLine, Stays, IsSpoken, Encode, Decode, Keep, Spell, Says;
    if cps == [] {
      lead' := lead;
      SaysNothing();
    } else {
      var cp := cps[0];
      FirstOfAll(cps);
      SaysOne(cps);
      var lead1;
      if Stays(cp) {
        StaysIsKept(k, cp, Encode(cp));
        StaysOnLine(k.out, lead, s, cp);
        lead1 := lead;
      } else {
        lead1 := PartKept(k, lead, s, cp);
      }
      lead' := KeptOnLine(Keep(k, cp, Encode(cp)), lead1, Spell(s, cp), cps[1..]);
    }
  }

  // ------------------------------------------------------------ trimming

  lemma TrimsLine(lead: Text, body: Text, tail: Text)
    requires IsLead(lead) && IsLead(tail) && body != [] && body[0] != SPACE && !EndsInSpace(body)
    ensures TrimBack(TrimFront(lead + body + tail)) == body
  {
  }

  lemma SaysHasWords(cps: seq<nat>)
    requires Says(cps)
    ensures Words(cps) != []
  {
    hide Words, Says, SaysIn;
    SaysByWords(cps);
    SaysNothing();
  }

  /** The line is the joined words, and a space when the last is closed. */
  lemma LineIsJoin(s: Spelled)
    requires Close(s) != []
    ensures Line(s.words, s.word) == Join(Close(s)) + (if s.word == [] then [SPACE] else [])
  {
  }

  lemma ScalarsOfHead(a: seq<nat>, b: seq<nat>)
    requires Scalars(a + b)
    ensures Scalars(a)
  {
    assert forall i :: 0 <= i < |a| ==> (a + b)[i] == a[i];
  }

  /** The joined words, encoded, begin and end with no space. */
  lemma JoinEncoded(words: seq<Word>)
    requires AreWords(words) && words != [] && Scalars(Join(words))
    ensures var t := EncodeAll(Join(words)); t != [] && t[0] != SPACE && !EndsInSpace(t)
  {
    JoinIsTidy(words);
    hide Join, Stays, EncodeAll, AreWords;
    StartsAsWritten(Join(words));
    EndsAsWritten(Join(words));
  }

  /** The joined words of a line that says something: no space at either end. */
  lemma TrimmedParts(s: Spelled)
    requires IsSpelled(s) && Scalars(Line(s.words, s.word)) && Close(s) != []
    ensures Scalars(Join(Close(s)))
    ensures var line := Join(Close(s));
            var body := EncodeAll(line);
            && Line(s.words, s.word) == line + (if s.word == [] then [SPACE] else [])
            && body != [] && body[0] != SPACE && !EndsInSpace(body)
  {
    var words := Close(s);
    assert AreWords(words);
    var line := Join(words);
    hide AreWords, Line, Join, Encode, EncodeAll, Stays;
    LineIsJoin(s);
    ScalarsOfHead(line, if s.word == [] then [SPACE] else []);
    JoinEncoded(words);
  }

  lemma TrimmedLine(out: Text, lead: Text, s: Spelled)
    requires OnLine(out, lead, s) && Close(s) != []
    ensures Scalars(Join(Close(s))) && TrimBack(TrimFront(out)) == EncodeAll(Join(Close(s)))
  {
    hide AreWords, Line, Join, Encode, EncodeAll, Stays, TrimFront, TrimBack, Scalars, EndsInSpace;
    var line := Join(Close(s));
    TrimmedParts(s);
    var body := EncodeAll(line);
    if s.word == [] {
      EncodeSnoc(line, SPACE);
      EncodeSpace(SPACE);
      assert lead + (body + [SPACE]) == lead + body + [SPACE];
      TrimsLine(lead, body, [SPACE]);
    } else {
      assert line + [] == line && lead + body + [] == lead + body;
      TrimsLine(lead, body, []);
    }
  }

  lemma NothingOnLine()
    ensures OnLine([], [], Spelled([], []))
  {
  }

  /** Bytes in, bytes out: on every well-formed text the cleaning is the words,
      joined by single spaces. */
  lemma CleanIsTidy(cps: seq<nat>)
    requires Scalars(cps)
    ensures Scalars(Tidy(cps)) && Clean(EncodeAll(cps)) == EncodeAll(Tidy(cps))
  {
    hide OnLine, Says, KeepAll, Join, SpellAll, TrimFront, TrimBack, Encode;
    var s := SpellAll(Spelled([], []), cps);
    NothingOnLine();
    var lead := KeptOnLine(Kept([], false), [], Spelled([], []), cps);
    if Says(cps) {
      SaysHasWords(cps);
      TrimmedLine(KeepAll(Kept([], false), EncodeAll(cps)).out, lead, s);
    }
  }

  /** Cleaning twice is cleaning once. */
  lemma CleanTwice(cps: seq<nat>)
    requires Scalars(cps)
    ensures Clean(Clean(EncodeAll(cps))) == Clean(EncodeAll(cps))
  {
    hide Clean, Tidy, EncodeAll;
    CleanIsTidy(cps);
    CleanIsTidy(Tidy(cps));
    TidyIsTidy(cps);
  }
}
