/** The transducer loop from what its networks answered alone: which frame each
    evaluation reads, on which state, and what is said when. */
module TdtPath {
  import opened Tdt

  /** The tokens among the answers. */
  function Said<S(!new)>(d: Decoder<S>, js: seq<Joint>): seq<int> {
    if js == [] then []
    else
      var before, last := js[..|js| - 1], js[|js| - 1];
      Said(d, before) + (if last.token == d.blank then [] else [last.token])
  }

  /** The prediction network after these tokens: it starts on the blank. */
  function Predicted<S(!new)>(d: Decoder<S>, tokens: seq<int>): S {
    if tokens == [] then d.predict(d.start, d.blank)
    else d.predict(Predicted(d, tokens[..|tokens| - 1]), tokens[|tokens| - 1])
  }

  predicate Known<S(!new)>(d: Decoder<S>, js: seq<Joint>) {
    forall i :: 0 <= i < |js| ==> js[i].durationId < |d.durations|
  }

  function Duration<S(!new)>(d: Decoder<S>, j: Joint): nat
    requires j.durationId < |d.durations|
  {
    d.durations[j.durationId]
  }

  /** The answer that uses up the symbols of a frame: a token that stays, the
      last of as many tokens as allowed since a blank or since the last one. */
  predicate UsesUp<S(!new)>(d: Decoder<S>, before: seq<Joint>, j: Joint)
    requires Known(d, before) && j.durationId < |d.durations|
    decreases |before|, 1
  {
    j.token != d.blank && Duration(d, j) == 0 && Tokens(d, before) + 1 >= d.maxSymbols
  }

  /** Tokens in a row up to now, since a blank or since a frame was used up. */
  function Tokens<S(!new)>(d: Decoder<S>, js: seq<Joint>): nat
    requires Known(d, js)
    decreases |js|, 0
  {
    if js == [] || js[|js| - 1].token == d.blank || UsesUp(d, js[..|js| - 1], js[|js| - 1]) then 0
    else Tokens(d, js[..|js| - 1]) + 1
  }

  /** The frame these answers lead to: each moves by its duration, and by one
      where that is none and the answer is blank or uses the frame up. */
  function Reached<S(!new)>(d: Decoder<S>, js: seq<Joint>): nat
    requires Known(d, js)
  {
    if js == [] then 0
    else
      var before, last := js[..|js| - 1], js[|js| - 1];
      Reached(d, before) +
      if Duration(d, last) > 0 then Duration(d, last)
      else if last.token == d.blank || UsesUp(d, before, last) then 1 else 0
  }

  /** Every answer is the one of the joint network on the frame the answers
      before it lead to, inside the utterance, and on the tokens said so far. */
  ghost predicate Greedy<S(!new)>(d: Decoder<S>, nFrames: nat, js: seq<Joint>) {
    && Known(d, js)
    && (forall n {:trigger js[n]} :: 0 <= n < |js| ==> GreedyAt(d, nFrames, js[..n], js[n]))
  }

  predicate GreedyAt<S(!new)>(d: Decoder<S>, nFrames: nat, before: seq<Joint>, j: Joint) {
    && Known(d, before) && Reached(d, before) < nFrames
    && j == d.joint(Reached(d, before), Predicted(d, Said(d, before)))
  }

  /** The caller took what was said after each of these tokens. */
  predicate AllTaken<S(!new)>(d: Decoder<S>, tokens: seq<int>) {
    forall n :: 0 < n <= |tokens| ==> d.takes(tokens[..n])
  }

  /** The loop stands where these answers lead. */
  ghost predicate Stands<S(!new)>(d: Decoder<S>, nFrames: nat, at: At<S>, js: seq<Joint>) {
    && Greedy(d, nFrames, js) && at.steps == |js| && at.frame == Reached(d, js) && at.symbols == Tokens(d, js)
    && at.tokens == Said(d, js) && at.state == Predicted(d, Said(d, js)) && AllTaken(d, at.tokens)
  }

  lemma OneMore<S(!new)>(d: Decoder<S>, nFrames: nat, js: seq<Joint>, j: Joint)
    requires Greedy(d, nFrames, js) && GreedyAt(d, nFrames, js, j) && j.durationId < |d.durations|
    ensures Greedy(d, nFrames, js + [j])
  {
    hide GreedyAt;
    var all := js + [j];
    forall n | 0 <= n < |all|
      ensures GreedyAt(d, nFrames, all[..n], all[n])
    {
      assert n < |js| ==> all[..n] == js[..n];
      assert n == |js| ==> all[..n] == js;
    }
  }

  lemma LastOf<S(!new)>(d: Decoder<S>, js: seq<Joint>, j: Joint)
    requires Known(d, js) && j.durationId < |d.durations|
    ensures var all := js + [j];
            && Known(d, all)
            && Said(d, all) == Said(d, js) + (if j.token == d.blank then [] else [j.token])
            && Tokens(d, all) == (if j.token == d.blank || UsesUp(d, js, j) then 0 else Tokens(d, js) + 1)
            && Reached(d, all) == Reached(d, js) +
                 (if Duration(d, j) > 0 then Duration(d, j)
                  else if j.token == d.blank || UsesUp(d, js, j) then 1 else 0)
  {
    assert (js + [j])[..|js|] == js;
  }

  lemma PredictedOne<S(!new)>(d: Decoder<S>, tokens: seq<int>, token: int)
    ensures Predicted(d, tokens + [token]) == d.predict(Predicted(d, tokens), token)
  {
    assert (tokens + [token])[..|tokens|] == tokens;
  }

  lemma TakenOne<S(!new)>(d: Decoder<S>, tokens: seq<int>, token: int)
    requires AllTaken(d, tokens) && d.takes(tokens + [token])
    ensures AllTaken(d, tokens + [token])
  {
    var all := tokens + [token];
    forall n | 0 < n <= |all|
      ensures d.takes(all[..n])
    {
      assert n <= |tokens| ==> all[..n] == tokens[..n];
      assert n == |all| ==> all[..n] == all;
    }
  }

  lemma StepStands<S(!new)>(d: Decoder<S>, nFrames: nat, at: At<S>, js: seq<Joint>)
    requires d.Valid() && Stands(d, nFrames, at, js) && at.frame < nFrames && !Stops(d, at)
    ensures Stands(d, nFrames, Step(d, at), js + [d.joint(at.frame, at.state)])
  {
    hide Greedy, Said, Tokens, Reached, Predicted, AllTaken;
    var j := d.joint(at.frame, at.state);
    GreedyKnows(d, nFrames, js);
    OneMore(d, nFrames, js, j);
    LastOf(d, js, j);
    if j.token != d.blank {
      PredictedOne(d, at.tokens, j.token);
      TakenOne(d, at.tokens, j.token);
    } else {
      assert Said(d, js) + [] == Said(d, js);
    }
  }

  lemma GreedyKnows<S(!new)>(d: Decoder<S>, nFrames: nat, js: seq<Joint>)
    requires Greedy(d, nFrames, js)
    ensures Known(d, js)
  {
  }

  /** How a run of the loop ended, from the answers alone. */
  ghost predicate EndsAs<S(!new)>(d: Decoder<S>, nFrames: nat, run: Decoded, js: seq<Joint>) {
    && Greedy(d, nFrames, js) && run.steps == |js| && run.tokens == Said(d, js)
    && (if run.status == Done then Reached(d, js) >= nFrames && AllTaken(d, run.tokens)
        else
          && js != [] && js[|js| - 1].token != d.blank && !d.takes(run.tokens)
          && AllTaken(d, Said(d, js[..|js| - 1])))
  }

  lemma StopEnds<S(!new)>(d: Decoder<S>, nFrames: nat, at: At<S>, js: seq<Joint>)
    requires d.Valid() && Stands(d, nFrames, at, js) && at.frame < nFrames && Stops(d, at)
    ensures EndsAs(d, nFrames, DecodeFrom(d, nFrames, at), js + [d.joint(at.frame, at.state)])
  {
    hide Greedy, Said, Tokens, Reached, Predicted, AllTaken;
    var j := d.joint(at.frame, at.state);
    GreedyKnows(d, nFrames, js);
    OneMore(d, nFrames, js, j);
    LastOf(d, js, j);
    assert (js + [j])[..|js|] == js;
  }

  lemma {:induction false} PathFrom<S(!new)>(d: Decoder<S>, nFrames: nat, at: At<S>, js: seq<Joint>)
    returns (all: seq<Joint>)
    requires d.Valid() && Stands(d, nFrames, at, js)
    ensures EndsAs(d, nFrames, DecodeFrom(d, nFrames, at), all)
    decreases Max0(nFrames - at.frame), Max0(d.Most() - at.symbols)
  {
    all := js;
    if at.frame < nFrames {
      all := js + [d.joint(at.frame, at.state)];
      if Stops(d, at) {
        StopEnds(d, nFrames, at, js);
      } else {
        StepStands(d, nFrames, at, js);
        hide Stands, EndsAs;
        all := PathFrom(d, nFrames, Step(d, at), all);
      }
    }
  }

  /** The loop is greedy: each evaluation reads the frame to which the durations
      so far lead, on the state of the tokens said so far, as long as that frame
      lies in the utterance and the caller takes what is said; what it says are
      the tokens among the answers, in order. */
  lemma DecodeIsGreedy<S(!new)>(d: Decoder<S>, nFrames: nat) returns (js: seq<Joint>)
    requires d.Valid()
    ensures EndsAs(d, nFrames, DecodeFrom(d, nFrames, Begin(d)), js)
  {
    hide DecodeFrom, EndsAs;
    js := PathFrom(d, nFrames, Begin(d), []);
  }
}
