/** The greedy transducer loop of the recognizer, the two networks arbitrary. */
module Tdt {
  import opened Arithmetic

  /** What one joint evaluation gives: a token, and an index of a duration. */
  datatype Joint = Joint(token: int, durationId: nat)

  /** The decoder: its tables, its networks, and the caller's callback, which
      sees the tokens emitted so far. */
  datatype Decoder<!S(!new)> = Decoder(
    blank: int,
    maxSymbols: int,
    durations: seq<nat>,
    start: S,
    predict: (S, int) -> S,
    joint: (nat, S) -> Joint,
    takes: seq<int> -> bool)
  {
    ghost predicate Valid() {
      forall frame: nat, state: S :: joint(frame, state).durationId < |durations|
    }

    function Most(): nat {
      if maxSymbols > 1 then maxSymbols else 1
    }
  }

  datatype Status = Done | Cancelled

  /** How a run ends, the tokens it emitted, the joint evaluations it made. */
  datatype Decoded = Decoded(status: Status, tokens: seq<int>, steps: nat)

  /** Where a run stands. */
  datatype At<!S(!new)> = At(frame: nat, symbols: nat, state: S, tokens: seq<int>, steps: nat)

  /** One joint evaluation and what follows from it. A token that moves on to
      another frame leaves the symbols counted as they are. */
  function Step<S(!new)>(d: Decoder<S>, at: At<S>): At<S>
    requires d.Valid()
  {
    var j := d.joint(at.frame, at.state);
    var duration := d.durations[j.durationId];
    if j.token == d.blank then
      at.(frame := at.frame + (if duration > 0 then duration else 1), symbols := 0, steps := at.steps + 1)
    else
      var said := at.(state := d.predict(at.state, j.token), tokens := at.tokens + [j.token], steps := at.steps + 1);
      if duration == 0 && at.symbols + 1 >= d.maxSymbols then said.(frame := at.frame + 1, symbols := 0)
      else said.(frame := at.frame + duration, symbols := at.symbols + 1)
  }

  predicate Stops<S(!new)>(d: Decoder<S>, at: At<S>)
    requires d.Valid()
  {
    var j := d.joint(at.frame, at.state);
    j.token != d.blank && !d.takes(at.tokens + [j.token])
  }

  function Max0(n: int): nat {
    if n < 0 then 0 else n
  }

  function DecodeFrom<S(!new)>(d: Decoder<S>, nFrames: nat, at: At<S>): Decoded
    requires d.Valid()
    decreases Max0(nFrames - at.frame), Max0(d.Most() - at.symbols)
  {
    if at.frame >= nFrames then Decoded(Done, at.tokens, at.steps)
    else if Stops(d, at) then Decoded(Cancelled, Step(d, at).tokens, at.steps + 1)
    else DecodeFrom(d, nFrames, Step(d, at))
  }

  function Begin<S(!new)>(d: Decoder<S>): At<S> {
    At(0, 0, d.predict(d.start, d.blank), [], 0)
  }

  /** The loop; every evaluation reads a frame of the utterance. */
  method Decode<S(!new)>(d: Decoder<S>, nFrames: nat) returns (status: Status, tokens: seq<int>, steps: nat)
    requires d.Valid()
    ensures Decoded(status, tokens, steps) == DecodeFrom(d, nFrames, Begin(d))
    ensures steps <= nFrames * d.Most()
  {
    var state := d.predict(d.start, d.blank);
    var frame: nat, symbols: nat := 0, 0;
    tokens, steps := [], 0;
    MulBelow(d.Most(), 0, nFrames);
    assert WithinBudget(nFrames, d.Most(), 0, 0, 0);
    hide DecodeFrom, WithinBudget;
    while frame < nFrames
      invariant DecodeFrom(d, nFrames, Begin(d)) == DecodeFrom(d, nFrames, At(frame, symbols, state, tokens, steps))
      invariant WithinBudget(nFrames, d.Most(), frame, symbols, steps)
      decreases Max0(nFrames - frame), Max0(d.Most() - symbols)
    {
      ghost var at := At(frame, symbols, state, tokens, steps);
      StepKeepsBudget(d, nFrames, at);
      OneStep(d, nFrames, at);
      steps := steps + 1;
      var j := d.joint(frame, state);
      var duration := d.durations[j.durationId];
      if j.token == d.blank {
        frame := frame + (if duration > 0 then duration else 1);
        symbols := 0;
        continue;
      }
      tokens := tokens + [j.token];
      if !d.takes(tokens) {
        BudgetMeans(nFrames, d.Most(), Step(d, at).frame, Step(d, at).symbols, steps);
        return Cancelled, tokens, steps;
      }
      state := d.predict(state, j.token);
      symbols := symbols + 1;
      frame := frame + duration;
      if duration == 0 && symbols >= d.maxSymbols {
        frame := frame + 1;
        symbols := 0;
      }
    }
    status := Done;
    Finished(d, nFrames, At(frame, symbols, state, tokens, steps));
    BudgetMeans(nFrames, d.Most(), frame, symbols, steps);
  }

  lemma BudgetMeans(nFrames: nat, most: nat, frame: nat, symbols: nat, steps: nat)
    requires WithinBudget(nFrames, most, frame, symbols, steps)
    ensures steps <= nFrames * most
  {
  }

  lemma OneStep<S(!new)>(d: Decoder<S>, nFrames: nat, at: At<S>)
    requires d.Valid() && at.frame < nFrames
    ensures DecodeFrom(d, nFrames, at)
         == if Stops(d, at) then Decoded(Cancelled, Step(d, at).tokens, at.steps + 1)
            else DecodeFrom(d, nFrames, Step(d, at))
  {
  }

  lemma Finished<S(!new)>(d: Decoder<S>, nFrames: nat, at: At<S>)
    requires d.Valid() && at.frame >= nFrames
    ensures DecodeFrom(d, nFrames, at) == Decoded(Done, at.tokens, at.steps)
  {
  }

  // ------------------------------------------------------------ the bound

  /** The evaluations made so far: all that earlier frames may take, and no more
      on this one than the symbols counted. */
  predicate WithinBudget(nFrames: nat, most: nat, frame: nat, symbols: nat, steps: nat) {
    && (frame < nFrames ==> steps <= frame * most + (if symbols < most then symbols else most - 1))
    && steps <= nFrames * most
  }

  lemma StepKeepsBudget<S(!new)>(d: Decoder<S>, nFrames: nat, at: At<S>)
    requires d.Valid() && at.frame < nFrames && WithinBudget(nFrames, d.Most(), at.frame, at.symbols, at.steps)
    ensures var next := Step(d, at); WithinBudget(nFrames, d.Most(), next.frame, next.symbols, next.steps)
  {
    var most, next := d.Most(), Step(d, at);
    assert (at.frame + 1) * most == at.frame * most + most;
    MulBelow(most, at.frame + 1, nFrames);
    assert at.steps + 1 <= (at.frame + 1) * most;
    if next.frame > at.frame {
      MulBelow(most, at.frame + 1, next.frame);
      assert at.steps + 1 <= next.frame * most;
    }
  }

  lemma {:induction false} DecodeStaysWithin<S(!new)>(d: Decoder<S>, nFrames: nat, at: At<S>)
    requires d.Valid() && WithinBudget(nFrames, d.Most(), at.frame, at.symbols, at.steps)
    ensures DecodeFrom(d, nFrames, at).steps <= nFrames * d.Most()
    ensures |DecodeFrom(d, nFrames, at).tokens| - |at.tokens| <= DecodeFrom(d, nFrames, at).steps - at.steps
    decreases Max0(nFrames - at.frame), Max0(d.Most() - at.symbols)
  {
    if at.frame < nFrames {
      StepKeepsBudget(d, nFrames, at);
      BudgetMeans(nFrames, d.Most(), Step(d, at).frame, Step(d, at).symbols, at.steps + 1);
      hide WithinBudget;
      if !Stops(d, at) {
        DecodeStaysWithin(d, nFrames, Step(d, at));
      }
    }
  }

  /** For every network: at most maxSymbols evaluations a frame, one at least,
      and never more tokens than evaluations. */
  lemma StepsAreBounded<S(!new)>(d: Decoder<S>, nFrames: nat)
    requires d.Valid()
    ensures var run := DecodeFrom(d, nFrames, Begin(d)); |run.tokens| <= run.steps <= nFrames * d.Most()
  {
    assert 0 * d.Most() == 0;
    MulBelow(d.Most(), 0, nFrames);
    DecodeStaysWithin(d, nFrames, Begin(d));
    hide DecodeFrom;
  }

  // ------------------------------------------------------------ tight

  /** Networks that say the same token for ever and never move on. */
  function Babbler(maxSymbols: int): Decoder<int> {
    Decoder(0, maxSymbols, [0], 0, (state, token) => state, (frame, state) => Joint(1, 0), tokens => true)
  }

  lemma {:induction false} BabblerRuns(maxSymbols: int, nFrames: nat, at: At<int>)
    requires at.frame <= nFrames && at.symbols < Babbler(maxSymbols).Most() && (at.frame == nFrames ==> at.symbols == 0)
    ensures var d := Babbler(maxSymbols);
            DecodeFrom(d, nFrames, at).steps == at.steps + (nFrames - at.frame) * d.Most() - at.symbols
    decreases nFrames - at.frame, Babbler(maxSymbols).Most() - at.symbols
  {
    var d := Babbler(maxSymbols);
    if at.frame < nFrames {
      var next := Step(d, at);
      assert !Stops(d, at);
      assert (nFrames - at.frame) * d.Most() == (nFrames - at.frame - 1) * d.Most() + d.Most();
      BabblerRuns(maxSymbols, nFrames, next);
    }
  }

  /** The bound is reached. */
  lemma BoundIsTight(maxSymbols: int, nFrames: nat)
    ensures var d := Babbler(maxSymbols);
            d.Valid() && DecodeFrom(d, nFrames, Begin(d)).steps == nFrames * d.Most()
  {
    BabblerRuns(maxSymbols, nFrames, Begin(Babbler(maxSymbols)));
    hide DecodeFrom;
  }

  // ------------------------------------------------------------ leaving a frame

  /** The answer is a token that stays on its frame, or one that moves on. */
  predicate Stays<S(!new)>(d: Decoder<S>, at: At<S>)
    requires d.Valid()
  {
    var j := d.joint(at.frame, at.state);
    j.token != d.blank && d.durations[j.durationId] == 0
  }

  predicate Moves<S(!new)>(d: Decoder<S>, at: At<S>)
    requires d.Valid()
  {
    var j := d.joint(at.frame, at.state);
    j.token != d.blank && d.durations[j.durationId] > 0
  }

  /** Where a run stands n evaluations later. */
  function After<S(!new)>(d: Decoder<S>, at: At<S>, n: nat): At<S>
    requires d.Valid()
  {
    if n == 0 then at else Step(d, After(d, at, n - 1))
  }

  /** Symbols a frame still takes, of those the count allows it. */
  function Room<S(!new)>(d: Decoder<S>, symbols: nat): nat {
    if d.maxSymbols > symbols + 1 then d.maxSymbols - symbols else 1
  }

  /** While the frame answers with tokens that stay it is the same frame, and
      the count grows, until its room is taken. */
  lemma {:induction false} RoomIsTaken<S(!new)>(d: Decoder<S>, at: At<S>, n: nat)
    requires d.Valid() && n <= Room(d, at.symbols) && forall i :: 0 <= i < n ==> Stays(d, After(d, at, i))
    ensures var end := After(d, at, n);
            && end.steps == at.steps + n && |end.tokens| == |at.tokens| + n
            && if n < Room(d, at.symbols) then end.frame == at.frame && end.symbols == at.symbols + n
               else end.frame == at.frame + 1 && end.symbols == 0
  {
    if n > 0 {
      RoomIsTaken(d, at, n - 1);
      assert Stays(d, After(d, at, n - 1));
    }
  }

  /** Unless the caller stops it, the loop comes to where that says. */
  lemma {:induction false} DecodeComesTo<S(!new)>(d: Decoder<S>, nFrames: nat, at: At<S>, n: nat)
    requires d.Valid()
    requires forall i :: 0 <= i < n ==> After(d, at, i).frame < nFrames && !Stops(d, After(d, at, i))
    ensures DecodeFrom(d, nFrames, at) == DecodeFrom(d, nFrames, After(d, at, n))
  {
    if n > 0 {
      DecodeComesTo(d, nFrames, at, n - 1);
      assert !Stops(d, After(d, at, n - 1));
      OneStep(d, nFrames, After(d, at, n - 1));
      hide DecodeFrom;
    }
  }

  /** A frame whose answers stay is left by the cap after exactly the symbols
      that were left to it when it was entered, and the loop goes on at the
      next. */
  lemma FrameIsLeft<S(!new)>(d: Decoder<S>, nFrames: nat, at: At<S>)
    requires d.Valid() && at.frame < nFrames
    requires forall i :: 0 <= i < Room(d, at.symbols) ==>
                           Stays(d, After(d, at, i)) && !Stops(d, After(d, at, i))
    ensures forall i :: 0 <= i < Room(d, at.symbols) ==> After(d, at, i).frame == at.frame
    ensures var end := After(d, at, Room(d, at.symbols));
            && end.frame == at.frame + 1 && end.symbols == 0
            && |end.tokens| == |at.tokens| + Room(d, at.symbols)
            && DecodeFrom(d, nFrames, at) == DecodeFrom(d, nFrames, end)
  {
    hide DecodeFrom, After, Stays, Stops;
    var n := Room(d, at.symbols);
    forall i | 0 <= i < n
      ensures After(d, at, i).frame == at.frame
    {
      RoomIsTaken(d, at, i);
    }
    RoomIsTaken(d, at, n);
    DecodeComesTo(d, nFrames, at, n);
  }

  /** A frame entered from another one, whose answers stay, is left by the cap;
      sooner than the count allows exactly when a token moved on to it, not a
      blank or the cap, and the count allows more than one symbol. */
  lemma LeftSoonerIfMovedTo<S(!new)>(d: Decoder<S>, nFrames: nat, before: At<S>)
    requires d.Valid() && before.frame != Step(d, before).frame < nFrames
    requires var at := Step(d, before);
             forall i :: 0 <= i < Room(d, at.symbols) ==> Stays(d, After(d, at, i)) && !Stops(d, After(d, at, i))
    ensures var at := Step(d, before);
            var end := After(d, at, Room(d, at.symbols));
            && end.frame == at.frame + 1 && DecodeFrom(d, nFrames, at) == DecodeFrom(d, nFrames, end)
            && (|end.tokens| - |at.tokens| < d.Most() <==> Moves(d, before) && d.maxSymbols > 1)
  {
    hide DecodeFrom, After, Stays, Stops;
    FrameIsLeft(d, nFrames, Step(d, before));
  }

  /** Networks that leave the first frame with a token and stay on the next. */
  function Carrier(): Decoder<int> {
    Decoder(0, 2, [0, 1], 0, (state, token) => state, (frame, state) => Joint(1, if frame == 0 then 1 else 0),
            tokens => true)
  }

  /** The count carries over to the next frame: two symbols a frame are allowed,
      and the second frame is left after one. */
  lemma CountCarriesOver()
    ensures var d := Carrier();
            d.Valid() && DecodeFrom(d, 2, Begin(d)) == Decoded(Done, [1, 1], 2)
  {
    var d := Carrier();
    var first := Step(d, Begin(d));
    var second := Step(d, first);
    assert !Stops(d, Begin(d)) && first == At(1, 1, 0, [1], 1);
    assert !Stops(d, first) && second == At(2, 0, 0, [1, 1], 2);
    assert DecodeFrom(d, 2, second) == Decoded(Done, [1, 1], 2);
  }
}
