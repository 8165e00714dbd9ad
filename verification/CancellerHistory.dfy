/** The batched canceller from its steps alone: which streams there are, what
    each was brought, where its hop is, what may happen next, and that nothing
    is ever stuck. */
module CancellerHistory {
  import opened Overlap
  import opened Canceller
  import opened CancellerRefinement

  /** A stream as its own steps tell it: the hops it was brought since it was
      last cleared, the one on its way apart. */
  datatype View = View(live: bool, at: At, given: seq<Hop>, flying: seq<Hop>)

  function Created(steps: seq<Step>, n: nat): nat
    requires n <= |steps|
  {
    if n == 0 then 0 else Created(steps, n - 1) + (if steps[n - 1].Create? then 1 else 0)
  }

  /** Where the pass stands: its last step says. */
  function PassOf(steps: seq<Step>, n: nat): Pass
    requires n <= |steps|
  {
    if n == 0 then Waiting
    else match steps[n - 1]
      case TakeBatch => LaidOut
      case RunGraph => Computed
      case HandBack => Waiting
      case _ => PassOf(steps, n - 1)
  }

  function ViewOf(steps: seq<Step>, n: nat, id: nat): View
    requires n <= |steps|
  {
    if n == 0 then View(false, Resting, [], [])
    else
      var v := ViewOf(steps, n - 1, id);
      match steps[n - 1]
      case Create => if id == Created(steps, n - 1) then View(true, Resting, [], []) else v
      case Clear(i) => if i == id then v.(given := []) else v
      case Free(i) => if i == id then v.(live := false) else v
      case Bring(i, hop) => if i == id then v.(at := Prepared, flying := [hop]) else v
      case Queue(i) => if i == id then v.(at := InQueue) else v
      case Gather(i) => if i == id then v.(at := Resting, given := v.given + v.flying, flying := []) else v
      case TakeBatch => if v.at == InQueue then v.(at := InBatch) else v
      case HandBack => if v.at == InBatch then v.(at := Ready) else v
      case RunGraph => v
  }

  predicate Matches(s: Stream, v: View) {
    && s.live == v.live && s.at == v.at && s.hops == v.given
    && v.flying == (if s.at == Resting then [] else [s.inFlight]) && (!s.live ==> s.at == Resting)
  }

  /** The machine after n steps, against the views. */
  ghost predicate Told(c: Context, steps: seq<Step>, n: nat)
    requires n <= |steps|
  {
    && |c.streams| == Created(steps, n) && c.pass == PassOf(steps, n)
    && (forall id :: 0 <= id < |c.streams| ==> Matches(c.streams[id], ViewOf(steps, n, id)))
    && (forall id: nat :: id >= |c.streams| ==> ViewOf(steps, n, id) == View(false, Resting, [], []))
  }

  lemma StreamsStay(net: Net, c: Context, step: Step)
    requires Formed(net, c) && Enabled(net, c, step)
    ensures |Next(net, c, step).streams| == |c.streams| + (if step.Create? then 1 else 0)
  {
  }

  /** What a step makes of one stream. */
  lemma StreamAfter(net: Net, c: Context, step: Step, id: nat)
    requires Inv(net, c) && Enabled(net, c, step) && id < |c.streams|
    ensures id < |Next(net, c, step).streams|
    ensures var s, s' := c.streams[id], Next(net, c, step).streams[id];
            match step {
              case Free(i) => s' == if i == id then s.(live := false) else s
              case Queue(i) => s' == if i == id then s.(at := InQueue) else s
              case Bring(i, hop) => s' == if i == id then Prepare(net, s, hop) else s
              case Gather(i) => s' == if i == id then Collect(net, s) else s
              case Clear(i) => s' == if i == id then Cleared(net, s) else s
              case Create => s' == s
              case RunGraph => s' == s
              case TakeBatch => s' == if id in c.queue then s.(at := InBatch) else s
              case HandBack =>
                s'.live == s.live && s'.hops == s.hops && s'.inFlight == s.inFlight
                && s'.at == if id in c.batch then Ready else s.at
            }
  {
    hide AllFaithful, LayOut, PutBack;
  }

  lemma OneMatches(net: Net, c: Context, steps: seq<Step>, n: nat, id: nat)
    requires n < |steps| && Inv(net, c) && Enabled(net, c, steps[n]) && Told(c, steps, n) && id < |c.streams|
    ensures id < |Next(net, c, steps[n]).streams|
    ensures Matches(Next(net, c, steps[n]).streams[id], ViewOf(steps, n + 1, id))
  {
    hide Inv, Next, Formed, Exclusive, Masked, AllFaithful, ViewOf;
    StreamAfter(net, c, steps[n], id);
    ListedHolds(net, c);
    ViewOnce(steps, n, id);
    var s := c.streams[id];
    assert Matches(s, ViewOf(steps, n, id));
    if s.at != Resting && steps[n].Gather? {
      assert s.hops + [s.inFlight] == s.hops + ViewOf(steps, n, id).flying;
    }
    assert s.hops + [] == s.hops;
  }

  lemma ListedHolds(net: Net, c: Context)
    requires Inv(net, c)
    ensures Listed(c)
  {
    hide Formed, Exclusive, Listed, Masked, AllFaithful;
  }

  lemma ViewOnce(steps: seq<Step>, n: nat, id: nat)
    requires n < |steps|
    ensures var v := ViewOf(steps, n, id);
            ViewOf(steps, n + 1, id) ==
            match steps[n] {
              case Create => if id == Created(steps, n) then View(true, Resting, [], []) else v
              case Clear(i) => if i == id then v.(given := []) else v
              case Free(i) => if i == id then v.(live := false) else v
              case Bring(i, hop) => if i == id then v.(at := Prepared, flying := [hop]) else v
              case Queue(i) => if i == id then v.(at := InQueue) else v
              case Gather(i) => if i == id then v.(at := Resting, given := v.given + v.flying, flying := []) else v
              case TakeBatch => if v.at == InQueue then v.(at := InBatch) else v
              case HandBack => if v.at == InBatch then v.(at := Ready) else v
              case RunGraph => v
            }
  {
  }

  lemma NewStreamIs(net: Net, c: Context)
    requires Inv(net, c) && Enabled(net, c, Create)
    ensures var s' := Next(net, c, Create).streams[|c.streams|];
            s'.live && s'.at == Resting && s'.hops == []
  {
    hide AllFaithful, Masked;
  }

  /** A step of a stream names one there is. */
  lemma NamesOne(net: Net, c: Context, step: Step)
    requires Enabled(net, c, step)
    ensures (step.Clear? || step.Free? || step.Bring? || step.Queue? || step.Gather?) ==> step.id < |c.streams|
  {
  }

  lemma PassAfter(net: Net, c: Context, step: Step)
    requires Formed(net, c) && Enabled(net, c, step)
    ensures Next(net, c, step).pass ==
            match step {
              case TakeBatch => LaidOut
              case RunGraph => Computed
              case HandBack => Waiting
              case _ => c.pass
            }
  {
    hide LayOut, PutBack;
  }

  lemma NextIsTold(net: Net, c: Context, steps: seq<Step>, n: nat)
    requires n < |steps| && Inv(net, c) && Enabled(net, c, steps[n]) && Told(c, steps, n) && Formed(net, c)
    ensures Told(Next(net, c, steps[n]), steps, n + 1)
  {
    hide Inv, Next, Formed, ViewOf, Matches, Enabled;
    StreamsStay(net, c, steps[n]);
    PassAfter(net, c, steps[n]);
    NamesOne(net, c, steps[n]);
    var c' := Next(net, c, steps[n]);
    forall id | 0 <= id < |c.streams|
      ensures Matches(c'.streams[id], ViewOf(steps, n + 1, id))
    {
      OneMatches(net, c, steps, n, id);
    }
    var next := n + 1;
    forall id: nat | id >= |c'.streams|
      ensures ViewOf(steps, next, id) == View(false, Resting, [], [])
    {
      ViewOnce(steps, n, id);
    }
    if steps[n].Create? {
      ViewOnce(steps, n, |c.streams|);
      NewStreamIs(net, c);
      NewMatches(c'.streams[|c.streams|]);
    }
  }

  lemma NewMatches(s: Stream)
    requires s.live && s.at == Resting && s.hops == []
    ensures Matches(s, View(true, Resting, [], []))
  {
  }

  /** In every interleaving there are as many streams as were created, each is
      where its own steps and those of the worker put it, and what it was brought
      is what those steps brought. */
  lemma {:induction false} EveryStepTells(net: Net, cs: seq<Context>, steps: seq<Step>, n: nat)
    requires IsRun(net, cs, steps) && n <= |steps|
    ensures Told(cs[n], steps, n)
  {
    hide Inv, Next, Enabled, Formed;
    if n == 0 {
      OpenedIsTold(net, steps);
    } else {
      EveryStepTells(net, cs, steps, n - 1);
      EveryStreamIsAlone(net, cs, steps, n - 1);
      NextIsTold(net, cs[n - 1], steps, n - 1);
    }
  }

  lemma OpenedIsTold(net: Net, steps: seq<Step>)
    ensures Told(Opened(net), steps, 0)
  {
  }

  /** What a stream gave back is what it would have given alone for the hops its
      own steps brought it since it was last cleared and gathered. */
  lemma EveryStreamGetsItsOwn(net: Net, cs: seq<Context>, steps: seq<Step>, n: nat, id: nat)
    requires IsRun(net, cs, steps) && n <= |steps| && ViewOf(steps, n, id).live
    ensures id < |cs[n].streams| && cs[n].streams[id].live
    ensures forall h :: h in ViewOf(steps, n, id).given ==> Sized(net, h)
    ensures cs[n].streams[id].outs == Solo(net, ViewOf(steps, n, id).given).outs
  {
    hide Inv, ViewOf, Solo, Formed, Next, Enabled;
    EveryStepTells(net, cs, steps, n);
    EveryStreamIsAlone(net, cs, steps, n);
    assert id < |cs[n].streams|;
    assert Matches(cs[n].streams[id], ViewOf(steps, n, id));
  }

  // ------------------------------------------------- what may happen next

  predicate Stands(steps: seq<Step>, n: nat, id: nat, at: At)
    requires n <= |steps|
  {
    ViewOf(steps, n, id).live && ViewOf(steps, n, id).at == at
  }

  /** What may happen after n steps, from them alone. */
  predicate May(net: Net, steps: seq<Step>, n: nat, step: Step)
    requires n <= |steps|
  {
    match step
    case Create => PassOf(steps, n) == Waiting
    case Clear(id) => Stands(steps, n, id, Resting) && PassOf(steps, n) == Waiting
    case Free(id) => Stands(steps, n, id, Resting)
    case Bring(id, hop) => Stands(steps, n, id, Resting) && Sized(net, hop)
    case Queue(id) => Stands(steps, n, id, Prepared)
    case Gather(id) => Stands(steps, n, id, Ready)
    case TakeBatch => PassOf(steps, n) == Waiting && SomeQueued(steps, n)
    case RunGraph => PassOf(steps, n) == LaidOut
    case HandBack => PassOf(steps, n) == Computed
  }

  predicate SomeQueued(steps: seq<Step>, n: nat)
    requires n <= |steps|
  {
    exists id :: 0 <= id < Created(steps, n) && Stands(steps, n, id, InQueue)
  }

  lemma StandsIs(c: Context, steps: seq<Step>, n: nat, id: nat, at: At)
    requires n <= |steps| && Told(c, steps, n)
    ensures Stands(steps, n, id, at) <==> Is(c, id, at)
  {
    hide ViewOf;
    if id < |c.streams| {
      assert Matches(c.streams[id], ViewOf(steps, n, id));
    }
  }

  /** The queue is empty exactly when no stream waits in it. */
  lemma QueueIs(c: Context, steps: seq<Step>, n: nat)
    requires n <= |steps| && Told(c, steps, n) && Listed(c)
    ensures c.queue != [] <==> SomeQueued(steps, n)
  {
    hide Stands;
    if c.queue != [] {
      assert c.queue[0] in c.queue;
      StandsIs(c, steps, n, c.queue[0], InQueue);
    }
    if SomeQueued(steps, n) {
      var id :| 0 <= id < Created(steps, n) && Stands(steps, n, id, InQueue);
      StandsIs(c, steps, n, id, InQueue);
      assert id in c.queue;
    }
  }

  /** A step may be taken exactly when the steps before it allow it: creations
      and clearings while no pass runs, a hop for a stream that rests, a pass when
      somebody waits for one. */
  lemma StepsAreFree(net: Net, cs: seq<Context>, steps: seq<Step>, n: nat, step: Step)
    requires IsRun(net, cs, steps) && n <= |steps|
    ensures Enabled(net, cs[n], step) <==> May(net, steps, n, step)
  {
    hide Inv, Formed, Next, Is, Stands, SomeQueued, PassOf, Listed;
    EveryStepTells(net, cs, steps, n);
    EveryStreamIsAlone(net, cs, steps, n);
    ListedHolds(net, cs[n]);
    QueueIs(cs[n], steps, n);
    match step {
      case Clear(id) => StandsIs(cs[n], steps, n, id, Resting);
      case Free(id) => StandsIs(cs[n], steps, n, id, Resting);
      case Bring(id, hop) => StandsIs(cs[n], steps, n, id, Resting);
      case Queue(id) => StandsIs(cs[n], steps, n, id, Prepared);
      case Gather(id) => StandsIs(cs[n], steps, n, id, Ready);
      case _ =>
    }
  }

  /** Nothing is stuck: when no hop can go on, none is on its way. */
  lemma NothingIsStuck(net: Net, cs: seq<Context>, steps: seq<Step>, n: nat)
    requires IsRun(net, cs, steps) && n <= |steps|
    requires forall step :: Enabled(net, cs[n], step) ==>
                              step.Create? || step.Clear? || step.Free? || step.Bring?
    ensures cs[n].pass == Waiting && cs[n].queue == [] && cs[n].batch == []
    ensures forall id :: 0 <= id < |cs[n].streams| ==> cs[n].streams[id].at == Resting
  {
    hide Inv, Formed, Next, Told;
    EveryStreamIsAlone(net, cs, steps, n);
    ListedHolds(net, cs[n]);
    var c := cs[n];
    assert !Enabled(net, c, TakeBatch) && !Enabled(net, c, RunGraph) && !Enabled(net, c, HandBack);
    forall id | 0 <= id < |c.streams|
      ensures c.streams[id].at == Resting
    {
      assert !Enabled(net, c, Queue(id)) && !Enabled(net, c, Gather(id));
      EveryStepTells(net, cs, steps, n);
      DeadRest(c, steps, n, id);
    }
  }

  lemma DeadRest(c: Context, steps: seq<Step>, n: nat, id: nat)
    requires n <= |steps| && Told(c, steps, n) && id < |c.streams|
    ensures !c.streams[id].live ==> c.streams[id].at == Resting
  {
    hide ViewOf;
    assert Matches(c.streams[id], ViewOf(steps, n, id));
  }

  // ------------------------------------------------------------ slots

  predicate Held(c: Context, k: nat) {
    exists id :: 0 <= id < |c.streams| && c.streams[id].live && c.streams[id].slot == k
  }

  /** A slot is taken exactly while a live stream holds it. */
  predicate SlotsExact(c: Context) {
    |c.used| == Capacity(c) && forall k :: 0 <= k < Capacity(c) ==> (c.used[k] <==> Held(c, k))
  }

  lemma ExclusiveHolds(net: Net, c: Context)
    requires Inv(net, c)
    ensures Exclusive(c)
  {
    hide Formed, Exclusive, Listed, Masked, AllFaithful;
  }

  lemma CreateKeepsSlots(net: Net, c: Context)
    requires Exclusive(c) && SlotsExact(c)
    ensures SlotsExact(Take(net, c))
    ensures Capacity(Take(net, c)) == Capacity(c) + (if forall k :: 0 <= k < Capacity(c) ==> Held(c, k) then 1 else 0)
  {
    var c' := Take(net, c);
    var slot := FirstFree(c.used);
    forall k | 0 <= k < Capacity(c')
      ensures c'.used[k] <==> Held(c', k)
    {
      if Held(c', k) && k != slot {
        var id :| 0 <= id < |c'.streams| && c'.streams[id].live && c'.streams[id].slot == k;
        assert c.streams[id] == c'.streams[id];
      }
      if k < Capacity(c) && Held(c, k) {
        var id :| 0 <= id < |c.streams| && c.streams[id].live && c.streams[id].slot == k;
        assert c'.streams[id] == c.streams[id];
      }
      if k == slot {
        assert c'.streams[|c.streams|].slot == k;
      }
    }
  }

  lemma FreeKeepsSlots(net: Net, c: Context, id: nat)
    requires Inv(net, c) && SlotsExact(c) && Enabled(net, c, Free(id))
    ensures SlotsExact(Next(net, c, Free(id)))
  {
    hide AllFaithful, Listed, Masked, Fitting;
    var c' := Next(net, c, Free(id));
    forall k | 0 <= k < Capacity(c')
      ensures c'.used[k] <==> Held(c', k)
    {
      if Held(c', k) {
        var i :| 0 <= i < |c'.streams| && c'.streams[i].live && c'.streams[i].slot == k;
        assert i != id && c.streams[i] == c'.streams[i];
      }
      if Held(c, k) && k != c.streams[id].slot {
        var i :| 0 <= i < |c.streams| && c.streams[i].live && c.streams[i].slot == k;
        assert c'.streams[i] == c.streams[i];
      }
    }
  }

  /** The other steps move no stream and no slot. */
  lemma SlotsAlone(net: Net, c: Context, step: Step)
    requires Inv(net, c) && Enabled(net, c, step) && !step.Create? && !step.Free?
    ensures var c' := Next(net, c, step);
            && c'.used == c.used && Capacity(c') == Capacity(c) && |c'.streams| == |c.streams|
            && (forall i :: 0 <= i < |c.streams| ==>
                  c'.streams[i].live == c.streams[i].live && c'.streams[i].slot == c.streams[i].slot)
  {
    hide AllFaithful, Listed, Masked, LayOut, PutBack;
  }

  lemma SameSlots(c: Context, c': Context)
    requires SlotsExact(c) && c'.used == c.used && Capacity(c') == Capacity(c) && |c'.streams| == |c.streams|
    requires forall i :: 0 <= i < |c.streams| ==>
                           c'.streams[i].live == c.streams[i].live && c'.streams[i].slot == c.streams[i].slot
    ensures SlotsExact(c')
  {
    forall k | 0 <= k < Capacity(c)
      ensures Held(c', k) <==> Held(c, k)
    {
    }
  }

  /** In every interleaving a slot is taken exactly while a live stream holds it,
      so that a freed one is used again before the capacity grows. */
  lemma {:induction false} SlotsAreExact(net: Net, cs: seq<Context>, steps: seq<Step>, n: nat)
    requires IsRun(net, cs, steps) && n <= |steps|
    ensures SlotsExact(cs[n])
    ensures n < |steps| ==>
              Capacity(cs[n + 1]) == Capacity(cs[n]) +
                if steps[n].Create? && forall k :: 0 <= k < Capacity(cs[n]) ==> Held(cs[n], k) then 1 else 0
  {
    hide Inv, Formed, SlotsExact, Exclusive, Take;
    if n == 0 {
      OpenedIsExact(net);
    } else {
      SlotsAreExact(net, cs, steps, n - 1);
      NextKeepsSlots(net, cs, steps, n - 1);
    }
    EveryStreamIsAlone(net, cs, steps, n);
    ExclusiveHolds(net, cs[n]);
    if n < |steps| {
      hide Next, Enabled;
      CapacityAfter(net, cs[n], steps[n]);
    }
  }

  lemma OpenedIsExact(net: Net)
    ensures SlotsExact(Opened(net))
  {
  }

  lemma NextKeepsSlots(net: Net, cs: seq<Context>, steps: seq<Step>, n: nat)
    requires IsRun(net, cs, steps) && n < |steps| && SlotsExact(cs[n])
    ensures SlotsExact(cs[n + 1])
  {
    hide Inv, Formed, SlotsExact, Exclusive, Take, Enabled;
    EveryStreamIsAlone(net, cs, steps, n);
    var c, step := cs[n], steps[n];
    ExclusiveHolds(net, c);
    if step.Create? {
      CreateKeepsSlots(net, c);
    } else if step.Free? {
      FreeKeepsSlots(net, c, step.id);
    } else {
      hide Next;
      SlotsAlone(net, c, step);
      SameSlots(c, cs[n + 1]);
    }
  }

  lemma CapacityAfter(net: Net, c: Context, step: Step)
    requires Inv(net, c) && Formed(net, c) && Enabled(net, c, step) && Exclusive(c) && SlotsExact(c)
    ensures Capacity(Next(net, c, step)) == Capacity(c) +
              if step.Create? && forall k :: 0 <= k < Capacity(c) ==> Held(c, k) then 1 else 0
  {
    hide Inv, Formed, SlotsExact, Exclusive, Take, Enabled;
    if step.Create? {
      CreateKeepsSlots(net, c);
    } else if step.Free? {
    } else {
      hide Next;
      SlotsAlone(net, c, step);
    }
  }
}
