/** The device-snapshot hand-off every backend repeats.

    A backend thread builds a new device snapshot and publishes it into the
    `ready` slot; the application thread, inside `flush_events`, moves it into
    the `safe` slot it reads from, fires the devices-change callback, and only
    then destroys the snapshot that was `safe` before. Locking is not
    modelled: each step is one critical section, taken in sequence.
 */
module Snapshot {
  import opened Common

  datatype Slots<T> = Slots(ready: Option<T>, safe: Option<T>)

  /** What a step makes observable, in order: the application callbacks and
      the destruction of snapshots. */
  datatype Event<T> = DevicesChange | BackendDisconnect(err: Error) | Destroyed(info: T)

  datatype Step<T> = Step(slots: Slots<T>, events: seq<Event<T>>)

  /** Destroying a possibly-null snapshot (`soundio_destroy_devices_info`
      ignores null). */
  function DestroyOpt<T>(x: Option<T>): (e: seq<Event<T>>)
    ensures x.None? <==> e == []
  {
    if x.Some? then [Destroyed(x.value)] else []
  }

  /** Publishing a finished snapshot: it replaces `ready`, and a snapshot
      still waiting there, never seen by the application, is destroyed. */
  function Publish<T>(s: Slots<T>, x: T): (r: Step<T>)
    ensures r.slots.ready == Some(x) && r.slots.safe == s.safe
    ensures DevicesChange !in r.events
  {
    Step(Slots(Some(x), s.safe), DestroyOpt(s.ready))
  }

  /** `flush_events`: with a snapshot ready it becomes the safe one and the
      change callback fires once, before the previous safe snapshot is
      destroyed; with none ready nothing happens. */
  function Flush<T>(s: Slots<T>): (r: Step<T>)
    ensures r.slots.ready.None?
    ensures s.ready.None? ==> r == Step(s, [])
    ensures s.ready.Some? ==> r.slots.safe == s.ready
    ensures s.ready.Some? ==> |r.events| >= 1 && r.events[0] == DevicesChange
    ensures s.ready.Some? ==> r.events[1..] == DestroyOpt(s.safe)
  {
    if s.ready.None? then Step(s, [])
    else Step(Slots(None, s.ready), [DevicesChange] + DestroyOpt(s.safe))
  }

  /** A second flush with nothing published in between changes nothing and
      fires nothing. */
  lemma FlushIdempotent<T>(s: Slots<T>)
    ensures Flush(Flush(s).slots) == Step(Flush(s).slots, [])
  {
  }

  datatype Op<T> = PublishOp(x: T) | FlushOp

  function Apply<T>(s: Slots<T>, op: Op<T>): Step<T>
  {
    match op
    case PublishOp(x) => Publish(s, x)
    case FlushOp => Flush(s)
  }

  /** A sequence of publish and flush steps, with all their events. */
  function Run<T>(s: Slots<T>, ops: seq<Op<T>>): Step<T>
    decreases |ops|
  {
    if |ops| == 0 then Step(s, [])
    else
      var first := Apply(s, ops[0]);
      var rest := Run(first.slots, ops[1..]);
      Step(rest.slots, first.events + rest.events)
  }

  /** The snapshots the slots hold. */
  function Held<T>(s: Slots<T>): multiset<T>
  {
    (if s.ready.Some? then multiset{s.ready.value} else multiset{})
    + (if s.safe.Some? then multiset{s.safe.value} else multiset{})
  }

  function Published<T>(ops: seq<Op<T>>): multiset<T>
    decreases |ops|
  {
    if |ops| == 0 then multiset{}
    else (if ops[0].PublishOp? then multiset{ops[0].x} else multiset{}) + Published(ops[1..])
  }

  function DestroyedIn<T>(events: seq<Event<T>>): multiset<T>
    decreases |events|
  {
    if |events| == 0 then multiset{}
    else (if events[0].Destroyed? then multiset{events[0].info} else multiset{}) + DestroyedIn(events[1..])
  }

  function ChangesIn<T>(events: seq<Event<T>>): nat
    decreases |events|
  {
    if |events| == 0 then 0
    else (if events[0] == DevicesChange then 1 else 0) + ChangesIn(events[1..])
  }

  function Flushes<T>(ops: seq<Op<T>>): nat
    decreases |ops|
  {
    if |ops| == 0 then 0
    else (if ops[0].FlushOp? then 1 else 0) + Flushes(ops[1..])
  }

  lemma {:induction false} DestroyedInAppend<T>(a: seq<Event<T>>, b: seq<Event<T>>)
    ensures DestroyedIn(a + b) == DestroyedIn(a) + DestroyedIn(b)
    ensures ChangesIn(a + b) == ChangesIn(a) + ChangesIn(b)
    decreases |a|
  {
    if |a| == 0 {
      assert a + b == b;
    } else {
      assert (a + b)[1..] == a[1..] + b;
      DestroyedInAppend(a[1..], b);
    }
  }

  lemma DestroyOptCounts<T>(x: Option<T>)
    ensures DestroyedIn(DestroyOpt(x)) == (if x.Some? then multiset{x.value} else multiset{})
    ensures ChangesIn(DestroyOpt(x)) == 0
  {
    if x.Some? {
      assert DestroyOpt(x)[1..] == [];
    }
  }

  /** One step neither loses nor duplicates a snapshot: what was held plus
      what was published is what is held afterwards plus what was destroyed. */
  lemma StepConserves<T>(s: Slots<T>, op: Op<T>)
    ensures Held(s) + (if op.PublishOp? then multiset{op.x} else multiset{})
         == Held(Apply(s, op).slots) + DestroyedIn(Apply(s, op).events)
    ensures ChangesIn(Apply(s, op).events) == (if op.FlushOp? && s.ready.Some? then 1 else 0)
  {
    var evs := Apply(s, op).events;
    DestroyOptCounts(s.ready);
    DestroyOptCounts(s.safe);
    if op.FlushOp? && s.ready.Some? {
      assert evs == [DevicesChange] + DestroyOpt(s.safe);
      assert evs[1..] == DestroyOpt(s.safe);
    }
  }

  /** Ownership of snapshots over any interleaving of publishes and flushes:
      every snapshot ever published is, at the end, either still held or
      destroyed exactly once; no snapshot is destroyed twice or leaked. */
  lemma RunConserves<T>(s: Slots<T>, ops: seq<Op<T>>)
    ensures Held(s) + Published(ops) == Held(Run(s, ops).slots) + DestroyedIn(Run(s, ops).events)
  {
    RunConservesPointwise(s, ops);
    var r := Run(s, ops);
    SumExtensional(Held(s), Published(ops), Held(r.slots), DestroyedIn(r.events));
  }

  lemma SumExtensional<T>(a: multiset<T>, b: multiset<T>, c: multiset<T>, d: multiset<T>)
    requires forall x :: a[x] + b[x] == c[x] + d[x]
    ensures a + b == c + d
  {
    assert forall x :: (a + b)[x] == (c + d)[x];
  }

  lemma {:induction false} RunConservesPointwise<T>(s: Slots<T>, ops: seq<Op<T>>)
    ensures forall x :: Held(s)[x] + Published(ops)[x]
                     == Held(Run(s, ops).slots)[x] + DestroyedIn(Run(s, ops).events)[x]
    decreases |ops|
  {
    if |ops| > 0 {
      var first := Apply(s, ops[0]);
      var rest := Run(first.slots, ops[1..]);
      StepConserves(s, ops[0]);
      RunConservesPointwise(first.slots, ops[1..]);
      DestroyedInAppend(first.events, rest.events);
      forall x
        ensures Held(s)[x] + Published(ops)[x]
             == Held(Run(s, ops).slots)[x] + DestroyedIn(Run(s, ops).events)[x]
      {
        var p0: multiset<T> := if ops[0].PublishOp? then multiset{ops[0].x} else multiset{};
        assert Published(ops)[x] == p0[x] + Published(ops[1..])[x];
        assert Held(s)[x] + p0[x] == Held(first.slots)[x] + DestroyedIn(first.events)[x];
      }
    }
  }

  /** The change callback fires only from a flush, at most once per flush. */
  lemma {:induction false} ChangesOnlyFromFlush<T>(s: Slots<T>, ops: seq<Op<T>>)
    ensures ChangesIn(Run(s, ops).events) <= Flushes(ops)
    decreases |ops|
  {
    if |ops| > 0 {
      var first := Apply(s, ops[0]);
      StepConserves(s, ops[0]);
      ChangesOnlyFromFlush(first.slots, ops[1..]);
      DestroyedInAppend(first.events, Run(first.slots, ops[1..]).events);
    }
  }

  function LastPublished<T>(ops: seq<Op<T>>): Option<T>
    decreases |ops|
  {
    if |ops| == 0 then None
    else if ops[|ops| - 1].PublishOp? then Some(ops[|ops| - 1].x)
    else LastPublished(ops[..|ops| - 1])
  }

  lemma {:induction false} RunAppend<T>(s: Slots<T>, ops: seq<Op<T>>, op: Op<T>)
    ensures Run(s, ops + [op]).slots == Apply(Run(s, ops).slots, op).slots
    decreases |ops|
  {
    if |ops| == 0 {
      assert ops + [op] == [op];
    } else {
      assert (ops + [op])[1..] == ops[1..] + [op];
      RunAppend(Apply(s, ops[0]).slots, ops[1..], op);
    }
  }

  /** A flush always hands the application the most recent snapshot:
      whenever a snapshot sits in either slot after a run that published
      something, the newest one is the latest snapshot published. */
  lemma {:induction false} NewestIsLatestPublished<T>(s: Slots<T>, ops: seq<Op<T>>)
    ensures LastPublished(ops).Some? ==>
      var r := Run(s, ops).slots;
      (if r.ready.Some? then r.ready else r.safe) == LastPublished(ops)
    decreases |ops|
  {
    if |ops| > 0 {
      var init := ops[..|ops| - 1];
      var last := ops[|ops| - 1];
      assert ops == init + [last];
      RunAppend(s, init, last);
      NewestIsLatestPublished(s, init);
    }
  }
}
