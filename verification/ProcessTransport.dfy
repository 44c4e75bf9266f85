/** The child-process transport: who may still have a child after a reset. */
module ProcessTransport {
  import opened Common

  // ---------------------------------------------------------------- the transport object

  /** `alive` are the children running, `process` the published one; `nextChild` names
      the next child to be started. */
  datatype Transport = Transport(
    cancelEvent: bool, process: Option<nat>, inflight: bool, generation: nat,
    restarts: nat, cancellations: nat, alive: set<nat>, nextChild: nat
  )

  const NEW_TRANSPORT: Transport := Transport(false, None, false, 0, 0, 0, {}, 0)

  function Terminate(t: Transport): Transport {
    t.(process := None, inflight := false, alive := if t.process.Some? then t.alive - {t.process.value} else t.alive)
  }

  function MarkInflight(t: Transport): Transport {
    t.(inflight := true)
  }

  datatype Startup = Refused | Reused(child: nat) | Started(child: nat)

  /** The block that checks for invalidation and publishes a child, together. */
  function StartupOf(t: Transport, ownEvent: bool): Startup {
    if t.cancelEvent || ownEvent then Refused
    else if t.process.Some? && t.process.value in t.alive then Reused(t.process.value)
    else Started(t.nextChild)
  }

  function Start(t: Transport, ownEvent: bool): Transport {
    if !StartupOf(t, ownEvent).Started? then t
    else
      t.(process := Some(t.nextChild), alive := t.alive + {t.nextChild}, nextChild := t.nextChild + 1,
         restarts := t.restarts + 1)
  }

  /** A child that did not come up is terminated if it is still the published one. */
  function GiveUp(t: Transport, child: nat): Transport {
    if t.process == Some(child) then Terminate(t) else t
  }

  function Cancel(t: Transport): Transport {
    if !t.inflight then t
    else Terminate(t.(generation := t.generation + 1, cancellations := t.cancellations + 1))
  }

  function Reset(t: Transport): Transport {
    Terminate(t.(generation := t.generation + 1,
                 cancellations := t.cancellations + (if t.inflight then 1 else 0)))
  }

  function Close(t: Transport): Transport {
    Terminate(t.(generation := t.generation + 1))
  }

  class ProcessInferenceTransport {
    var cancelEvent: bool
    var process: Option<nat>
    var inflight: bool
    var generation: nat
    var restarts: nat
    var cancellations: nat
    var alive: set<nat>
    var nextChild: nat

    function View(): Transport
      reads this
    {
      Transport(cancelEvent, process, inflight, generation, restarts, cancellations, alive, nextChild)
    }

    constructor ()
      ensures View() == NEW_TRANSPORT
    {
      cancelEvent, process, inflight, generation := false, None, false, 0;
      restarts, cancellations, alive, nextChild := 0, 0, {}, 0;
    }

    method TerminateLocked()
      modifies this
      ensures View() == Terminate(old(View()))
    {
      var child := process;
      process := None;
      inflight := false;
      if child.Some? && child.value in alive {
        alive := alive - {child.value};
      }
    }

    method BeginRequest() returns (requestGeneration: nat)
      modifies this
      ensures View() == MarkInflight(old(View())) && requestGeneration == old(generation)
    {
      inflight := true;
      requestGeneration := generation;
    }

    method StartChild(ownEvent: bool) returns (startup: Startup)
      modifies this
      ensures startup == StartupOf(old(View()), ownEvent)
      ensures View() == Start(old(View()), ownEvent)
    {
      if cancelEvent || ownEvent {
        return Refused;
      }
      if process.Some? && process.value in alive {
        return Reused(process.value);
      }
      var child := nextChild;
      nextChild := nextChild + 1;
      alive := alive + {child};
      process := Some(child);
      restarts := restarts + 1;
      return Started(child);
    }

    method GiveUpOn(child: nat)
      modifies this
      ensures View() == GiveUp(old(View()), child)
    {
      if process == Some(child) {
        TerminateLocked();
      }
    }

    method CancelRequest() returns (cancelled: bool)
      modifies this
      ensures View() == Cancel(old(View())) && cancelled == old(inflight)
    {
      if !inflight {
        return false;
      }
      generation := generation + 1;
      cancellations := cancellations + 1;
      TerminateLocked();
      return true;
    }

    method ResetClient() returns (wasInflight: bool)
      modifies this
      ensures View() == Reset(old(View())) && wasInflight == old(inflight)
    {
      generation := generation + 1;
      wasInflight := inflight;
      if wasInflight {
        cancellations := cancellations + 1;
      }
      TerminateLocked();
    }

    method Shut()
      modifies this
      ensures View() == Close(old(View()))
    {
      generation := generation + 1;
      TerminateLocked();
    }
  }

  // ---------------------------------------------------------------- any number of requests

  /** Where a request is. From `Locked` to `Running` it holds the request lock. */
  datatype Pc = Queued | Locked | Cleared | Starting | Booting(child: nat) | Running(child: nat) | Ended

  predicate Holds(pc: Pc) {
    !pc.Queued? && !pc.Ended?
  }

  /** `own` are the requests whose own cancellation event is set; `publisher` says which
      request started each child. */
  datatype World = World(
    t: Transport, lock: Option<nat>, calls: map<nat, Pc>, own: set<nat>, publisher: map<nat, nat>
  )

  const NEW_WORLD: World := World(NEW_TRANSPORT, None, map[], {}, map[])

  /** `Fail` is any exception, result or deadline that ends a request's attempt; its
      last block clears the in-flight flag and the lock is released. */
  datatype Step =
    | Enter(r: nat)
    | Acquire(r: nat)
    | Clear(r: nat)
    | Mark(r: nat)
    | Boot(r: nat)
    | Ready(r: nat)
    | BootTimeout(r: nat)
    | Deadline(r: nat)
    | Fail(r: nat)
    | SetOwn(r: nat)
    | SetShared
    | CancelBlock
    | ResetBlock
    | CloseBlock
    | ChildDies(child: nat)

  function At(w: World, r: nat): Pc {
    if r in w.calls then w.calls[r] else Ended
  }

  function Leave(w: World, r: nat): World {
    w.(t := w.t.(inflight := false), lock := None, calls := w.calls[r := Ended])
  }

  function BootStep(w: World, r: nat): World {
    var startup := StartupOf(w.t, r in w.own);
    match startup
    case Refused => Leave(w, r)
    case Reused(child) => w.(calls := w.calls[r := Running(child)])
    case Started(child) =>
      w.(t := Start(w.t, r in w.own), calls := w.calls[r := Booting(child)], publisher := w.publisher[child := r])
  }

  function Next(w: World, step: Step): World {
    match step
    case Enter(r) => if r in w.calls then w else w.(calls := w.calls[r := Queued])
    case Acquire(r) =>
      if At(w, r).Queued? && w.lock.None? then w.(lock := Some(r), calls := w.calls[r := Locked]) else w
    case Clear(r) =>
      if At(w, r).Locked? then w.(t := w.t.(cancelEvent := false), calls := w.calls[r := Cleared]) else w
    case Mark(r) => if At(w, r).Cleared? then w.(t := MarkInflight(w.t), calls := w.calls[r := Starting]) else w
    case Boot(r) => if At(w, r).Starting? then BootStep(w, r) else w
    case Ready(r) => if At(w, r).Booting? then w.(calls := w.calls[r := Running(At(w, r).child)]) else w
    case BootTimeout(r) => if At(w, r).Booting? then Leave(w.(t := GiveUp(w.t, At(w, r).child)), r) else w
    case Deadline(r) => if At(w, r).Running? then Leave(w.(t := Terminate(w.t)), r) else w
    case Fail(r) => if Holds(At(w, r)) && r in w.calls then Leave(w, r) else w
    case SetOwn(r) => w.(own := w.own + {r})
    case SetShared => w.(t := w.t.(cancelEvent := true))
    case CancelBlock => w.(t := Cancel(w.t))
    case ResetBlock => w.(t := Reset(w.t))
    case CloseBlock => w.(t := Close(w.t))
    case ChildDies(child) => w.(t := w.t.(alive := w.t.alive - {child}))
  }

  function Run(w: World, schedule: seq<Step>): World
    decreases |schedule|
  {
    if schedule == [] then w else Run(Next(w, schedule[0]), schedule[1..])
  }

  // ---------------------------------------------------------------- invariant

  /** The request uses the published child, if one is. */
  predicate UsesPublished(w: World, pc: Pc) {
    pc.Booting? || pc.Running? ==> w.t.process.None? || w.t.process == Some(pc.child)
  }

  /** At most the published child runs, and the lock has one holder. */
  ghost predicate Inv(w: World) {
    && (w.lock.Some? ==> UsesPublished(w, At(w, w.lock.value)))
    && w.t.restarts == w.t.nextChild
    && (forall c | c in w.t.alive :: w.t.process == Some(c))
    && (forall c | c in w.publisher :: c < w.t.nextChild)
    && (forall c | c in w.t.alive :: c in w.publisher)
    && (w.t.process.Some? ==> w.t.process.value < w.t.nextChild)
    && (w.lock.Some? ==> w.lock.value in w.calls)
    && (forall r | r in w.calls :: Holds(w.calls[r]) <==> w.lock == Some(r))
  }

  lemma StepKeepsInv(w: World, step: Step)
    requires Inv(w)
    ensures Inv(Next(w, step))
  {
  }

  lemma {:induction false} RunKeepsInv(w: World, schedule: seq<Step>)
    requires Inv(w)
    ensures Inv(Run(w, schedule))
    decreases |schedule|
  {
    if schedule != [] {
      StepKeepsInv(w, schedule[0]);
      RunKeepsInv(Next(w, schedule[0]), schedule[1..]);
    }
  }

  /** At most one child runs at a time, the published one. */
  lemma OneChildAtATime(schedule: seq<Step>)
    ensures var t := Run(NEW_WORLD, schedule).t; forall c | c in t.alive :: t.process == Some(c)
  {
    RunKeepsInv(NEW_WORLD, schedule);
  }

  // ---------------------------------------------------------------- what is terminated stays so

  /** No child runs, none is published, and no request is in flight. */
  predicate AllDown(t: Transport) {
    t.alive == {} && t.process.None? && !t.inflight
  }

  /** The blocks that end whatever runs: a cancel with a request in flight, a reset, a
      close, and a request's own deadline, at startup or while it waits. */
  predicate Ends(w: World, step: Step) {
    match step
    case CancelBlock => w.t.inflight
    case ResetBlock => true
    case CloseBlock => true
    case Deadline(r) => At(w, r).Running?
    case BootTimeout(r) => At(w, r).Booting?
    case _ => false
  }

  lemma EndingTakesDown(w: World, step: Step)
    requires Inv(w) && Ends(w, step)
    ensures AllDown(Next(w, step).t) && Next(w, step).t.nextChild == w.t.nextChild
  {
  }

  lemma {:induction false} OnlyNewChildren(w: World, schedule: seq<Step>, n: nat)
    requires n <= w.t.nextChild && forall c | c in w.t.alive :: n <= c
    ensures forall c | c in Run(w, schedule).t.alive :: n <= c
    decreases |schedule|
  {
    if schedule != [] {
      OnlyNewChildren(Next(w, schedule[0]), schedule[1..], n);
    }
  }

  /** No child that was started before such a block ever runs again. */
  lemma EndedChildrenStayDead(before: seq<Step>, step: Step, after: seq<Step>)
    requires Ends(Run(NEW_WORLD, before), step)
    ensures var w := Run(NEW_WORLD, before);
            && AllDown(Next(w, step).t)
            && forall c | c in Run(Next(w, step), after).t.alive :: c !in w.publisher
  {
    RunKeepsInv(NEW_WORLD, before);
    var w := Run(NEW_WORLD, before);
    EndingTakesDown(w, step);
    OnlyNewChildren(Next(w, step), after, w.t.nextChild);
  }

  /** A cancel takes everything down with a request in flight, and does nothing without. */
  lemma CancelExactly(before: seq<Step>)
    ensures var w := Run(NEW_WORLD, before);
            var v := Next(w, CancelBlock);
            if w.t.inflight then AllDown(v.t) else v == w
  {
    RunKeepsInv(NEW_WORLD, before);
    if Run(NEW_WORLD, before).t.inflight {
      EndingTakesDown(Run(NEW_WORLD, before), CancelBlock);
    }
  }

  /** The request has marked itself in flight and still holds the lock. */
  predicate PastMark(w: World, r: nat) {
    At(w, r).Starting? || At(w, r).Booting? || At(w, r).Running?
  }

  /** Nothing took the transport down on the way. */
  predicate Uninterrupted(w: World, schedule: seq<Step>)
    decreases |schedule|
  {
    schedule == [] || (!Ends(w, schedule[0]) && Uninterrupted(Next(w, schedule[0]), schedule[1..]))
  }

  lemma {:induction false} EndedStays(w: World, schedule: seq<Step>, r: nat)
    requires r in w.calls && w.calls[r].Ended?
    ensures r in Run(w, schedule).calls && Run(w, schedule).calls[r].Ended?
    decreases |schedule|
  {
    if schedule != [] {
      EndedStays(Next(w, schedule[0]), schedule[1..], r);
    }
  }

  lemma StepInFlight(w: World, step: Step, r: nat)
    requires Inv(w) && PastMark(w, r)
    ensures var v := Next(w, step);
            && (PastMark(v, r) || (r in v.calls && v.calls[r].Ended?))
            && (PastMark(v, r) ==> (v.t.inflight <==> w.t.inflight && !Ends(w, step)))
  {
  }

  lemma {:induction false} InFlightSince(w: World, during: seq<Step>, r: nat)
    requires Inv(w) && PastMark(w, r) && PastMark(Run(w, during), r)
    ensures Run(w, during).t.inflight <==> w.t.inflight && Uninterrupted(w, during)
    decreases |during|
  {
    if during != [] {
      var v := Next(w, during[0]);
      StepInFlight(w, during[0], r);
      StepKeepsInv(w, during[0]);
      if PastMark(v, r) {
        InFlightSince(v, during[1..], r);
      } else {
        EndedStays(v, during[1..], r);
      }
    }
  }

  /** A cancel stops a running request exactly when nothing took the transport down since
      the request marked itself in flight. */
  lemma CancelReachesExactly(before: seq<Step>, during: seq<Step>, r: nat)
    requires At(Run(NEW_WORLD, before), r).Cleared?
    requires PastMark(Run(Next(Run(NEW_WORLD, before), Mark(r)), during), r)
    ensures var marked := Next(Run(NEW_WORLD, before), Mark(r));
            var w := Run(marked, during);
            var v := Next(w, CancelBlock);
            if Uninterrupted(marked, during) then AllDown(v.t) else v == w
  {
    RunKeepsInv(NEW_WORLD, before);
    var u := Run(NEW_WORLD, before);
    StepKeepsInv(u, Mark(r));
    InFlightSince(Next(u, Mark(r)), during, r);
    RunKeepsInv(Next(u, Mark(r)), during);
    if Uninterrupted(Next(u, Mark(r)), during) {
      EndingTakesDown(Run(Next(u, Mark(r)), during), CancelBlock);
    }
  }

  /** A cancel set its event before a request cleared it, and its block ran after the
      request's mark; the request then starts a child that a second cancel leaves alone. */
  function CancelledInBetween(): seq<Step> {
    [Enter(0), Acquire(0), SetShared, Clear(0), Mark(0), CancelBlock, Boot(0), Ready(0)]
  }

  lemma RunTwo(w: World, a: Step, b: Step, rest: seq<Step>)
    ensures Run(w, [a, b] + rest) == Run(Next(Next(w, a), b), rest)
  {
    var s := [a, b] + rest;
    assert s[1..] == [b] + rest && s[1..][1..] == rest;
  }

  /** Request 0 has marked itself, and been cut, before its startup check. */
  predicate CutEarly(w: World) {
    && w.calls == map[0 := Starting] && w.own == {} && !w.t.cancelEvent && !w.t.inflight
    && w.t.process.None? && w.t.alive == {} && w.t.nextChild == 0
  }

  lemma CutBeforeStartup()
    ensures CutEarly(Run(NEW_WORLD, CancelledInBetween()[..6]))
  {
    var w2 := Next(Next(NEW_WORLD, Enter(0)), Acquire(0));
    var w4 := Next(Next(w2, SetShared), Clear(0));
    RunTwo(NEW_WORLD, Enter(0), Acquire(0), [SetShared, Clear(0), Mark(0), CancelBlock]);
    RunTwo(w2, SetShared, Clear(0), [Mark(0), CancelBlock]);
    RunTwo(w4, Mark(0), CancelBlock, []);
    assert [Enter(0), Acquire(0)] + [SetShared, Clear(0), Mark(0), CancelBlock] == CancelledInBetween()[..6];
    assert [SetShared, Clear(0)] + [Mark(0), CancelBlock] == [SetShared, Clear(0), Mark(0), CancelBlock];
    assert [Mark(0), CancelBlock] + [] == [Mark(0), CancelBlock];
  }

  lemma StartsUncancellable(w: World)
    requires CutEarly(w)
    ensures var u := Run(w, [Boot(0), Ready(0)]);
            var v := Next(Next(u, SetShared), CancelBlock);
            && u.calls == map[0 := Running(0)] && u.t.alive == {0}
            && v.t.alive == {0} && v.t.process == Some(0)
  {
    RunTwo(w, Boot(0), Ready(0), []);
    assert [Boot(0), Ready(0)] + [] == [Boot(0), Ready(0)];
  }

  lemma {:induction false} RunSplits(w: World, a: seq<Step>, b: seq<Step>)
    ensures Run(w, a + b) == Run(Run(w, a), b)
    decreases |a|
  {
    if a == [] {
      assert a + b == b;
    } else {
      assert (a + b)[0] == a[0] && (a + b)[1..] == a[1..] + b;
      RunSplits(Next(w, a[0]), a[1..], b);
    }
  }

  lemma CancelMayMiss()
    ensures var w := Run(NEW_WORLD, CancelledInBetween());
            var v := Next(Next(w, SetShared), CancelBlock);
            && w.calls == map[0 := Running(0)] && w.t.alive == {0}
            && v.t.alive == {0} && v.t.process == Some(0)
  {
    var s := CancelledInBetween();
    CutBeforeStartup();
    StartsUncancellable(Run(NEW_WORLD, s[..6]));
    RunSplits(NEW_WORLD, s[..6], s[6..]);
    assert s == s[..6] + s[6..] && s[6..] == [Boot(0), Ready(0)];
  }

  /** What the three counters of the transport count. */
  function Invalidations(w: World, schedule: seq<Step>): nat
    decreases |schedule|
  {
    if schedule == [] then 0
    else
      (if schedule[0].ResetBlock? || schedule[0].CloseBlock? || (schedule[0].CancelBlock? && w.t.inflight) then 1 else 0)
      + Invalidations(Next(w, schedule[0]), schedule[1..])
  }

  function RequestsCut(w: World, schedule: seq<Step>): nat
    decreases |schedule|
  {
    if schedule == [] then 0
    else
      (if (schedule[0].ResetBlock? || schedule[0].CancelBlock?) && w.t.inflight then 1 else 0)
      + RequestsCut(Next(w, schedule[0]), schedule[1..])
  }

  lemma StepCounts(w: World, step: Step)
    ensures var t := Next(w, step).t;
            && t.generation == w.t.generation
                 + (if step.ResetBlock? || step.CloseBlock? || (step.CancelBlock? && w.t.inflight) then 1 else 0)
            && t.cancellations == w.t.cancellations
                 + (if (step.ResetBlock? || step.CancelBlock?) && w.t.inflight then 1 else 0)
  {
  }

  lemma {:induction false} CountedFrom(w: World, schedule: seq<Step>)
    ensures Run(w, schedule).t.generation == w.t.generation + Invalidations(w, schedule)
    ensures Run(w, schedule).t.cancellations == w.t.cancellations + RequestsCut(w, schedule)
    decreases |schedule|
  {
    if schedule != [] {
      StepCounts(w, schedule[0]);
      CountedFrom(Next(w, schedule[0]), schedule[1..]);
    }
  }

  /** Restarts count the children ever started, the generation the invalidations, and
      cancellations the requests cut short by a cancel or a reset. */
  lemma CountersCount(schedule: seq<Step>)
    ensures var w := Run(NEW_WORLD, schedule);
            && w.t.generation == Invalidations(NEW_WORLD, schedule)
            && w.t.cancellations == RequestsCut(NEW_WORLD, schedule)
            && w.t.restarts == w.t.nextChild
            && forall c | c in w.publisher :: c < w.t.nextChild
  {
    RunKeepsInv(NEW_WORLD, schedule);
    CountedFrom(NEW_WORLD, schedule);
  }

  // ---------------------------------------------------------------- after a reset

  /** A child started for the request is running. */
  ghost predicate HasChild(w: World, r: nat) {
    exists c :: c in w.t.alive && c in w.publisher && w.publisher[c] == r
  }

  /** The request can get past the check that publishes a child: its own event is not
      set, and either it has yet to clear the shared event or finds it cleared. */
  predicate MayPublish(w: World, r: nat) {
    && r !in w.own
    && (r !in w.calls || w.calls[r].Queued? || w.calls[r].Locked?
        || ((w.calls[r].Cleared? || w.calls[r].Starting?) && !w.t.cancelEvent))
  }

  lemma StepKeepsBarred(w: World, step: Step, r: nat)
    requires Inv(w) && !HasChild(w, r) && !MayPublish(w, r)
    ensures !HasChild(Next(w, step), r) && !MayPublish(Next(w, step), r)
  {
    var v := Next(w, step);
    assert forall c | c in v.t.alive && c in w.t.alive && c in v.publisher && v.publisher[c] == r :: w.publisher[c] == r;
  }

  lemma {:induction false} BarredForever(w: World, schedule: seq<Step>, r: nat)
    requires Inv(w) && !HasChild(w, r) && !MayPublish(w, r)
    ensures !HasChild(Run(w, schedule), r)
    decreases |schedule|
  {
    if schedule != [] {
      StepKeepsInv(w, schedule[0]);
      StepKeepsBarred(w, schedule[0], r);
      BarredForever(Next(w, schedule[0]), schedule[1..], r);
    }
  }

  /** The steps that bring a request that may still publish to a running child. */
  function Way(w: World, r: nat): seq<Step> {
    (if w.lock.Some? && w.lock.value != r then [Fail(w.lock.value)] else [])
    + [Enter(r), Acquire(r), Clear(r), Mark(r), Boot(r)]
  }

  /** The lock is free for the request, which has not published yet and still may. */
  ghost predicate Clearway(w: World, r: nat) {
    && w.t.alive == {} && MayPublish(w, r)
    && (w.lock.None? || w.lock == Some(r))
    && (r in w.calls && Holds(w.calls[r]) <==> w.lock == Some(r))
  }

  lemma EnterAndAcquire(w: World, r: nat)
    requires Clearway(w, r)
    ensures var v := Next(Next(w, Enter(r)), Acquire(r)); Clearway(v, r) && v.lock == Some(r)
  {
  }

  lemma ClearAndMark(w: World, r: nat)
    requires Clearway(w, r) && w.lock == Some(r)
    ensures var v := Next(Next(w, Clear(r)), Mark(r));
            Clearway(v, r) && At(v, r).Starting?
  {
  }

  lemma BootPublishes(w: World, r: nat)
    requires Clearway(w, r) && At(w, r).Starting?
    ensures HasChild(Next(w, Boot(r)), r)
  {
    var v := Next(w, Boot(r));
    assert w.t.nextChild in v.t.alive && v.publisher[w.t.nextChild] == r;
  }

  lemma RunSteps(w: World, r: nat)
    ensures Run(w, [Enter(r), Acquire(r), Clear(r), Mark(r), Boot(r)])
         == Next(Next(Next(Next(Next(w, Enter(r)), Acquire(r)), Clear(r)), Mark(r)), Boot(r))
  {
    var a := Next(w, Enter(r));
    var b := Next(a, Acquire(r));
    var c := Next(b, Clear(r));
    var d := Next(c, Mark(r));
    var s := [Enter(r), Acquire(r), Clear(r), Mark(r), Boot(r)];
    assert s[1..] == [Acquire(r), Clear(r), Mark(r), Boot(r)];
    assert s[1..][1..] == [Clear(r), Mark(r), Boot(r)];
    assert s[1..][1..][1..] == [Mark(r), Boot(r)];
    assert s[1..][1..][1..][1..] == [Boot(r)];
    assert Run(d, [Boot(r)]) == Run(Next(d, Boot(r)), []);
    assert Run(c, [Mark(r), Boot(r)]) == Run(d, [Boot(r)]);
    assert Run(b, [Clear(r), Mark(r), Boot(r)]) == Run(c, [Mark(r), Boot(r)]);
    assert Run(a, [Acquire(r), Clear(r), Mark(r), Boot(r)]) == Run(b, [Clear(r), Mark(r), Boot(r)]);
  }

  lemma WayPublishes(w: World, r: nat)
    requires Inv(w) && w.t.alive == {} && MayPublish(w, r)
    ensures HasChild(Run(w, Way(w, r)), r)
  {
    var free := if w.lock.Some? && w.lock.value != r then Next(w, Fail(w.lock.value)) else w;
    assert Clearway(free, r);
    EnterAndAcquire(free, r);
    var b := Next(Next(free, Enter(r)), Acquire(r));
    ClearAndMark(b, r);
    BootPublishes(Next(Next(b, Clear(r)), Mark(r)), r);
    RunSteps(free, r);
    var tail := [Enter(r), Acquire(r), Clear(r), Mark(r), Boot(r)];
    if w.lock.Some? && w.lock.value != r {
      assert Way(w, r)[0] == Fail(w.lock.value) && Way(w, r)[1..] == tail;
    } else {
      assert Way(w, r) == tail;
    }
  }

  ghost predicate MayEverHaveChild(w: World, r: nat) {
    exists after: seq<Step> :: HasChild(Run(w, after), r)
  }

  /** After a reset's block, a request can ever have a running child exactly when it may
      still publish one: the shared event alone does not stop a request that clears it
      afterwards. */
  lemma WhoMayHaveChildAfterReset(before: seq<Step>, r: nat)
    ensures var w := Next(Run(NEW_WORLD, before), ResetBlock);
            MayEverHaveChild(w, r) <==> MayPublish(w, r)
  {
    RunKeepsInv(NEW_WORLD, before);
    var u := Run(NEW_WORLD, before);
    StepKeepsInv(u, ResetBlock);
    var w := Next(u, ResetBlock);
    assert w.t.alive == {};
    if MayPublish(w, r) {
      WayPublishes(w, r);
    } else if after: seq<Step> :| HasChild(Run(w, after), r) {
      BarredForever(w, after, r);
    }
  }

  lemma OwnIsKept(w: World, r: nat)
    requires Inv(w) && r in w.own
    ensures var v := Next(w, ResetBlock); !HasChild(v, r) && !MayPublish(v, r)
  {
  }

  /** Once a request's own event is set and a reset has returned, no child started for
      it is running, then or ever after. */
  lemma OwnEventAndResetBar(before: seq<Step>, after: seq<Step>, r: nat)
    requires r in Run(NEW_WORLD, before).own
    ensures !HasChild(Run(Next(Run(NEW_WORLD, before), ResetBlock), after), r)
  {
    RunKeepsInv(NEW_WORLD, before);
    StepKeepsInv(Run(NEW_WORLD, before), ResetBlock);
    OwnIsKept(Run(NEW_WORLD, before), r);
    BarredForever(Next(Run(NEW_WORLD, before), ResetBlock), after, r);
  }

  // ---------------------------------------------------------------- the object under its callers

  /** The transport object, its callers and its children. */
  class TransportHost {
    const transport: ProcessInferenceTransport
    var lock: Option<nat>
    var calls: map<nat, Pc>
    var own: set<nat>
    var publisher: map<nat, nat>

    function View(): World
      reads this, transport
    {
      World(transport.View(), lock, calls, own, publisher)
    }

    constructor ()
      ensures View() == NEW_WORLD && fresh(transport)
    {
      transport := new ProcessInferenceTransport();
      lock, calls, own, publisher := None, map[], {}, map[];
    }

    /** A request's attempt ends, whatever the reason. */
    method EndRequest(r: nat)
      modifies this, transport
      ensures View() == Leave(old(View()), r)
    {
      transport.inflight := false;
      lock := None;
      calls := calls[r := Ended];
    }

    method BootChild(r: nat)
      modifies this, transport
      ensures View() == BootStep(old(View()), r)
    {
      var startup := transport.StartChild(r in own);
      match startup
      case Refused => EndRequest(r);
      case Reused(child) => calls := calls[r := Running(child)];
      case Started(child) =>
        calls := calls[r := Booting(child)];
        publisher := publisher[child := r];
    }

    /** A request moves from one block to the next. */
    method Proceed(step: Step, r: nat)
      requires step == Acquire(r) || step == Clear(r) || step == Mark(r) || step == Ready(r)
      modifies this, transport
      ensures View() == Next(old(View()), step)
    {
      var pc := if r in calls then calls[r] else Ended;
      match step
      case Acquire(_) =>
        if pc.Queued? && lock.None? {
          lock := Some(r);
          calls := calls[r := Locked];
        }
      case Clear(_) =>
        if pc.Locked? {
          transport.cancelEvent := false;
          calls := calls[r := Cleared];
        }
      case Mark(_) =>
        if pc.Cleared? {
          var _ := transport.BeginRequest();
          calls := calls[r := Starting];
        }
      case Ready(_) =>
        if pc.Booting? {
          calls := calls[r := Running(pc.child)];
        }
    }

    /** A request boots its child or ends. */
    method Conclude(step: Step, r: nat)
      requires step == Boot(r) || step == BootTimeout(r) || step == Deadline(r) || step == Fail(r)
      modifies this, transport
      ensures View() == Next(old(View()), step)
    {
      var pc := if r in calls then calls[r] else Ended;
      match step
      case Boot(_) =>
        if pc.Starting? {
          BootChild(r);
        }
      case BootTimeout(_) =>
        if pc.Booting? {
          transport.GiveUpOn(pc.child);
          EndRequest(r);
        }
      case Deadline(_) =>
        if pc.Running? {
          transport.TerminateLocked();
          EndRequest(r);
        }
      case Fail(_) =>
        if Holds(pc) && r in calls {
          EndRequest(r);
        }
    }

    method Perform(step: Step)
      modifies this, transport
      ensures View() == Next(old(View()), step)
    {
      match step
      case Enter(r) =>
        if r !in calls {
          calls := calls[r := Queued];
        }
      case Acquire(r) => Proceed(step, r);
      case Clear(r) => Proceed(step, r);
      case Mark(r) => Proceed(step, r);
      case Ready(r) => Proceed(step, r);
      case Boot(r) => Conclude(step, r);
      case BootTimeout(r) => Conclude(step, r);
      case Deadline(r) => Conclude(step, r);
      case Fail(r) => Conclude(step, r);
      case SetOwn(r) => own := own + {r};
      case SetShared => transport.cancelEvent := true;
      case CancelBlock => var _ := transport.CancelRequest();
      case ResetBlock => var _ := transport.ResetClient();
      case CloseBlock => transport.Shut();
      case ChildDies(child) => transport.alive := transport.alive - {child};
    }

    method Drive(schedule: seq<Step>)
      requires View() == NEW_WORLD
      modifies this, transport
      ensures View() == Run(NEW_WORLD, schedule)
      ensures forall c | c in transport.alive :: transport.process == Some(c)
    {
      for k := 0 to |schedule|
        invariant Run(View(), schedule[k..]) == Run(NEW_WORLD, schedule)
      {
        assert schedule[k..][0] == schedule[k] && schedule[k..][1..] == schedule[k + 1..];
        Perform(schedule[k]);
      }
      OneChildAtATime(schedule);
    }
  }
}
