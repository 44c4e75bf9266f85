/** Delivery-order independence of the scheduled queue commit.

    At a fixed control step, any order of delivering the pending responses leads to
    the same queue exactly when the newest in-order response is fresh, or every one is
    stale and none can fall back, or there is only one. */
module DeliveryOrder {
  import opened EngineState
  import opened EngineHistory
  import opened EngineInvariant
  import opened EngineTheorems
  import opened EngineWatch

  /** Deliver `rs` one after another, with no other step in between. */
  function MergeAll(c: Config, s: State, rs: seq<Response>): State
    decreases |rs|
  {
    if rs == [] then s else MergeAll(c, Merge(c, s, rs[0], true), rs[1..])
  }

  predicate Fresher(s: State, r: Response) {
    r.source > s.ep.latestDelivered
  }

  /** What a batch of deliveries is assumed to satisfy; see `PendingIsBatch`. */
  ghost predicate Batch(s: State, rs: seq<Response>) {
    && Open(s.flags)
    && (forall r | r in rs :: r.epoch == s.ep.epoch && r.actions != [])
    && (forall a, b | a in rs && b in rs && a.source == b.source :: a == b)
    && (forall i | 0 <= i < |s.out.queue| :: s.out.queue[i].source <= s.ep.latestDelivered)
  }

  ghost predicate NewestOf(s: State, rs: seq<Response>, n: Response) {
    n in rs && Fresher(s, n) && forall r | r in rs :: r.source <= n.source
  }

  ghost predicate AllLate(s: State, rs: seq<Response>) {
    forall r | r in rs :: !Fresher(s, r)
  }

  ghost predicate AllStale(s: State, rs: seq<Response>) {
    forall r | r in rs && Fresher(s, r) :: FullyStale(s.ep.step, r)
  }

  /** Everything the merges leave alone. */
  predicate SameEpisode(s: State, t: State) {
    && t.flags == s.flags && t.ep.epoch == s.ep.epoch && t.ep.step == s.ep.step
  }

  lemma {:induction false} LateDeliveriesChangeNothing(c: Config, s: State, rs: seq<Response>)
    requires Batch(s, rs) && AllLate(s, rs)
    ensures var t := MergeAll(c, s, rs);
            SameEpisode(s, t) && t.out == s.out && t.ep.latestDelivered == s.ep.latestDelivered
    decreases |rs|
  {
    if rs != [] {
      assert rs[0] in rs && forall x | x in rs[1..] :: x in rs;
      LateDeliveriesChangeNothing(c, Merge(c, s, rs[0], true), rs[1..]);
    }
  }

  /** No in-order response but the newest can reach the queue, or the newest replaces
      whatever did. */
  ghost predicate Settles(c: Config, s: State, rs: seq<Response>, n: Response) {
    FullyStale(s.ep.step, n) ==>
      if FallbackAllowed(c, s.out) then forall r | r in rs && Fresher(s, r) :: r == n
      else AllStale(s, rs)
  }

  lemma {:induction false} NewestDecides(c: Config, s: State, rs: seq<Response>, n: Response)
    requires Batch(s, rs) && NewestOf(s, rs, n) && Settles(c, s, rs, n)
    ensures var t := MergeAll(c, s, rs);
            && SameEpisode(s, t) && t.ep.latestDelivered == n.source
            && t.out == MergeOutput(c, s.out, s.ep.step, n)
    decreases |rs|
  {
    var r, rest := rs[0], rs[1..];
    var t := Merge(c, s, r, true);
    assert forall x | x in rest :: x in rs;
    if r == n {
      LateDeliveriesChangeNothing(c, t, rest);
    } else if Fresher(s, r) {
      assert r.source < n.source;
      NewestDecides(c, t, rest, n);
    } else {
      NewestDecides(c, t, rest, n);
    }
  }

  /** So the queue ends as the whole of what is still to come of the newest chunk, or all
      of it for a fallback, or is left alone. */
  lemma NewestIsServed(c: Config, s: State, rs: seq<Response>, n: Response)
    requires Batch(s, rs) && NewestOf(s, rs, n) && Settles(c, s, rs, n)
    ensures var t := MergeAll(c, s, rs);
            var passed := Passed(s.ep.step, n.source);
            && t.ep.latestDelivered == n.source
            && (if passed < |n.actions| then Serves(t.out.queue, n, passed)
                else if c.fallback && s.out.queue == [] && (s.out.starvedPulls > 0 || c.holdBound <= s.out.holdUsed)
                then Serves(t.out.queue, n, 0)
                else t.out == s.out)
  {
    NewestDecides(c, s, rs, n);
    if Commits(c, s, n, true) {
      CommitsWhole(c, s, n, true);
    } else {
      RejectedLeavesQueue(c, s, n, true);
    }
  }

  // ---------------------------------------------------------------- the exact condition

  /** If the newest in-order response is stale, then either fallback is not allowed and
      all in-order ones are stale, or it is allowed and there is no other one. */
  ghost predicate OrderFree(c: Config, s: State, rs: seq<Response>) {
    forall n | NewestOf(s, rs, n) :: Settles(c, s, rs, n)
  }

  ghost predicate Permutation(ps: seq<Response>, rs: seq<Response>) {
    multiset(ps) == multiset(rs)
  }

  lemma SameElements(ps: seq<Response>, rs: seq<Response>)
    requires Permutation(ps, rs)
    ensures forall r :: r in ps <==> r in rs
  {
    forall r ensures r in ps <==> r in rs {
      assert r in ps <==> r in multiset(ps);
    }
  }

  lemma {:induction false} NewestExists(s: State, rs: seq<Response>) returns (n: Response)
    requires exists r :: r in rs && Fresher(s, r)
    ensures NewestOf(s, rs, n)
    decreases |rs|
  {
    assert forall r | r in rs :: r == rs[0] || r in rs[1..];
    if exists r :: r in rs[1..] && Fresher(s, r) {
      n := NewestExists(s, rs[1..]);
      if rs[0].source > n.source {
        n := rs[0];
      }
    } else {
      var r :| r in rs && Fresher(s, r);
      n := rs[0];
      assert forall x | x in rs[1..] :: !Fresher(s, x);
    }
  }

  lemma PermutationsAgree(c: Config, s: State, rs: seq<Response>, ps: seq<Response>)
    requires Batch(s, rs) && OrderFree(c, s, rs) && Permutation(ps, rs)
    ensures MergeAll(c, s, ps).out == MergeAll(c, s, rs).out
    ensures MergeAll(c, s, ps).ep.latestDelivered == MergeAll(c, s, rs).ep.latestDelivered
  {
    SameElements(ps, rs);
    if AllLate(s, rs) {
      LateDeliveriesChangeNothing(c, s, rs);
      LateDeliveriesChangeNothing(c, s, ps);
    } else {
      var n := NewestExists(s, rs);
      NewestDecides(c, s, rs, n);
      NewestDecides(c, s, ps, n);
    }
  }

  function Without(rs: seq<Response>, k: nat): seq<Response>
    requires k < |rs|
  {
    rs[..k] + rs[k + 1..]
  }

  lemma MovedToFront(rs: seq<Response>, k: nat)
    requires k < |rs|
    ensures Permutation([rs[k]] + Without(rs, k), rs)
    ensures forall x | x in Without(rs, k) :: x in rs
    ensures forall x | x in rs && x != rs[k] :: x in Without(rs, k)
  {
    assert rs == rs[..k] + [rs[k]] + rs[k + 1..];
  }

  lemma NewestFirst(c: Config, s: State, n: Response, others: seq<Response>)
    requires Batch(s, [n] + others) && NewestOf(s, [n] + others, n)
    ensures MergeAll(c, s, [n] + others).out == MergeOutput(c, s.out, s.ep.step, n)
  {
    var rs := [n] + others;
    assert rs[1..] == others && forall x | x in others :: x in rs;
    var t := Merge(c, s, n, true);
    LateDeliveriesChangeNothing(c, t, others);
  }

  /** An older response that reaches the queue before a stale newest one stays there. */
  lemma OlderFirst(c: Config, s: State, f: Response, n: Response, rest: seq<Response>)
    requires Batch(s, [f] + ([n] + rest)) && NewestOf(s, [f] + ([n] + rest), n)
    requires FullyStale(s.ep.step, n) && Fresher(s, f) && f != n && Accepted(c, s, f, true)
    ensures MergeAll(c, s, [f] + ([n] + rest)).out == MergeOutput(c, s.out, s.ep.step, f)
  {
    var rs := [f] + ([n] + rest);
    assert rs[1..] == [n] + rest && forall x | x in [n] + rest :: x in rs;
    assert f in rs && n in [n] + rest && f.source < n.source;
    var t := Merge(c, s, f, true);
    NewestFirst(c, t, n, rest);
  }

  lemma SecondToFront(n: Response, f: Response, others: seq<Response>, rest: seq<Response>)
    requires multiset([f] + rest) == multiset(others)
    ensures multiset([f] + ([n] + rest)) == multiset([n] + others)
  {
    assert multiset([f] + ([n] + rest)) == multiset([n]) + multiset([f] + rest);
    assert multiset([n] + others) == multiset([n]) + multiset(others);
  }

  lemma RemainsElsewhere(n: Response, f: Response, others: seq<Response>, rs: seq<Response>)
    requires multiset([n] + others) == multiset(rs) && f in rs && f != n
    ensures f in others
  {
    assert f in multiset(rs) && multiset([n] + others) == multiset([n]) + multiset(others);
  }

  /** Two arrangements of `rs` that differ in which of two elements comes first. */
  lemma Arrange(rs: seq<Response>, n: Response, f: Response) returns (others: seq<Response>, rest: seq<Response>)
    requires n in rs && f in rs && n != f
    ensures Permutation([n] + others, rs) && Permutation([f] + ([n] + rest), rs)
  {
    var i :| 0 <= i < |rs| && rs[i] == n;
    MovedToFront(rs, i);
    others := Without(rs, i);
    RemainsElsewhere(n, f, others, rs);
    var j :| 0 <= j < |others| && others[j] == f;
    MovedToFront(others, j);
    rest := Without(others, j);
    SecondToFront(n, f, others, rest);
  }

  /** If the newest is stale and an older in-order response would be accepted, delivering
      the older one first puts it in the queue and delivering it second does not. */
  lemma OrderMatters(c: Config, s: State, rs: seq<Response>)
    returns (ps: seq<Response>, qs: seq<Response>)
    requires Batch(s, rs) && !OrderFree(c, s, rs)
    ensures Permutation(ps, rs) && Permutation(qs, rs)
    ensures MergeAll(c, s, ps).out.queue != MergeAll(c, s, qs).out.queue
  {
    var n :| NewestOf(s, rs, n) && !Settles(c, s, rs, n);
    var f :| f in rs && Fresher(s, f) && f != n && (FallbackAllowed(c, s.out) || !FullyStale(s.ep.step, f));
    var others, rest := Arrange(rs, n, f);
    qs := [n] + others;
    ps := [f] + ([n] + rest);
    SameElements(ps, rs);
    SameElements(qs, rs);
    NewestFirst(c, s, n, others);
    OlderFirst(c, s, f, n, rest);
    assert MergeAll(c, s, ps).out.queue[0].source == f.source;
  }

  // ---------------------------------------------------------------- reachable states

  lemma {:induction false} OneCopyOnly(rs: seq<Response>, a: Response, b: Response)
    requires a in rs && b in rs && a != b && a.Id() == b.Id()
    ensures Copies(rs, a.Id()) >= 2
  {
    if rs[0] == a {
      SomeCopies(rs[1..], b);
    } else if rs[0] == b {
      SomeCopies(rs[1..], a);
    } else {
      OneCopyOnly(rs[1..], a, b);
    }
  }

  lemma SameSourceSameRequest(completed: seq<Request>, a: Request, b: Request)
    requires Increasing(completed) && a in completed && b in completed && a.source == b.source
    ensures a == b
  {
  }

  /** The pending heap of a reachable open state is a batch. */
  lemma PendingIsBatch(c: Config, w: World)
    requires c.scheduler && Inv(c, w) && Open(w.s.flags)
    ensures Batch(w.s, w.s.ep.pending)
  {
    var pending := w.s.ep.pending;
    forall a, b | a in pending && b in pending && a.source == b.source ensures a == b {
      SameSourceSameRequest(w.h.completed, Answered(a), Answered(b));
      assert AccountedFor(w.s, w.h.fate, a.Id());
      if a != b {
        OneCopyOnly(pending, a, b);
        assert false;
      }
    }
  }

  /** All orders of delivering the pending responses agree on the queue and on the latest
      delivered source step. */
  ghost predicate OrdersAgree(c: Config, s: State) {
    forall ps | Permutation(ps, s.ep.pending) ::
      && MergeAll(c, s, ps).out == MergeAll(c, s, s.ep.pending).out
      && MergeAll(c, s, ps).ep.latestDelivered == MergeAll(c, s, s.ep.pending).ep.latestDelivered
  }

  /** In every reachable open state, with fallback on or off, the order of delivery at one
      control step does not matter exactly when `OrderFree` holds. */
  lemma DeliveryOrderIndependence(c: Config, task: Task, schedule: seq<Step>)
    requires c.Valid() && c.scheduler
    requires Open(Run(c, Begin(task), schedule).s.flags)
    ensures var s := Run(c, Begin(task), schedule).s;
            OrderFree(c, s, s.ep.pending) <==> OrdersAgree(c, s)
  {
    ReachableInv(c, task, schedule);
    var w := Run(c, Begin(task), schedule);
    var s := w.s;
    PendingIsBatch(c, w);
    if OrderFree(c, s, s.ep.pending) {
      forall ps | Permutation(ps, s.ep.pending)
        ensures MergeAll(c, s, ps).out == MergeAll(c, s, s.ep.pending).out
        ensures MergeAll(c, s, ps).ep.latestDelivered == MergeAll(c, s, s.ep.pending).ep.latestDelivered
      {
        PermutationsAgree(c, s, s.ep.pending, ps);
      }
    } else {
      var ps, qs := OrderMatters(c, s, s.ep.pending);
    }
  }

  /** For chunks of one length the order matters exactly when fallback is allowed, the
      newest in-order response is stale and it is not alone. */
  lemma OneLengthOrder(c: Config, s: State, rs: seq<Response>, length: nat)
    requires forall r | r in rs :: |r.actions| == length
    ensures OrderFree(c, s, rs) <==>
              || !FallbackAllowed(c, s.out)
              || forall n, r | NewestOf(s, rs, n) && FullyStale(s.ep.step, n) && r in rs && Fresher(s, r) :: r == n
  {
  }
}
