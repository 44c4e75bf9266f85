/** The trace validator's `sync_hold` block: the executable specification of a
    stop-and-wait run. */
module BenchValidator {
  import opened Common
  import opened BenchRunner

  /** One row per control step in every list, and at least one step: what the validator
      has checked before this block. */
  predicate Shaped(tr: Trace) {
    var n := |tr.actions|;
    n > 0 && |tr.dispatch| == n && |tr.before| == n && |tr.after| == n && |tr.held| == n
  }

  predicate IsInitial(e: Event) {
    e.merge.Some? && e.merge.value.accepted && e.merge.value.step == 0
  }

  /** Exactly one chunk was accepted before the first step, and delivered before it. */
  ghost predicate OneInitialChunk(tr: Trace)
    requires Shaped(tr)
  {
    exists k ::
      && 0 <= k < |tr.events| && IsInitial(tr.events[k])
      && (forall l | 0 <= l < |tr.events| && IsInitial(tr.events[l]) :: l == k)
      && tr.dispatch[0] >= tr.events[k].delivery
  }

  /** Requested with an empty queue, and merged, if at all, into an empty one. */
  predicate StopAndWait(e: Event) {
    e.depth == 0 && (e.merge.Some? ==> e.merge.value.accepted && e.merge.value.before == 0)
  }

  predicate HoldOk(tr: Trace, i: int)
    requires Shaped(tr) && 0 <= i < |tr.actions|
  {
    if tr.held[i] then
      i > 0 && tr.before[i] == 0 && tr.after[i] == 0 && tr.actions[i].command == tr.actions[i - 1].command
    else tr.before[i] > 0 && tr.after[i] == tr.before[i] - 1
  }

  predicate HoldStart(held: seq<bool>, i: int)
    requires 0 <= i < |held|
  {
    held[i] && (i == 0 || !held[i - 1])
  }

  ghost predicate RequestedAt(events: seq<Event>, step: int) {
    exists k :: 0 <= k < |events| && events[k].step > 0 && events[k].step == step
  }

  /** What the block demands of a trace. */
  ghost predicate Accepted(tr: Trace)
    requires Shaped(tr)
  {
    && OneInitialChunk(tr)
    && (forall k | 0 <= k < |tr.events| :: StopAndWait(tr.events[k]))
    && (forall i | 0 <= i < |tr.actions| :: HoldOk(tr, i))
    && (forall i | 0 <= i < |tr.held| && HoldStart(tr.held, i) :: RequestedAt(tr.events, i))
  }

  // ---------------------------------------------------------------- every demand counts

  /** From an accepted trace, an event with another depth, a merge that was not accepted or
      met a filled queue, makes one that is refused. */
  lemma BadEventsAreRefused(tr: Trace, k: nat, n: nat, m: Merge)
    requires Shaped(tr) && Accepted(tr) && k < |tr.events| && n > 0 && (!m.accepted || m.before > 0)
    ensures !Accepted(tr.(events := tr.events[k := tr.events[k].(depth := n)]))
    ensures !Accepted(tr.(events := tr.events[k := tr.events[k].(merge := Some(m))]))
  {
    assert !StopAndWait(tr.events[k := tr.events[k].(depth := n)][k]);
    assert !StopAndWait(tr.events[k := tr.events[k].(merge := Some(m))][k]);
  }

  /** So does a row that is marked the other way, or whose depths do not fit its mark. */
  lemma BadRowsAreRefused(tr: Trace, i: nat, n: nat)
    requires Shaped(tr) && Accepted(tr) && i < |tr.actions|
    ensures !Accepted(tr.(held := tr.held[i := !tr.held[i]]))
    ensures n != tr.before[i] ==> !Accepted(tr.(before := tr.before[i := n]))
    ensures n != tr.after[i] ==> !Accepted(tr.(after := tr.after[i := n]))
  {
    assert HoldOk(tr, i);
    assert !HoldOk(tr.(held := tr.held[i := !tr.held[i]]), i);
    assert n != tr.before[i] ==> !HoldOk(tr.(before := tr.before[i := n]), i);
    assert n != tr.after[i] ==> !HoldOk(tr.(after := tr.after[i := n]), i);
  }

  /** So does a hold with a command of its own, or in the first row. */
  lemma BadHoldsAreRefused(tr: Trace, i: nat, command: int)
    requires Shaped(tr) && Accepted(tr) && i < |tr.actions| && tr.held[i]
    ensures i > 0
    ensures command != tr.actions[i].command ==>
              !Accepted(tr.(actions := tr.actions[i := tr.actions[i].(command := command)]))
  {
    assert HoldOk(tr, i);
    var bad := tr.(actions := tr.actions[i := tr.actions[i].(command := command)]);
    assert command != tr.actions[i].command ==> !HoldOk(bad, i);
  }

  /** So does a first step before the initial chunk, a second initial chunk, or none. */
  lemma BadStartsAreRefused(tr: Trace, at: int, e: Event, k: nat)
    requires Shaped(tr) && Accepted(tr) && k < |tr.events| && IsInitial(tr.events[k])
    ensures at < tr.events[k].delivery ==> !Accepted(tr.(dispatch := tr.dispatch[0 := at]))
    ensures IsInitial(e) ==> !Accepted(tr.(events := tr.events + [e]))
    ensures !IsInitial(e) ==> !Accepted(tr.(events := tr.events[k := e]))
  {
    if IsInitial(e) {
      var more := tr.(events := tr.events + [e]);
      assert IsInitial(more.events[k]) && IsInitial(more.events[|tr.events|]);
    } else {
      var none := tr.(events := tr.events[k := e]);
      assert forall l | 0 <= l < |tr.events| :: !IsInitial(none.events[l]);
    }
  }

  /** So does a hold that begins without a request: one event less at that step. */
  lemma BadRequestsAreRefused(tr: Trace, i: nat, k: nat, step: nat)
    requires Shaped(tr) && Accepted(tr) && i < |tr.held| && HoldStart(tr.held, i)
    requires k < |tr.events| && step != i && forall l | 0 <= l < |tr.events| && l != k :: tr.events[l].step != i
    ensures !Accepted(tr.(events := tr.events[k := tr.events[k].(step := step)]))
  {
    var bad := tr.(events := tr.events[k := tr.events[k].(step := step)]);
    assert forall l | 0 <= l < |bad.events| :: bad.events[l].step != i;
    assert !RequestedAt(bad.events, i);
  }

  // ---------------------------------------------------------------- the validator

  /** False stands for the error the block raises. */
  method ValidateSyncHold(tr: Trace) returns (ok: bool)
    requires Shaped(tr)
    ensures ok <==> Accepted(tr)
  {
    var initial := CheckInitial(tr);
    if !initial {
      return false;
    }
    for k := 0 to |tr.events|
      invariant forall l | 0 <= l < k :: StopAndWait(tr.events[l])
    {
      if !StopAndWait(tr.events[k]) {
        return false;
      }
    }
    for i := 0 to |tr.actions|
      invariant forall l | 0 <= l < i :: HoldOk(tr, l)
    {
      if !HoldOk(tr, i) {
        return false;
      }
    }
    var requested := RequestSteps(tr.events);
    for i := 0 to |tr.held|
      invariant forall l | 0 <= l < i && HoldStart(tr.held, l) :: RequestedAt(tr.events, l)
    {
      if HoldStart(tr.held, i) && i !in requested {
        return false;
      }
    }
    return true;
  }

  method CheckInitial(tr: Trace) returns (ok: bool)
    requires Shaped(tr)
    ensures ok <==> OneInitialChunk(tr)
  {
    var count, first := 0, 0;
    for k := 0 to |tr.events|
      invariant 0 <= count
      invariant count == 0 <==> forall l | 0 <= l < k :: !IsInitial(tr.events[l])
      invariant count > 0 ==> 0 <= first < k && IsInitial(tr.events[first])
      invariant count == 1 ==> forall l | 0 <= l < k && IsInitial(tr.events[l]) :: l == first
      invariant count > 1 ==> exists l :: 0 <= l < k && l != first && IsInitial(tr.events[l])
    {
      if IsInitial(tr.events[k]) {
        if count == 0 {
          first := k;
        }
        count := count + 1;
      }
    }
    return count == 1 && tr.dispatch[0] >= tr.events[first].delivery;
  }

  lemma StepAdded(events: seq<Event>, k: nat)
    requires k < |events|
    ensures forall i :: RequestedAt(events[..k + 1], i) <==>
                          RequestedAt(events[..k], i) || (events[k].step > 0 && events[k].step == i)
  {
    forall i
      ensures RequestedAt(events[..k + 1], i) <==>
                RequestedAt(events[..k], i) || (events[k].step > 0 && events[k].step == i)
    {
      if RequestedAt(events[..k], i) {
        var l :| 0 <= l < k && events[..k][l].step > 0 && events[..k][l].step == i;
        assert events[..k + 1][l].step == i;
      }
      if events[k].step > 0 && events[k].step == i {
        assert events[..k + 1][k].step == i;
      }
      if RequestedAt(events[..k + 1], i) {
        var l :| 0 <= l < k + 1 && events[..k + 1][l].step > 0 && events[..k + 1][l].step == i;
        if l < k {
          assert events[..k][l].step == i;
        }
      }
    }
  }

  method RequestSteps(events: seq<Event>) returns (steps: set<int>)
    ensures forall i :: i in steps <==> RequestedAt(events, i)
  {
    steps := {};
    for k := 0 to |events|
      invariant forall i :: i in steps <==> RequestedAt(events[..k], i)
    {
      StepAdded(events, k);
      if events[k].step > 0 {
        steps := steps + {events[k].step};
      }
    }
    assert events[..|events|] == events;
  }
}
