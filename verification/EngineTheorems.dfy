/** What holds of every run of the engine, under every schedule of its threads. */
module EngineTheorems {
  import opened Common
  import opened EngineState
  import opened EngineHistory
  import opened EngineInvariant
  import opened EngineSteps

  lemma BeginEstablishesInv(c: Config, task: Task)
    ensures Inv(c, Begin(task))
  {
  }

  lemma {:induction false} RunKeepsInv(c: Config, w: World, schedule: seq<Step>)
    requires c.Valid() && Inv(c, w)
    ensures Inv(c, Run(c, w, schedule))
    decreases |schedule|
  {
    if schedule != [] {
      StepKeepsInv(c, w, schedule[0]);
      RunKeepsInv(c, Advance(c, w, schedule[0]), schedule[1..]);
    }
  }

  lemma ReachableInv(c: Config, task: Task, schedule: seq<Step>)
    requires c.Valid()
    ensures Inv(c, Run(c, Begin(task), schedule))
  {
    BeginEstablishesInv(c, task);
    RunKeepsInv(c, Begin(task), schedule);
  }

  // ---------------------------------------------------------------- order of commits and packets

  /** Commits move strictly forward in epoch, or in both source step and request
      ordinal; packets, holds included, never go back to an older observation. */
  lemma CommitsAndPacketsMoveForward(c: Config, task: Task, schedule: seq<Step>)
    requires c.Valid()
    ensures var h := Run(c, Begin(task), schedule).h;
            && (forall i, j | 0 <= i < j < |h.commits| :: Earlier(h.commits[i], h.commits[j]))
            && (forall i, j | 0 <= i < j < |h.dispatches| ::
                  NotAfter(h.dispatches[i].packet.item, h.dispatches[j].packet.item))
  {
    ReachableInv(c, task, schedule);
  }

  // ---------------------------------------------------------------- policy ownership

  /** The provider was reset for `epoch` at `i`, and from there to `j` the policy
      served that epoch only. */
  ghost predicate ServedOnly(p: seq<PolicyEvent>, epoch: nat, i: nat, j: nat) {
    && i < j <= |p|
    && p[i] == ResetCall(epoch, true)
    && (forall m | i < m < j :: p[m].InferCall? && p[m].epoch == epoch)
  }

  lemma {:induction false} CleanSinceWitness(p: seq<PolicyEvent>, epoch: nat) returns (i: nat)
    requires CleanSince(p, epoch)
    ensures ServedOnly(p, epoch, i, |p|)
    decreases |p|
  {
    var last := |p| - 1;
    if p[last].ResetCall? {
      i := last;
    } else {
      i := CleanSinceWitness(p[..last], epoch);
    }
  }

  /** Every committed chunk was computed by a policy call that followed a successful
      provider reset of its own epoch, with no call for another epoch and no other
      provider reset in between. */
  lemma CommitsUseCleanPolicy(c: Config, task: Task, schedule: seq<Step>, k: Commit)
    returns (i: nat, j: nat)
    requires c.Valid()
    requires k in Run(c, Begin(task), schedule).h.commits
    ensures var p := Run(c, Begin(task), schedule).h.policy;
            j < |p| && p[j] == InferCall(k.epoch, k.ordinal) && ServedOnly(p, k.epoch, i, j)
  {
    ReachableInv(c, task, schedule);
    var h := Run(c, Begin(task), schedule).h;
    assert CalledClean(h.policy, RequestId(k.epoch, k.ordinal));
    j :| 0 <= j < |h.policy| && h.policy[j] == InferCall(k.epoch, k.ordinal) && CleanSince(h.policy[..j], k.epoch);
    i := CleanSinceWitness(h.policy[..j], k.epoch);
  }

  // ---------------------------------------------------------------- episode isolation

  /** Nothing an engine holds belongs to an earlier episode. */
  predicate HoldsOnlyCurrent(s: State) {
    && (s.ep.mailbox.Some? ==> s.ep.mailbox.value.epoch == s.ep.epoch)
    && (forall r | r in s.ep.pending :: r.epoch == s.ep.epoch)
    && (forall q | q in s.out.queue :: q.epoch == s.ep.epoch)
    && (s.out.lastAction.Some? ==> s.out.lastAction.value.epoch == s.ep.epoch)
  }

  lemma EpisodesAreIsolated(c: Config, task: Task, schedule: seq<Step>)
    requires c.Valid()
    ensures HoldsOnlyCurrent(Run(c, Begin(task), schedule).s)
  {
    ReachableInv(c, task, schedule);
  }

  /** Why a packet this engine issued can no longer be current. */
  predicate Retired(s: State, p: Packet) {
    || p.item.epoch < s.ep.epoch
    || p.item.revision < s.goal.revision
    || (p.item.epoch == s.ep.epoch && s.flags.fatal)
  }

  lemma RetiredExactlyWhenNotCurrent(c: Config, s: State, p: Packet)
    requires Issued(c, s, p)
    ensures Retired(s, p) <==> !ActionIsCurrent(c, s, p)
  {
  }

  lemma LifecycleKeepsRetired(c: Config, s: State, a: LifecycleStep, p: Packet)
    requires Owned(c, s) && Issued(c, s, p) && Retired(s, p)
    ensures var t := LifecycleNext(c, s, a); Issued(c, t, p) && Retired(t, p)
  {
  }

  lemma WorkKeepsRetired(c: Config, s: State, step: Step, p: Packet)
    requires Issued(c, s, p) && Retired(s, p) && !step.Lifecycle?
    ensures Issued(c, Next(c, s, step), p) && Retired(Next(c, s, step), p)
  {
  }

  lemma StepKeepsRetired(c: Config, s: State, step: Step, p: Packet)
    requires Owned(c, s) && Issued(c, s, p) && Retired(s, p)
    ensures Issued(c, Next(c, s, step), p) && Retired(Next(c, s, step), p)
  {
    if step.Lifecycle? {
      LifecycleKeepsRetired(c, s, step.life, p);
    } else {
      WorkKeepsRetired(c, s, step, p);
    }
  }

  lemma {:induction false} RunKeepsRetired(c: Config, w: World, schedule: seq<Step>, p: Packet)
    requires c.Valid() && Inv(c, w) && Issued(c, w.s, p) && Retired(w.s, p)
    ensures Issued(c, Run(c, w, schedule).s, p) && Retired(Run(c, w, schedule).s, p)
    decreases |schedule|
  {
    if schedule != [] {
      StepKeepsRetired(c, w.s, schedule[0], p);
      StepKeepsInv(c, w, schedule[0]);
      RunKeepsRetired(c, Advance(c, w, schedule[0]), schedule[1..], p);
    }
  }

  /** Once `is_action_current` is false for a packet that was handed out, no later
      reset, stop, restart, fatal error or task change A-B-A makes it true again. */
  lemma StaleForever(c: Config, task: Task, before: seq<Step>, after: seq<Step>, d: Dispatch)
    requires c.Valid()
    requires d in Run(c, Begin(task), before).h.dispatches
    requires !ActionIsCurrent(c, Run(c, Begin(task), before).s, d.packet)
    ensures !ActionIsCurrent(c, Run(c, Run(c, Begin(task), before), after).s, d.packet)
  {
    ReachableInv(c, task, before);
    var w := Run(c, Begin(task), before);
    RetiredExactlyWhenNotCurrent(c, w.s, d.packet);
    RunKeepsRetired(c, w, after, d.packet);
    RetiredExactlyWhenNotCurrent(c, Run(c, w, after).s, d.packet);
  }

  // ---------------------------------------------------------------- fate of responses

  /** No teardown is in progress, every notice it owed has been sent, and neither
      thread holds a response whose verdict it still has to report. */
  predicate Quiet(s: State) {
    && s.lifecycle.LifecycleIdle? && s.notices.owed == []
    && !Delivers(s.delivery) && !s.worker.Informing?
  }

  lemma {:induction false} NoCopies(rs: seq<Response>, id: RequestId)
    requires forall r | r in rs :: r.Id() != id
    ensures Copies(rs, id) == 0
  {
    if rs != [] {
      NoCopies(rs[1..], id);
    }
  }

  lemma {:induction false} SomeCopies(rs: seq<Response>, r: Response)
    requires r in rs
    ensures Copies(rs, r.Id()) > 0
  {
    if rs[0] != r {
      SomeCopies(rs[1..], r);
    }
  }

  lemma {:induction false} CopyFound(rs: seq<Response>, id: RequestId)
    requires Copies(rs, id) > 0
    ensures exists r :: r in rs && r.Id() == id
  {
    if rs[0].Id() == id {
      assert rs[0] in rs;
    } else {
      CopyFound(rs[1..], id);
      var r :| r in rs[1..] && r.Id() == id;
      assert r in rs;
    }
  }

  /** Each response is given at most one terminal status, and once a later epoch has
      begun and the engine is quiet it has been given exactly one, unless the
      teardown that cancelled it raised. */
  lemma OneVerdictPerResponse(c: Config, task: Task, schedule: seq<Step>, id: RequestId)
    requires c.Valid()
    ensures var w := Run(c, Begin(task), schedule);
            && Verdicts(w.s.notices.told, id) <= 1
            && (id in w.h.fate.responses && id.epoch < w.s.ep.epoch && Quiet(w.s) ==>
                  (Verdicts(w.s.notices.told, id) == 1 <==> forall r | r in w.h.fate.lost :: r.Id() != id))
  {
    ReachableInv(c, task, schedule);
    var w := Run(c, Begin(task), schedule);
    assert AccountedFor(w.s, w.h.fate, id);
    if id in w.h.fate.responses && id.epoch < w.s.ep.epoch && Quiet(w.s) {
      NoCopies(w.s.ep.pending, id);
      if forall r | r in w.h.fate.lost :: r.Id() != id {
        NoCopies(w.h.fate.lost, id);
      } else {
        var r :| r in w.h.fate.lost && r.Id() == id;
        SomeCopies(w.h.fate.lost, r);
      }
    }
  }

  // ---------------------------------------------------------------- counters

  /** Until a fatal error or a stop, every scheduled response has been delivered,
      rejected out of order, is pending, or is the one popped but not merged. */
  predicate RepliesBalance(s: State) {
    !s.flags.shutdown && !s.flags.fatal ==>
      s.metrics.scheduled == s.metrics.delivered + s.metrics.outOfOrder + |s.ep.pending| + InDelivery(s)
  }

  lemma RepliesConserved(c: Config, task: Task, schedule: seq<Step>)
    requires c.Valid()
    ensures RepliesBalance(Run(c, Begin(task), schedule).s)
  {
    ReachableInv(c, task, schedule);
  }

  predicate IntakeBalanced(w: World) {
    var m := w.s.metrics;
    m.received - m.skipped + w.h.intake.requeued == m.started + m.superseded + Occupancy(w.s.ep)
  }

  /** The mailbox law holds exactly when stop and start left no observation uncounted. */
  lemma IntakeBalancedExactly(c: Config, task: Task, schedule: seq<Step>)
    requires c.Valid()
    ensures var w := Run(c, Begin(task), schedule);
            IntakeBalanced(w) <==> w.h.intake.drift == 0
  {
    ReachableInv(c, task, schedule);
  }

  lemma StepWithoutStop(c: Config, w: World, step: Step)
    requires step != Lifecycle(DoStopBegin) && !w.s.flags.shutdown && w.h.intake.drift == 0
    ensures !Next(c, w.s, step).flags.shutdown && Record(c, w.h, w.s, step).intake.drift == 0
  {
  }

  lemma {:induction false} RunWithoutStop(c: Config, w: World, schedule: seq<Step>)
    requires Lifecycle(DoStopBegin) !in schedule && !w.s.flags.shutdown && w.h.intake.drift == 0
    ensures Run(c, w, schedule).h.intake.drift == 0
    decreases |schedule|
  {
    if schedule != [] {
      StepWithoutStop(c, w, schedule[0]);
      RunWithoutStop(c, Advance(c, w, schedule[0]), schedule[1..]);
    }
  }

  /** In particular it holds of every run in which `stop` was not called. */
  lemma IntakeBalancedWithoutStop(c: Config, task: Task, schedule: seq<Step>)
    requires c.Valid() && Lifecycle(DoStopBegin) !in schedule
    ensures IntakeBalanced(Run(c, Begin(task), schedule))
  {
    RunWithoutStop(c, Begin(task), schedule);
    IntakeBalancedExactly(c, task, schedule);
  }

  /** The call throws an observation away, or takes one over, without counting it. */
  predicate MiscountsMailbox(s: State, step: Step) {
    && s.ep.mailbox.Some? && s.lifecycle.LifecycleIdle?
    && (step == Lifecycle(DoStopBegin) || (step == Lifecycle(DoStart) && s.flags.shutdown && !s.flags.started))
  }

  lemma CallerKeepsBalance(c: Config, w: World, step: Step)
    requires IntakeBalanced(w) && (step.Control? || step.Deliver?)
    ensures IntakeBalanced(Advance(c, w, step))
  {
  }

  lemma WorkerKeepsBalance(c: Config, w: World, step: Step)
    requires IntakeBalanced(w) && (step.Ask? || step.Answer?)
    ensures IntakeBalanced(Advance(c, w, step))
  {
  }

  lemma LifecycleUnbalancesExactly(c: Config, w: World, a: LifecycleStep)
    requires IntakeBalanced(w)
    ensures IntakeBalanced(Advance(c, w, Lifecycle(a))) <==> !MiscountsMailbox(w.s, Lifecycle(a))
  {
  }

  lemma StepUnbalancesExactly(c: Config, w: World, step: Step)
    requires IntakeBalanced(w)
    ensures IntakeBalanced(Advance(c, w, step)) <==> !MiscountsMailbox(w.s, step)
  {
    if step.Lifecycle? {
      LifecycleUnbalancesExactly(c, w, step.life);
    } else if step.Ask? || step.Answer? {
      WorkerKeepsBalance(c, w, step);
    } else {
      CallerKeepsBalance(c, w, step);
    }
  }

  lemma {:induction false} RunOneMore(c: Config, w: World, schedule: seq<Step>, k: nat)
    requires k < |schedule|
    ensures Run(c, w, schedule[..k + 1]) == Advance(c, Run(c, w, schedule[..k]), schedule[k])
    decreases k
  {
    if k == 0 {
      assert schedule[..1][1..] == [] && Run(c, w, schedule[..0]) == w;
    } else {
      assert schedule[..k + 1][1..] == schedule[1..][..k] && schedule[..k][1..] == schedule[1..][..k - 1];
      RunOneMore(c, Advance(c, w, schedule[0]), schedule[1..], k - 1);
    }
  }

  lemma {:induction false} BalancedUpTo(c: Config, w: World, schedule: seq<Step>, k: nat)
    requires k <= |schedule| && IntakeBalanced(w)
    requires forall i | 0 <= i < k :: !MiscountsMailbox(Run(c, w, schedule[..i]).s, schedule[i])
    ensures IntakeBalanced(Run(c, w, schedule[..k]))
  {
    if k > 0 {
      BalancedUpTo(c, w, schedule, k - 1);
      RunOneMore(c, w, schedule, k - 1);
      StepUnbalancesExactly(c, Run(c, w, schedule[..k - 1]), schedule[k - 1]);
    }
  }

  /** The mailbox law holds throughout a run exactly when no stop, and no start after a
      stop, finds the mailbox occupied. */
  lemma BalancedThroughoutExactly(c: Config, task: Task, schedule: seq<Step>)
    ensures (forall k | 0 <= k <= |schedule| :: IntakeBalanced(Run(c, Begin(task), schedule[..k]))) <==>
            (forall k | 0 <= k < |schedule| ::
               !MiscountsMailbox(Run(c, Begin(task), schedule[..k]).s, schedule[k]))
  {
    var w := Begin(task);
    if forall k | 0 <= k <= |schedule| :: IntakeBalanced(Run(c, w, schedule[..k])) {
      forall k | 0 <= k < |schedule| ensures !MiscountsMailbox(Run(c, w, schedule[..k]).s, schedule[k]) {
        assert IntakeBalanced(Run(c, w, schedule[..k])) && IntakeBalanced(Run(c, w, schedule[..k + 1]));
        RunOneMore(c, w, schedule, k);
        StepUnbalancesExactly(c, Run(c, w, schedule[..k]), schedule[k]);
      }
    }
    if forall k | 0 <= k < |schedule| :: !MiscountsMailbox(Run(c, w, schedule[..k]).s, schedule[k]) {
      forall k | 0 <= k <= |schedule| ensures IntakeBalanced(Run(c, w, schedule[..k])) {
        BalancedUpTo(c, w, schedule, k);
      }
    }
  }

  /** It fails after stop, an observation, and start: the start zeroes the counters
      but leaves the observation in the mailbox. */
  lemma RestartBreaksIntakeBalance(c: Config, task: Task)
    requires c.Valid()
    ensures !IntakeBalanced(Run(c, Begin(task),
              [Lifecycle(DoStopBegin), Lifecycle(DoStopFinish(Joined)), Lifecycle(DoTeardownEnd),
               Control(DoNotify), Lifecycle(DoStart)]))
  {
    var a := [Lifecycle(DoStopBegin), Lifecycle(DoStopFinish(Joined)), Lifecycle(DoTeardownEnd),
              Control(DoNotify), Lifecycle(DoStart)];
    var w1 := Advance(c, Begin(task), a[0]);
    var w2 := Advance(c, w1, a[1]);
    var w3 := Advance(c, w2, a[2]);
    var w4 := Advance(c, w3, a[3]);
    var w5 := Advance(c, w4, a[4]);
    assert !IntakeBalanced(w5);
    assert a[1..][0] == a[1] && a[1..][1..] == a[2..] && a[2..][1..] == a[3..] && a[3..][1..] == a[4..];
    assert Run(c, w4, a[4..]) == Run(c, w5, []);
    assert Run(c, w2, a[2..]) == Run(c, w3, a[3..]) == Run(c, w4, a[4..]);
  }

  // ---------------------------------------------------------------- request budget

  lemma {:induction false} SpacingAccumulates(steps: seq<int>, interval: nat, k: nat)
    requires Spaced(steps, interval) && k < |steps|
    ensures steps[k] >= steps[0] + k * interval
  {
    if k > 0 {
      SpacingAccumulates(steps, interval, k - 1);
    }
  }

  lemma ProductGrows(a: int, b: int, k: nat)
    requires a <= b
    ensures a * k <= b * k
  {
    assert b * k == a * k + (b - a) * k;
  }

  lemma QuotientBound(n: nat, interval: nat, step: int)
    requires interval > 0 && n * interval <= step
    ensures n <= step / interval
  {
    var q := step / interval;
    assert step < (q + 1) * interval;
    if n > q {
      ProductGrows(q + 1, n, interval);
      assert false;
    }
  }

  /** Distinct observations submitted in an epoch are at least the minimum interval
      apart, so there are at most floor(step / interval) + 1 of them. */
  lemma RequestsStayWithinBudget(c: Config, task: Task, schedule: seq<Step>)
    requires c.Valid()
    ensures var w := Run(c, Begin(task), schedule);
            && Spaced(w.h.intake.submitted, c.interval)
            && (w.s.ep.step >= 0 ==> |w.h.intake.submitted| <= w.s.ep.step / c.interval + 1)
            && (w.s.ep.step < 0 ==> w.h.intake.submitted == [])
  {
    ReachableInv(c, task, schedule);
    var w := Run(c, Begin(task), schedule);
    var submitted := w.h.intake.submitted;
    if submitted != [] {
      var n := |submitted| - 1;
      SpacingAccumulates(submitted, c.interval, n);
      QuotientBound(n, c.interval, w.s.ep.step);
    }
  }

  // ---------------------------------------------------------------- bounded replay

  /** At most `bounded_hold_steps` holds follow a dequeue before the next one. */
  lemma HoldsAreBounded(c: Config, task: Task, schedule: seq<Step>)
    requires c.Valid()
    ensures Run(c, Begin(task), schedule).h.replay.holds <= c.holdBound
  {
    ReachableInv(c, task, schedule);
  }

  /** How many pulls must have found the queue empty before a fully stale chunk is
      let through: the holds first, or one starved pull if there is nothing to hold. */
  function PatienceNeeded(c: Config, out: Output): nat {
    if out.lastAction.Some? || c.holdBound == 0 then c.holdBound else 1
  }

  /** A current, in-order, fully stale chunk is accepted exactly when fallback is on,
      the queue is empty, and pulls have been failing for long enough. */
  lemma FallbackExactly(c: Config, task: Task, schedule: seq<Step>, r: Response, scheduled: bool)
    requires c.Valid()
    requires InOrder(Run(c, Begin(task), schedule).s, r, scheduled)
    requires FullyStale(Run(c, Begin(task), schedule).s.ep.step, r)
    ensures var w := Run(c, Begin(task), schedule);
            Accepted(c, w.s, r, scheduled) <==>
              && c.fallback && w.s.out.queue == []
              && w.h.replay.emptyPulls >= PatienceNeeded(c, w.s.out)
  {
    ReachableInv(c, task, schedule);
  }

  /** So `max(1, bounded_hold_steps)` pulls on an empty queue always suffice. */
  lemma NoStarvation(c: Config, task: Task, schedule: seq<Step>, r: Response, scheduled: bool)
    requires c.Valid() && c.fallback
    requires InOrder(Run(c, Begin(task), schedule).s, r, scheduled)
    requires Run(c, Begin(task), schedule).s.out.queue == []
    requires Run(c, Begin(task), schedule).h.replay.emptyPulls >= Max(1, c.holdBound)
    ensures Accepted(c, Run(c, Begin(task), schedule).s, r, scheduled)
  {
    if FullyStale(Run(c, Begin(task), schedule).s.ep.step, r) {
      FallbackExactly(c, task, schedule, r, scheduled);
    }
  }

  // ---------------------------------------------------------------- alignment

  /** With one returned action per observation, an action dequeued at control step k
      from a chunk accepted without fallback was planned for step k, or for k - 1
      exactly when that chunk was committed after step k - 1 had already acted. */
  lemma DequeuedActionsAreAligned(c: Config, task: Task, schedule: seq<Step>, d: Dispatch)
    requires c.Valid()
    requires Run(c, Begin(task), schedule).h.pacing.disciplined
    requires d in Run(c, Begin(task), schedule).h.dispatches && !d.held && !d.fallback
    ensures d.packet.item.Planned() == d.step - (if d.late then 1 else 0)
  {
    ReachableInv(c, task, schedule);
  }
}
