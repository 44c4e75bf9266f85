/** An observation left undisturbed reaches the queue: every block between the mailbox and
    the queue does its part. */
module EngineProgress {
  import opened Common
  import opened EngineState
  import opened EngineHistory
  import opened EngineInvariant
  import EngineSteps
  import EngineTheorems
  import opened EnginePlay
  import EngineWatch

  // ---------------------------------------------------------------- the mailbox is ahead

  /** The newest response delivered answered a completed request. */
  predicate LatestDone(ep: Episode, completed: seq<Request>) {
    ep.latestDelivered == -1 || exists i :: 0 <= i < |completed| && completed[i].source == ep.latestDelivered
  }

  lemma MoreDone(ep: Episode, completed: seq<Request>, q: Request)
    requires LatestDone(ep, completed)
    ensures LatestDone(ep, completed + [q])
  {
    if ep.latestDelivered != -1 {
      var i :| 0 <= i < |completed| && completed[i].source == ep.latestDelivered;
      assert (completed + [q])[i] == completed[i];
    }
  }

  lemma MergeKeepsDone(c: Config, s: State, h: History, r: Response)
    requires LatestDone(s.ep, h.completed) && (r.epoch == s.ep.epoch ==> Answered(r) in h.completed)
    ensures LatestDone(Merge(c, s, r, true).ep, h.completed)
  {
    if r.epoch == s.ep.epoch {
      var i :| 0 <= i < |h.completed| && h.completed[i] == Answered(r);
      assert h.completed[i].source == r.source;
    }
  }

  predicate Delivers(s: State, step: Step) {
    step == Deliver(DoDeliveryMerge) && s.delivery.Merging?
  }

  predicate Completes(s: State, step: Step) {
    step == Answer(DoCommitCompletion) && s.worker.Completed?
  }

  lemma OthersKeepDone(c: Config, w: World, step: Step)
    requires LatestDone(w.s.ep, w.h.completed) && !Delivers(w.s, step) && !Completes(w.s, step)
    ensures var v := Advance(c, w, step); LatestDone(v.s.ep, v.h.completed)
  {
  }

  lemma StepKeepsDone(c: Config, w: World, step: Step)
    requires LatestDone(w.s.ep, w.h.completed) && OnRecord(w.s.ep, w.s.worker, w.s.delivery, w.h.completed)
    ensures var v := Advance(c, w, step); LatestDone(v.s.ep, v.h.completed)
  {
    if Delivers(w.s, step) {
      MergeKeepsDone(c, w.s, w.h, w.s.delivery.response);
    } else if Completes(w.s, step) {
      MoreDone(w.s.ep, w.h.completed, Request(w.s.worker.job.ordinal, w.s.worker.job.envelope.step));
    } else {
      OthersKeepDone(c, w, step);
    }
  }

  lemma {:induction false} RunKeepsDone(c: Config, w: World, schedule: seq<Step>)
    requires c.Valid() && Inv(c, w) && LatestDone(w.s.ep, w.h.completed)
    ensures var v := Run(c, w, schedule); LatestDone(v.s.ep, v.h.completed)
    decreases |schedule|
  {
    if schedule != [] {
      StepKeepsDone(c, w, schedule[0]);
      EngineSteps.StepKeepsInv(c, w, schedule[0]);
      RunKeepsDone(c, Advance(c, w, schedule[0]), schedule[1..]);
    }
  }

  lemma AheadOfDone(ep: Episode, w: Worker, d: Delivery, completed: seq<Request>)
    requires Ordered(ep, w, d, completed) && LatestDone(ep, completed)
    requires ep.mailbox.Some? && 0 <= ep.mailbox.value.step
    ensures ep.latestDelivered < ep.mailbox.value.step
  {
    if ep.latestDelivered != -1 {
      var i :| 0 <= i < |completed| && completed[i].source == ep.latestDelivered;
      var last := |completed| - 1;
      assert i < last ==> Precedes(completed[i], completed[last]);
    }
  }

  /** A waiting observation is newer than everything delivered in its epoch. */
  lemma MailboxIsAhead(c: Config, task: Task, schedule: seq<Step>)
    requires c.Valid()
    ensures var ep := Run(c, Begin(task), schedule).s.ep;
            ep.mailbox.Some? ==> ep.latestDelivered < ep.mailbox.value.step
  {
    EngineTheorems.ReachableInv(c, task, schedule);
    EngineTheorems.BeginEstablishesInv(c, task);
    RunKeepsDone(c, Begin(task), schedule);
    var w := Run(c, Begin(task), schedule);
    if w.s.ep.mailbox.Some? {
      AheadOfDone(w.s.ep, w.s.worker, w.s.delivery, w.h.completed);
    }
  }

  // ---------------------------------------------------------------- from mailbox to queue

  /** Nothing stands between the mailbox and the queue. */
  predicate Ready(c: Config, s: State) {
    && s.worker.WorkerIdle? && Open(s.flags) && s.flags.active && s.ep.mailbox.Some?
    && s.ep.mailbox.value.epoch == s.ep.epoch
    && (c.scheduler ==> s.delivery.DeliveryIdle? && s.ep.pending == [] && s.ep.latestDelivered < s.ep.mailbox.value.step)
  }

  /** The response that answers the waiting observation. */
  function ResponseTo(s: State, actions: seq<Action>, readyAt: int): Response
    requires s.ep.mailbox.Some?
  {
    Response(s.ep.epoch, s.goal.revision, s.ep.nextOrdinal, s.ep.mailbox.value.step, s.goal.task, actions, readyAt)
  }

  /** The worker takes the observation and the policy answers. */
  function Answered5(actions: seq<Action>): seq<Step> {
    [Ask(DoTake), Ask(DoProviderReset(Returned)), Ask(DoClearFlag), Ask(DoEnterInference),
     Ask(DoLeaveInference(Returned, actions))]
  }

  /** The answer is about to be committed as completed; nothing else has changed. */
  ghost predicate AnsweredFor(s: State, t: State, actions: seq<Action>)
    requires s.ep.mailbox.Some?
  {
    && t.worker.Completed? && t.worker.actions == actions && Open(t.flags)
    && (forall readyAt :: AsResponse(t.worker.job, actions, readyAt) == ResponseTo(s, actions, readyAt))
    && t.ep.epoch == s.ep.epoch && t.ep.step == s.ep.step && t.ep.pending == s.ep.pending
    && t.ep.latestDelivered == s.ep.latestDelivered && t.out == s.out && t.delivery == s.delivery && t.now == s.now
    && t.ep.mailbox.None?
  }

  lemma PolicyAnswers(c: Config, s: State, actions: seq<Action>)
    requires Ready(c, s) && actions != []
    ensures AnsweredFor(s, Play(c, s, Answered5(actions)), actions)
  {
    var a := Answered5(actions);
    PlayFive(c, s, a[0], a[1], a[2], a[3], a[4]);
  }

  /** The chunk has been merged: in the queue if any of its steps is still to come. */
  predicate Arrived(c: Config, s: State, t: State, actions: seq<Action>, readyAt: int)
    requires s.ep.mailbox.Some?
  {
    var r := ResponseTo(s, actions, readyAt);
    && t.out == Merge(c, s, r, c.scheduler).out && t.worker.WorkerIdle? && t.ep.mailbox.None?
  }

  lemma PlayTwo(c: Config, s: State, a: Step, b: Step)
    ensures Play(c, s, [a, b]) == Next(c, Next(c, s, a), b)
  {
    assert [a, b][1..] == [b];
    assert Play(c, Next(c, s, a), [b]) == Play(c, Next(c, Next(c, s, a), b), []);
  }

  lemma MergesDirectly(c: Config, s: State, t: State, actions: seq<Action>)
    requires !c.scheduler && s.ep.mailbox.Some? && AnsweredFor(s, t, actions) && Open(s.flags)
    ensures Arrived(c, s, Play(c, t, [Answer(DoCommitCompletion), Answer(DoMergeDirect)]), actions, s.now)
  {
    PlayTwo(c, t, Answer(DoCommitCompletion), Answer(DoMergeDirect));
  }

  function Delaying(delay: nat): seq<Step> {
    [Answer(DoCommitCompletion), Answer(DoChooseDelay(Some(delay))), Answer(DoSchedule),
     Answer(DoWorkerInform(false)), Control(DoTick(delay))]
  }

  lemma IsScheduled(c: Config, s: State, t: State, actions: seq<Action>, delay: nat)
    requires c.scheduler && Ready(c, s) && AnsweredFor(s, t, actions)
    ensures var u := Play(c, t, Delaying(delay));
            && u.ep.pending == [ResponseTo(s, actions, s.now + delay)] && u.now == s.now + delay
            && Open(u.flags) && u.delivery.DeliveryIdle? && u.worker.WorkerIdle? && u.ep.mailbox.None?
            && u.ep.epoch == s.ep.epoch && u.ep.step == s.ep.step && u.ep.latestDelivered == s.ep.latestDelivered
            && u.out == s.out
  {
    var a := Delaying(delay);
    PlayFive(c, t, a[0], a[1], a[2], a[3], a[4]);
    assert t.ep.pending + [ResponseTo(s, actions, s.now + delay)] == [ResponseTo(s, actions, s.now + delay)];
  }

  lemma IsDelivered(c: Config, s: State, u: State, actions: seq<Action>, readyAt: int)
    requires c.scheduler && Ready(c, s) && u.ep.pending == [ResponseTo(s, actions, readyAt)] && u.now == readyAt
    requires Open(u.flags) && u.delivery.DeliveryIdle? && u.worker.WorkerIdle? && u.ep.mailbox.None?
    requires u.ep.epoch == s.ep.epoch && u.ep.step == s.ep.step && u.ep.latestDelivered == s.ep.latestDelivered
    requires u.out == s.out
    ensures Arrived(c, s, Play(c, u, [Deliver(DoPop), Deliver(DoDeliveryMerge)]), actions, readyAt)
  {
    PlayTwo(c, u, Deliver(DoPop), Deliver(DoDeliveryMerge));
  }

  /** The blocks from mailbox to queue, when the policy answers after no delay but the
      scheduler's. */
  function Undisturbed(c: Config, actions: seq<Action>, delay: nat): seq<Step> {
    Answered5(actions)
    + (if c.scheduler then Delaying(delay) + [Deliver(DoPop), Deliver(DoDeliveryMerge)]
       else [Answer(DoCommitCompletion), Answer(DoMergeDirect)])
  }

  lemma UndisturbedArrives(c: Config, s: State, actions: seq<Action>, delay: nat)
    requires Ready(c, s) && actions != []
    ensures Arrived(c, s, Play(c, s, Undisturbed(c, actions, delay)), actions, s.now + if c.scheduler then delay else 0)
  {
    var t := Play(c, s, Answered5(actions));
    PolicyAnswers(c, s, actions);
    if c.scheduler {
      var rest: seq<Step> := [Deliver(DoPop), Deliver(DoDeliveryMerge)];
      var u := Play(c, t, Delaying(delay));
      IsScheduled(c, s, t, actions, delay);
      IsDelivered(c, s, u, actions, s.now + delay);
      PlaySplits(c, t, Delaying(delay), rest);
      PlaySplits(c, s, Answered5(actions), Delaying(delay) + rest);
    } else {
      MergesDirectly(c, s, t, actions);
      PlaySplits(c, s, Answered5(actions), [Answer(DoCommitCompletion), Answer(DoMergeDirect)]);
    }
  }

  /** In every reachable state in which an observation waits and the engine is open, active
      and idle, letting it run hands the whole rest of the policy's answer to the queue,
      unless all of the answer's steps have passed by then. */
  lemma WaitingObservationIsServed(c: Config, task: Task, schedule: seq<Step>, actions: seq<Action>, delay: nat)
    requires c.Valid() && actions != []
    requires var s := Run(c, Begin(task), schedule).s;
             && s.worker.WorkerIdle? && Open(s.flags) && s.flags.active && s.ep.mailbox.Some?
             && (c.scheduler ==> s.delivery.DeliveryIdle? && s.ep.pending == [])
    ensures var s := Run(c, Begin(task), schedule).s;
            var t := Play(c, s, Undisturbed(c, actions, delay));
            var r := ResponseTo(s, actions, s.now + if c.scheduler then delay else 0);
            var passed := EngineWatch.Passed(s.ep.step, r.source);
            t.worker.WorkerIdle? && (passed < |actions| ==> EngineWatch.Serves(t.out.queue, r, passed))
  {
    var s := Run(c, Begin(task), schedule).s;
    EngineTheorems.EpisodesAreIsolated(c, task, schedule);
    MailboxIsAhead(c, task, schedule);
    UndisturbedArrives(c, s, actions, delay);
    var r := ResponseTo(s, actions, s.now + if c.scheduler then delay else 0);
    if EngineWatch.Passed(s.ep.step, r.source) < |actions| {
      EngineWatch.CommitsWhole(c, s, r, c.scheduler);
    }
  }

  // ---------------------------------------------------------------- a failure costs nothing but time

  /** A failed request of the current epoch, below the limit, leaves the worker idle and its
      observation in the mailbox, or the newer one that has come meanwhile. */
  lemma FailedObservationIsKept(c: Config, s: State)
    requires s.worker.Failed? && EpochIsCurrent(s, s.worker.job.Epoch())
    requires s.metrics.failuresInRow + 1 < c.maxFailures
    ensures var t := Next(c, Next(c, s, Answer(DoRecordFailure)), Answer(DoRetry));
            && t.worker.WorkerIdle? && t.flags == s.flags && t.out == s.out
            && t.ep == s.ep.(mailbox := if s.ep.mailbox.Some? then s.ep.mailbox else Some(s.worker.job.envelope))
  {
  }

  /** An interrupt that reaches the worker in a call, and not a mere failure, ends the
      engine at once: nothing is retried. */
  lemma InterruptsAreFatal(c: Config, s: State, actions: seq<Action>)
    requires s.worker.Inferring? || (s.worker.Taken? && s.worker.job.resetProvider)
    requires EpochIsCurrent(s, s.worker.job.Epoch())
    ensures var call := if s.worker.Inferring? then DoLeaveInference(RaisedFatal, actions) else DoProviderReset(RaisedFatal);
            var t := Next(c, Next(c, s, Ask(call)), Answer(DoCommitFatal));
            t.flags == s.flags.(fatal := true) && t.worker.WorkerIdle? && t.ep == s.ep && t.metrics == s.metrics
  {
  }

  // ---------------------------------------------------------------- deliveries are on time

  /** The response being merged is due. */
  predicate Due(s: State) {
    s.delivery.Merging? ==> s.delivery.response.readyAt <= s.now
  }

  lemma StepKeepsDue(c: Config, s: State, step: Step)
    requires Due(s)
    ensures Due(Next(c, s, step))
  {
  }

  lemma {:induction false} PlayKeepsDue(c: Config, s: State, schedule: seq<Step>)
    requires Due(s)
    ensures Due(Play(c, s, schedule))
    decreases |schedule|
  {
    if schedule != [] {
      StepKeepsDue(c, s, schedule[0]);
      PlayKeepsDue(c, Next(c, s, schedule[0]), schedule[1..]);
    }
  }

  /** `a` is due before `b`, or as soon and asked for no later. */
  predicate DueFirst(a: Response, b: Response) {
    a.readyAt < b.readyAt || (a.readyAt == b.readyAt && a.ordinal <= b.ordinal)
  }

  /** No response reaches the queue before its delay is over; the one taken from the heap
      comes first by time and request, and the others stay. */
  lemma DeliveriesAreOnTime(c: Config, task: Task, schedule: seq<Step>)
    ensures var s := Run(c, Begin(task), schedule).s;
            var t := Next(c, s, Deliver(DoPop));
            && Due(s)
            && (if s.delivery.DeliveryIdle? && Open(s.flags) && (exists r :: r in s.ep.pending && r.readyAt <= s.now) then
                  && t.delivery.Merging? && t.delivery.response in s.ep.pending
                  && (forall r | r in s.ep.pending :: DueFirst(t.delivery.response, r))
                  && multiset(s.ep.pending) == multiset(t.ep.pending) + multiset{t.delivery.response}
                else t == s)
  {
    RunPlays(c, Begin(task), schedule);
    PlayKeepsDue(c, Initial(task), schedule);
    var s := Run(c, Begin(task), schedule).s;
    if s.ep.pending != [] {
      var k := First(s.ep.pending);
      assert s.ep.pending == s.ep.pending[..k] + [s.ep.pending[k]] + s.ep.pending[k + 1..];
      assert forall r | r in s.ep.pending :: Before(s.ep.pending[k], r);
    }
  }
}
