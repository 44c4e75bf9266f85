/** The engine object itself: the source's fields, updated in place by the source's
    critical sections. Every method is proved to take the abstract state where the
    specification function of the same block takes it, so the theorems about runs
    are theorems about this object under any schedule. */
module Engine {
  import opened Common
  import opened EngineState
  import opened EngineHistory
  import opened EngineTheorems

  class InferenceEngine {
    const config: Config
    var now: int

    var episode: Episode          // guarded by the condition

    var queue: seq<Queued>        // guarded by the condition and the queue lock
    var lastAction: Option<Queued>
    var holdStepsUsed: nat
    var starvedPulls: nat

    var flags: Flags
    var goal: Goal
    var metrics: Metrics

    var worker: Worker
    var delivery: Delivery
    var lifecycle: Lifecycle
    var owed: seq<Notice>
    var told: seq<Notice>

    /** The abstract state of this object. */
    function View(): State
      reads this
    {
      State(now, episode, Output(queue, lastAction, holdStepsUsed, starvedPulls), flags, goal, metrics,
            worker, delivery, lifecycle, Notices(owed, told))
    }

    constructor (config: Config, task: Task)
      ensures this.config == config && View() == Initial(task)
    {
      this.config := config;
      now := 0;
      episode := FreshEpisode(0);
      queue, lastAction, holdStepsUsed, starvedPulls := [], None, 0, 0;
      flags := Flags(false, false, false, false, false);
      goal := Goal(task, 0);
      metrics := ZERO_METRICS;
      worker, delivery, lifecycle := WorkerDead, DeliveryDead, LifecycleIdle;
      owed, told := [], [];
    }

    method Tick(elapsed: nat)
      modifies this
      ensures View() == ControlNext(config, old(View()), DoTick(elapsed))
    {
      now := now + elapsed;
    }

    // -------------------------------------------------------------- shared helpers

    method EpochIsCurrentLocked(e: nat) returns (current: bool)
      ensures current == EpochIsCurrent(View(), e)
    {
      current := e == episode.epoch && !flags.shutdown && !flags.resetting && !flags.fatal;
    }

    method MarkFatalLocked(scope: Option<nat>, duringReset: bool)
      modifies this`flags
      ensures View() == old(View()).(flags := MarkFatal(old(flags), episode.epoch, scope, duringReset))
    {
      if flags.fatal {
        return;
      }
      if scope.Some? && (scope.value != episode.epoch || flags.shutdown || (flags.resetting && !duringReset)) {
        return;
      }
      flags := flags.(fatal := true);
    }

    /** The part of an invalidation that also holds the queue lock. */
    method ClearQueueLocked()
      modifies this`queue, this`lastAction, this`holdStepsUsed, this`starvedPulls
      ensures View() == old(View()).(out := NO_OUTPUT)
    {
      queue := [];
      lastAction := None;
      holdStepsUsed := 0;
      starvedPulls := 0;
    }

    /** Returns the responses whose delivery the invalidation cancels. */
    method InvalidateEpisodeLocked() returns (cancelled: seq<Response>)
      modifies this
      ensures cancelled == old(episode.pending)
      ensures View() == old(View()).(ep := FreshEpisode(old(episode.epoch) + 1), out := NO_OUTPUT)
    {
      cancelled := episode.pending;
      episode := FreshEpisode(episode.epoch + 1);
      ClearQueueLocked();
    }

    // -------------------------------------------------------------- lifecycle calls

    method Start()
      modifies this
      ensures View() == EngineState.Start(config, old(View()))
    {
      if !lifecycle.LifecycleIdle? || flags.started {
        return;
      }
      if flags.shutdown {
        metrics := ZERO_METRICS;
      }
      flags := flags.(shutdown := false);
      flags := flags.(fatal := false);
      flags := flags.(started := true);
      episode := episode.(providerResetPending := true);
      if config.scheduler {
        delivery := DeliveryIdle;
      }
      worker := WorkerIdle;
    }

    method ResetBegin()
      modifies this
      ensures View() == EngineState.ResetBegin(old(View()))
    {
      if !lifecycle.LifecycleIdle? {
        return;
      }
      flags := flags.(resetting := true);
      var cancelled := InvalidateEpisodeLocked();
      metrics := ZERO_METRICS;
      lifecycle := Resetting(cancelled);
    }

    method ResetFinish(ok: bool)
      modifies this
      ensures View() == EngineState.ResetFinish(old(View()), ok)
    {
      if !lifecycle.Resetting? {
        return;
      }
      if !ok {
        MarkFatalLocked(Some(episode.epoch), true);
      }
      lifecycle := Finishing(lifecycle.cancelled, RejectedReset, !ok);
    }

    method StopBegin()
      modifies this
      ensures View() == EngineState.StopBegin(old(View()))
    {
      if !lifecycle.LifecycleIdle? {
        return;
      }
      flags := flags.(shutdown := true);
      flags := flags.(active := false);
      flags := flags.(resetting := true);
      var cancelled := InvalidateEpisodeLocked();
      lifecycle := Stopping(cancelled);
    }

    method StopFinish(outcome: StopOutcome)
      modifies this
      ensures View() == EngineState.StopFinish(old(View()), outcome)
    {
      if !lifecycle.Stopping? || (outcome.Joined? && (!worker.WorkerDead? || !delivery.DeliveryDead?)) {
        return;
      }
      if outcome.Joined? {
        flags := flags.(started := false);
      } else {
        MarkFatalLocked(None, false);
      }
      lifecycle := Finishing(lifecycle.cancelled, CancelledStop, outcome.Raised?);
    }

    method TeardownEnd()
      modifies this
      ensures View() == EngineState.TeardownEnd(old(View()))
    {
      if !lifecycle.Finishing? {
        return;
      }
      flags := flags.(resetting := false);
      if !lifecycle.raised {
        owed := owed + NoticesFor(lifecycle.cancelled, lifecycle.status);
      }
      lifecycle := LifecycleIdle;
    }

    method Announce(i: nat, raises: bool)
      modifies this
      ensures View() == EngineState.Announce(old(View()), i, raises)
    {
      if i >= |owed| {
        return;
      }
      var notice := owed[i];
      owed := owed[..i] + owed[i + 1..];
      told := told + [notice];
      if raises {
        MarkFatalLocked(Some(notice.id.epoch), false);
      }
    }

    method PauseOrResume(on: bool)
      modifies this
      ensures View() == SetActive(old(View()), on)
    {
      flags := flags.(active := on);
    }

    method SetTask(task: Task) returns (changed: bool)
      modifies this
      ensures View() == EngineState.SetTask(old(View()), task)
      ensures changed <==> task != old(goal.task)
    {
      if task == goal.task {
        return false;
      }
      goal := Goal(task, goal.revision + 1);
      return true;
    }

    // -------------------------------------------------------------- control thread

    method NotifyObservation()
      modifies this
      ensures View() == EngineState.NotifyObservation(config, old(View()))
    {
      episode := episode.(step := episode.step + 1);
      metrics := metrics.(received := metrics.received + 1);
      if episode.lastSubmitted >= 0 && episode.step < episode.lastSubmitted + config.interval {
        metrics := metrics.(skipped := metrics.skipped + 1);
      } else {
        if episode.mailbox.Some? {
          metrics := metrics.(superseded := metrics.superseded + 1);
        }
        episode := episode.(mailbox := Some(Envelope(episode.epoch, episode.step)));
      }
    }

    method GetActionWithRevision() returns (packet: Option<Packet>)
      modifies this
      ensures View() == Pull(config, old(View()))
      ensures packet == PullResult(config, old(View()))
    {
      var current := EpochIsCurrentLocked(episode.epoch);
      if !flags.started || !current {
        return None;
      }
      var queued: Option<Queued> := None;
      if queue != [] {
        queued := Some(queue[0]);
        queue := queue[1..];
        lastAction := queued;
        holdStepsUsed, starvedPulls := 0, 0;
      } else if lastAction.Some? && holdStepsUsed < config.holdBound {
        queued := lastAction;
        holdStepsUsed := holdStepsUsed + 1;
      } else {
        starvedPulls := starvedPulls + 1;
      }
      packet := if queued.Some? then Some(Packet(config.engineId, queued.value)) else None;
    }

    method IsActionCurrent(packet: Packet) returns (current: bool)
      ensures current == ActionIsCurrent(config, View(), packet)
    {
      var ofEpoch := EpochIsCurrentLocked(packet.item.epoch);
      current := flags.started && packet.engineId == config.engineId && ofEpoch
        && packet.item.revision == goal.revision;
    }

    // -------------------------------------------------------------- worker thread

    method WorkerTake()
      modifies this
      ensures View() == Take(old(View()))
    {
      if worker.WorkerIdle? && !flags.shutdown && !flags.fatal && flags.active && !flags.resetting
         && episode.mailbox.Some? {
        var envelope := episode.mailbox.value;
        episode := episode.(mailbox := None);
        episode := episode.(lastSubmitted := envelope.step);
        var job := Job(envelope, episode.nextOrdinal, goal.revision, goal.task, episode.providerResetPending);
        metrics := metrics.(started := metrics.started + 1);
        episode := episode.(nextOrdinal := episode.nextOrdinal + 1);
        worker := Taken(job);
      }
    }

    method WorkerExit()
      modifies this
      ensures View() == EngineState.WorkerExit(old(View()))
    {
      if worker.WorkerIdle? && (flags.shutdown || flags.fatal) {
        worker := WorkerDead;
      }
    }

    method WorkerCrash()
      modifies this
      ensures View() == EngineState.WorkerCrash(old(View()))
    {
      if worker.Taken? {
        MarkFatalLocked(None, false);
        worker := WorkerDead;
      }
    }

    method WorkerProviderReset(outcome: CallOutcome)
      modifies this
      ensures View() == ProviderReset(old(View()), outcome)
    {
      if worker.Taken? {
        var job := worker.job;
        if !job.resetProvider {
          worker := Ready(job);
        } else if outcome.Returned? {
          worker := ProviderClean(job);
        } else {
          worker := AfterFailure(job, outcome);
        }
      }
    }

    method WorkerClearFlag()
      modifies this
      ensures View() == ClearFlag(old(View()))
    {
      if worker.ProviderClean? {
        var job := worker.job;
        var current := EpochIsCurrentLocked(job.Epoch());
        if current {
          episode := episode.(providerResetPending := false);
          worker := Ready(job);
        } else {
          worker := WorkerIdle;
        }
      }
    }

    method WorkerEnterInference()
      modifies this
      ensures View() == EnterInference(old(View()))
    {
      if worker.Ready? {
        var job := worker.job;
        if job.Epoch() < episode.epoch {
          worker := Failed(job, false);
        } else {
          worker := Inferring(job);
        }
      }
    }

    method WorkerLeaveInference(outcome: CallOutcome, actions: seq<Action>)
      modifies this
      ensures View() == LeaveInference(old(View()), outcome, actions)
    {
      if worker.Inferring? {
        var job := worker.job;
        if outcome.Returned? && actions != [] {
          worker := Completed(job, actions);
        } else {
          worker := AfterFailure(job, outcome);
        }
      }
    }

    method WorkerRecordFailure()
      modifies this
      ensures View() == RecordFailure(config, old(View()))
    {
      if worker.Failed? {
        var job := worker.job;
        var current := EpochIsCurrentLocked(job.Epoch());
        if !current {
          worker := Retrying(job);
          return;
        }
        metrics := metrics.(connected := false, failuresInRow := metrics.failuresInRow + 1);
        if metrics.failuresInRow >= config.maxFailures {
          worker := Fatal(job, true);
        } else {
          worker := Retrying(job);
        }
      }
    }

    method WorkerCommitFatal()
      modifies this
      ensures View() == CommitFatal(old(View()))
    {
      if worker.Fatal? {
        var job := worker.job;
        MarkFatalLocked(Some(job.Epoch()), false);
        if worker.retry {
          worker := Retrying(job);
        } else {
          worker := WorkerIdle;
        }
      }
    }

    method WorkerRetry()
      modifies this
      ensures View() == Retry(old(View()))
    {
      if worker.Retrying? {
        var job := worker.job;
        worker := WorkerIdle;
        if flags.fatal || flags.shutdown || job.Epoch() != episode.epoch || episode.mailbox.Some? {
          return;
        }
        episode := episode.(mailbox := Some(job.envelope));
      }
    }

    method WorkerCommitCompletion()
      modifies this
      ensures View() == CommitCompletion(old(View()))
    {
      if worker.Completed? {
        var current := EpochIsCurrentLocked(worker.job.Epoch());
        if !current {
          worker := WorkerIdle;
          return;
        }
        metrics := metrics.(connected := true, failuresInRow := 0);
        worker := Delivering(worker.job, worker.actions);
      }
    }

    method WorkerChooseDelay(delay: Option<nat>)
      modifies this
      ensures View() == ChooseDelay(config, old(View()), delay)
    {
      if worker.Delivering? && config.scheduler {
        if delay.None? {
          worker := Fatal(worker.job, false);
        } else {
          worker := Scheduling(AsResponse(worker.job, worker.actions, now + delay.value));
        }
      }
    }

    method ScheduleDelivery()
      modifies this
      ensures View() == Schedule(old(View()))
    {
      if worker.Scheduling? {
        var response := worker.response;
        var current := EpochIsCurrentLocked(response.epoch);
        if !current {
          worker := Informing(response, RejectedReset);
        } else {
          episode := episode.(pending := episode.pending + [response]);
          metrics := metrics.(scheduled := metrics.scheduled + 1);
          worker := Informing(response, Scheduled);
        }
      }
    }

    method WorkerInform(raises: bool)
      modifies this
      ensures View() == EngineState.WorkerInform(old(View()), raises)
    {
      if worker.Informing? {
        var response, status := worker.response, worker.status;
        told := told + [Notice(response.Id(), status)];
        if raises {
          MarkFatalLocked(Some(response.epoch), false);
        }
        worker := WorkerIdle;
      }
    }

    method MergeDirectly()
      modifies this
      ensures View() == MergeDirect(config, old(View()))
    {
      if worker.Delivering? && !config.scheduler {
        var status := MergeChunk(AsResponse(worker.job, worker.actions, now), false);
        worker := WorkerIdle;
      }
    }

    // -------------------------------------------------------------- queue commit

    method MergeChunk(r: Response, scheduled: bool) returns (status: Status)
      modifies this
      ensures View() == Merge(config, old(View()), r, scheduled)
      ensures scheduled ==> status == MergeStatus(old(View()), r)
    {
      var current := EpochIsCurrentLocked(r.epoch);
      if !current {
        return RejectedReset;
      }
      if scheduled {
        if r.source <= episode.latestDelivered {
          metrics := metrics.(outOfOrder := metrics.outOfOrder + 1);
          return RejectedOutOfOrder;
        }
        episode := episode.(latestDelivered := r.source);
        metrics := metrics.(delivered := metrics.delivered + 1);
      }
      var ageSteps := Max(0, episode.step - r.source);
      var dropped := Min(ageSteps, |r.actions|);
      var fullyStale := dropped >= |r.actions|;
      var allowFallback :=
        fullyStale && config.fallback && queue == [] && (starvedPulls > 0 || holdStepsUsed >= config.holdBound);
      if fullyStale && !allowFallback {
        return Delivered;
      }
      Replace(r, if allowFallback then 0 else dropped);
      return Delivered;
    }

    /** Replace the queue by the actions of `r` from position `from` on. */
    method Replace(r: Response, from: nat)
      requires from <= |r.actions|
      modifies this`queue, this`holdStepsUsed, this`starvedPulls
      ensures queue == Suffix(r, from) && holdStepsUsed == 0 && starvedPulls == 0
    {
      holdStepsUsed, starvedPulls := 0, 0;
      queue := [];
      for i := from to |r.actions|
        invariant queue == Suffix(r, from)[..i - from] && holdStepsUsed == 0 && starvedPulls == 0
      {
        queue := queue + [Queued(r.actions[i], i, r.epoch, r.revision, r.ordinal, r.source, r.task)];
      }
    }

    // -------------------------------------------------------------- delivery thread

    /** Position of the entry the heap pops first. */
    method EarliestDelivery() returns (k: nat)
      requires episode.pending != []
      ensures k == First(episode.pending)
    {
      var n := |episode.pending|;
      k := n - 1;
      var i := n - 1;
      while i > 0
        invariant 0 <= i < n && i <= k < n
        invariant k == i + First(episode.pending[i..])
      {
        i := i - 1;
        assert episode.pending[i..][1..] == episode.pending[i + 1..];
        if Before(episode.pending[i], episode.pending[k]) {
          k := i;
        }
      }
      assert episode.pending[0..] == episode.pending;
    }

    method DeliveryPop()
      modifies this
      ensures View() == Pop(old(View()))
    {
      if delivery.DeliveryIdle? && !flags.shutdown && !flags.fatal && !flags.resetting && episode.pending != [] {
        var k := EarliestDelivery();
        var response := episode.pending[k];
        if response.readyAt <= now {
          episode := episode.(pending := episode.pending[..k] + episode.pending[k + 1..]);
          delivery := Merging(response);
        }
      }
    }

    method DeliveryExit()
      modifies this
      ensures View() == EngineState.DeliveryExit(old(View()))
    {
      if delivery.DeliveryIdle? && (flags.shutdown || flags.fatal) {
        delivery := DeliveryDead;
      }
    }

    method DeliveryMerge()
      modifies this
      ensures View() == EngineState.DeliveryMerge(config, old(View()))
    {
      if delivery.Merging? {
        var response := delivery.response;
        var status := MergeChunk(response, true);
        delivery := Reporting(response, status);
      }
    }

    method DeliveryReport(raises: bool)
      modifies this
      ensures View() == EngineState.DeliveryReport(old(View()), raises)
    {
      if delivery.Reporting? {
        var response, status := delivery.response, delivery.status;
        told := told + [Notice(response.Id(), status)];
        if raises {
          MarkFatalLocked(Some(response.epoch), false);
        }
        delivery := DeliveryIdle;
      }
    }

    // -------------------------------------------------------------- any schedule

    method PerformControl(step: ControlStep)
      modifies this
      ensures View() == ControlNext(config, old(View()), step)
    {
      match step
      case DoTick(elapsed) => Tick(elapsed);
      case DoNotify => NotifyObservation();
      case DoPull => var _ := GetActionWithRevision();
      case DoSetTask(task) => var _ := SetTask(task);
      case DoSetActive(on) => PauseOrResume(on);
    }

    method PerformLifecycle(step: LifecycleStep)
      modifies this
      ensures View() == LifecycleNext(config, old(View()), step)
    {
      match step
      case DoStart => Start();
      case DoResetBegin => ResetBegin();
      case DoResetFinish(ok) => ResetFinish(ok);
      case DoStopBegin => StopBegin();
      case DoStopFinish(outcome) => StopFinish(outcome);
      case DoTeardownEnd => TeardownEnd();
      case DoAnnounce(i, raises) => Announce(i, raises);
    }

    method PerformAsk(step: AskStep)
      modifies this
      ensures View() == AskNext(old(View()), step)
    {
      match step
      case DoTake => WorkerTake();
      case DoWorkerExit => WorkerExit();
      case DoWorkerCrash => WorkerCrash();
      case DoProviderReset(outcome) => WorkerProviderReset(outcome);
      case DoClearFlag => WorkerClearFlag();
      case DoEnterInference => WorkerEnterInference();
      case DoLeaveInference(outcome, actions) => WorkerLeaveInference(outcome, actions);
    }

    method PerformAnswer(step: AnswerStep)
      modifies this
      ensures View() == AnswerNext(config, old(View()), step)
    {
      match step
      case DoRecordFailure => WorkerRecordFailure();
      case DoCommitFatal => WorkerCommitFatal();
      case DoRetry => WorkerRetry();
      case DoCommitCompletion => WorkerCommitCompletion();
      case DoChooseDelay(delay) => WorkerChooseDelay(delay);
      case DoSchedule => ScheduleDelivery();
      case DoWorkerInform(raises) => WorkerInform(raises);
      case DoMergeDirect => MergeDirectly();
    }

    method PerformDeliver(step: DeliveryStep)
      modifies this
      ensures View() == DeliverNext(config, old(View()), step)
    {
      match step
      case DoPop => DeliveryPop();
      case DoDeliveryExit => DeliveryExit();
      case DoDeliveryMerge => DeliveryMerge();
      case DoDeliveryReport(raises) => DeliveryReport(raises);
    }

    method Perform(step: Step)
      modifies this
      ensures View() == Next(config, old(View()), step)
    {
      match step
      case Control(a) => PerformControl(a);
      case Lifecycle(a) => PerformLifecycle(a);
      case Ask(a) => PerformAsk(a);
      case Answer(a) => PerformAnswer(a);
      case Deliver(a) => PerformDeliver(a);
    }

    /** The threads under `schedule`, from a new engine: the object ends where the
        abstract run ends, so the theorems about runs speak about it. */
    method Drive(schedule: seq<Step>, ghost task: Task)
      requires config.Valid() && View() == Initial(task)
      modifies this
      ensures View() == Run(config, Begin(task), schedule).s
      ensures HoldsOnlyCurrent(View()) && RepliesBalance(View())
    {
      ghost var w := Begin(task);
      for i := 0 to |schedule|
        invariant View() == w.s
        invariant Run(config, w, schedule[i..]) == Run(config, Begin(task), schedule)
      {
        assert schedule[i..][1..] == schedule[i + 1..];
        Perform(schedule[i]);
        w := Advance(config, w, schedule[i]);
      }
      EpisodesAreIsolated(config, task, schedule);
      RepliesConserved(config, task, schedule);
    }
  }
}
