/** The asynchronous inference engine as a concurrent protocol.

    One value of `State` is what the engine's locks protect, together with the
    program counters and locals of its three background activities: the policy
    worker, the delivery thread and the lifecycle call in progress. Every block
    the source runs under `_condition` (and `_queue_lock`) is one function from
    State to State here; calls that run outside the locks appear only as a choice
    of outcome. A `Step` names one block, `Next` performs it, and a disabled step
    leaves the state alone, so any sequence of steps is a possible interleaving. */
module EngineState {
  import opened Common

  type Action = int        // one row of a returned tensor, contents opaque
  type Task = string

  /** Settings of one engine. `engineId` is the identity stamped on packets. */
  datatype Config = Config(
    engineId: nat,
    scheduler: bool,
    holdBound: nat,
    fallback: bool,
    interval: nat,
    maxFailures: nat
  ) {
    predicate Valid() {
      interval > 0 && maxFailures > 0
    }
  }

  datatype RequestId = RequestId(epoch: nat, ordinal: nat)

  datatype Envelope = Envelope(epoch: nat, step: int)

  /** Locals of one worker iteration, captured when the mailbox is emptied. */
  datatype Job = Job(envelope: Envelope, ordinal: nat, revision: nat, task: Task, resetProvider: bool) {
    function Epoch(): nat {
      envelope.epoch
    }

    function Id(): RequestId {
      RequestId(envelope.epoch, ordinal)
    }
  }

  /** A returned chunk with the identity of its request. */
  datatype Response = Response(
    epoch: nat, revision: nat, ordinal: nat, source: int, task: Task,
    actions: seq<Action>, readyAt: int
  ) {
    function Id(): RequestId {
      RequestId(epoch, ordinal)
    }
  }

  /** One queued action; `index` is its position in the chunk, so the step it was
      planned for is `source + index`. */
  datatype Queued = Queued(
    action: Action, index: nat, epoch: nat, revision: nat, ordinal: nat, source: int, task: Task
  ) {
    function Planned(): int {
      source + index
    }
  }

  datatype Packet = Packet(engineId: nat, item: Queued)

  datatype Status = Scheduled | Delivered | RejectedOutOfOrder | RejectedReset | CancelledStop {
    predicate Terminal() {
      !Scheduled?
    }
  }

  datatype Notice = Notice(id: RequestId, status: Status)

  datatype Worker =
    | WorkerDead
    | WorkerIdle
    | Taken(job: Job)                           // mailbox emptied, provider not touched yet
    | ProviderClean(job: Job)                   // provider reset returned, flag not cleared yet
    | Ready(job: Job)                           // about to read the cancellation event
    | Inferring(job: Job)                       // inside the transport call
    | Failed(job: Job, timedOut: bool)
    | Fatal(job: Job, retry: bool)              // about to mark the job's epoch fatal
    | Retrying(job: Job)
    | Completed(job: Job, actions: seq<Action>)
    | Delivering(job: Job, actions: seq<Action>)
    | Scheduling(response: Response)
    | Informing(response: Response, status: Status)

  datatype Delivery =
    | DeliveryDead
    | DeliveryIdle
    | Merging(response: Response)
    | Reporting(response: Response, status: Status)

  datatype Lifecycle =
    | LifecycleIdle
    | Resetting(cancelled: seq<Response>)
    | Stopping(cancelled: seq<Response>)
    | Finishing(cancelled: seq<Response>, status: Status, raised: bool)

  /** Owned by the current episode, guarded by `_condition`. */
  datatype Episode = Episode(
    epoch: nat, step: int, nextOrdinal: nat, mailbox: Option<Envelope>, lastSubmitted: int,
    providerResetPending: bool, pending: seq<Response>, latestDelivered: int
  )

  /** Owned by the current episode, guarded by `_condition` and `_queue_lock`. */
  datatype Output = Output(queue: seq<Queued>, lastAction: Option<Queued>, holdUsed: nat, starvedPulls: nat)

  datatype Flags = Flags(started: bool, active: bool, shutdown: bool, resetting: bool, fatal: bool)

  datatype Goal = Goal(task: Task, revision: nat)

  datatype Metrics = Metrics(
    received: nat, superseded: nat, skipped: nat, started: nat,
    scheduled: nat, delivered: nat, outOfOrder: nat,
    connected: bool, failuresInRow: nat
  )

  /** Terminal notices owed by finished teardowns, and what observers were told. */
  datatype Notices = Notices(owed: seq<Notice>, told: seq<Notice>)

  datatype State = State(
    now: int, ep: Episode, out: Output, flags: Flags, goal: Goal, metrics: Metrics,
    worker: Worker, delivery: Delivery, lifecycle: Lifecycle, notices: Notices
  )

  const NO_OUTPUT: Output := Output([], None, 0, 0)
  const ZERO_METRICS: Metrics := Metrics(0, 0, 0, 0, 0, 0, 0, true, 0)

  function FreshEpisode(epoch: nat): Episode {
    Episode(epoch, -1, 0, None, -1, true, [], -1)
  }

  function Initial(task: Task): State {
    State(0, FreshEpisode(0), NO_OUTPUT, Flags(false, false, false, false, false), Goal(task, 0),
          ZERO_METRICS, WorkerDead, DeliveryDead, LifecycleIdle, Notices([], []))
  }

  // ---------------------------------------------------------------- shared helpers

  predicate Open(f: Flags) {
    !f.shutdown && !f.resetting && !f.fatal
  }

  predicate EpochIsCurrent(s: State, epoch: nat) {
    epoch == s.ep.epoch && Open(s.flags)
  }

  /** `scope` is the optional epoch argument; None marks unconditionally. */
  function MarkFatal(f: Flags, epoch: nat, scope: Option<nat>, duringReset: bool): Flags {
    if scope.Some? && (scope.value != epoch || f.shutdown || (f.resetting && !duringReset)) then f
    else f.(fatal := true)
  }

  /** Only the owner of the mentioned epoch may fail it. */
  function FatalFor(s: State, scope: nat): Flags {
    MarkFatal(s.flags, s.ep.epoch, Some(scope), false)
  }

  // ---------------------------------------------------------------- lifecycle calls

  predicate StartEnabled(s: State) {
    s.lifecycle.LifecycleIdle? && !s.flags.started
  }

  function Start(c: Config, s: State): State {
    if StartEnabled(s) then
      s.(metrics := if s.flags.shutdown then ZERO_METRICS else s.metrics,
         flags := s.flags.(shutdown := false, fatal := false, started := true),
         ep := s.ep.(providerResetPending := true),
         worker := WorkerIdle, delivery := if c.scheduler then DeliveryIdle else s.delivery)
    else s
  }

  function ResetBegin(s: State): State {
    if s.lifecycle.LifecycleIdle? then
      s.(ep := FreshEpisode(s.ep.epoch + 1), out := NO_OUTPUT, metrics := ZERO_METRICS,
         flags := s.flags.(resetting := true), lifecycle := Resetting(s.ep.pending))
    else s
  }

  /** The transport teardown of a reset returned (`ok`) or raised. */
  function ResetFinish(s: State, ok: bool): State {
    if s.lifecycle.Resetting? then
      s.(flags := if ok then s.flags else MarkFatal(s.flags, s.ep.epoch, Some(s.ep.epoch), true),
         lifecycle := Finishing(s.lifecycle.cancelled, RejectedReset, !ok))
    else s
  }

  function StopBegin(s: State): State {
    if s.lifecycle.LifecycleIdle? then
      s.(ep := FreshEpisode(s.ep.epoch + 1), out := NO_OUTPUT,
         flags := s.flags.(shutdown := true, active := false, resetting := true),
         lifecycle := Stopping(s.ep.pending))
    else s
  }

  datatype StopOutcome = Joined | TimedOut | Raised

  /** Both threads joined and the transport closed; or a join timed out; or
      cancelling or closing the transport raised. */
  function StopFinish(s: State, outcome: StopOutcome): State {
    if s.lifecycle.Stopping? && (outcome.Joined? ==> s.worker.WorkerDead? && s.delivery.DeliveryDead?) then
      s.(flags := if outcome.Joined? then s.flags.(started := false)
                  else MarkFatal(s.flags, s.ep.epoch, None, false),
         lifecycle := Finishing(s.lifecycle.cancelled, CancelledStop, outcome.Raised?))
    else s
  }

  function NoticesFor(cancelled: seq<Response>, status: Status): seq<Notice> {
    if cancelled == [] then [] else [Notice(cancelled[0].Id(), status)] + NoticesFor(cancelled[1..], status)
  }

  /** The `finally` block reopens admission. The notices are sent afterwards,
      outside the lifecycle lock, and not at all if the teardown raised. */
  function TeardownEnd(s: State): State {
    if s.lifecycle.Finishing? then
      var l := s.lifecycle;
      s.(flags := s.flags.(resetting := false), lifecycle := LifecycleIdle,
         notices := if l.raised then s.notices
                    else s.notices.(owed := s.notices.owed + NoticesFor(l.cancelled, l.status)))
    else s
  }

  /** One owed notice reaches the observer, which may raise. */
  function Announce(s: State, i: nat, raises: bool): State {
    if i < |s.notices.owed| then
      var n := s.notices.owed[i];
      s.(flags := if raises then FatalFor(s, n.id.epoch) else s.flags,
         notices := Notices(s.notices.owed[..i] + s.notices.owed[i + 1..], s.notices.told + [n]))
    else s
  }

  function SetActive(s: State, active: bool): State {
    s.(flags := s.flags.(active := active))
  }

  function SetTask(s: State, task: Task): State {
    if task == s.goal.task then s else s.(goal := Goal(task, s.goal.revision + 1))
  }

  // ---------------------------------------------------------------- control thread

  predicate SkippedByBudget(c: Config, ep: Episode) {
    ep.lastSubmitted >= 0 && ep.step + 1 < ep.lastSubmitted + c.interval
  }

  function NotifyObservation(c: Config, s: State): State {
    var m := s.metrics.(received := s.metrics.received + 1);
    if SkippedByBudget(c, s.ep) then
      s.(ep := s.ep.(step := s.ep.step + 1), metrics := m.(skipped := m.skipped + 1))
    else
      s.(ep := s.ep.(step := s.ep.step + 1, mailbox := Some(Envelope(s.ep.epoch, s.ep.step + 1))),
         metrics := m.(superseded := m.superseded + if s.ep.mailbox.Some? then 1 else 0))
  }

  predicate PullAllowed(s: State) {
    s.flags.started && Open(s.flags)
  }

  predicate HoldAllowed(c: Config, out: Output) {
    out.queue == [] && out.lastAction.Some? && out.holdUsed < c.holdBound
  }

  /** What one pull hands to the caller. */
  function PullResult(c: Config, s: State): Option<Packet> {
    if !PullAllowed(s) then None
    else if s.out.queue != [] then Some(Packet(c.engineId, s.out.queue[0]))
    else if HoldAllowed(c, s.out) then Some(Packet(c.engineId, s.out.lastAction.value))
    else None
  }

  function PullOutput(c: Config, out: Output): Output {
    if out.queue != [] then Output(out.queue[1..], Some(out.queue[0]), 0, 0)
    else if HoldAllowed(c, out) then out.(holdUsed := out.holdUsed + 1)
    else out.(starvedPulls := out.starvedPulls + 1)
  }

  function Pull(c: Config, s: State): State {
    if PullAllowed(s) then s.(out := PullOutput(c, s.out)) else s
  }

  predicate ActionIsCurrent(c: Config, s: State, p: Packet) {
    && s.flags.started && p.engineId == c.engineId
    && EpochIsCurrent(s, p.item.epoch) && p.item.revision == s.goal.revision
  }

  // ---------------------------------------------------------------- worker thread

  predicate TakeEnabled(s: State) {
    s.worker.WorkerIdle? && Open(s.flags) && s.flags.active && s.ep.mailbox.Some?
  }

  function Take(s: State): State {
    if TakeEnabled(s) then
      s.(ep := s.ep.(mailbox := None, lastSubmitted := s.ep.mailbox.value.step, nextOrdinal := s.ep.nextOrdinal + 1),
         metrics := s.metrics.(started := s.metrics.started + 1),
         worker := Taken(Job(s.ep.mailbox.value, s.ep.nextOrdinal, s.goal.revision, s.goal.task,
                             s.ep.providerResetPending)))
    else s
  }

  function WorkerExit(s: State): State {
    if s.worker.WorkerIdle? && (s.flags.shutdown || s.flags.fatal) then s.(worker := WorkerDead) else s
  }

  /** An unexpected error outside the guarded part of an iteration ends the thread. */
  function WorkerCrash(s: State): State {
    if s.worker.Taken? then
      s.(flags := MarkFatal(s.flags, s.ep.epoch, None, false), worker := WorkerDead)
    else s
  }

  datatype CallOutcome = Returned | Raised(timedOut: bool) | RaisedFatal

  function AfterFailure(job: Job, outcome: CallOutcome): Worker {
    if outcome.RaisedFatal? then Fatal(job, false) else Failed(job, outcome.Raised? && outcome.timedOut)
  }

  /** The provider reset, when the captured flag asks for one. */
  function ProviderReset(s: State, outcome: CallOutcome): State {
    if s.worker.Taken? then
      var job := s.worker.job;
      s.(worker := if !job.resetProvider then Ready(job)
                   else if outcome.Returned? then ProviderClean(job)
                   else AfterFailure(job, outcome))
    else s
  }

  function ClearFlag(s: State): State {
    if s.worker.ProviderClean? then
      var job := s.worker.job;
      if EpochIsCurrent(s, job.Epoch()) then
        s.(ep := s.ep.(providerResetPending := false), worker := Ready(job))
      else s.(worker := WorkerIdle)
    else s
  }

  /** The event captured with a job belongs to the job's epoch and is set exactly
      by the invalidation that ends that epoch. */
  predicate Cancelled(s: State, job: Job) {
    job.Epoch() < s.ep.epoch
  }

  function EnterInference(s: State): State {
    if s.worker.Ready? then
      var job := s.worker.job;
      s.(worker := if Cancelled(s, job) then Failed(job, false) else Inferring(job))
    else s
  }

  /** The transport call ends; a chunk that fails validation counts as raising. */
  function LeaveInference(s: State, outcome: CallOutcome, actions: seq<Action>): State {
    if s.worker.Inferring? then
      var job := s.worker.job;
      s.(worker := if outcome.Returned? && actions != [] then Completed(job, actions)
                   else AfterFailure(job, outcome))
    else s
  }

  function RecordFailure(c: Config, s: State): State {
    if s.worker.Failed? then
      var job := s.worker.job;
      if EpochIsCurrent(s, job.Epoch()) then
        var failures := s.metrics.failuresInRow + 1;
        s.(metrics := s.metrics.(connected := false, failuresInRow := failures),
           worker := if failures >= c.maxFailures then Fatal(job, true) else Retrying(job))
      else s.(worker := Retrying(job))
    else s
  }

  function CommitFatal(s: State): State {
    if s.worker.Fatal? then
      var w := s.worker;
      s.(flags := FatalFor(s, w.job.Epoch()), worker := if w.retry then Retrying(w.job) else WorkerIdle)
    else s
  }

  predicate RetryKept(s: State, job: Job) {
    !s.flags.fatal && !s.flags.shutdown && job.Epoch() == s.ep.epoch && s.ep.mailbox.None?
  }

  function Retry(s: State): State {
    if s.worker.Retrying? then
      var job := s.worker.job;
      s.(worker := WorkerIdle,
         ep := if RetryKept(s, job) then s.ep.(mailbox := Some(job.envelope)) else s.ep)
    else s
  }

  function CommitCompletion(s: State): State {
    if s.worker.Completed? then
      var w := s.worker;
      if EpochIsCurrent(s, w.job.Epoch()) then
        s.(metrics := s.metrics.(connected := true, failuresInRow := 0), worker := Delivering(w.job, w.actions))
      else s.(worker := WorkerIdle)
    else s
  }

  function AsResponse(job: Job, actions: seq<Action>, readyAt: int): Response {
    Response(job.Epoch(), job.revision, job.ordinal, job.envelope.step, job.task, actions, readyAt)
  }

  /** Scheduled delivery: the delay provider returned a delay, or raised. */
  function ChooseDelay(c: Config, s: State, delay: Option<nat>): State {
    if s.worker.Delivering? && c.scheduler then
      var w := s.worker;
      s.(worker := if delay.Some? then Scheduling(AsResponse(w.job, w.actions, s.now + delay.value))
                   else Fatal(w.job, false))
    else s
  }

  function Schedule(s: State): State {
    if s.worker.Scheduling? then
      var r := s.worker.response;
      if EpochIsCurrent(s, r.epoch) then
        s.(ep := s.ep.(pending := s.ep.pending + [r]),
           metrics := s.metrics.(scheduled := s.metrics.scheduled + 1),
           worker := Informing(r, Scheduled))
      else s.(worker := Informing(r, RejectedReset))
    else s
  }

  function WorkerInform(s: State, raises: bool): State {
    if s.worker.Informing? then
      var w := s.worker;
      s.(flags := if raises then FatalFor(s, w.response.epoch) else s.flags,
         notices := s.notices.(told := s.notices.told + [Notice(w.response.Id(), w.status)]),
         worker := WorkerIdle)
    else s
  }

  function MergeDirect(c: Config, s: State): State {
    if s.worker.Delivering? && !c.scheduler then
      Merge(c, s, AsResponse(s.worker.job, s.worker.actions, s.now), false).(worker := WorkerIdle)
    else s
  }

  // ---------------------------------------------------------------- queue commit

  function Age(step: int, r: Response): nat {
    if step >= r.source then step - r.source else 0
  }

  predicate FullyStale(step: int, r: Response) {
    Age(step, r) >= |r.actions|
  }

  predicate FallbackAllowed(c: Config, out: Output) {
    c.fallback && out.queue == [] && (out.starvedPulls > 0 || out.holdUsed >= c.holdBound)
  }

  /** A response passes the epoch check and, when scheduled, the order check. */
  predicate InOrder(s: State, r: Response, scheduled: bool) {
    EpochIsCurrent(s, r.epoch) && (scheduled ==> r.source > s.ep.latestDelivered)
  }

  predicate Accepted(c: Config, s: State, r: Response, scheduled: bool) {
    InOrder(s, r, scheduled) && (FullyStale(s.ep.step, r) ==> FallbackAllowed(c, s.out))
  }

  /** The actions of `r` from position `from` on, as queue entries. */
  function Suffix(r: Response, from: nat): (q: seq<Queued>)
    requires from <= |r.actions|
    ensures |q| == |r.actions| - from
    ensures forall i | 0 <= i < |q| ::
        q[i] == Queued(r.actions[from + i], from + i, r.epoch, r.revision, r.ordinal, r.source, r.task)
  {
    seq(|r.actions| - from, i requires 0 <= i < |r.actions| - from =>
      Queued(r.actions[from + i], from + i, r.epoch, r.revision, r.ordinal, r.source, r.task))
  }

  /** What an in-order response does to the queue at control step `step`. */
  function MergeOutput(c: Config, out: Output, step: int, r: Response): Output {
    if FullyStale(step, r) then
      if FallbackAllowed(c, out) then Output(Suffix(r, 0), out.lastAction, 0, 0) else out
    else Output(Suffix(r, Age(step, r)), out.lastAction, 0, 0)
  }

  function Merge(c: Config, s: State, r: Response, scheduled: bool): State {
    if !EpochIsCurrent(s, r.epoch) then s
    else if scheduled && r.source <= s.ep.latestDelivered then
      s.(metrics := s.metrics.(outOfOrder := s.metrics.outOfOrder + 1))
    else if scheduled then
      s.(ep := s.ep.(latestDelivered := r.source),
         metrics := s.metrics.(delivered := s.metrics.delivered + 1),
         out := MergeOutput(c, s.out, s.ep.step, r))
    else s.(out := MergeOutput(c, s.out, s.ep.step, r))
  }

  /** The status reported for a scheduled response that is merged in state `s`. */
  function MergeStatus(s: State, r: Response): Status {
    if !EpochIsCurrent(s, r.epoch) then RejectedReset
    else if r.source <= s.ep.latestDelivered then RejectedOutOfOrder
    else Delivered
  }

  // ---------------------------------------------------------------- delivery thread

  predicate Before(a: Response, b: Response) {
    a.readyAt < b.readyAt || (a.readyAt == b.readyAt && a.ordinal <= b.ordinal)
  }

  /** Position of the entry a heap ordered by (ready time, ordinal) pops first. */
  function First(pending: seq<Response>): (k: nat)
    requires pending != []
    ensures k < |pending| && forall i | 0 <= i < |pending| :: Before(pending[k], pending[i])
  {
    if |pending| == 1 then 0
    else
      var k := 1 + First(pending[1..]);
      if Before(pending[0], pending[k]) then 0 else k
  }

  predicate PopEnabled(s: State) {
    && s.delivery.DeliveryIdle? && Open(s.flags) && s.ep.pending != []
    && s.ep.pending[First(s.ep.pending)].readyAt <= s.now
  }

  function Pop(s: State): State {
    if PopEnabled(s) then
      var k := First(s.ep.pending);
      s.(ep := s.ep.(pending := s.ep.pending[..k] + s.ep.pending[k + 1..]),
         delivery := Merging(s.ep.pending[k]))
    else s
  }

  function DeliveryExit(s: State): State {
    if s.delivery.DeliveryIdle? && (s.flags.shutdown || s.flags.fatal) then s.(delivery := DeliveryDead) else s
  }

  function DeliveryMerge(c: Config, s: State): State {
    if s.delivery.Merging? then
      var r := s.delivery.response;
      Merge(c, s, r, true).(delivery := Reporting(r, MergeStatus(s, r)))
    else s
  }

  function DeliveryReport(s: State, raises: bool): State {
    if s.delivery.Reporting? then
      var d := s.delivery;
      s.(flags := if raises then FatalFor(s, d.response.epoch) else s.flags,
         notices := s.notices.(told := s.notices.told + [Notice(d.response.Id(), d.status)]),
         delivery := DeliveryIdle)
    else s
  }

  // ---------------------------------------------------------------- scheduling

  datatype ControlStep =
    | DoTick(elapsed: nat) | DoNotify | DoPull | DoSetTask(task: Task) | DoSetActive(active: bool)

  datatype LifecycleStep =
    | DoStart | DoResetBegin | DoResetFinish(ok: bool) | DoStopBegin | DoStopFinish(stop: StopOutcome)
    | DoTeardownEnd | DoAnnounce(i: nat, raises: bool)

  /** The worker, up to the end of the policy call. */
  datatype AskStep =
    | DoTake | DoWorkerExit | DoWorkerCrash | DoProviderReset(call: CallOutcome) | DoClearFlag
    | DoEnterInference | DoLeaveInference(call: CallOutcome, actions: seq<Action>)

  /** The worker, from the end of the policy call on. */
  datatype AnswerStep =
    | DoRecordFailure | DoCommitFatal | DoRetry | DoCommitCompletion
    | DoChooseDelay(delay: Option<nat>) | DoSchedule | DoWorkerInform(raises: bool) | DoMergeDirect

  datatype DeliveryStep =
    | DoPop | DoDeliveryExit | DoDeliveryMerge | DoDeliveryReport(raises: bool)

  datatype Step =
    | Control(control: ControlStep)
    | Lifecycle(life: LifecycleStep)
    | Ask(ask: AskStep)
    | Answer(answer: AnswerStep)
    | Deliver(deliver: DeliveryStep)

  function ControlNext(c: Config, s: State, step: ControlStep): State {
    match step
    case DoTick(elapsed) => s.(now := s.now + elapsed)
    case DoNotify => NotifyObservation(c, s)
    case DoPull => Pull(c, s)
    case DoSetTask(task) => SetTask(s, task)
    case DoSetActive(active) => SetActive(s, active)
  }

  function LifecycleNext(c: Config, s: State, step: LifecycleStep): State {
    match step
    case DoStart => Start(c, s)
    case DoResetBegin => ResetBegin(s)
    case DoResetFinish(ok) => ResetFinish(s, ok)
    case DoStopBegin => StopBegin(s)
    case DoStopFinish(stop) => StopFinish(s, stop)
    case DoTeardownEnd => TeardownEnd(s)
    case DoAnnounce(i, raises) => Announce(s, i, raises)
  }

  function AskNext(s: State, step: AskStep): State {
    match step
    case DoTake => Take(s)
    case DoWorkerExit => WorkerExit(s)
    case DoWorkerCrash => WorkerCrash(s)
    case DoProviderReset(call) => ProviderReset(s, call)
    case DoClearFlag => ClearFlag(s)
    case DoEnterInference => EnterInference(s)
    case DoLeaveInference(call, actions) => LeaveInference(s, call, actions)
  }

  function AnswerNext(c: Config, s: State, step: AnswerStep): State {
    match step
    case DoRecordFailure => RecordFailure(c, s)
    case DoCommitFatal => CommitFatal(s)
    case DoRetry => Retry(s)
    case DoCommitCompletion => CommitCompletion(s)
    case DoChooseDelay(delay) => ChooseDelay(c, s, delay)
    case DoSchedule => Schedule(s)
    case DoWorkerInform(raises) => WorkerInform(s, raises)
    case DoMergeDirect => MergeDirect(c, s)
  }

  function DeliverNext(c: Config, s: State, step: DeliveryStep): State {
    match step
    case DoPop => Pop(s)
    case DoDeliveryExit => DeliveryExit(s)
    case DoDeliveryMerge => DeliveryMerge(c, s)
    case DoDeliveryReport(raises) => DeliveryReport(s, raises)
  }

  function Next(c: Config, s: State, step: Step): State {
    match step
    case Control(a) => ControlNext(c, s, a)
    case Lifecycle(a) => LifecycleNext(c, s, a)
    case Ask(a) => AskNext(s, a)
    case Answer(a) => AnswerNext(c, s, a)
    case Deliver(a) => DeliverNext(c, s, a)
  }
}
