/** What every reachable state of an engine run satisfies. */
module EngineInvariant {
  import opened Common
  import opened EngineState
  import opened EngineHistory

  // ---------------------------------------------------------------- episode ownership

  predicate HasJob(w: Worker) {
    || w.Taken? || w.ProviderClean? || w.Ready? || w.Inferring? || w.Failed?
    || w.Fatal? || w.Retrying? || w.Completed? || w.Delivering?
  }

  /** The job has not completed, so nothing of its observation has been returned. */
  predicate Unanswered(w: Worker) {
    HasJob(w) && !w.Delivering? && !(w.Fatal? && !w.retry)
  }

  predicate HasResponse(w: Worker) {
    w.Scheduling? || w.Informing?
  }

  predicate Delivers(d: Delivery) {
    d.Merging? || d.Reporting?
  }

  ghost predicate Owned(c: Config, s: State) {
    && (!s.flags.started ==> s.worker.WorkerDead? && s.delivery.DeliveryDead?)
    && (!s.flags.started || s.flags.shutdown ==> s.ep.pending == [] && s.out == NO_OUTPUT)
    && (s.flags.resetting <==> !s.lifecycle.LifecycleIdle?)
    && (s.lifecycle.Stopping? ==> s.flags.shutdown)
    && (s.flags.resetting ==> s.ep.pending == [] && (s.delivery.Merging? ==> s.delivery.response.epoch < s.ep.epoch))
    && (!c.scheduler ==> s.delivery.DeliveryDead? && s.ep.pending == [] && !HasResponse(s.worker))
  }

  predicate Fresh(r: Response, epoch: nat, revision: nat) {
    r.epoch <= epoch && r.revision <= revision && r.actions != []
  }

  /** Everything an episode owns carries the current epoch. */
  ghost predicate EpisodeIsolated(ep: Episode, revision: nat) {
    && (ep.mailbox.Some? ==> ep.mailbox.value.epoch == ep.epoch)
    && (forall r | r in ep.pending :: r.epoch == ep.epoch && Fresh(r, ep.epoch, revision))
  }

  ghost predicate OutputIsolated(out: Output, epoch: nat, revision: nat) {
    && (forall i | 0 <= i < |out.queue| :: out.queue[i].epoch == epoch && out.queue[i].revision <= revision)
    && (out.lastAction.Some? ==> out.lastAction.value.epoch == epoch && out.lastAction.value.revision <= revision)
  }

  /** Work in flight belongs to the current epoch or an older one. */
  ghost predicate WorkIsolated(w: Worker, d: Delivery, epoch: nat, revision: nat) {
    && (HasJob(w) ==> w.job.Epoch() <= epoch && w.job.revision <= revision)
    && (w.Completed? || w.Delivering? ==> w.actions != [])
    && (HasResponse(w) ==> Fresh(w.response, epoch, revision))
    && (Delivers(d) ==> Fresh(d.response, epoch, revision))
  }

  ghost predicate Isolated(s: State) {
    && EpisodeIsolated(s.ep, s.goal.revision)
    && OutputIsolated(s.out, s.ep.epoch, s.goal.revision)
    && WorkIsolated(s.worker, s.delivery, s.ep.epoch, s.goal.revision)
  }

  // ---------------------------------------------------------------- request order

  ghost predicate Spaced(steps: seq<int>, interval: nat) {
    forall i | 0 < i < |steps| :: steps[i] >= steps[i - 1] + interval
  }

  ghost predicate Paced(c: Config, ep: Episode, w: Worker, submitted: seq<int>) {
    && -1 <= ep.lastSubmitted <= ep.step
    && (submitted == [] <==> ep.lastSubmitted == -1)
    && (submitted != [] ==> submitted[0] >= 0 && submitted[|submitted| - 1] == ep.lastSubmitted)
    && Spaced(submitted, c.interval)
    && (ep.mailbox.Some? ==>
          var m := ep.mailbox.value.step;
          && 0 <= m <= ep.step
          && (ep.lastSubmitted < 0 || m == ep.lastSubmitted || m >= ep.lastSubmitted + c.interval))
    && (HasJob(w) && w.job.Epoch() == ep.epoch ==>
          && w.job.envelope.step == ep.lastSubmitted >= 0
          && w.job.ordinal + 1 == ep.nextOrdinal
          && (ep.mailbox.Some? ==> ep.mailbox.value.step > ep.lastSubmitted))
  }

  predicate Precedes(a: Request, b: Request) {
    a.ordinal < b.ordinal && a.source < b.source
  }

  function Asked(j: Job): Request {
    Request(j.ordinal, j.envelope.step)
  }

  function Answered(r: Response): Request {
    Request(r.ordinal, r.source)
  }

  ghost predicate Increasing(completed: seq<Request>) {
    forall i, j | 0 <= i < j < |completed| :: Precedes(completed[i], completed[j])
  }

  /** The newest completion lies before everything still to come. */
  ghost predicate Below(last: Request, ep: Episode, w: Worker) {
    && last.source <= ep.lastSubmitted && last.ordinal < ep.nextOrdinal
    && (ep.mailbox.Some? ==> last.source < ep.mailbox.value.step)
    && (Unanswered(w) && w.job.Epoch() == ep.epoch ==> Precedes(last, Asked(w.job)))
  }

  /** Everything completed but not yet committed is on record. */
  ghost predicate OnRecord(ep: Episode, w: Worker, d: Delivery, completed: seq<Request>) {
    && (w.Delivering? && w.job.Epoch() == ep.epoch ==> Asked(w.job) in completed)
    && (w.Scheduling? && w.response.epoch == ep.epoch ==> Answered(w.response) in completed)
    && (forall r | r in ep.pending :: Answered(r) in completed)
    && (d.Merging? && d.response.epoch == ep.epoch ==> Answered(d.response) in completed)
  }

  ghost predicate Ordered(ep: Episode, w: Worker, d: Delivery, completed: seq<Request>) {
    && Increasing(completed)
    && (completed != [] ==> Below(completed[|completed| - 1], ep, w))
    && OnRecord(ep, w, d, completed)
  }

  // ---------------------------------------------------------------- commits and packets

  predicate Earlier(a: Commit, b: Commit) {
    a.epoch < b.epoch || (a.epoch == b.epoch && a.ordinal < b.ordinal && a.source < b.source)
  }

  predicate FromCommit(q: Queued, k: Commit) {
    q.epoch == k.epoch && q.ordinal == k.ordinal && q.source == k.source
  }

  /** `q` came from the chunk of `k` or from one committed before it. */
  predicate UpTo(q: Queued, k: Commit) {
    q.epoch == k.epoch && q.ordinal <= k.ordinal && q.source <= k.source
  }

  ghost predicate Newest(c: Config, ep: Episode, w: Worker, completed: seq<Request>, k: Commit) {
    && k.epoch <= ep.epoch
    && (k.epoch == ep.epoch ==>
          && Request(k.ordinal, k.source) in completed
          && (c.scheduler ==> k.source <= ep.latestDelivered)
          && (!c.scheduler && w.Delivering? && w.job.Epoch() == ep.epoch ==> k.source < w.job.envelope.step))
  }

  ghost predicate Committed(c: Config, ep: Episode, w: Worker, completed: seq<Request>, commits: seq<Commit>) {
    && (forall i, j | 0 <= i < j < |commits| :: Earlier(commits[i], commits[j]))
    && (commits != [] ==> Newest(c, ep, w, completed, commits[|commits| - 1]))
  }

  ghost predicate Sourced(epoch: nat, out: Output, commits: seq<Commit>) {
    && (out.queue != [] || out.lastAction.Some? ==>
          commits != [] && commits[|commits| - 1].epoch == epoch)
    && (forall i | 0 <= i < |out.queue| :: FromCommit(out.queue[i], commits[|commits| - 1]))
    && (out.lastAction.Some? ==> UpTo(out.lastAction.value, commits[|commits| - 1]))
  }

  predicate NotAfter(a: Queued, b: Queued) {
    a.epoch < b.epoch || (a.epoch == b.epoch && a.ordinal <= b.ordinal && a.source <= b.source)
  }

  ghost predicate Dispatched(c: Config, s: State, dispatches: seq<Dispatch>) {
    && (forall i, j | 0 <= i < j < |dispatches| :: NotAfter(dispatches[i].packet.item, dispatches[j].packet.item))
    && (forall i | 0 <= i < |dispatches| :: Issued(c, s, dispatches[i].packet))
    && (dispatches != [] && dispatches[|dispatches| - 1].packet.item.epoch == s.ep.epoch ==>
          s.out.lastAction == Some(dispatches[|dispatches| - 1].packet.item))
  }

  /** What stays true of a packet once this engine has handed it out. */
  predicate Issued(c: Config, s: State, p: Packet) {
    && p.engineId == c.engineId
    && p.item.epoch <= s.ep.epoch && p.item.revision <= s.goal.revision
    && (p.item.epoch == s.ep.epoch ==> s.flags.started && !s.flags.shutdown && !s.flags.resetting)
  }

  // ---------------------------------------------------------------- policy ownership

  /** The last provider reset in `p` succeeded for `epoch`, and only policy calls
      of `epoch` came after it. */
  predicate CleanSince(p: seq<PolicyEvent>, epoch: nat) {
    p != [] &&
    match p[|p| - 1]
    case ResetCall(e, ok) => e == epoch && ok
    case InferCall(e, _) => e == epoch && CleanSince(p[..|p| - 1], epoch)
  }

  ghost predicate CalledClean(p: seq<PolicyEvent>, id: RequestId) {
    exists j :: 0 <= j < |p| && p[j] == InferCall(id.epoch, id.ordinal) && CleanSince(p[..j], id.epoch)
  }

  ghost predicate OwnerClean(ep: Episode, w: Worker, p: seq<PolicyEvent>) {
    && (!ep.providerResetPending ==> CleanSince(p, ep.epoch))
    && (w.Taken? && w.job.resetProvider ==> ep.providerResetPending)
    && (w.Taken? && !w.job.resetProvider ==> CleanSince(p, w.job.Epoch()))
    && (w.ProviderClean? || w.Ready? ==> CleanSince(p, w.job.Epoch()))
    && (HasJob(w) && w.job.Epoch() < ep.epoch ==> ep.providerResetPending)
  }

  ghost predicate CallsClean(ep: Episode, w: Worker, d: Delivery, p: seq<PolicyEvent>, commits: seq<Commit>) {
    && (w.Inferring? || w.Completed? || w.Delivering? ==> CalledClean(p, w.job.Id()))
    && (w.Scheduling? ==> CalledClean(p, w.response.Id()))
    && (forall r | r in ep.pending :: CalledClean(p, r.Id()))
    && (d.Merging? ==> CalledClean(p, d.response.Id()))
    && (forall i | 0 <= i < |commits| :: CalledClean(p, RequestId(commits[i].epoch, commits[i].ordinal)))
  }

  // ---------------------------------------------------------------- fate of responses

  /** How many of `rs` have identity `id`. */
  function Copies(rs: seq<Response>, id: RequestId): nat {
    if rs == [] then 0 else (if rs[0].Id() == id then 1 else 0) + Copies(rs[1..], id)
  }

  /** How many terminal statuses of `id` are among `ns`. */
  function Verdicts(ns: seq<Notice>, id: RequestId): nat {
    if ns == [] then 0
    else (if ns[0].id == id && ns[0].status.Terminal() then 1 else 0) + Verdicts(ns[1..], id)
  }

  function HeldByDelivery(d: Delivery, id: RequestId): nat {
    if Delivers(d) && d.response.Id() == id then 1 else 0
  }

  function HeldByWorker(w: Worker, id: RequestId): nat {
    if w.Informing? && w.status.Terminal() && w.response.Id() == id then 1 else 0
  }

  function HeldByTeardown(l: Lifecycle, id: RequestId): nat {
    if l.LifecycleIdle? then 0 else Copies(l.cancelled, id)
  }

  /** A response that reached the scheduling block is in exactly one place; an
      identity that did not is in none. */
  ghost predicate AccountedFor(s: State, fate: Fate, id: RequestId) {
    (if id in fate.responses then 1 else 0) ==
      Verdicts(s.notices.told, id) + Verdicts(s.notices.owed, id) + Copies(s.ep.pending, id)
      + HeldByTeardown(s.lifecycle, id) + HeldByDelivery(s.delivery, id) + HeldByWorker(s.worker, id)
      + Copies(fate.lost, id)
  }

  ghost predicate Accounted(s: State, fate: Fate) {
    forall id :: AccountedFor(s, fate, id)
  }

  ghost predicate Numbered(s: State, fate: Fate) {
    && (forall id | id in fate.responses ::
          id.epoch <= s.ep.epoch && (id.epoch == s.ep.epoch ==> id.ordinal < s.ep.nextOrdinal))
    && (HasJob(s.worker) ==> s.worker.job.Id() !in fate.responses)
    && (s.worker.Scheduling? ==> s.worker.response.Id() !in fate.responses)
    && (s.worker.Scheduling? && s.worker.response.epoch == s.ep.epoch ==>
          s.worker.response.ordinal < s.ep.nextOrdinal)
    && (s.delivery.Reporting? ==> s.delivery.status.Terminal())
    && (s.lifecycle.Finishing? ==> s.lifecycle.status.Terminal())
  }

  // ---------------------------------------------------------------- counters

  ghost predicate IntakeCounted(m: Metrics, ep: Episode, intake: Intake) {
    m.received - m.skipped + intake.requeued == m.started + m.superseded + Occupancy(ep) + intake.drift
  }

  /** The one popped but not merged. */
  function InDelivery(s: State): nat {
    if s.delivery.Merging? && s.delivery.response.epoch == s.ep.epoch then 1 else 0
  }

  ghost predicate RepliesCounted(s: State) {
    !s.flags.shutdown && (!s.flags.fatal || !s.flags.started) ==>
      s.metrics.scheduled == s.metrics.delivered + s.metrics.outOfOrder + |s.ep.pending| + InDelivery(s)
  }

  // ---------------------------------------------------------------- hold and alignment

  ghost predicate HoldBounded(c: Config, out: Output, replay: Replay) {
    && replay.holds <= c.holdBound
    && (out.queue != [] ==> replay.emptyPulls == 0)
    && (out.lastAction.Some? && out.queue == [] ==> replay.holds == out.holdUsed)
    && (out.lastAction.Some? ==>
          out.holdUsed == Min(c.holdBound, replay.emptyPulls)
          && out.starvedPulls == replay.emptyPulls - out.holdUsed)
    && (out.lastAction.None? ==> out.holdUsed == 0 && out.starvedPulls == replay.emptyPulls)
  }

  /** Where the queue's head stands relative to the control step. */
  ghost predicate HeadAligned(step: int, out: Output, pacing: Pacing) {
    && (forall i | 0 <= i < |out.queue| :: out.queue[i].Planned() == out.queue[0].Planned() + i)
    && (pacing.disciplined && out.queue != [] && !pacing.fallback ==>
          out.queue[0].Planned() ==
            step + (if pacing.phase.NeedObservation? then 1 else 0) - (if pacing.late then 1 else 0))
  }

  predicate OnTime(d: Dispatch) {
    d.packet.item.Planned() == d.step - (if d.late then 1 else 0)
  }

  ghost predicate DispatchAligned(dispatches: seq<Dispatch>, pacing: Pacing) {
    pacing.disciplined ==>
      forall i | 0 <= i < |dispatches| && !dispatches[i].held && !dispatches[i].fallback :: OnTime(dispatches[i])
  }

  // ---------------------------------------------------------------- the invariant

  ghost predicate Inv(c: Config, w: World) {
    && Owned(c, w.s)
    && Isolated(w.s)
    && Paced(c, w.s.ep, w.s.worker, w.h.intake.submitted)
    && Ordered(w.s.ep, w.s.worker, w.s.delivery, w.h.completed)
    && Committed(c, w.s.ep, w.s.worker, w.h.completed, w.h.commits)
    && Sourced(w.s.ep.epoch, w.s.out, w.h.commits)
    && Dispatched(c, w.s, w.h.dispatches)
    && OwnerClean(w.s.ep, w.s.worker, w.h.policy)
    && CallsClean(w.s.ep, w.s.worker, w.s.delivery, w.h.policy, w.h.commits)
    && Accounted(w.s, w.h.fate)
    && Numbered(w.s, w.h.fate)
    && IntakeCounted(w.s.metrics, w.s.ep, w.h.intake)
    && RepliesCounted(w.s)
    && HoldBounded(c, w.s.out, w.h.replay)
    && HeadAligned(w.s.ep.step, w.s.out, w.h.pacing)
    && DispatchAligned(w.h.dispatches, w.h.pacing)
  }
}
