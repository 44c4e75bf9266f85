/** What an outside witness of an engine run remembers.

    `History` is not engine state. It records, step by step, the facts the
    run-level theorems speak about: which provider and policy calls were made,
    which chunks were committed, which packets were handed out, what happened to
    every response. `Record` only observes; it never influences `Next`. */
module EngineHistory {
  import opened EngineState

  datatype PolicyEvent =
    | ResetCall(epoch: nat, ok: bool)
    | InferCall(epoch: nat, ordinal: nat)

  datatype Commit = Commit(epoch: nat, ordinal: nat, source: int)

  /** A packet handed out at control step `step`; `late` and `fallback` describe
      how the chunk in the queue was committed. */
  datatype Dispatch = Dispatch(packet: Packet, step: int, held: bool, late: bool, fallback: bool)

  /** A completed request of the current epoch. */
  datatype Request = Request(ordinal: nat, source: int)

  /** Distinct source steps taken in this epoch; failed observations put back since
      the counters were zeroed; observations that stop dropped, less those start
      inherited without counting them. */
  datatype Intake = Intake(submitted: seq<int>, requeued: nat, drift: int)

  /** Responses that reached the scheduling block; those a raising teardown lost. */
  datatype Fate = Fate(responses: set<RequestId>, lost: seq<Response>)

  /** Pulls on an empty queue since it last had content; holds since the last dequeue. */
  datatype Replay = Replay(emptyPulls: nat, holds: nat)

  /** Which half of the notify-then-act loop the control thread is in. */
  datatype Phase = NeedObservation | NeedAction

  /** How the queue's chunk was committed, and whether the control thread has kept
      to one observation, one action. */
  datatype Pacing = Pacing(late: bool, fallback: bool, phase: Phase, disciplined: bool)

  datatype History = History(
    intake: Intake,
    policy: seq<PolicyEvent>,       // provider resets and policy calls, in order
    completed: seq<Request>,        // completions of this epoch, in order
    commits: seq<Commit>,           // chunks that replaced the queue, in order
    dispatches: seq<Dispatch>,      // packets handed out, in order
    fate: Fate,
    replay: Replay,
    pacing: Pacing
  )

  datatype World = World(s: State, h: History)

  function Begin(task: Task): World {
    World(Initial(task),
          History(Intake([], 0, 0), [], [], [], [], Fate({}, []), Replay(0, 0),
                  Pacing(false, false, NeedObservation, true)))
  }

  function Occupancy(ep: Episode): nat {
    if ep.mailbox.Some? then 1 else 0
  }

  function RecordInvalidation(h: History, intake: Intake): History {
    h.(intake := intake, completed := [], replay := h.replay.(emptyPulls := 0),
       pacing := Pacing(false, false, NeedObservation, h.pacing.disciplined))
  }

  function RecordCommit(c: Config, h: History, s: State, r: Response, scheduled: bool): History {
    if Accepted(c, s, r, scheduled) then
      h.(commits := h.commits + [Commit(r.epoch, r.ordinal, r.source)],
         replay := h.replay.(emptyPulls := 0),
         pacing := h.pacing.(late := h.pacing.phase.NeedObservation?, fallback := FullyStale(s.ep.step, r)))
    else h
  }

  function RecordPull(c: Config, h: History, s: State): History {
    var turn := h.pacing.disciplined && h.pacing.phase.NeedAction?;
    if !PullAllowed(s) then h.(pacing := h.pacing.(disciplined := turn))
    else if s.out.queue != [] || HoldAllowed(c, s.out) then
      var held := s.out.queue == [];
      h.(dispatches := h.dispatches +
           [Dispatch(PullResult(c, s).value, s.ep.step, held, h.pacing.late, h.pacing.fallback)],
         replay := if held then Replay(h.replay.emptyPulls + 1, h.replay.holds + 1) else Replay(0, 0),
         pacing := h.pacing.(phase := NeedObservation, disciplined := turn))
    else
      h.(replay := h.replay.(emptyPulls := h.replay.emptyPulls + 1), pacing := h.pacing.(disciplined := turn))
  }

  function RecordControl(c: Config, h: History, s: State, step: ControlStep): History {
    match step
    case DoNotify =>
      h.(pacing := h.pacing.(phase := NeedAction,
                             disciplined := h.pacing.disciplined && h.pacing.phase.NeedObservation?))
    case DoPull => RecordPull(c, h, s)
    case _ => h
  }

  function RecordLifecycle(h: History, s: State, step: LifecycleStep): History {
    match step
    case DoStart =>
      if StartEnabled(s) && s.flags.shutdown then
        h.(intake := Intake(h.intake.submitted, 0, 0 - Occupancy(s.ep)))
      else h
    case DoResetBegin =>
      if s.lifecycle.LifecycleIdle? then RecordInvalidation(h, Intake([], 0, 0)) else h
    case DoStopBegin =>
      if s.lifecycle.LifecycleIdle? then
        RecordInvalidation(h, Intake([], h.intake.requeued, h.intake.drift + Occupancy(s.ep)))
      else h
    case DoTeardownEnd =>
      if s.lifecycle.Finishing? && s.lifecycle.raised then
        h.(fate := h.fate.(lost := h.fate.lost + s.lifecycle.cancelled))
      else h
    case _ => h
  }

  function RecordAsk(h: History, s: State, step: AskStep): History {
    match step
    case DoTake =>
      if TakeEnabled(s) && s.ep.mailbox.value.step != s.ep.lastSubmitted then
        h.(intake := h.intake.(submitted := h.intake.submitted + [s.ep.mailbox.value.step]))
      else h
    case DoProviderReset(call) =>
      if s.worker.Taken? && s.worker.job.resetProvider then
        h.(policy := h.policy + [ResetCall(s.worker.job.Epoch(), call.Returned?)])
      else h
    case DoEnterInference =>
      if s.worker.Ready? && !Cancelled(s, s.worker.job) then
        h.(policy := h.policy + [InferCall(s.worker.job.Epoch(), s.worker.job.ordinal)])
      else h
    case _ => h
  }

  function RecordAnswer(c: Config, h: History, s: State, step: AnswerStep): History {
    match step
    case DoRetry =>
      if s.worker.Retrying? && RetryKept(s, s.worker.job) then
        h.(intake := h.intake.(requeued := h.intake.requeued + 1))
      else h
    case DoCommitCompletion =>
      if s.worker.Completed? && EpochIsCurrent(s, s.worker.job.Epoch()) then
        h.(completed := h.completed + [Request(s.worker.job.ordinal, s.worker.job.envelope.step)])
      else h
    case DoSchedule =>
      if s.worker.Scheduling? then
        h.(fate := h.fate.(responses := h.fate.responses + {s.worker.response.Id()}))
      else h
    case DoMergeDirect =>
      if s.worker.Delivering? && !c.scheduler then
        RecordCommit(c, h, s, AsResponse(s.worker.job, s.worker.actions, s.now), false)
      else h
    case _ => h
  }

  function RecordDeliver(c: Config, h: History, s: State, step: DeliveryStep): History {
    if step.DoDeliveryMerge? && s.delivery.Merging? then RecordCommit(c, h, s, s.delivery.response, true) else h
  }

  function Record(c: Config, h: History, s: State, step: Step): History {
    match step
    case Control(a) => RecordControl(c, h, s, a)
    case Lifecycle(a) => RecordLifecycle(h, s, a)
    case Ask(a) => RecordAsk(h, s, a)
    case Answer(a) => RecordAnswer(c, h, s, a)
    case Deliver(a) => RecordDeliver(c, h, s, a)
  }

  function Advance(c: Config, w: World, step: Step): World {
    World(Next(c, w.s, step), Record(c, w.h, w.s, step))
  }

  /** A whole run under an arbitrary schedule. */
  function Run(c: Config, w: World, schedule: seq<Step>): World
    decreases |schedule|
  {
    if schedule == [] then w
    else Run(c, Advance(c, w, schedule[0]), schedule[1..])
  }
}
