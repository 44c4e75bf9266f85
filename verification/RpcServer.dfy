/** The server behind the client: one process per connection, one job queue, and one
    worker that alone runs the inference and reset callbacks. */
module RpcServer {
  import opened Common
  import opened RpcWire

  // ---------------------------------------------------------------- the executor

  /** `position` is the place of the frame among those sent on `sock`; `ordinal` is
      the global number of an inference request, 0 for a reset. */
  datatype Job = Job(
    sock: nat, position: nat, frame: Frame, ordinal: nat, obsolete: bool, done: bool, response: Option<Verdict>
  )

  datatype Worker = Idle | Picked(job: nat) | Cleared(job: nat) | Computing(job: nat) | Computed(job: nat, ok: bool)

  datatype Counters = Counters(
    inferenceCalls: nat, resetCalls: nat, resetSuccesses: nat, resetFailures: nat, dropped: nat, invalidated: nat
  )

  datatype Mark = Began(job: nat, frame: Frame) | Ended(job: nat, frame: Frame, ok: bool)

  /** `jobs` in the order they were admitted; those from `picked` on are queued.
      `log` records each start and end of a callback. */
  datatype Executor = Executor(jobs: seq<Job>, picked: nat, worker: Worker, counters: Counters, log: seq<Mark>)

  const NEW_EXECUTOR: Executor := Executor([], 0, Idle, Counters(0, 0, 0, 0, 0, 0), [])

  function Enqueue(x: Executor, job: Job): Executor {
    x.(jobs := x.jobs + [job])
  }

  function SetJob(x: Executor, j: nat, job: Job): Executor
    requires j < |x.jobs|
  {
    x.(jobs := x.jobs[j := job])
  }

  /** `execute` marks its job when it stops waiting, whatever the reason. */
  function Abandon(x: Executor, j: nat): Executor {
    if j < |x.jobs| then SetJob(x, j, x.jobs[j].(obsolete := true)) else x
  }

  function Pick(x: Executor): Executor {
    if x.worker.Idle? && x.picked < |x.jobs| then x.(worker := Picked(x.picked), picked := x.picked + 1) else x
  }

  /** A job already obsolete is dropped before anything is computed for it. */
  function Check(x: Executor, gone: bool): Executor {
    if !x.worker.Picked? || x.worker.job >= |x.jobs| then x
    else if gone then
      SetJob(x, x.worker.job, x.jobs[x.worker.job].(done := true))
      .(worker := Idle, counters := x.counters.(dropped := x.counters.dropped + 1))
    else x.(worker := Cleared(x.worker.job))
  }

  function BeginWork(x: Executor, hasReset: bool): Executor {
    if !x.worker.Cleared? || x.worker.job >= |x.jobs| then x
    else
      var j := x.worker.job;
      var c := x.counters;
      x.(worker := Computing(j), log := x.log + [Began(j, x.jobs[j].frame)],
         counters := if x.jobs[j].frame.kind.InferKind? then c.(inferenceCalls := c.inferenceCalls + 1)
                     else if hasReset then c.(resetCalls := c.resetCalls + 1)
                     else c)
  }

  /** The callback returned (`ok`) or raised; a reset without a callback cannot raise. */
  function EndWork(x: Executor, hasReset: bool, ok: bool): Executor {
    if !x.worker.Computing? || x.worker.job >= |x.jobs| then x
    else
      var j := x.worker.job;
      var c := x.counters;
      var reset := x.jobs[j].frame.kind.ResetKind?;
      var fine := ok || (reset && !hasReset);
      x.(worker := Computed(j, fine), log := x.log + [Ended(j, x.jobs[j].frame, fine)],
         counters := if !reset then c
                     else if fine then c.(resetSuccesses := c.resetSuccesses + 1)
                     else c.(resetFailures := c.resetFailures + 1))
  }

  /** The result of a job that has become obsolete is discarded. */
  function Settle(x: Executor, gone: bool): Executor {
    if !x.worker.Computed? || x.worker.job >= |x.jobs| then x
    else
      var j := x.worker.job;
      var verdict := if x.worker.ok then Ok else Refused;
      SetJob(x, j, x.jobs[j].(done := true, response := if gone then None else Some(verdict)))
      .(worker := Idle,
        counters := if gone then x.counters.(invalidated := x.counters.invalidated + 1) else x.counters)
  }

  // ---------------------------------------------------------------- connections

  /** Faults by request number; stalls and delays only take time. */
  datatype Faults = Faults(disconnectEvery: nat, errorEvery: nat, dropEvery: nat)

  datatype Setup = Setup(faults: Faults, hasReset: bool)

  predicate Matches(ordinal: nat, every: nat) {
    every > 0 && ordinal % every == 0
  }

  datatype Proc = Listening | Deciding(ordinal: nat) | Waiting(job: nat) | Answering(verdict: Verdict) | Closed

  datatype Service = Service(procs: map<nat, Proc>, nextOrdinal: nat, x: Executor)

  const NEW_SERVICE: Service := Service(map[], 1, NEW_EXECUTOR)

  datatype System = System(w: Wire, s: Service)

  const NEW_SYSTEM: System := System(NEW_WIRE, NEW_SERVICE)

  /** A connection is readable once its end of stream is visible or unread bytes have
      arrived; `arrived` says whether frames sent but not yet taken have. */
  predicate Readable(s: Sock, arrived: bool) {
    s.visible || (arrived && s.taken < |s.sent|)
  }

  predicate Obsolete(net: map<nat, Sock>, job: Job, arrived: bool) {
    job.obsolete || (job.sock in net && Readable(net[job.sock], arrived))
  }

  function ProcOf(s: Service, k: nat): Proc {
    if k in s.procs then s.procs[k] else Closed
  }

  /** The frame a connection's process is working on. */
  predicate HasTaken(net: map<nat, Sock>, k: nat) {
    k in net && 0 < net[k].taken <= |net[k].sent|
  }

  function TakenFrame(net: map<nat, Sock>, k: nat): Frame
    requires HasTaken(net, k)
  {
    net[k].sent[net[k].taken - 1]
  }

  function Admit(net: map<nat, Sock>, s: Service, k: nat, ordinal: nat): Service
    requires HasTaken(net, k)
  {
    var job := Job(k, net[k].taken - 1, TakenFrame(net, k), ordinal, false, false, None);
    s.(procs := s.procs[k := Waiting(|s.x.jobs|)], x := Enqueue(s.x, job))
  }

  /** The process has just read its next frame. */
  function Dispatch(net: map<nat, Sock>, s: Service, k: nat): Service
    requires HasTaken(net, k)
  {
    if TakenFrame(net, k).kind.ResetKind? then Admit(net, s, k, 0)
    else s.(procs := s.procs[k := Deciding(s.nextOrdinal)], nextOrdinal := s.nextOrdinal + 1)
  }

  function Decide(setup: Setup, net: map<nat, Sock>, s: Service, k: nat): Service {
    var proc := ProcOf(s, k);
    if !proc.Deciding? || !HasTaken(net, k) then s
    else if Matches(proc.ordinal, setup.faults.disconnectEvery) then s.(procs := s.procs[k := Closed])
    else if Matches(proc.ordinal, setup.faults.errorEvery) then s.(procs := s.procs[k := Answering(Refused)])
    else Admit(net, s, k, proc.ordinal)
  }

  /** What `execute` hands back once its job is done: nothing, or a reply to send. */
  function Outcome(setup: Setup, job: Job, gone: bool): Proc {
    if gone || job.response.None? then Closed
    else if job.frame.kind.InferKind? && job.response.value.Ok? && Matches(job.ordinal, setup.faults.dropEvery)
    then Closed
    else Answering(job.response.value)
  }

  function Poll(setup: Setup, net: map<nat, Sock>, s: Service, k: nat, arrived: bool): Service {
    var proc := ProcOf(s, k);
    if !proc.Waiting? || proc.job >= |s.x.jobs| then s
    else
      var job := s.x.jobs[proc.job];
      var gone := Obsolete(net, job, arrived);
      if !job.done && !gone then s
      else
        s.(procs := s.procs[k := if job.done then Outcome(setup, job, gone) else Closed],
           x := Abandon(s.x, proc.job))
  }

  // ---------------------------------------------------------------- scheduling

  datatype SysStep =
    | Client(step: Step)
    | Connected(k: nat)
    | ReadFrame(k: nat)
    | DoDecide(k: nat)
    | DoPoll(k: nat, arrived: bool)
    | SendReply(k: nat)
    | HangUp(k: nat)
    | SeeClose(k: nat)
    | DoPick
    | DoCheck(arrived: bool)
    | DoBegin
    | DoEnd(ok: bool)
    | DoSettle(arrived: bool)

  /** The connections closed before this frame was sent can be seen to be closed. */
  predicate ClosesVisible(net: map<nat, Sock>, frame: Frame) {
    forall k | k in frame.closedBefore :: k in net && net[k].visible
  }

  /** A reset frame is read only once earlier closes are visible: the one assumption
      made about the network. */
  predicate MayRead(y: System, k: nat) {
    && k in y.w.net && ProcOf(y.s, k).Listening? && y.w.net[k].taken < |y.w.net[k].sent|
    && var frame := y.w.net[k].sent[y.w.net[k].taken];
       frame.kind.ResetKind? ==> ClosesVisible(y.w.net, frame)
  }

  function WorkerGone(y: System, arrived: bool): bool {
    var worker := y.s.x.worker;
    !worker.Idle? && worker.job < |y.s.x.jobs| && Obsolete(y.w.net, y.s.x.jobs[worker.job], arrived)
  }

  function OnExecutor(y: System, x: Executor): System {
    y.(s := y.s.(x := x))
  }

  function SysNext(setup: Setup, y: System, step: SysStep): System {
    var net := y.w.net;
    var s := y.s;
    match step
    case Client(client) => if client.Server? then y else y.(w := Next(y.w, client))
    case Connected(k) =>
      if k in net && k !in s.procs then y.(s := s.(procs := s.procs[k := Listening])) else y
    case ReadFrame(k) =>
      if MayRead(y, k) then
        var w := OnSocket(y.w, k, TakeFrame);
        System(w, Dispatch(w.net, s, k))
      else y
    case DoDecide(k) => y.(s := Decide(setup, net, s, k))
    case DoPoll(k, arrived) => y.(s := Poll(setup, net, s, k, arrived))
    case SendReply(k) =>
      if ProcOf(s, k).Answering? && k in net then
        System(OnSocket(y.w, k, Answer(ProcOf(s, k).verdict)), s.(procs := s.procs[k := Listening]))
      else y
    case HangUp(k) =>
      if ProcOf(s, k).Listening? || ProcOf(s, k).Answering? then y.(s := s.(procs := s.procs[k := Closed])) else y
    case SeeClose(k) => y.(w := OnSocket(y.w, k, NoticeClose))
    case DoPick => OnExecutor(y, Pick(s.x))
    case DoCheck(arrived) => OnExecutor(y, Check(s.x, WorkerGone(y, arrived)))
    case DoBegin => OnExecutor(y, BeginWork(s.x, setup.hasReset))
    case DoEnd(ok) => OnExecutor(y, EndWork(s.x, setup.hasReset, ok))
    case DoSettle(arrived) => OnExecutor(y, Settle(s.x, WorkerGone(y, arrived)))
  }

  function SysRun(setup: Setup, y: System, schedule: seq<SysStep>): System
    decreases |schedule|
  {
    if schedule == [] then y else SysRun(setup, SysNext(setup, y, schedule[0]), schedule[1..])
  }
}
