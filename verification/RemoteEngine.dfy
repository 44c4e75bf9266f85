/** The engine in front of the TCP client: the worker's policy call is a call of
    `infer_cancellable`, a reset's teardown a call of `transport.reset`. Engine, client,
    network and server move as they do on their own, but for what the calls tie. */
module RemoteEngine {
  import opened Common
  import opened EngineState
  import opened EngineHistory
  import RpcClientState
  import RpcWire
  import RpcServer

  /** A running `transport.reset`: its call, its generation, its place in the trace. */
  datatype Asked = Asked(t: nat, generation: nat, begun: nat)

  /** A teardown that ended with an acknowledged reset. The trace was `from` long when the
      epoch began and `upto` long when the reset returned. */
  datatype Opening = Opening(generation: nat, from: nat, begun: nat, upto: nat)

  /** `reset` and `infer` are the calls in progress. The rest only remembers: `since` how
      long the trace was at the last reset, `resets` the epochs that a reset began,
      `openings` those whose reset was acknowledged, `origin` the last of these up to each
      epoch, `served` the accepted result that answered each request, and `sentFor` the
      epoch each inference frame was sent for. */
  datatype Link = Link(
    reset: Option<Asked>, infer: Option<nat>, since: nat, resets: set<nat>,
    openings: map<nat, Opening>, origin: map<nat, nat>, served: map<RequestId, nat>, sentFor: map<nat, nat>
  )

  datatype Joint = Joint(e: World, y: RpcServer.System, link: Link)

  const NEW_LINK: Link := Link(None, None, 0, {}, map[], map[], map[], map[])

  function BeginJoint(task: Task): Joint {
    Joint(Begin(task), RpcServer.NEW_SYSTEM, NEW_LINK)
  }

  // ---------------------------------------------------------------- the engine's own steps

  /** The ends of the two transport calls are not the engine's alone. */
  predicate EndsCall(step: Step) {
    (step.Lifecycle? && step.life.DoResetFinish?) || (step.Ask? && step.ask.DoLeaveInference?)
  }

  /** An epoch begun by stop goes on with the server state of the one before. */
  function LinkAfter(link: Link, s: State, length: nat, step: Step): Link {
    if !s.lifecycle.LifecycleIdle? then link
    else if step == Lifecycle(DoResetBegin) then link.(since := length, resets := link.resets + {s.ep.epoch + 1})
    else if step == Lifecycle(DoStopBegin) && s.ep.epoch in link.origin then
      link.(origin := link.origin[s.ep.epoch + 1 := link.origin[s.ep.epoch]])
    else link
  }

  function EngineMove(c: Config, j: Joint, step: Step): Joint {
    if EndsCall(step) then j
    else Joint(Advance(c, j.e, step), j.y, LinkAfter(j.link, j.e.s, |j.y.w.trace|, step))
  }

  // ---------------------------------------------------------------- the transport's own steps

  /** The worker's cancellation event is set. */
  predicate EventSet(s: State) {
    s.worker.Inferring? && Cancelled(s, s.worker.job)
  }

  /** An inference tests its event before it connects and before it accepts. */
  function WithEvent(j: Joint, t: nat, call: RpcWire.CallStep): RpcWire.CallStep {
    match call
    case DoFindSocket(_) => if j.link.infer == Some(t) && EventSet(j.e.s) then
                              RpcWire.DoFindSocket(Some(RpcClientState.WasCancelled))
                            else call
    case DoAccept(_) => RpcWire.DoAccept(EventSet(j.e.s))
    case _ => call
  }

  predicate SendsInference(w: RpcWire.Wire, t: nat, call: RpcWire.CallStep) {
    var e := RpcWire.CallEffect(w, t, call);
    e.Some? && e.value.io.Transmit? && e.value.io.kind.InferKind?
  }

  function CallMove(setup: RpcServer.Setup, j: Joint, t: nat, call: RpcWire.CallStep): Joint {
    var actual := WithEvent(j, t, call);
    j.(y := RpcServer.SysNext(setup, j.y, RpcServer.Client(RpcWire.Call(t, actual))),
       link := if SendsInference(j.y.w, t, actual) && j.e.s.worker.Inferring? then
                 j.link.(sentFor := j.link.sentFor[j.y.w.nextFrame := j.e.s.worker.job.Epoch()])
               else j.link)
  }

  /** Only the engine begins calls. */
  function TransportMove(setup: RpcServer.Setup, j: Joint, step: RpcServer.SysStep): Joint {
    if step.Client? && step.step.Call? then
      if step.step.call.DoBeginReset? || step.step.call.DoEnterInfer? then j
      else CallMove(setup, j, step.step.t, step.step.call)
    else j.(y := RpcServer.SysNext(setup, j.y, step))
  }

  // ---------------------------------------------------------------- the calls between them

  function CallStarted(setup: RpcServer.Setup, y: RpcServer.System, t: nat, call: RpcWire.CallStep): RpcServer.System {
    RpcServer.SysNext(setup, y, RpcServer.Client(RpcWire.Call(t, call)))
  }

  /** The teardown of a reset calls the transport. */
  function CallReset(setup: RpcServer.Setup, j: Joint, t: nat): Joint {
    if j.e.s.lifecycle.Resetting? && j.link.reset.None? && t !in j.y.w.calls then
      j.(y := CallStarted(setup, j.y, t, RpcWire.DoBeginReset),
         link := j.link.(reset := Some(Asked(t, j.y.w.c.generation + 1, |j.y.w.trace|))))
    else j
  }

  /** The call returns; it raised unless its reset was acknowledged. */
  function ReturnReset(c: Config, j: Joint): Joint {
    if j.link.reset.Some? && RpcWire.PcOf(j.y.w, j.link.reset.value.t).Done? then
      var asked := j.link.reset.value;
      var ok := RpcWire.ResetAcknowledged(asked.generation) in j.y.w.trace;
      var epoch := j.e.s.ep.epoch;
      j.(e := Advance(c, j.e, Lifecycle(DoResetFinish(ok))),
         link := if ok then
                   j.link.(reset := None, origin := j.link.origin[epoch := epoch],
                           openings := j.link.openings[epoch :=
                             Opening(asked.generation, j.link.since, asked.begun, |j.y.w.trace|)])
                 else j.link.(reset := None))
    else j
  }

  /** The worker calls the transport, which raises at once while a reset is required. */
  function CallInfer(c: Config, setup: RpcServer.Setup, j: Joint, t: nat): Joint {
    if j.e.s.worker.Inferring? && j.link.infer.None? && t !in j.y.w.calls then
      if j.y.w.c.resetRequired then j.(e := Advance(c, j.e, Ask(DoLeaveInference(CallOutcome.Raised(false), []))))
      else
        j.(y := CallStarted(setup, j.y, t, RpcWire.DoEnterInfer), link := j.link.(infer := Some(t)))
    else j
  }

  predicate Answers(j: Joint, a: nat) {
    && j.link.infer.Some? && RpcWire.PcOf(j.y.w, j.link.infer.value).Done? && j.e.s.worker.Inferring?
    && a < |j.y.w.trace| && j.y.w.trace[a].Accepted? && j.y.w.trace[a].call == j.link.infer.value
  }

  /** The call returns the result accepted at `a`. */
  function ReturnInfer(c: Config, j: Joint, a: nat, actions: seq<Action>): Joint {
    if Answers(j, a) then
      j.(e := Advance(c, j.e, Ask(DoLeaveInference(Returned, actions))),
         link := j.link.(infer := None, served := j.link.served[j.e.s.worker.job.Id() := a]))
    else j
  }

  /** The call raises, or returns what is then found invalid. */
  function FailInfer(c: Config, j: Joint, outcome: CallOutcome): Joint {
    if j.link.infer.Some? && RpcWire.PcOf(j.y.w, j.link.infer.value).Done? then
      j.(e := Advance(c, j.e, Ask(DoLeaveInference(outcome, []))), link := j.link.(infer := None))
    else j
  }

  // ---------------------------------------------------------------- scheduling

  datatype JointStep =
    | DoEngine(step: Step)
    | DoTransport(sys: RpcServer.SysStep)
    | DoCallReset(t: nat)
    | DoReturnReset
    | DoCallInfer(t: nat)
    | DoReturnInfer(a: nat, actions: seq<Action>)
    | DoFailInfer(outcome: CallOutcome)

  function JointNext(c: Config, setup: RpcServer.Setup, j: Joint, step: JointStep): Joint {
    match step
    case DoEngine(inner) => EngineMove(c, j, inner)
    case DoTransport(sys) => TransportMove(setup, j, sys)
    case DoCallReset(t) => CallReset(setup, j, t)
    case DoReturnReset => ReturnReset(c, j)
    case DoCallInfer(t) => CallInfer(c, setup, j, t)
    case DoReturnInfer(a, actions) => ReturnInfer(c, j, a, actions)
    case DoFailInfer(outcome) => FailInfer(c, j, outcome)
  }

  function JointRun(c: Config, setup: RpcServer.Setup, j: Joint, schedule: seq<JointStep>): Joint
    decreases |schedule|
  {
    if schedule == [] then j else JointRun(c, setup, JointNext(c, setup, j, schedule[0]), schedule[1..])
  }
}
