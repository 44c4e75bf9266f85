/** What engine and transport promise together: whose server state a committed chunk was
    computed on. */
module RemoteTheorems {
  import opened Common
  import opened EngineState
  import opened EngineHistory
  import EngineInvariant
  import EngineSteps
  import RpcWire
  import RpcServer
  import RpcFrames
  import RpcService
  import RpcBarrier
  import RpcEndToEnd
  import opened RemoteEngine
  import opened RemoteInvariant
  import RemoteSteps
  import RemoteCalls

  // ---------------------------------------------------------------- reachable states

  /** The step of its own that the engine takes, if any. */
  function EngineStepOf(j: Joint, step: JointStep): Option<Step> {
    match step
    case DoEngine(inner) => if EndsCall(inner) then None else Some(inner)
    case DoReturnReset =>
      if j.link.reset.Some? && RpcWire.PcOf(j.y.w, j.link.reset.value.t).Done? then
        Some(Lifecycle(DoResetFinish(RpcWire.ResetAcknowledged(j.link.reset.value.generation) in j.y.w.trace)))
      else None
    case DoCallInfer(t) =>
      if j.e.s.worker.Inferring? && j.link.infer.None? && t !in j.y.w.calls && j.y.w.c.resetRequired then
        Some(Ask(DoLeaveInference(CallOutcome.Raised(false), [])))
      else None
    case DoReturnInfer(a, actions) => if Answers(j, a) then Some(Ask(DoLeaveInference(Returned, actions))) else None
    case DoFailInfer(outcome) =>
      if j.link.infer.Some? && RpcWire.PcOf(j.y.w, j.link.infer.value).Done? then
        Some(Ask(DoLeaveInference(outcome, [])))
      else None
    case _ => None
  }

  lemma EngineTakesItsStep(c: Config, setup: RpcServer.Setup, j: Joint, step: JointStep)
    ensures JointNext(c, setup, j, step).e ==
            if EngineStepOf(j, step).Some? then Advance(c, j.e, EngineStepOf(j, step).value) else j.e
  {
  }

  /** The step of its own that the transport takes, if any. */
  function TransportStepOf(j: Joint, step: JointStep): Option<RpcServer.SysStep> {
    match step
    case DoTransport(sys) =>
      if !(sys.Client? && sys.step.Call?) then Some(sys)
      else if sys.step.call.DoBeginReset? || sys.step.call.DoEnterInfer? then None
      else Some(RpcServer.Client(RpcWire.Call(sys.step.t, WithEvent(j, sys.step.t, sys.step.call))))
    case DoCallReset(t) =>
      if j.e.s.lifecycle.Resetting? && j.link.reset.None? && t !in j.y.w.calls then
        Some(RpcServer.Client(RpcWire.Call(t, RpcWire.DoBeginReset)))
      else None
    case DoCallInfer(t) =>
      if j.e.s.worker.Inferring? && j.link.infer.None? && t !in j.y.w.calls && !j.y.w.c.resetRequired then
        Some(RpcServer.Client(RpcWire.Call(t, RpcWire.DoEnterInfer)))
      else None
    case _ => None
  }

  lemma TransportTakesItsStep(c: Config, setup: RpcServer.Setup, j: Joint, step: JointStep)
    ensures JointNext(c, setup, j, step).y ==
            if TransportStepOf(j, step).Some? then RpcServer.SysNext(setup, j.y, TransportStepOf(j, step).value)
            else j.y
  {
  }

  lemma OwnStepKeepsEngine(c: Config, s: State, step: Step)
    requires EngineInvariant.Owned(c, s) && EngineInvariant.Isolated(s)
    ensures EngineInvariant.Owned(c, Next(c, s, step)) && EngineInvariant.Isolated(Next(c, s, step))
  {
    match step
    case Control(a) =>
      EngineSteps.ControlKeepsOwned(c, s, a);
      EngineSteps.ControlKeepsIsolated(c, s, a);
    case Lifecycle(a) =>
      EngineSteps.LifecycleKeepsOwned(c, s, a);
      EngineSteps.LifecycleKeepsIsolated(c, s, a);
    case Ask(a) =>
      EngineSteps.AskKeepsOwned(c, s, a);
      EngineSteps.AskKeepsIsolated(c, s, a);
    case Answer(a) =>
      EngineSteps.AnswerKeepsOwned(c, s, a);
      EngineSteps.AnswerKeepsIsolated(c, s, a);
    case Deliver(a) =>
      EngineSteps.DeliverKeepsOwned(c, s, a);
      EngineSteps.DeliverKeepsIsolated(c, s, a);
  }

  lemma StepKeepsEngine(c: Config, setup: RpcServer.Setup, j: Joint, step: JointStep)
    requires EngineInvariant.Owned(c, j.e.s) && EngineInvariant.Isolated(j.e.s)
    ensures var v := JointNext(c, setup, j, step); EngineInvariant.Owned(c, v.e.s) && EngineInvariant.Isolated(v.e.s)
  {
    EngineTakesItsStep(c, setup, j, step);
    if EngineStepOf(j, step).Some? {
      OwnStepKeepsEngine(c, j.e.s, EngineStepOf(j, step).value);
    }
  }

  lemma StepKeepsTransport(c: Config, setup: RpcServer.Setup, j: Joint, step: JointStep)
    requires RpcBarrier.SysInv(setup, j.y)
    ensures RpcBarrier.SysInv(setup, JointNext(c, setup, j, step).y)
  {
    TransportTakesItsStep(c, setup, j, step);
    if TransportStepOf(j, step).Some? {
      RpcBarrier.StepKeepsSysInv(setup, j.y, TransportStepOf(j, step).value);
    }
  }

  lemma MoveKeepsLinked(c: Config, setup: RpcServer.Setup, j: Joint, step: JointStep)
    requires Linked(j) && RpcBarrier.ClientInv(j.y.w) && (step.DoEngine? || step.DoTransport?)
    requires EngineInvariant.Owned(c, j.e.s) && EngineInvariant.Isolated(j.e.s)
    requires RpcBarrier.SysInv(setup, JointNext(c, setup, j, step).y)
    ensures Linked(JointNext(c, setup, j, step))
  {
    match step
    case DoEngine(inner) => RemoteSteps.EngineMoveKeepsLinked(c, j, inner);
    case DoTransport(sys) => RemoteSteps.TransportMoveKeepsLinked(c, setup, j, sys);
  }

  lemma CallKeepsLinked(c: Config, setup: RpcServer.Setup, j: Joint, step: JointStep)
    requires Linked(j) && RpcBarrier.ClientInv(j.y.w) && !step.DoEngine? && !step.DoTransport?
    ensures Linked(JointNext(c, setup, j, step))
  {
    match step
    case DoCallReset(t) => RemoteCalls.CallResetKeepsLinked(setup, j, t);
    case DoReturnReset => RemoteCalls.ReturnResetKeepsLinked(c, j);
    case DoCallInfer(t) => RemoteCalls.CallInferKeepsLinked(c, setup, j, t);
    case DoReturnInfer(a, actions) => RemoteCalls.ReturnInferKeepsLinked(c, j, a, actions);
    case DoFailInfer(outcome) => RemoteCalls.FailInferKeepsLinked(c, j, outcome);
  }

  lemma StepKeepsJointInv(c: Config, setup: RpcServer.Setup, j: Joint, step: JointStep)
    requires JointInv(c, setup, j)
    ensures JointInv(c, setup, JointNext(c, setup, j, step))
  {
    StepKeepsEngine(c, setup, j, step);
    StepKeepsTransport(c, setup, j, step);
    if step.DoEngine? || step.DoTransport? {
      MoveKeepsLinked(c, setup, j, step);
    } else {
      CallKeepsLinked(c, setup, j, step);
    }
  }

  lemma {:induction false} RunKeepsJointInv(c: Config, setup: RpcServer.Setup, j: Joint, schedule: seq<JointStep>)
    requires JointInv(c, setup, j)
    ensures JointInv(c, setup, JointRun(c, setup, j, schedule))
    decreases |schedule|
  {
    if schedule != [] {
      StepKeepsJointInv(c, setup, j, schedule[0]);
      RunKeepsJointInv(c, setup, JointNext(c, setup, j, schedule[0]), schedule[1..]);
    }
  }

  lemma BeginIsOwned(c: Config, task: Task)
    ensures EngineInvariant.Owned(c, Initial(task)) && EngineInvariant.Isolated(Initial(task))
  {
  }

  lemma BeginIsLinked(task: Task)
    ensures Linked(BeginJoint(task))
  {
  }

  lemma BeginIsSound(c: Config, setup: RpcServer.Setup, task: Task)
    ensures JointInv(c, setup, BeginJoint(task))
  {
    BeginIsOwned(c, task);
    RpcEndToEnd.InitialSysInv(setup);
    BeginIsLinked(task);
  }

  lemma ReachableJointInv(c: Config, setup: RpcServer.Setup, task: Task, schedule: seq<JointStep>)
    ensures JointInv(c, setup, JointRun(c, setup, BeginJoint(task), schedule))
  {
    BeginIsSound(c, setup, task);
    RunKeepsJointInv(c, setup, BeginJoint(task), schedule);
  }

  // ---------------------------------------------------------------- each side on its own

  /** The steps the engine takes in a run of both. */
  function EngineSchedule(c: Config, setup: RpcServer.Setup, j: Joint, schedule: seq<JointStep>): seq<Step>
    decreases |schedule|
  {
    if schedule == [] then []
    else
      (if EngineStepOf(j, schedule[0]).Some? then [EngineStepOf(j, schedule[0]).value] else [])
      + EngineSchedule(c, setup, JointNext(c, setup, j, schedule[0]), schedule[1..])
  }

  function TransportSchedule(c: Config, setup: RpcServer.Setup, j: Joint, schedule: seq<JointStep>): seq<RpcServer.SysStep>
    decreases |schedule|
  {
    if schedule == [] then []
    else
      (if TransportStepOf(j, schedule[0]).Some? then [TransportStepOf(j, schedule[0]).value] else [])
      + TransportSchedule(c, setup, JointNext(c, setup, j, schedule[0]), schedule[1..])
  }

  lemma RunTakesFirst(c: Config, e: World, first: Step, rest: seq<Step>)
    ensures Run(c, e, [first] + rest) == Run(c, Advance(c, e, first), rest)
  {
    assert ([first] + rest)[1..] == rest;
  }

  lemma SysRunTakesFirst(setup: RpcServer.Setup, y: RpcServer.System, first: RpcServer.SysStep, rest: seq<RpcServer.SysStep>)
    ensures RpcServer.SysRun(setup, y, [first] + rest) == RpcServer.SysRun(setup, RpcServer.SysNext(setup, y, first), rest)
  {
    assert ([first] + rest)[1..] == rest;
  }

  /** A run of both is a run of the engine and a run of the transport, so what holds of
      every run of either holds here too. */
  lemma {:induction false} RunsOnBothSides(c: Config, setup: RpcServer.Setup, j: Joint, schedule: seq<JointStep>)
    ensures JointRun(c, setup, j, schedule).e == Run(c, j.e, EngineSchedule(c, setup, j, schedule))
    ensures JointRun(c, setup, j, schedule).y == RpcServer.SysRun(setup, j.y, TransportSchedule(c, setup, j, schedule))
    decreases |schedule|
  {
    if schedule != [] {
      var v := JointNext(c, setup, j, schedule[0]);
      EngineTakesItsStep(c, setup, j, schedule[0]);
      TransportTakesItsStep(c, setup, j, schedule[0]);
      RunsOnBothSides(c, setup, v, schedule[1..]);
      var own := EngineSchedule(c, setup, v, schedule[1..]);
      var sys := TransportSchedule(c, setup, v, schedule[1..]);
      if EngineStepOf(j, schedule[0]).Some? {
        RunTakesFirst(c, j.e, EngineStepOf(j, schedule[0]).value, own);
      } else {
        assert [] + own == own;
      }
      if TransportStepOf(j, schedule[0]).Some? {
        SysRunTakesFirst(setup, j.y, TransportStepOf(j, schedule[0]).value, sys);
      } else {
        assert [] + sys == sys;
      }
    }
  }

  // ---------------------------------------------------------------- commits and resets

  /** A generation has one basis among the resets that began. */
  lemma BasisIsUnique(trace: seq<RpcWire.Event>, generation: nat, a: nat, b: nat)
    requires RpcFrames.Grounds(trace, generation, a) && RpcFrames.Grounds(trace, generation, b)
    requires RpcWire.ResetBegun(a) in trace && RpcWire.ResetBegun(b) in trace
    ensures a == b
  {
    var i :| 0 <= i < |trace| && trace[i] == RpcWire.ResetBegun(a);
    var k :| 0 <= k < |trace| && trace[k] == RpcWire.ResetBegun(b);
  }

  /** From `i` to `n` the server computed for the epochs from `origin` to `epoch` only. */
  ghost predicate ComputedFor(log: seq<RpcServer.Mark>, i: int, n: int, origin: nat, epoch: nat, link: Link)
    requires 0 <= i <= n <= |log|
  {
    forall m | i < m < n && log[m].Began? ::
      && log[m].frame.kind.InferKind? && log[m].frame.id in link.sentFor
      && origin <= link.sentFor[log[m].frame.id] <= epoch
  }

  /** At `i` the server ended the reset that opened the epoch's origin, and at `n` the
      inference whose result answered the commit's request. */
  ghost predicate ComputedAfterReset(j: Joint, k: Commit, i: int, n: int) {
    var log, trace, link := j.y.s.x.log, j.y.w.trace, j.link;
    var id := RequestId(k.epoch, k.ordinal);
    && 0 <= i < n < |log|
    && k.epoch in link.origin && link.origin[k.epoch] in link.openings && id in link.served
    && var origin, a := link.origin[k.epoch], link.served[id];
       && OpenedWithin(trace, link.openings[origin])
       && log[i].Ended? && log[i].ok && log[i].frame.kind.ResetKind?
       && log[i].frame.generation == link.openings[origin].generation
       && a < |trace| && trace[a].Accepted? && ComputedAt(log, n, trace[a].generation, trace[a].id)
       && ComputedFor(log, i, n, origin, k.epoch, link)
  }

  lemma LogIsSentBefore(y: RpcServer.System, link: Link, epoch: nat, m: nat)
    requires FramesLinked(y.w.net, epoch, link) && RpcBarrier.JobsOnNet(y.w.net, y.s.x.jobs)
    requires RpcService.LogMatchesJobs(y.s.x) && m < |y.s.x.log| && y.s.x.log[m].frame.kind.InferKind?
    ensures FrameLinked(y.s.x.log[m].frame, epoch, link)
  {
    var job := y.s.x.jobs[y.s.x.log[m].job];
    assert RpcBarrier.JobOnNet(y.w.net, job);
    assert FrameLinked(y.w.net[job.sock].sent[job.position], epoch, link);
  }

  lemma SoundIsComputedFor(setup: RpcServer.Setup, y: RpcServer.System, link: Link, current: nat, a: nat, epoch: nat)
    returns (i: nat, n: nat)
    requires RpcBarrier.SysInv(setup, y) && Sound(y, link, a, epoch) && FramesLinked(y.w.net, current, link)
    requires OpenedWithin(y.w.trace, link.openings[link.origin[epoch]])
    ensures var log, opening := y.s.x.log, link.openings[link.origin[epoch]];
            && i < n < |log| && log[i].Ended? && log[i].ok && log[i].frame.kind.ResetKind?
            && log[i].frame.generation == opening.generation
            && ComputedAt(log, n, y.w.trace[a].generation, y.w.trace[a].id)
            && ComputedFor(log, i, n, link.origin[epoch], epoch, link)
  {
    var log, e, origin := y.s.x.log, y.w.trace[a], link.origin[epoch];
    n :| ComputedAt(log, n, e.generation, e.id) && AskedBy(log, n, epoch, link);
    i := RpcEndToEnd.EndedInferencesAreClean(y.w, y.s.x, n);
    RpcEndToEnd.RunResetsHaveBegun(y.w, y.s.x, i);
    assert y.w.trace[link.openings[origin].begun] in y.w.trace;
    BasisIsUnique(y.w.trace, e.generation, log[i].frame.generation, link.openings[origin].generation);
    forall m | i < m < n && log[m].Began?
      ensures log[m].frame.kind.InferKind? && log[m].frame.id in link.sentFor
      ensures origin <= link.sentFor[log[m].frame.id] <= epoch
    {
      LogIsSentBefore(y, link, current, m);
    }
  }

  /** Every committed chunk was computed by the server after the reset that was
      acknowledged in the teardown that opened its epoch, with nothing computed for any
      other epoch in between. An epoch that a stop began goes on from the last epoch that
      a reset opened: only inferences for the epochs since then came in between. */
  lemma CommitsUseTheirReset(c: Config, setup: RpcServer.Setup, task: Task, schedule: seq<JointStep>, k: Commit)
    returns (i: nat, n: nat)
    requires k in JointRun(c, setup, BeginJoint(task), schedule).e.h.commits
    ensures var j := JointRun(c, setup, BeginJoint(task), schedule);
            && ComputedAfterReset(j, k, i, n)
            && (j.link.origin[k.epoch] == k.epoch <==> k.epoch in j.link.resets)
  {
    ReachableJointInv(c, setup, task, schedule);
    var j := JointRun(c, setup, BeginJoint(task), schedule);
    var a := j.link.served[RequestId(k.epoch, k.ordinal)];
    assert Sound(j.y, j.link, a, k.epoch);
    i, n := SoundIsComputedFor(setup, j.y, j.link, j.e.s.ep.epoch, a, k.epoch);
  }
}
