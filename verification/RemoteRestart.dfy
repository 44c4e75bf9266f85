/** A run in which an epoch that stop began goes on from an earlier epoch's reset. */
module RemoteRestart {
  import opened Common
  import opened EngineState
  import opened EngineHistory
  import RpcWire
  import RpcServer
  import opened RpcTrips
  import opened RemoteEngine

  const CONFIG: Config := Config(0, false, 0, false, 1, 3)

  // ---------------------------------------------------------------- both sides

  function Own(steps: seq<Step>): seq<JointStep> {
    seq(|steps|, i requires 0 <= i < |steps| => DoEngine(steps[i]))
  }

  function Wired(steps: seq<RpcServer.SysStep>): seq<JointStep> {
    seq(|steps|, i requires 0 <= i < |steps| => DoTransport(steps[i]))
  }

  lemma {:induction false} JointRunSplits(j: Joint, a: seq<JointStep>, b: seq<JointStep>)
    ensures JointRun(CONFIG, SETUP, j, a + b) == JointRun(CONFIG, SETUP, JointRun(CONFIG, SETUP, j, a), b)
    decreases |a|
  {
    if a == [] {
      assert a + b == b;
    } else {
      assert (a + b)[0] == a[0] && (a + b)[1..] == a[1..] + b;
      JointRunSplits(JointNext(CONFIG, SETUP, j, a[0]), a[1..], b);
    }
  }

  lemma JointRunOne(j: Joint, step: JointStep)
    ensures JointRun(CONFIG, SETUP, j, [step]) == JointNext(CONFIG, SETUP, j, step)
  {
    assert JointRun(CONFIG, SETUP, JointNext(CONFIG, SETUP, j, step), []) == JointNext(CONFIG, SETUP, j, step);
  }

  predicate Plain(step: Step) {
    !EndsCall(step) && step != Lifecycle(DoResetBegin) && step != Lifecycle(DoStopBegin)
  }

  lemma {:induction false} OwnRun(j: Joint, steps: seq<Step>)
    requires forall step | step in steps :: Plain(step)
    ensures JointRun(CONFIG, SETUP, j, Own(steps)) == Joint(Run(CONFIG, j.e, steps), j.y, j.link)
    decreases |steps|
  {
    if steps != [] {
      assert Own(steps)[0] == DoEngine(steps[0]) && Own(steps)[1..] == Own(steps[1..]);
      assert Plain(steps[0]);
      OwnRun(JointNext(CONFIG, SETUP, j, DoEngine(steps[0])), steps[1..]);
    }
  }

  predicate Unstarted(step: RpcServer.SysStep) {
    step.Client? && step.step.Call? ==>
      && !step.step.call.DoBeginReset? && !step.step.call.DoEnterInfer?
      && (step.step.call.DoAccept? ==> !step.step.call.eventSet)
  }

  lemma {:induction false} WiredRun(j: Joint, steps: seq<RpcServer.SysStep>)
    requires !EventSet(j.e.s) && forall step | step in steps :: Unstarted(step)
    ensures var v := JointRun(CONFIG, SETUP, j, Wired(steps));
            v.e == j.e && v.y == RpcServer.SysRun(SETUP, j.y, steps) && v.link == j.link.(sentFor := v.link.sentFor)
    decreases |steps|
  {
    if steps != [] {
      assert Wired(steps)[0] == DoTransport(steps[0]) && Wired(steps)[1..] == Wired(steps[1..]);
      assert Unstarted(steps[0]);
      WiredRun(JointNext(CONFIG, SETUP, j, DoTransport(steps[0])), steps[1..]);
    }
  }

  // ---------------------------------------------------------------- the engine's part

  lemma RunOne(e: World, a: Step)
    ensures Run(CONFIG, e, [a]) == Advance(CONFIG, e, a)
  {
    assert Run(CONFIG, Advance(CONFIG, e, a), []) == Advance(CONFIG, e, a);
  }

  lemma RunTwo(e: World, a: Step, b: Step)
    ensures Run(CONFIG, e, [a, b]) == Advance(CONFIG, Advance(CONFIG, e, a), b)
  {
    assert [a, b][1..] == [b];
    RunOne(Advance(CONFIG, e, a), b);
  }

  lemma RunFour(e: World, a: Step, b: Step, d: Step, f: Step)
    ensures Run(CONFIG, e, [a, b, d, f])
         == Advance(CONFIG, Advance(CONFIG, Advance(CONFIG, Advance(CONFIG, e, a), b), d), f)
  {
    assert [a, b, d, f][1..] == [b, d, f] && [b, d, f][1..] == [d, f];
    assert Run(CONFIG, Advance(CONFIG, e, a), [b, d, f])
        == Run(CONFIG, Advance(CONFIG, Advance(CONFIG, e, a), b), [d, f]);
    RunTwo(Advance(CONFIG, Advance(CONFIG, e, a), b), d, f);
  }

  /** The engine runs, at the start of an epoch, and neither lock is held. */
  predicate Idling(s: State, epoch: nat) {
    && s.flags.started && Open(s.flags) && s.flags.active && s.ep == FreshEpisode(epoch) && s.out == NO_OUTPUT
    && s.worker.WorkerIdle? && s.delivery.DeliveryDead? && s.lifecycle.LifecycleIdle?
  }

  /** In the teardown of the reset that began an epoch. */
  predicate TearingDown(s: State, epoch: nat) {
    && s.flags.started && !s.flags.shutdown && !s.flags.fatal && s.flags.active
    && s.ep == FreshEpisode(epoch) && s.out == NO_OUTPUT
    && s.worker.WorkerIdle? && s.delivery.DeliveryDead?
  }

  lemma StartedIsIdling(task: Task)
    ensures Idling(Run(CONFIG, Begin(task), [Lifecycle(DoStart), Control(DoSetActive(true))]).s, 0)
  {
    RunTwo(Begin(task), Lifecycle(DoStart), Control(DoSetActive(true)));
  }

  /** Once stop has begun: the worker leaves. */
  predicate Halting(s: State, epoch: nat) {
    && s.flags.started && s.flags.shutdown && s.ep == FreshEpisode(epoch) && s.out == NO_OUTPUT
    && s.delivery.DeliveryDead? && s.lifecycle.Stopping?
  }

  function Restarting(): seq<Step> {
    [Lifecycle(DoStopFinish(Joined)), Lifecycle(DoTeardownEnd), Lifecycle(DoStart), Control(DoSetActive(true))]
  }

  lemma RestartedIsIdling(e: World, epoch: nat)
    requires Halting(e.s, epoch) && e.s.worker.WorkerDead?
    ensures Idling(Run(CONFIG, e, Restarting()).s, epoch)
  {
    var a := Restarting();
    RunFour(e, a[0], a[1], a[2], a[3]);
  }

  function Asking(): seq<Step> {
    [Control(DoNotify), Ask(DoTake), Ask(DoProviderReset(Returned)), Ask(DoClearFlag)]
  }

  /** The worker has, or is about to have, the policy answer the first observation. */
  predicate Consulting(s: State, epoch: nat) {
    && s.flags.started && Open(s.flags) && s.ep.epoch == epoch && s.ep.step == 0 && s.out == NO_OUTPUT
    && (s.worker.Ready? || s.worker.Inferring? || s.worker.Completed?)
    && s.worker.job.envelope == Envelope(epoch, 0) && s.worker.job.ordinal == 0
  }

  lemma AskedIsConsulting(e: World, epoch: nat)
    requires Idling(e.s, epoch)
    ensures var v := Run(CONFIG, e, Asking()); Consulting(v.s, epoch) && v.s.worker.Ready?
  {
    var a := Asking();
    RunFour(e, a[0], a[1], a[2], a[3]);
  }

  lemma AnswerIsCommitted(e: World, epoch: nat)
    requires Consulting(e.s, epoch) && e.s.worker.Completed? && e.s.worker.actions == [7]
    ensures Commit(epoch, 0, 0) in Run(CONFIG, e, [Answer(DoCommitCompletion), Answer(DoMergeDirect)]).h.commits
  {
    RunTwo(e, Answer(DoCommitCompletion), Answer(DoMergeDirect));
  }

  // ---------------------------------------------------------------- the first episode

  predicate ResetBegun(y: RpcServer.System) {
    && AtRest(y) && y.w.calls == map[0 := RpcWire.ResetWaiting(1)] && y.w.c.generation == 1
    && y.w.c.socket.None? && y.w.net == map[] && y.s.procs == map[]
  }

  /** The engine has called `transport.reset` and waits for it. */
  predicate AwaitsReset(j: Joint) {
    && TearingDown(j.e.s, 1) && j.e.s.lifecycle.Resetting? && ResetBegun(j.y)
    && j.link.reset == Some(Asked(0, 1, 0)) && j.link.infer.None? && j.link.origin == map[]
  }

  lemma ResetIsCalled(j: Joint)
    requires Idling(j.e.s, 0) && j.y == RpcServer.NEW_SYSTEM && j.link == NEW_LINK
    ensures AwaitsReset(CallReset(SETUP, EngineMove(CONFIG, j, Lifecycle(DoResetBegin)), 0))
  {
  }

  function FirstEpisode(): seq<JointStep> {
    Own([Lifecycle(DoStart), Control(DoSetActive(true))]) + [DoEngine(Lifecycle(DoResetBegin)), DoCallReset(0)]
  }

  lemma JointRunTwo(j: Joint, a: JointStep, b: JointStep)
    ensures JointRun(CONFIG, SETUP, j, [a, b]) == JointNext(CONFIG, SETUP, JointNext(CONFIG, SETUP, j, a), b)
  {
    assert [a, b][1..] == [b];
    JointRunOne(JointNext(CONFIG, SETUP, j, a), b);
  }

  lemma FirstEpisodeBegins(task: Task)
    ensures AwaitsReset(JointRun(CONFIG, SETUP, BeginJoint(task), FirstEpisode()))
  {
    var starting: seq<Step> := [Lifecycle(DoStart), Control(DoSetActive(true))];
    JointRunSplits(BeginJoint(task), Own(starting), [DoEngine(Lifecycle(DoResetBegin)), DoCallReset(0)]);
    OwnRun(BeginJoint(task), starting);
    StartedIsIdling(task);
    var j := JointRun(CONFIG, SETUP, BeginJoint(task), Own(starting));
    JointRunTwo(j, DoEngine(Lifecycle(DoResetBegin)), DoCallReset(0));
    ResetIsCalled(j);
  }

  /** The first reset has been acknowledged. */
  predicate Opened(j: Joint) {
    && TearingDown(j.e.s, 1) && j.e.s.lifecycle.Finishing?
    && AtRest(j.y) && j.y.w.calls.Keys == {0} && !j.y.w.c.resetRequired
    && j.y.w.net.Keys == {0} && j.y.s.procs.Keys == {0}
    && j.link.reset.None? && j.link.infer.None? && j.link.origin == map[1 := 1]
  }

  predicate ResetDone(y: RpcServer.System) {
    && AtRest(y) && y.w.calls.Keys == {0} && RpcWire.PcOf(y.w, 0).Done? && !y.w.c.resetRequired
    && y.w.net.Keys == {0} && y.s.procs.Keys == {0} && RpcWire.ResetAcknowledged(1) in y.w.trace
  }

  /** Its acknowledgement has arrived, and the call is about to return. */
  predicate Acknowledged(j: Joint) {
    && TearingDown(j.e.s, 1) && j.e.s.lifecycle.Resetting? && ResetDone(j.y)
    && j.link.reset == Some(Asked(0, 1, 0)) && j.link.infer.None? && j.link.origin == map[]
  }

  lemma ResetReturnsOpened(j: Joint)
    requires Acknowledged(j)
    ensures Opened(ReturnReset(CONFIG, j))
  {
  }

  function FirstReset(): seq<JointStep> {
    Wired(ResetTrip(0, 0)) + [DoReturnReset]
  }

  lemma TripsStartNothing(t: nat, k: nat)
    ensures forall step | step in ResetTrip(t, k) :: Unstarted(step)
    ensures forall step | step in InferenceTrip(t, k) :: Unstarted(step)
  {
  }

  lemma TripEndsReset(y: RpcServer.System)
    requires ResetBegun(y)
    ensures ResetDone(RpcServer.SysRun(SETUP, y, ResetTrip(0, 0)))
  {
    ResetReturns(y, 0, 0);
  }

  lemma ResetIsDone(j: Joint)
    requires AwaitsReset(j)
    ensures Acknowledged(JointRun(CONFIG, SETUP, j, Wired(ResetTrip(0, 0))))
  {
    TripsStartNothing(0, 0);
    WiredRun(j, ResetTrip(0, 0));
    TripEndsReset(j.y);
  }

  lemma FirstResetOpens(j: Joint)
    requires AwaitsReset(j)
    ensures Opened(JointRun(CONFIG, SETUP, j, FirstReset()))
  {
    JointRunSplits(j, Wired(ResetTrip(0, 0)), [DoReturnReset]);
    ResetIsDone(j);
    var v := JointRun(CONFIG, SETUP, j, Wired(ResetTrip(0, 0)));
    JointRunOne(v, DoReturnReset);
    ResetReturnsOpened(v);
  }

  // ---------------------------------------------------------------- stop and start

  /** The transport between two calls, with its connection dropped. */
  predicate Dropped(y: RpcServer.System) {
    && AtRest(y) && y.w.calls.Keys == {0} && !y.w.c.resetRequired && y.w.c.socket.None?
    && y.w.net.Keys == {0} && y.s.procs.Keys == {0}
  }

  predicate Inherited(link: Link) {
    link.reset.None? && link.infer.None? && 2 in link.origin && link.origin[2] == 1
  }

  lemma StopBegins(j: Joint)
    requires Opened(j)
    ensures var v := EngineMove(CONFIG, EngineMove(CONFIG, j, Lifecycle(DoTeardownEnd)), Lifecycle(DoStopBegin));
            Halting(v.e.s, 2) && v.e.s.worker.WorkerIdle? && v.y == j.y && Inherited(v.link)
  {
  }

  lemma CancelDrops(y: RpcServer.System)
    requires AtRest(y) && y.w.calls.Keys == {0} && !y.w.c.resetRequired && y.w.net.Keys == {0} && y.s.procs.Keys == {0}
    ensures Dropped(RpcServer.SysNext(SETUP, y, RpcServer.Client(RpcWire.DoCancel)))
  {
  }

  lemma CloseDrops(y: RpcServer.System)
    requires Dropped(y)
    ensures Dropped(RpcServer.SysNext(SETUP, y, RpcServer.Client(RpcWire.DoClose)))
  {
  }

  /** Stop has begun: the transport is cancelled and the worker leaves. */
  function Cancelling(): seq<JointStep> {
    [DoTransport(RpcServer.Client(RpcWire.DoCancel)), DoEngine(Ask(DoWorkerExit))]
  }

  predicate Halted(j: Joint) {
    Halting(j.e.s, 2) && j.e.s.worker.WorkerDead? && Dropped(j.y) && Inherited(j.link)
  }

  lemma CancelledIsHalted(j: Joint)
    requires Halting(j.e.s, 2) && j.e.s.worker.WorkerIdle? && Inherited(j.link)
    requires AtRest(j.y) && j.y.w.calls.Keys == {0} && !j.y.w.c.resetRequired
    requires j.y.w.net.Keys == {0} && j.y.s.procs.Keys == {0}
    ensures Halted(JointRun(CONFIG, SETUP, j, Cancelling()))
  {
    CancelDrops(j.y);
    JointRunTwo(j, Cancelling()[0], Cancelling()[1]);
  }

  /** The transport is closed, stop returns, and the engine starts again. */
  function Closing(): seq<JointStep> {
    [DoTransport(RpcServer.Client(RpcWire.DoClose))] + Own(Restarting())
  }

  predicate Renewed(j: Joint) {
    Idling(j.e.s, 2) && Dropped(j.y) && Inherited(j.link)
  }

  lemma ClosedIsRenewed(j: Joint)
    requires Halted(j)
    ensures Renewed(JointRun(CONFIG, SETUP, j, Closing()))
  {
    var closing := DoTransport(RpcServer.Client(RpcWire.DoClose));
    JointRunSplits(j, [closing], Own(Restarting()));
    JointRunOne(j, closing);
    CloseDrops(j.y);
    OwnRun(JointNext(CONFIG, SETUP, j, closing), Restarting());
    RestartedIsIdling(j.e, 2);
  }

  // ---------------------------------------------------------------- the second episode

  predicate InferenceBegun(y: RpcServer.System, t: nat, k: nat) {
    && AtRest(y) && t in y.w.calls && y.w.calls[t] == RpcWire.InferWaiting(y.w.c.generation)
    && y.w.c.socket.None? && !y.w.c.resetRequired && k !in y.w.net && k !in y.s.procs
  }

  /** The worker has called the transport for the first observation. */
  predicate AwaitsResult(j: Joint, t: nat, k: nat) {
    && Consulting(j.e.s, 2) && j.e.s.worker.Inferring? && Inherited(j.link.(infer := None)) && j.link.infer == Some(t)
    && InferenceBegun(j.y, t, k)
  }

  /** The worker is about to call the transport. */
  predicate AboutToCall(j: Joint) {
    Consulting(j.e.s, 2) && j.e.s.worker.Ready? && Dropped(j.y) && Inherited(j.link)
  }

  lemma CallBegins(j: Joint, t: nat, k: nat)
    requires AboutToCall(j) && t != 0 && k != 0
    ensures AwaitsResult(CallInfer(CONFIG, SETUP, EngineMove(CONFIG, j, Ask(DoEnterInference)), t), t, k)
  {
  }

  function SecondEpisode(t: nat): seq<JointStep> {
    Own(Asking()) + Calling(t)
  }

  lemma ObservationIsTaken(j: Joint)
    requires Renewed(j)
    ensures AboutToCall(JointRun(CONFIG, SETUP, j, Own(Asking())))
  {
    OwnRun(j, Asking());
    AskedIsConsulting(j.e, 2);
  }

  function Calling(t: nat): seq<JointStep> {
    [DoEngine(Ask(DoEnterInference)), DoCallInfer(t)]
  }

  lemma TransportIsCalled(j: Joint, t: nat, k: nat)
    requires AboutToCall(j) && t != 0 && k != 0
    ensures AwaitsResult(JointRun(CONFIG, SETUP, j, Calling(t)), t, k)
  {
    JointRunTwo(j, Calling(t)[0], Calling(t)[1]);
    CallBegins(j, t, k);
  }

  lemma SecondEpisodeAsks(j: Joint, t: nat, k: nat)
    requires Renewed(j) && t != 0 && k != 0
    ensures AwaitsResult(JointRun(CONFIG, SETUP, j, SecondEpisode(t)), t, k)
  {
    JointRunSplits(j, Own(Asking()), Calling(t));
    ObservationIsTaken(j);
    TransportIsCalled(JointRun(CONFIG, SETUP, j, Own(Asking())), t, k);
  }

  /** The result has been accepted at `a`. */
  predicate HasResult(j: Joint, a: nat) {
    Consulting(j.e.s, 2) && j.e.s.worker.Inferring? && Inherited(j.link.(infer := None)) && Answers(j, a)
  }

  lemma ResultArrives(j: Joint, t: nat, k: nat) returns (a: nat)
    requires AwaitsResult(j, t, k)
    ensures HasResult(JointRun(CONFIG, SETUP, j, Wired(InferenceTrip(t, k))), a)
  {
    TripsStartNothing(t, k);
    WiredRun(j, InferenceTrip(t, k));
    a := InferenceReturns(j.y, t, k);
  }

  lemma ResultIsCommitted(j: Joint, a: nat)
    requires HasResult(j, a)
    ensures var v := JointRun(CONFIG, SETUP, j, [DoReturnInfer(a, [7])]
                                                + Own([Answer(DoCommitCompletion), Answer(DoMergeDirect)]));
            Commit(2, 0, 0) in v.e.h.commits && Inherited(v.link)
  {
    var committing: seq<Step> := [Answer(DoCommitCompletion), Answer(DoMergeDirect)];
    JointRunSplits(j, [DoReturnInfer(a, [7])], Own(committing));
    JointRunOne(j, DoReturnInfer(a, [7]));
    var v := JointNext(CONFIG, SETUP, j, DoReturnInfer(a, [7]));
    OwnRun(v, committing);
    AnswerIsCommitted(v.e, 2);
  }

  // ---------------------------------------------------------------- the run

  lemma Restart(task: Task) returns (schedule: seq<JointStep>)
    ensures Renewed(JointRun(CONFIG, SETUP, BeginJoint(task), schedule))
  {
    var stopping := [DoEngine(Lifecycle(DoTeardownEnd)), DoEngine(Lifecycle(DoStopBegin))];
    FirstEpisodeBegins(task);
    var j1 := JointRun(CONFIG, SETUP, BeginJoint(task), FirstEpisode());
    FirstResetOpens(j1);
    var j2 := JointRun(CONFIG, SETUP, j1, FirstReset());
    StopBegins(j2);
    JointRunTwo(j2, stopping[0], stopping[1]);
    var j3 := JointRun(CONFIG, SETUP, j2, stopping);
    CancelledIsHalted(j3);
    ClosedIsRenewed(JointRun(CONFIG, SETUP, j3, Cancelling()));
    schedule := FirstEpisode() + (FirstReset() + (stopping + (Cancelling() + Closing())));
    JointRunSplits(BeginJoint(task), FirstEpisode(), FirstReset() + (stopping + (Cancelling() + Closing())));
    JointRunSplits(j1, FirstReset(), stopping + (Cancelling() + Closing()));
    JointRunSplits(j2, stopping, Cancelling() + Closing());
    JointRunSplits(j3, Cancelling(), Closing());
  }

  lemma Commits(j: Joint, t: nat, k: nat) returns (schedule: seq<JointStep>)
    requires Renewed(j) && t != 0 && k != 0
    ensures var v := JointRun(CONFIG, SETUP, j, schedule); Commit(2, 0, 0) in v.e.h.commits && Inherited(v.link)
  {
    SecondEpisodeAsks(j, t, k);
    var j1 := JointRun(CONFIG, SETUP, j, SecondEpisode(t));
    var trip := Wired(InferenceTrip(t, k));
    var a := ResultArrives(j1, t, k);
    var j2 := JointRun(CONFIG, SETUP, j1, trip);
    ResultIsCommitted(j2, a);
    var rest := [DoReturnInfer(a, [7])] + Own([Answer(DoCommitCompletion), Answer(DoMergeDirect)]);
    schedule := SecondEpisode(t) + (trip + rest);
    JointRunSplits(j, SecondEpisode(t), trip + rest);
    JointRunSplits(j1, trip, rest);
  }

  /** After a reset, a stop and a start, a chunk committed in the epoch that stop began was
      computed on the state of the reset before: the start resets no remote policy. */
  lemma StopCarriesServerState(task: Task) returns (schedule: seq<JointStep>, k: Commit)
    ensures var j := JointRun(CONFIG, SETUP, BeginJoint(task), schedule);
            && k in j.e.h.commits && k.epoch in j.link.origin && j.link.origin[k.epoch] < k.epoch
  {
    var restart := Restart(task);
    var j := JointRun(CONFIG, SETUP, BeginJoint(task), restart);
    var rest := Commits(j, 1, 1);
    schedule, k := restart + rest, Commit(2, 0, 0);
    JointRunSplits(BeginJoint(task), restart, rest);
  }
}
