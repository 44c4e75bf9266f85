/** What the engine's steps do to the tie between engine and transport. */
module RemoteEngineSteps {
  import opened EngineState
  import opened EngineHistory
  import EngineInvariant
  import RpcWire
  import RpcServer
  import opened RemoteEngine
  import opened RemoteInvariant

  /** A teardown begins. */
  predicate Begins(s: State, step: Step, a: LifecycleStep) {
    s.lifecycle.LifecycleIdle? && step == Lifecycle(a)
  }

  /** What an engine step may do to the parts of the engine that the link looks at. */
  predicate EngineKeeps(s: State, t: State, step: Step) {
    && (s.worker.Inferring? ==> t.worker == s.worker)
    && (t.lifecycle.Resetting? <==> s.lifecycle.Resetting? || Begins(s, step, DoResetBegin))
    && t.ep.epoch == s.ep.epoch + (if Begins(s, step, DoResetBegin) || Begins(s, step, DoStopBegin) then 1 else 0)
    && (t.flags.resetting && EngineInvariant.HasJob(t.worker) ==> t.worker.job.Epoch() < t.ep.epoch)
  }

  predicate BusyWithOld(s: State) {
    s.flags.resetting && EngineInvariant.HasJob(s.worker) ==> s.worker.job.Epoch() < s.ep.epoch
  }

  lemma ControlKeepsEngine(c: Config, s: State, a: ControlStep)
    requires BusyWithOld(s)
    ensures EngineKeeps(s, ControlNext(c, s, a), Control(a))
  {
  }

  lemma LifecycleKeepsEngine(c: Config, s: State, a: LifecycleStep)
    requires EngineInvariant.Owned(c, s) && EngineInvariant.Isolated(s) && BusyWithOld(s) && !a.DoResetFinish?
    ensures EngineKeeps(s, LifecycleNext(c, s, a), Lifecycle(a))
  {
  }

  lemma AskKeepsEngine(s: State, a: AskStep)
    requires BusyWithOld(s) && !a.DoLeaveInference?
    ensures EngineKeeps(s, AskNext(s, a), Ask(a))
  {
  }

  lemma AnswerKeepsEngine(c: Config, s: State, a: AnswerStep)
    requires BusyWithOld(s)
    ensures EngineKeeps(s, AnswerNext(c, s, a), Answer(a))
  {
  }

  lemma DeliverKeepsEngine(c: Config, s: State, a: DeliveryStep)
    requires BusyWithOld(s)
    ensures EngineKeeps(s, DeliverNext(c, s, a), Deliver(a))
  {
  }

  lemma StepKeepsEngine(c: Config, s: State, step: Step)
    requires EngineInvariant.Owned(c, s) && EngineInvariant.Isolated(s) && BusyWithOld(s) && !EndsCall(step)
    ensures EngineKeeps(s, Next(c, s, step), step)
  {
    match step
    case Control(a) => ControlKeepsEngine(c, s, a);
    case Lifecycle(a) => LifecycleKeepsEngine(c, s, a);
    case Ask(a) => AskKeepsEngine(s, a);
    case Answer(a) => AnswerKeepsEngine(c, s, a);
    case Deliver(a) => DeliverKeepsEngine(c, s, a);
  }

  // ---------------------------------------------------------------- served requests

  lemma ControlKeepsServed(c: Config, s: State, h: History, a: ControlStep, served: map<RequestId, nat>)
    requires Served(s, h.commits, served)
    ensures Served(ControlNext(c, s, a), RecordControl(c, h, s, a).commits, served)
  {
  }

  lemma LifecycleKeepsServed(c: Config, s: State, h: History, a: LifecycleStep, served: map<RequestId, nat>)
    requires Served(s, h.commits, served)
    ensures Served(LifecycleNext(c, s, a), RecordLifecycle(h, s, a).commits, served)
  {
  }

  lemma AskKeepsServed(s: State, h: History, a: AskStep, served: map<RequestId, nat>)
    requires Served(s, h.commits, served) && !a.DoLeaveInference?
    ensures Served(AskNext(s, a), RecordAsk(h, s, a).commits, served)
  {
  }

  lemma AnswerKeepsServed(c: Config, s: State, h: History, a: AnswerStep, served: map<RequestId, nat>)
    requires Served(s, h.commits, served)
    ensures Served(AnswerNext(c, s, a), RecordAnswer(c, h, s, a).commits, served)
  {
  }

  lemma DeliverKeepsServed(c: Config, s: State, h: History, a: DeliveryStep, served: map<RequestId, nat>)
    requires Served(s, h.commits, served)
    ensures Served(DeliverNext(c, s, a), RecordDeliver(c, h, s, a).commits, served)
  {
  }

  lemma StepKeepsServed(c: Config, e: World, step: Step, served: map<RequestId, nat>)
    requires Served(e.s, e.h.commits, served) && !EndsCall(step)
    ensures var v := Advance(c, e, step); Served(v.s, v.h.commits, served)
  {
    match step
    case Control(a) => ControlKeepsServed(c, e.s, e.h, a, served);
    case Lifecycle(a) => LifecycleKeepsServed(c, e.s, e.h, a, served);
    case Ask(a) => AskKeepsServed(e.s, e.h, a, served);
    case Answer(a) => AnswerKeepsServed(c, e.s, e.h, a, served);
    case Deliver(a) => DeliverKeepsServed(c, e.s, e.h, a, served);
  }

  lemma LeavingKeepsServed(c: Config, e: World, outcome: CallOutcome, actions: seq<Action>, served: map<RequestId, nat>)
    requires Served(e.s, e.h.commits, served)
    requires outcome.Returned? && actions != [] && e.s.worker.Inferring? ==> e.s.worker.job.Id() in served
    ensures var v := Advance(c, e, Ask(DoLeaveInference(outcome, actions))); Served(v.s, v.h.commits, served)
  {
  }

  // ---------------------------------------------------------------- the link

  /** What the link remembers only grows. */
  predicate LinkGrows(link: Link, after: Link) {
    && (forall x | x in link.origin :: x in after.origin && after.origin[x] == link.origin[x])
    && (forall x | x in link.openings :: x in after.openings && after.openings[x] == link.openings[x])
    && (forall id | id in link.sentFor :: id in after.sentFor && after.sentFor[id] == link.sentFor[id])
  }

  lemma EngineKeepsOrigins(s: State, t: State, step: Step, link: Link, length: nat)
    requires EngineKeeps(s, t, step) && Origins(s.ep.epoch, s.lifecycle.Resetting?, link)
    ensures var after := LinkAfter(link, s, length, step);
            LinkGrows(link, after) && Origins(t.ep.epoch, t.lifecycle.Resetting?, after)
  {
  }

  lemma EngineKeepsResets(w: RpcWire.Wire, s: State, t: State, step: Step, link: Link)
    requires EngineKeeps(s, t, step) && EngineWaits(s, link)
    requires Origins(s.ep.epoch, s.lifecycle.Resetting?, link) && ResetsLinked(w, s, link)
    ensures ResetsLinked(w, t, LinkAfter(link, s, |w.trace|, step))
  {
  }

  lemma EngineKeepsFrames(y: RpcServer.System, s: State, t: State, step: Step, link: Link, length: nat)
    requires EngineKeeps(s, t, step) && EngineWaits(s, link)
    requires FramesLinked(y.w.net, s.ep.epoch, link) && SenderLinked(y.w, s, link)
    ensures var after := LinkAfter(link, s, length, step);
            FramesLinked(y.w.net, t.ep.epoch, after) && SenderLinked(y.w, t, after)
  {
    var after := LinkAfter(link, s, length, step);
    forall k, i | k in y.w.net && 0 <= i < |y.w.net[k].sent|
      ensures FrameLinked(y.w.net[k].sent[i], t.ep.epoch, after)
    {
      assert FrameLinked(y.w.net[k].sent[i], s.ep.epoch, link);
    }
  }
}
