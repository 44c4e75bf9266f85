/** Every step of engine, transport and the calls between them keeps the tie. */
module RemoteSteps {
  import opened Common
  import opened EngineState
  import opened EngineHistory
  import EngineInvariant
  import RpcClientState
  import RpcWire
  import RpcServer
  import RpcInvariant
  import RpcSteps
  import RpcBarrier
  import opened RemoteEngine
  import opened RemoteInvariant
  import opened RemoteEngineSteps
  import opened RemoteWireSteps

  // ---------------------------------------------------------------- the engine's own steps

  lemma EngineKeepsResults(c: Config, j: Joint, step: Step)
    requires EngineWaits(j.e.s, j.link) && EngineKeeps(j.e.s, Next(c, j.e.s, step), step)
    requires Origins(j.e.s.ep.epoch, j.e.s.lifecycle.Resetting?, j.link)
    requires ResultsSound(j.y, j.e.s.worker, j.link) && !EndsCall(step)
    ensures var v := EngineMove(c, j, step); ResultsSound(v.y, v.e.s.worker, v.link)
  {
    var v := EngineMove(c, j, step);
    EngineKeepsOrigins(j.e.s, v.e.s, step, j.link, |j.y.w.trace|);
    ServedSurvive(j.y, j.y, j.link, v.link);
    if v.link.infer.Some? && v.e.s.worker.Inferring? {
      forall a: nat | a < |j.y.w.trace| && j.y.w.trace[a].Accepted? && j.y.w.trace[a].call == j.link.infer.value
        ensures Sound(j.y, v.link, a, j.e.s.worker.job.Epoch())
      {
        SoundSurvives(j.y, j.y, j.link, v.link, a, j.e.s.worker.job.Epoch());
      }
    }
  }

  lemma EngineMoveKeepsLinked(c: Config, j: Joint, step: Step)
    requires EngineInvariant.Owned(c, j.e.s) && EngineInvariant.Isolated(j.e.s) && Linked(j)
    ensures Linked(EngineMove(c, j, step))
  {
    if !EndsCall(step) {
      var v := EngineMove(c, j, step);
      StepKeepsEngine(c, j.e.s, step);
      EngineKeepsOrigins(j.e.s, v.e.s, step, j.link, |j.y.w.trace|);
      EngineKeepsResets(j.y.w, j.e.s, v.e.s, step, j.link);
      EngineKeepsFrames(j.y, j.e.s, v.e.s, step, j.link, |j.y.w.trace|);
      EngineKeepsResults(c, j, step);
      StepKeepsServed(c, j.e, step, j.link.served);
    }
  }

  // ---------------------------------------------------------------- blocks of a call

  /** A block changes the client and the network, not the server. */
  predicate IsBlock(j: Joint, v: Joint, t: nat, call: RpcWire.CallStep, e: RpcWire.Effect) {
    && v == j.(y := j.y.(w := RpcWire.Perform(j.y.w, t, e)),
               link := LinkSent(j.link, j.e.s, j.y.w.nextFrame, e.io.Transmit? && e.io.kind.InferKind?))
    && RpcWire.CallEffect(j.y.w, t, call) == Some(e)
    && !call.DoBeginReset? && !call.DoEnterInfer?
    && (call.DoFindSocket? && j.link.infer == Some(t) && EventSet(j.e.s) ==> call.how == Some(RpcClientState.WasCancelled))
    && (call.DoAccept? ==> call.eventSet == EventSet(j.e.s))
  }

  lemma BlocksAreDisciplined(j: Joint, v: Joint, t: nat, call: RpcWire.CallStep, e: RpcWire.Effect)
    requires IsBlock(j, v, t, call, e)
    ensures RpcSteps.ResetDiscipline(j.y.w, t, e) && RpcSteps.SocketDiscipline(j.y.w, t, e)
    ensures KindDiscipline(j.y.w, t, call, e) && !RpcSteps.Begins(e)
  {
    RpcSteps.BlocksKeepResetDiscipline(j.y.w, t, call);
    RpcSteps.BlocksKeepSocketDiscipline(j.y.w, t, call);
    BlocksKeepKind(j.y.w, t, call);
  }

  lemma SendingGrows(j: Joint, v: Joint, t: nat, call: RpcWire.CallStep, e: RpcWire.Effect)
    requires IsBlock(j, v, t, call, e) && IdsUsed(j.y.w.nextFrame, j.link)
    ensures LinkGrows(j.link, v.link) && IdsUsed(v.y.w.nextFrame, v.link)
  {
    if j.e.s.worker.Inferring? {
      SentForGrows(j.link, j.y.w.nextFrame, j.e.s.worker.job.Epoch());
    }
  }

  lemma BlockKeepsTied(c: Config, j: Joint, v: Joint, t: nat, call: RpcWire.CallStep, e: RpcWire.Effect)
    requires IsBlock(j, v, t, call, e) && Tied(j)
    requires EngineInvariant.Owned(c, j.e.s) && EngineInvariant.Isolated(j.e.s)
    requires forall u | u in j.y.w.calls :: RpcInvariant.UsesOwnSocket(j.y.w.calls[u], j.y.w.net)
    ensures Tied(v) && LinkGrows(j.link, v.link) && TraceGrows(j.y.w, v.y.w)
  {
    var w := j.y.w;
    BlocksAreDisciplined(j, v, t, call, e);
    PerformGrowsTrace(w, t, e);
    SendingGrows(j, v, t, call, e);
    PerformKeepsCalls(w, t, call, e, j.link);
    PerformKeepsResetsLinked(w, t, call, e, j.e.s, j.link);
    PerformKeepsFramesLinked(w, t, call, e, j.e.s, j.link);
    PerformKeepsSender(c, w, t, call, e, j.e.s, j.link);
  }

  /** An inference that its event does not stop is accepted while its epoch is current. */
  lemma AcceptorIsCurrent(c: Config, j: Joint, v: Joint, t: nat, call: RpcWire.CallStep, e: RpcWire.Effect)
    requires IsBlock(j, v, t, call, e) && e.event.Some? && e.event.value.Accepted?
    requires EngineInvariant.Owned(c, j.e.s) && EngineWaits(j.e.s, j.link)
    requires Origins(j.e.s.ep.epoch, j.e.s.lifecycle.Resetting?, j.link)
    requires RpcInvariant.InferencesCurrent(j.y.w.c, j.y.w.calls, j.y.w.admitted, j.y.w.trace)
    requires j.e.s.worker.Inferring? && j.e.s.worker.job.Epoch() <= j.e.s.ep.epoch
    ensures j.e.s.worker.job.Epoch() == j.e.s.ep.epoch && !j.e.s.lifecycle.Resetting?
    ensures !v.y.w.c.resetRequired && e.event.value.generation == v.y.w.c.generation
  {
    BlocksAreDisciplined(j, v, t, call, e);
    PassedEventIsCurrent(c, j.e.s, j.link, 0);
  }

  lemma BlockKeepsResults(j: Joint, v: Joint, t: nat, call: RpcWire.CallStep, e: RpcWire.Effect)
    requires IsBlock(j, v, t, call, e) && LinkGrows(j.link, v.link) && TraceGrows(j.y.w, v.y.w)
    requires e.event.Some? && e.event.value.Accepted? && j.e.s.worker.Inferring? ==>
               Sound(v.y, v.link, |j.y.w.trace|, j.e.s.worker.job.Epoch())
    requires ResultsSound(j.y, j.e.s.worker, j.link)
    ensures ResultsSound(v.y, v.e.s.worker, v.link)
  {
    ServedSurvive(j.y, v.y, j.link, v.link);
    if v.link.infer.Some? && v.e.s.worker.Inferring? {
      var epoch := v.e.s.worker.job.Epoch();
      forall a: nat | a < |v.y.w.trace| && v.y.w.trace[a].Accepted? && v.y.w.trace[a].call == v.link.infer.value
        ensures Sound(v.y, v.link, a, epoch)
      {
        if a < |j.y.w.trace| {
          assert v.y.w.trace[a] == j.y.w.trace[a];
          SoundSurvives(j.y, v.y, j.link, v.link, a, epoch);
        }
      }
    }
  }

  lemma CallMoveIsBlock(setup: RpcServer.Setup, j: Joint, t: nat, call: RpcWire.CallStep)
    requires !call.DoBeginReset? && !call.DoEnterInfer?
    ensures var actual := WithEvent(j, t, call);
            var e := RpcWire.CallEffect(j.y.w, t, actual);
            if e.Some? then IsBlock(j, CallMove(setup, j, t, call), t, actual, e.value)
            else CallMove(setup, j, t, call) == j
  {
  }

  lemma BlockKeepsLinked(c: Config, setup: RpcServer.Setup, j: Joint, v: Joint, t: nat, call: RpcWire.CallStep,
                         e: RpcWire.Effect)
    requires IsBlock(j, v, t, call, e) && Linked(j)
    requires EngineInvariant.Owned(c, j.e.s) && EngineInvariant.Isolated(j.e.s)
    requires RpcInvariant.Inv(j.y.w) && RpcBarrier.SysInv(setup, v.y)
    ensures Linked(v)
  {
    BlockKeepsTied(c, j, v, t, call, e);
    if e.event.Some? && e.event.value.Accepted? && j.e.s.worker.Inferring? {
      AcceptorIsCurrent(c, j, v, t, call, e);
      AcceptedIsSound(setup, v.y, v.link, |j.y.w.trace|, v.e.s.ep.epoch);
    }
    BlockKeepsResults(j, v, t, call, e);
  }

  lemma CallMoveKeepsLinked(c: Config, setup: RpcServer.Setup, j: Joint, t: nat, call: RpcWire.CallStep)
    requires Linked(j) && !call.DoBeginReset? && !call.DoEnterInfer?
    requires EngineInvariant.Owned(c, j.e.s) && EngineInvariant.Isolated(j.e.s)
    requires RpcInvariant.Inv(j.y.w) && RpcBarrier.SysInv(setup, CallMove(setup, j, t, call).y)
    ensures Linked(CallMove(setup, j, t, call))
  {
    var v := CallMove(setup, j, t, call);
    var actual := WithEvent(j, t, call);
    var e := RpcWire.CallEffect(j.y.w, t, actual);
    CallMoveIsBlock(setup, j, t, call);
    if e.Some? {
      BlockKeepsLinked(c, setup, j, v, t, actual, e.value);
    }
  }

  // ---------------------------------------------------------------- the transport's other steps

  /** The calls stay where they are and nothing is sent. */
  predicate CallsRest(y: RpcServer.System, z: RpcServer.System) {
    && z.w.calls == y.w.calls && z.w.nextFrame == y.w.nextFrame
    && (z.w.trace == y.w.trace || z.w.trace == y.w.trace + [RpcWire.Invalidated])
    && z.w.c.generation >= y.w.c.generation && z.w.c.resetRequired == y.w.c.resetRequired
    && (forall k | k in z.w.net :: k in y.w.net && z.w.net[k].sent == y.w.net[k].sent)
    && y.s.x.log <= z.s.x.log
  }

  lemma ClientRests(setup: RpcServer.Setup, y: RpcServer.System, step: RpcWire.Step)
    requires !step.Call?
    ensures CallsRest(y, RpcServer.SysNext(setup, y, RpcServer.Client(step)))
  {
  }

  lemma NetworkRests(setup: RpcServer.Setup, y: RpcServer.System, step: RpcServer.SysStep)
    requires step.ReadFrame? || step.SendReply? || step.SeeClose?
    ensures CallsRest(y, RpcServer.SysNext(setup, y, step))
  {
  }

  lemma ServerRests(setup: RpcServer.Setup, y: RpcServer.System, step: RpcServer.SysStep)
    requires !step.Client? && !step.ReadFrame? && !step.SendReply? && !step.SeeClose?
    ensures CallsRest(y, RpcServer.SysNext(setup, y, step))
  {
  }

  lemma OtherStepsRest(setup: RpcServer.Setup, y: RpcServer.System, step: RpcServer.SysStep)
    requires step.Client? ==> !step.step.Call?
    ensures CallsRest(y, RpcServer.SysNext(setup, y, step))
  {
    if step.Client? {
      ClientRests(setup, y, step.step);
    } else if step.ReadFrame? || step.SendReply? || step.SeeClose? {
      NetworkRests(setup, y, step);
    } else {
      ServerRests(setup, y, step);
    }
  }

  lemma RestKeepsResets(y: RpcServer.System, z: RpcServer.System, s: State, link: Link)
    requires CallsRest(y, z) && ResetsLinked(y.w, s, link)
    ensures ResetsLinked(z.w, s, link) && TraceGrows(y.w, z.w)
  {
    OpeningsStay(y.w, z.w, link);
    if z.w.trace != y.w.trace {
      RpcSteps.LastBegunExtends(y.w.trace, RpcWire.Invalidated);
      if link.reset.Some? {
        var g := link.reset.value.generation;
        if RpcWire.ResetAcknowledged(g) in z.w.trace {
          EarlierStaysIn(y.w.trace, RpcWire.Invalidated, link.reset.value.begun, RpcWire.ResetAcknowledged(g));
        }
      }
    }
  }

  lemma RestKeepsCalls(y: RpcServer.System, z: RpcServer.System, s: State, link: Link)
    requires CallsRest(y, z) && CallsLinked(y.w, link)
    requires FramesLinked(y.w.net, s.ep.epoch, link) && SenderLinked(y.w, s, link)
    ensures CallsLinked(z.w, link) && FramesLinked(z.w.net, s.ep.epoch, link) && SenderLinked(z.w, s, link)
  {
    forall k, i | k in z.w.net && 0 <= i < |z.w.net[k].sent| ensures FrameLinked(z.w.net[k].sent[i], s.ep.epoch, link) {
      assert FrameLinked(y.w.net[k].sent[i], s.ep.epoch, link);
    }
  }

  lemma RestKeepsResults(y: RpcServer.System, z: RpcServer.System, s: State, link: Link)
    requires CallsRest(y, z) && TraceGrows(y.w, z.w) && ResultsSound(y, s.worker, link)
    ensures ResultsSound(z, s.worker, link)
  {
    ServedSurvive(y, z, link, link);
    if link.infer.Some? && s.worker.Inferring? {
      forall a: nat | a < |z.w.trace| && z.w.trace[a].Accepted? && z.w.trace[a].call == link.infer.value
        ensures Sound(z, link, a, s.worker.job.Epoch())
      {
        assert a < |y.w.trace| && y.w.trace[a] == z.w.trace[a];
        SoundSurvives(y, z, link, link, a, s.worker.job.Epoch());
      }
    }
  }

  lemma RestKeepsLinked(j: Joint, z: RpcServer.System)
    requires Linked(j) && CallsRest(j.y, z)
    ensures Linked(j.(y := z))
  {
    RestKeepsResets(j.y, z, j.e.s, j.link);
    RestKeepsCalls(j.y, z, j.e.s, j.link);
    RestKeepsResults(j.y, z, j.e.s, j.link);
  }

  lemma TransportMoveKeepsLinked(c: Config, setup: RpcServer.Setup, j: Joint, step: RpcServer.SysStep)
    requires Linked(j)
    requires EngineInvariant.Owned(c, j.e.s) && EngineInvariant.Isolated(j.e.s)
    requires RpcInvariant.Inv(j.y.w) && RpcBarrier.SysInv(setup, TransportMove(setup, j, step).y)
    ensures Linked(TransportMove(setup, j, step))
  {
    if step.Client? && step.step.Call? {
      var call := step.step.call;
      if !call.DoBeginReset? && !call.DoEnterInfer? {
        CallMoveKeepsLinked(c, setup, j, step.step.t, call);
      }
    } else {
      OtherStepsRest(setup, j.y, step);
      RestKeepsLinked(j, RpcServer.SysNext(setup, j.y, step));
    }
  }
}
