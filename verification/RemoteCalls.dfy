/** The calls between engine and transport keep the tie. */
module RemoteCalls {
  import opened Common
  import opened EngineState
  import opened EngineHistory
  import RpcClientState
  import opened RpcWire
  import opened RpcInvariant
  import RpcSteps
  import opened RpcFrames
  import RpcServer
  import opened RemoteEngine
  import opened RemoteInvariant
  import opened RemoteEngineSteps
  import RemoteWireSteps

  // ---------------------------------------------------------------- a reset is called

  /** What the first block of `reset` does. */
  function Begun(c: RpcClientState.Client): Effect {
    var g := c.generation + 1;
    Effect(RpcClientState.ResetBegin(c), ResetWaiting(g), Some(ResetBegun(g)), NoIo)
  }

  /** No reset of a generation to come has been acknowledged. */
  lemma NoneAcknowledgedAhead(w: Wire, generation: nat)
    requires Published(w.c, w.net) && FramesOnRecord(w.net, w.trace) && EventsAnswered(w.trace, w.net)
    requires ResetAcknowledged(generation) in w.trace
    ensures generation <= w.c.generation
  {
    var a :| 0 <= a < |w.trace| && w.trace[a] == ResetAcknowledged(generation);
    assert EventAnswered(w.trace[a], w.net);
    var k, i :| k in w.net && IsAnswer(w.net[k], i, ResetKind, generation, None);
    assert FrameOnRecord(w.net[k].sent[i], k, w.net, w.trace);
  }

  lemma BegunRuns(w: Wire, t: nat, link: Link)
    requires Published(w.c, w.net) && FramesOnRecord(w.net, w.trace) && EventsAnswered(w.trace, w.net)
    requires link.since <= |w.trace|
    ensures var g := w.c.generation + 1;
            ResetRunning(Perform(w, t, Begun(w.c)), link.(reset := Some(Asked(t, g, |w.trace|))))
  {
    var g := w.c.generation + 1;
    RpcSteps.LastBegunExtends(w.trace, ResetBegun(g));
    if ResetAcknowledged(g) in w.trace {
      NoneAcknowledgedAhead(w, g);
      assert false;
    }
  }

  lemma BegunKeepsFrames(w: Wire, t: nat, epoch: nat, link: Link)
    requires Published(w.c, w.net) && FramesOnRecord(w.net, w.trace) && FramesLinked(w.net, epoch, link)
    ensures FramesLinked(Perform(w, t, Begun(w.c)).net, epoch,
                         link.(reset := Some(Asked(t, w.c.generation + 1, |w.trace|))))
  {
    var after := link.(reset := Some(Asked(t, w.c.generation + 1, |w.trace|)));
    var net := Perform(w, t, Begun(w.c)).net;
    forall k, i | k in net && 0 <= i < |net[k].sent| ensures FrameLinked(net[k].sent[i], epoch, after) {
      assert net[k].sent == w.net[k].sent && FrameLinked(w.net[k].sent[i], epoch, link);
      assert FrameOnRecord(w.net[k].sent[i], k, w.net, w.trace);
    }
  }

  lemma BegunKeepsCalls(w: Wire, t: nat, s: State, link: Link)
    requires CallsLinked(w, link) && SenderLinked(w, s, link) && link.reset.None? && t !in w.calls
    requires InferencesCurrent(w.c, w.calls, w.admitted, w.trace)
    ensures var after := link.(reset := Some(Asked(t, w.c.generation + 1, |w.trace|)));
            var v := Perform(w, t, Begun(w.c));
            CallsLinked(v, after) && SenderLinked(v, s, after)
  {
    var after := link.(reset := Some(Asked(t, w.c.generation + 1, |w.trace|)));
    var v := Perform(w, t, Begun(w.c));
    forall u | u in v.calls ensures CallLinked(u, v.calls[u], after) {
      if u != t {
        assert CallLinked(u, w.calls[u], link);
      }
    }
    if link.infer.Some? {
      assert CallLinked(link.infer.value, w.calls[link.infer.value], link);
    }
  }

  lemma BegunKeepsResets(w: Wire, t: nat, s: State, link: Link)
    requires Published(w.c, w.net) && FramesOnRecord(w.net, w.trace) && EventsAnswered(w.trace, w.net)
    requires ResetsLinked(w, s, link) && s.lifecycle.Resetting?
    ensures ResetsLinked(Perform(w, t, Begun(w.c)), s,
                         link.(reset := Some(Asked(t, w.c.generation + 1, |w.trace|))))
  {
    BegunRuns(w, t, link);
    RemoteWireSteps.OpeningsStay(w, Perform(w, t, Begun(w.c)), link);
  }

  predicate MayCallReset(j: Joint, t: nat) {
    j.e.s.lifecycle.Resetting? && j.link.reset.None? && t !in j.y.w.calls
  }

  lemma CallIsBegun(setup: RpcServer.Setup, j: Joint, t: nat)
    requires MayCallReset(j, t)
    ensures CallReset(setup, j, t) ==
            j.(y := j.y.(w := Perform(j.y.w, t, Begun(j.y.w.c))),
               link := j.link.(reset := Some(Asked(t, j.y.w.c.generation + 1, |j.y.w.trace|))))
  {
  }

  lemma BegunGrows(w: Wire, t: nat)
    ensures var v := Perform(w, t, Begun(w.c));
            RemoteWireSteps.TraceGrows(w, v) && v.trace == w.trace + [ResetBegun(w.c.generation + 1)]
            && v.nextFrame == w.nextFrame
  {
  }

  lemma BegunKeepsTied(j: Joint, t: nat)
    requires Tied(j) && MayCallReset(j, t)
    requires Published(j.y.w.c, j.y.w.net) && FramesOnRecord(j.y.w.net, j.y.w.trace)
    requires EventsAnswered(j.y.w.trace, j.y.w.net)
    requires InferencesCurrent(j.y.w.c, j.y.w.calls, j.y.w.admitted, j.y.w.trace)
    ensures Tied(j.(y := j.y.(w := Perform(j.y.w, t, Begun(j.y.w.c))),
                    link := j.link.(reset := Some(Asked(t, j.y.w.c.generation + 1, |j.y.w.trace|)))))
  {
    BegunGrows(j.y.w, t);
    BegunKeepsResets(j.y.w, t, j.e.s, j.link);
    BegunKeepsFrames(j.y.w, t, j.e.s.ep.epoch, j.link);
    BegunKeepsCalls(j.y.w, t, j.e.s, j.link);
  }

  /** Results stay sound when only the trace and the memory of the link grow. */
  lemma ResultsSurvive(y: RpcServer.System, z: RpcServer.System, worker: Worker, link: Link, after: Link)
    requires ResultsSound(y, worker, link) && RemoteWireSteps.TraceGrows(y.w, z.w) && y.s == z.s
    requires LinkGrows(link, after) && after.served == link.served
    requires forall a | |y.w.trace| <= a < |z.w.trace| :: !z.w.trace[a].Accepted?
    requires after.infer == link.infer || after.infer.None?
    ensures ResultsSound(z, worker, after)
  {
    RemoteWireSteps.ServedSurvive(y, z, link, after);
    if after.infer.Some? && worker.Inferring? {
      forall a: nat | a < |z.w.trace| && z.w.trace[a].Accepted? && z.w.trace[a].call == after.infer.value
        ensures Sound(z, after, a, worker.job.Epoch())
      {
        assert a < |y.w.trace| && y.w.trace[a] == z.w.trace[a];
        RemoteWireSteps.SoundSurvives(y, z, link, after, a, worker.job.Epoch());
      }
    }
  }

  lemma BegunKeepsLinked(j: Joint, t: nat)
    requires Linked(j) && Inv(j.y.w) && OnRecord(j.y.w) && MayCallReset(j, t)
    ensures Linked(j.(y := j.y.(w := Perform(j.y.w, t, Begun(j.y.w.c))),
                      link := j.link.(reset := Some(Asked(t, j.y.w.c.generation + 1, |j.y.w.trace|)))))
  {
    BegunKeepsTied(j, t);
    BegunGrows(j.y.w, t);
    ResultsSurvive(j.y, j.y.(w := Perform(j.y.w, t, Begun(j.y.w.c))), j.e.s.worker, j.link,
                   j.link.(reset := Some(Asked(t, j.y.w.c.generation + 1, |j.y.w.trace|))));
  }

  lemma CallResetKeepsLinked(setup: RpcServer.Setup, j: Joint, t: nat)
    requires Linked(j) && Inv(j.y.w) && OnRecord(j.y.w)
    ensures Linked(CallReset(setup, j, t))
  {
    if MayCallReset(j, t) {
      CallIsBegun(setup, j, t);
      BegunKeepsLinked(j, t);
    }
  }

  // ---------------------------------------------------------------- a reset returns

  /** While the newest reset is not acknowledged, inference is blocked. */
  lemma UnacknowledgedBlocks(w: Wire)
    requires FailClosed(w.c, w.trace) && ResetAcknowledged(LastBegun(w.trace)) !in w.trace
    ensures w.c.resetRequired
  {
    RpcSteps.NewestIsLastBegun(w.trace);
  }

  /** The link when the reset has returned. */
  function Returned(link: Link, epoch: nat, ok: bool, length: nat): Link
    requires link.reset.Some?
  {
    var asked := link.reset.value;
    if ok then
      link.(reset := None, origin := link.origin[epoch := epoch],
            openings := link.openings[epoch := Opening(asked.generation, link.since, asked.begun, length)])
    else link.(reset := None)
  }

  lemma ReturnKeepsOrigins(epoch: nat, link: Link, ok: bool, length: nat)
    requires Origins(epoch, true, link) && link.reset.Some?
    ensures var after := Returned(link, epoch, ok, length);
            Origins(epoch, false, after) && LinkGrows(link, after)
  {
  }

  /** The reset that has just returned is the newest one. */
  lemma ReturnIsBased(w: Wire, epoch: nat, link: Link)
    requires ResetRunning(w, link) && link.reset.Some? && FailClosed(w.c, w.trace) && Origins(epoch, true, link)
    ensures var ok := ResetAcknowledged(link.reset.value.generation) in w.trace;
            EpochBased(w, epoch, Returned(link, epoch, ok, |w.trace|))
  {
    if ResetAcknowledged(link.reset.value.generation) !in w.trace {
      UnacknowledgedBlocks(w);
    }
  }

  lemma ReturnOpensWithin(w: Wire, s: State, link: Link)
    requires ResetsLinked(w, s, link) && link.reset.Some?
    ensures var ok := ResetAcknowledged(link.reset.value.generation) in w.trace;
            var after := Returned(link, s.ep.epoch, ok, |w.trace|);
            forall x | x in after.openings :: OpenedWithin(w.trace, after.openings[x])
  {
    var begun := link.reset.value.begun;
    assert w.trace[begun..|w.trace|] == w.trace[begun..];
  }

  lemma ReturnKeepsResets(w: Wire, s: State, link: Link)
    requires ResetsLinked(w, s, link) && link.reset.Some? && FailClosed(w.c, w.trace)
    requires Origins(s.ep.epoch, true, link) && s.lifecycle.Resetting?
    ensures var ok := ResetAcknowledged(link.reset.value.generation) in w.trace;
            ResetsLinked(w, ResetFinish(s, ok), Returned(link, s.ep.epoch, ok, |w.trace|))
  {
    ReturnIsBased(w, s.ep.epoch, link);
    ReturnOpensWithin(w, s, link);
  }

  lemma ReturnKeepsFrames(w: Wire, s: State, link: Link, ok: bool)
    requires link.reset.Some? && FramesLinked(w.net, s.ep.epoch, link) && SenderLinked(w, s, link)
    ensures var after := Returned(link, s.ep.epoch, ok, |w.trace|);
            FramesLinked(w.net, s.ep.epoch, after) && SenderLinked(w, s, after)
  {
    var after := Returned(link, s.ep.epoch, ok, |w.trace|);
    forall k, i | k in w.net && 0 <= i < |w.net[k].sent| ensures FrameLinked(w.net[k].sent[i], s.ep.epoch, after) {
      assert FrameLinked(w.net[k].sent[i], s.ep.epoch, link);
    }
  }

  lemma ReturnKeepsCalls(w: Wire, link: Link, epoch: nat, ok: bool)
    requires CallsLinked(w, link) && link.reset.Some? && PcOf(w, link.reset.value.t).Done?
    ensures CallsLinked(w, Returned(link, epoch, ok, |w.trace|))
  {
    forall t | t in w.calls ensures CallLinked(t, w.calls[t], Returned(link, epoch, ok, |w.trace|)) {
      assert CallLinked(t, w.calls[t], link);
    }
  }

  lemma ReturnIsReturned(c: Config, j: Joint)
    requires j.link.reset.Some? && PcOf(j.y.w, j.link.reset.value.t).Done?
    ensures var ok := ResetAcknowledged(j.link.reset.value.generation) in j.y.w.trace;
            ReturnReset(c, j) == j.(e := Advance(c, j.e, Lifecycle(DoResetFinish(ok))),
                                    link := Returned(j.link, j.e.s.ep.epoch, ok, |j.y.w.trace|))
  {
  }

  lemma ReturnKeepsTied(c: Config, j: Joint)
    requires Tied(j) && FailClosed(j.y.w.c, j.y.w.trace)
    requires j.link.reset.Some? && PcOf(j.y.w, j.link.reset.value.t).Done?
    ensures var ok := ResetAcknowledged(j.link.reset.value.generation) in j.y.w.trace;
            Tied(j.(e := Advance(c, j.e, Lifecycle(DoResetFinish(ok))),
                    link := Returned(j.link, j.e.s.ep.epoch, ok, |j.y.w.trace|)))
  {
    var ok := ResetAcknowledged(j.link.reset.value.generation) in j.y.w.trace;
    ReturnKeepsResets(j.y.w, j.e.s, j.link);
    ReturnKeepsOrigins(j.e.s.ep.epoch, j.link, ok, |j.y.w.trace|);
    ReturnKeepsFrames(j.y.w, j.e.s, j.link, ok);
    ReturnKeepsCalls(j.y.w, j.link, j.e.s.ep.epoch, ok);
    LifecycleKeepsServed(c, j.e.s, j.e.h, DoResetFinish(ok), j.link.served);
  }

  lemma ReturnKeepsResults(y: RpcServer.System, worker: Worker, link: Link, epoch: nat, ok: bool)
    requires ResultsSound(y, worker, link) && Origins(epoch, true, link) && link.reset.Some?
    ensures ResultsSound(y, worker, Returned(link, epoch, ok, |y.w.trace|))
  {
    ReturnKeepsOrigins(epoch, link, ok, |y.w.trace|);
    ResultsSurvive(y, y, worker, link, Returned(link, epoch, ok, |y.w.trace|));
  }

  lemma FinishKeepsWorker(c: Config, e: World, ok: bool)
    ensures Advance(c, e, Lifecycle(DoResetFinish(ok))).s.worker == e.s.worker
  {
  }

  lemma ReturnKeepsLinked(c: Config, j: Joint)
    requires Linked(j) && FailClosed(j.y.w.c, j.y.w.trace)
    requires j.link.reset.Some? && PcOf(j.y.w, j.link.reset.value.t).Done?
    ensures var ok := ResetAcknowledged(j.link.reset.value.generation) in j.y.w.trace;
            Linked(j.(e := Advance(c, j.e, Lifecycle(DoResetFinish(ok))),
                      link := Returned(j.link, j.e.s.ep.epoch, ok, |j.y.w.trace|)))
  {
    var ok := ResetAcknowledged(j.link.reset.value.generation) in j.y.w.trace;
    ReturnKeepsTied(c, j);
    FinishKeepsWorker(c, j.e, ok);
    ReturnKeepsResults(j.y, j.e.s.worker, j.link, j.e.s.ep.epoch, ok);
  }

  lemma ReturnResetKeepsLinked(c: Config, j: Joint)
    requires Linked(j) && FailClosed(j.y.w.c, j.y.w.trace)
    ensures Linked(ReturnReset(c, j))
  {
    if j.link.reset.Some? && PcOf(j.y.w, j.link.reset.value.t).Done? {
      ReturnIsReturned(c, j);
      ReturnKeepsLinked(c, j);
    }
  }

  // ---------------------------------------------------------------- an inference is called

  lemma EnteredKeepsCalls(w: Wire, t: nat, s: State, link: Link)
    requires CallsLinked(w, link) && link.infer.None? && t !in w.calls
    ensures var v := w.(calls := w.calls[t := InferWaiting(w.c.generation)]);
            CallsLinked(v, link.(infer := Some(t))) && SenderLinked(v, s, link.(infer := Some(t)))
  {
    var v := w.(calls := w.calls[t := InferWaiting(w.c.generation)]);
    forall u | u in v.calls ensures CallLinked(u, v.calls[u], link.(infer := Some(t))) {
      if u != t {
        assert CallLinked(u, w.calls[u], link);
      }
    }
  }

  lemma SoundIgnoresCalls(y: RpcServer.System, z: RpcServer.System, link: Link, after: Link, a: nat, epoch: nat)
    requires Sound(y, link, a, epoch) && z.s == y.s && z.w.c == y.w.c && z.w.trace == y.w.trace
    requires LinkGrows(link, after) && z.w.nextFrame == y.w.nextFrame
    ensures Sound(z, after, a, epoch)
  {
    RemoteWireSteps.SoundSurvives(y, z, link, after, a, epoch);
  }

  lemma EnteringIsPerformed(w: Wire, t: nat)
    requires t !in w.calls && !w.c.resetRequired && (w.lock.Some? ==> w.lock.value in w.calls)
    ensures CallNext(w, t, DoEnterInfer) == w.(calls := w.calls[t := InferWaiting(w.c.generation)])
  {
  }

  lemma EnteringKeepsTied(setup: RpcServer.Setup, j: Joint, t: nat)
    requires Tied(j) && j.e.s.worker.Inferring? && j.link.infer.None? && t !in j.y.w.calls
    requires Locked(j.y.w.lock, j.y.w.calls) && !j.y.w.c.resetRequired
    ensures Tied(j.(y := CallStarted(setup, j.y, t, DoEnterInfer), link := j.link.(infer := Some(t))))
  {
    EnteringIsPerformed(j.y.w, t);
    EnteredKeepsCalls(j.y.w, t, j.e.s, j.link);
  }

  lemma EnteringKeepsResults(setup: RpcServer.Setup, j: Joint, t: nat)
    requires CallsLinked(j.y.w, j.link) && ResultsSound(j.y, j.e.s.worker, j.link)
    requires Locked(j.y.w.lock, j.y.w.calls) && !j.y.w.c.resetRequired && t !in j.y.w.calls
    ensures ResultsSound(CallStarted(setup, j.y, t, DoEnterInfer), j.e.s.worker, j.link.(infer := Some(t)))
  {
    EnteringIsPerformed(j.y.w, t);
    var z := CallStarted(setup, j.y, t, DoEnterInfer);
    forall id | id in j.link.served ensures Sound(z, j.link.(infer := Some(t)), j.link.served[id], id.epoch) {
      SoundIgnoresCalls(j.y, z, j.link, j.link.(infer := Some(t)), j.link.served[id], id.epoch);
    }
  }

  lemma EnteringKeepsLinked(setup: RpcServer.Setup, j: Joint, t: nat)
    requires Linked(j) && j.e.s.worker.Inferring? && j.link.infer.None? && t !in j.y.w.calls
    requires Locked(j.y.w.lock, j.y.w.calls) && !j.y.w.c.resetRequired
    ensures Linked(j.(y := CallStarted(setup, j.y, t, DoEnterInfer), link := j.link.(infer := Some(t))))
  {
    EnteringKeepsTied(setup, j, t);
    EnteringKeepsResults(setup, j, t);
  }

  // ---------------------------------------------------------------- an inference returns

  lemma LeftKeepsCalls(w: Wire, link: Link, served: map<RequestId, nat>)
    requires CallsLinked(w, link) && (link.infer.Some? ==> PcOf(w, link.infer.value).Done?)
    ensures CallsLinked(w, link.(infer := None, served := served))
  {
    forall t | t in w.calls ensures CallLinked(t, w.calls[t], link.(infer := None, served := served)) {
      assert CallLinked(t, w.calls[t], link);
    }
  }

  lemma FramesIgnoreServed(net: map<nat, Sock>, epoch: nat, link: Link, served: map<RequestId, nat>)
    requires FramesLinked(net, epoch, link)
    ensures FramesLinked(net, epoch, link.(infer := None, served := served))
  {
    forall k, i | k in net && 0 <= i < |net[k].sent|
      ensures FrameLinked(net[k].sent[i], epoch, link.(infer := None, served := served))
    {
      assert FrameLinked(net[k].sent[i], epoch, link);
    }
  }

  /** The worker leaves the transport call, with `served` as what was served by then. */
  lemma LeavingKeepsTied(c: Config, j: Joint, outcome: CallOutcome, actions: seq<Action>, served: map<RequestId, nat>)
    requires Tied(j) && j.e.s.worker.Inferring?
    requires j.link.infer.Some? ==> PcOf(j.y.w, j.link.infer.value).Done?
    requires forall id | id in j.link.served :: id in served
    requires outcome.Returned? && actions != [] ==> j.e.s.worker.job.Id() in served
    ensures Tied(j.(e := Advance(c, j.e, Ask(DoLeaveInference(outcome, actions))),
                    link := j.link.(infer := None, served := served)))
  {
    LeftKeepsCalls(j.y.w, j.link, served);
    FramesIgnoreServed(j.y.w.net, j.e.s.ep.epoch, j.link, served);
    LeavingKeepsServed(c, j.e, outcome, actions, served);
  }

  lemma LeavingKeepsLinked(c: Config, j: Joint, outcome: CallOutcome, actions: seq<Action>, served: map<RequestId, nat>)
    requires Linked(j) && j.e.s.worker.Inferring?
    requires j.link.infer.Some? ==> PcOf(j.y.w, j.link.infer.value).Done?
    requires forall id | id in j.link.served :: id in served
    requires forall id | id in served :: Sound(j.y, j.link, served[id], id.epoch)
    requires outcome.Returned? && actions != [] ==> j.e.s.worker.job.Id() in served
    ensures Linked(j.(e := Advance(c, j.e, Ask(DoLeaveInference(outcome, actions))),
                      link := j.link.(infer := None, served := served)))
  {
    LeavingKeepsTied(c, j, outcome, actions, served);
    var after := j.link.(infer := None, served := served);
    forall id | id in served ensures Sound(j.y, after, served[id], id.epoch) {
      SoundIgnoresCalls(j.y, j.y, j.link, after, served[id], id.epoch);
    }
  }

  lemma CallInferKeepsLinked(c: Config, setup: RpcServer.Setup, j: Joint, t: nat)
    requires Linked(j) && Locked(j.y.w.lock, j.y.w.calls)
    ensures Linked(CallInfer(c, setup, j, t))
  {
    if j.e.s.worker.Inferring? && j.link.infer.None? && t !in j.y.w.calls {
      if j.y.w.c.resetRequired {
        LeavingKeepsLinked(c, j, CallOutcome.Raised(false), [], j.link.served);
        assert j.link == j.link.(infer := None, served := j.link.served);
      } else {
        EnteringKeepsLinked(setup, j, t);
      }
    }
  }

  lemma ReturnInferKeepsLinked(c: Config, j: Joint, a: nat, actions: seq<Action>)
    requires Linked(j)
    ensures Linked(ReturnInfer(c, j, a, actions))
  {
    if Answers(j, a) {
      LeavingKeepsLinked(c, j, CallOutcome.Returned, actions, j.link.served[j.e.s.worker.job.Id() := a]);
    }
  }

  lemma FailInferKeepsLinked(c: Config, j: Joint, outcome: CallOutcome)
    requires Linked(j)
    ensures Linked(FailInfer(c, j, outcome))
  {
    if j.link.infer.Some? && PcOf(j.y.w, j.link.infer.value).Done? {
      LeavingKeepsLinked(c, j, outcome, [], j.link.served);
      assert j.link.(infer := None, served := j.link.served) == j.link.(infer := None);
    }
  }
}
