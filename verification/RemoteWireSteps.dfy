/** What the transport's blocks do to the tie between engine and transport. */
module RemoteWireSteps {
  import opened Common
  import opened EngineState
  import EngineInvariant
  import RpcClientState
  import opened RpcWire
  import opened RpcInvariant
  import RpcSteps
  import opened RpcFrames
  import opened RpcServer
  import RpcService
  import RpcBarrier
  import opened RemoteEngine
  import opened RemoteInvariant
  import RemoteEngineSteps

  // ---------------------------------------------------------------- growth

  /** Trace and log only grow, and a reset that begins has a generation of its own. */
  ghost predicate TraceGrows(w: Wire, v: Wire) {
    && w.trace <= v.trace && w.c.generation <= v.c.generation && w.nextFrame <= v.nextFrame
    && forall i | |w.trace| <= i < |v.trace| && v.trace[i].ResetBegun? :: v.trace[i].generation > w.c.generation
  }

  lemma PerformGrowsTrace(w: Wire, t: nat, e: Effect)
    requires RpcSteps.ResetDiscipline(w, t, e)
    ensures TraceGrows(w, Perform(w, t, e))
  {
  }

  lemma GroundsGrow(w: Wire, v: Wire, generation: nat, basis: nat)
    requires Grounds(w.trace, generation, basis) && generation <= w.c.generation && TraceGrows(w, v)
    ensures Grounds(v.trace, generation, basis)
  {
    forall i | 0 <= i < |v.trace| && v.trace[i].ResetBegun?
      ensures v.trace[i].generation <= basis || v.trace[i].generation > generation
    {
      if i < |w.trace| {
        assert v.trace[i] == w.trace[i];
      }
    }
  }

  lemma AskedByGrows(log: seq<Mark>, longer: seq<Mark>, j: int, epoch: nat, link: Link, after: Link)
    requires log <= longer && 0 <= j <= |log| && AskedBy(log, j, epoch, link) && RemoteEngineSteps.LinkGrows(link, after)
    ensures AskedBy(longer, j, epoch, after)
  {
    assert forall m | 0 <= m < j :: longer[m] == log[m];
  }

  lemma SoundSurvives(y: System, z: System, link: Link, after: Link, a: nat, epoch: nat)
    requires Sound(y, link, a, epoch)
    requires TraceGrows(y.w, z.w) && y.s.x.log <= z.s.x.log && RemoteEngineSteps.LinkGrows(link, after)
    ensures Sound(z, after, a, epoch)
  {
    var e := y.w.trace[a];
    assert z.w.trace[a] == e;
    GroundsGrow(y.w, z.w, e.generation, link.openings[link.origin[epoch]].generation);
    var j :| ComputedAt(y.s.x.log, j, e.generation, e.id) && AskedBy(y.s.x.log, j, epoch, link);
    AskedByGrows(y.s.x.log, z.s.x.log, j, epoch, link, after);
    assert ComputedAt(z.s.x.log, j, e.generation, e.id);
  }

  lemma ServedSurvive(y: System, z: System, link: Link, after: Link)
    requires forall id | id in link.served :: Sound(y, link, link.served[id], id.epoch)
    requires TraceGrows(y.w, z.w) && y.s.x.log <= z.s.x.log && RemoteEngineSteps.LinkGrows(link, after)
    requires after.served == link.served
    ensures forall id | id in after.served :: Sound(z, after, after.served[id], id.epoch)
  {
    forall id | id in after.served ensures Sound(z, after, after.served[id], id.epoch) {
      SoundSurvives(y, z, link, after, link.served[id], id.epoch);
    }
  }

  // ---------------------------------------------------------------- blocks of a call

  /** A block never turns a reset into an inference or back, nor goes on after the end. */
  predicate KindDiscipline(w: Wire, t: nat, call: CallStep, e: Effect) {
    var was := PcOf(w, t);
    && !was.Done?
    && (ActiveReset(was) ==> e.pc.Done? || ActiveReset(e.pc))
    && (e.pc.Connecting? || e.pc.Sending? ==>
          (was.Connecting? || (was.Holding? && call.DoFindSocket?)) && was.generation == e.pc.generation)
    && (call.DoFindSocket? && call.how == Some(RpcClientState.WasCancelled) ==> !e.pc.Connecting? && !e.pc.Sending?)
    && (e.event.Some? && e.event.value.Accepted? ==>
          && call == DoAccept(false) && AdmittedInfer(was) && was.generation == w.c.generation
          && e.event.value.call == t && e.event.value.generation == w.c.generation)
    && (e.io.Transmit? && e.io.kind.InferKind? ==> was.Sending? && was.kind.InferKind? && was.sock == e.io.k)
  }

  lemma BlocksKeepKind(w: Wire, t: nat, call: CallStep)
    requires CallEffect(w, t, call).Some? && !call.DoBeginReset? && !call.DoEnterInfer?
    ensures KindDiscipline(w, t, call, CallEffect(w, t, call).value)
  {
  }

  lemma PerformKeepsCalls(w: Wire, t: nat, call: CallStep, e: Effect, link: Link)
    requires CallsLinked(w, link) && RpcSteps.ResetDiscipline(w, t, e) && KindDiscipline(w, t, call, e)
    requires !RpcSteps.Begins(e)
    ensures CallsLinked(Perform(w, t, e), link)
  {
    var v := Perform(w, t, e);
    assert t in w.calls && CallLinked(t, w.calls[t], link);
    forall u | u in v.calls ensures CallLinked(u, v.calls[u], link) {
      if u != t {
        assert CallLinked(u, w.calls[u], link);
      }
    }
  }

  lemma EarlierStaysIn(trace: seq<Event>, e: Event, from: nat, x: Event)
    requires from <= |trace| && (x in trace ==> x in trace[from..]) && x in trace + [e]
    ensures x in (trace + [e])[from..]
  {
    var longer := trace + [e];
    assert longer[from..] == trace[from..] + [e];
  }

  lemma OpeningsStay(w: Wire, v: Wire, link: Link)
    requires w.trace <= v.trace && forall x | x in link.openings :: OpenedWithin(w.trace, link.openings[x])
    ensures forall x | x in link.openings :: OpenedWithin(v.trace, link.openings[x])
  {
    forall x | x in link.openings ensures OpenedWithin(v.trace, link.openings[x]) {
      var o := link.openings[x];
      assert OpenedWithin(w.trace, o) && v.trace[o.begun..o.upto] == w.trace[o.begun..o.upto];
    }
  }

  /** A block that begins no reset leaves the newest one, and never unblocks inference
      but for a reset. */
  lemma PerformKeepsRunning(w: Wire, t: nat, e: Effect, link: Link)
    requires ResetRunning(w, link) && RpcSteps.ResetDiscipline(w, t, e) && !RpcSteps.Begins(e)
    ensures var v := Perform(w, t, e); ResetRunning(v, link) && LastBegun(v.trace) == LastBegun(w.trace)
  {
    if e.event.Some? {
      RpcSteps.LastBegunExtends(w.trace, e.event.value);
      if link.reset.Some? && ResetAcknowledged(link.reset.value.generation) in w.trace + [e.event.value] {
        EarlierStaysIn(w.trace, e.event.value, link.reset.value.begun, ResetAcknowledged(link.reset.value.generation));
      }
    }
  }

  lemma PerformKeepsResetsLinked(w: Wire, t: nat, call: CallStep, e: Effect, s: State, link: Link)
    requires CallsLinked(w, link) && EngineWaits(s, link) && ResetsLinked(w, s, link)
    requires RpcSteps.ResetDiscipline(w, t, e) && KindDiscipline(w, t, call, e) && !RpcSteps.Begins(e)
    ensures ResetsLinked(Perform(w, t, e), s, link)
  {
    var v := Perform(w, t, e);
    PerformKeepsRunning(w, t, e, link);
    OpeningsStay(w, v, link);
    assert t in w.calls && CallLinked(t, w.calls[t], link);
  }

  // ---------------------------------------------------------------- frames

  lemma SentForGrows(link: Link, next: nat, epoch: nat)
    requires IdsUsed(next, link)
    ensures var after := link.(sentFor := link.sentFor[next := epoch]);
            RemoteEngineSteps.LinkGrows(link, after) && IdsUsed(next + 1, after)
  {
  }

  /** The link after a block of call `t`. */
  function LinkSent(link: Link, s: State, next: nat, sends: bool): Link {
    if sends && s.worker.Inferring? then link.(sentFor := link.sentFor[next := s.worker.job.Epoch()]) else link
  }

  lemma OldFrameStays(f: Frame, epoch: nat, link: Link, s: State, next: nat, sends: bool)
    requires FrameLinked(f, epoch, link) && IdsUsed(next, link)
    ensures FrameLinked(f, epoch, LinkSent(link, s, next, sends))
  {
  }

  lemma NewFrameLinked(w: Wire, t: nat, call: CallStep, e: Effect, s: State, link: Link)
    requires CallsLinked(w, link) && EngineWaits(s, link) && SenderLinked(w, s, link)
    requires KindDiscipline(w, t, call, e) && RpcSteps.SocketDiscipline(w, t, e)
    requires UsesOwnSocket(PcOf(w, t), w.net)
    requires e.io.Transmit? && (s.worker.Inferring? ==> s.worker.job.Epoch() <= s.ep.epoch)
    ensures FrameLinked(NewFrame(w, e), s.ep.epoch, LinkSent(link, s, w.nextFrame, e.io.kind.InferKind?))
  {
    assert t in w.calls && CallLinked(t, w.calls[t], link);
  }

  lemma PerformKeepsFramesLinked(w: Wire, t: nat, call: CallStep, e: Effect, s: State, link: Link)
    requires CallsLinked(w, link) && EngineWaits(s, link) && SenderLinked(w, s, link)
    requires FramesLinked(w.net, s.ep.epoch, link) && IdsUsed(w.nextFrame, link)
    requires KindDiscipline(w, t, call, e) && RpcSteps.SocketDiscipline(w, t, e)
    requires UsesOwnSocket(PcOf(w, t), w.net)
    requires s.worker.Inferring? ==> s.worker.job.Epoch() <= s.ep.epoch
    ensures var after := LinkSent(link, s, w.nextFrame, e.io.Transmit? && e.io.kind.InferKind?);
            FramesLinked(Perform(w, t, e).net, s.ep.epoch, after)
  {
    var after := LinkSent(link, s, w.nextFrame, e.io.Transmit? && e.io.kind.InferKind?);
    var net := Perform(w, t, e).net;
    if e.io.Transmit? {
      NewFrameLinked(w, t, call, e, s, link);
    }
    forall k, i | k in net && 0 <= i < |net[k].sent| ensures FrameLinked(net[k].sent[i], s.ep.epoch, after) {
      if k in w.net && i < |w.net[k].sent| {
        assert net[k].sent[i] == w.net[k].sent[i] && FrameLinked(w.net[k].sent[i], s.ep.epoch, link);
        OldFrameStays(w.net[k].sent[i], s.ep.epoch, link, s, w.nextFrame, e.io.Transmit? && e.io.kind.InferKind?);
      }
    }
  }

  /** A call that goes past its event has an event that is not set, so its epoch is the
      current one and nothing later has been opened. */
  lemma PassedEventIsCurrent(c: Config, s: State, link: Link, generation: nat)
    requires EngineInvariant.Owned(c, s) && EngineWaits(s, link) && Origins(s.ep.epoch, s.lifecycle.Resetting?, link)
    requires s.worker.Inferring? && s.worker.job.Epoch() <= s.ep.epoch && !EventSet(s)
    ensures SentBefore(link, s.worker.job.Epoch(), generation) && link.reset.None?
  {
  }

  lemma PerformKeepsSender(c: Config, w: Wire, t: nat, call: CallStep, e: Effect, s: State, link: Link)
    requires EngineInvariant.Owned(c, s) && EngineWaits(s, link) && Origins(s.ep.epoch, s.lifecycle.Resetting?, link)
    requires SenderLinked(w, s, link) && CallsLinked(w, link) && KindDiscipline(w, t, call, e)
    requires s.worker.Inferring? ==> s.worker.job.Epoch() <= s.ep.epoch
    requires call.DoFindSocket? && link.infer == Some(t) && EventSet(s) ==> call.how == Some(RpcClientState.WasCancelled)
    ensures SenderLinked(Perform(w, t, e), s, LinkSent(link, s, w.nextFrame, e.io.Transmit? && e.io.kind.InferKind?))
  {
    if link.infer == Some(t) && (e.pc.Connecting? || e.pc.Sending?) && !PcOf(w, t).Connecting? {
      PassedEventIsCurrent(c, s, link, e.pc.generation);
    }
  }

  // ---------------------------------------------------------------- acceptance

  /** The newest reset grounds what is sent while inference is not blocked. */
  lemma NewestGrounds(trace: seq<Event>, generation: nat)
    requires Confirmed(trace) && BegunInOrder(trace, generation)
    ensures Grounds(trace, generation, LastBegun(trace))
  {
    var b: nat, a: nat :| Newest(trace, b) && b < a < |trace| && trace[a] == ResetAcknowledged(trace[b].generation);
    RpcSteps.NewestIsLastBegun(trace);
    assert trace[a] in trace;
  }

  /** Frames the server has worked on are frames on the network. */
  lemma LogIsAskedBy(y: System, link: Link, epoch: nat, j: int)
    requires FramesLinked(y.w.net, epoch, link) && RpcBarrier.JobsOnNet(y.w.net, y.s.x.jobs)
    requires RpcService.LogMatchesJobs(y.s.x) && 0 <= j <= |y.s.x.log|
    ensures AskedBy(y.s.x.log, j, epoch, link)
  {
    var log := y.s.x.log;
    forall m | 0 <= m < j && log[m].Began? && log[m].frame.kind.InferKind?
      ensures log[m].frame.id in link.sentFor && link.sentFor[log[m].frame.id] <= epoch
    {
      var job := y.s.x.jobs[log[m].job];
      assert RpcBarrier.JobOnNet(y.w.net, job);
      assert FrameLinked(y.w.net[job.sock].sent[job.position], epoch, link);
    }
  }

  lemma AcceptedWasComputed(setup: Setup, y: System, a: nat) returns (j: nat)
    requires RpcBarrier.SysInv(setup, y) && a < |y.w.trace| && y.w.trace[a].Accepted?
    ensures ComputedAt(y.s.x.log, j, y.w.trace[a].generation, y.w.trace[a].id)
  {
    var e := y.w.trace[a];
    assert EventAnswered(e, y.w.net);
    j := RpcBarrier.AnsweredHasRun(y.w.net, y.s, InferKind, e.generation, Some(e.id));
  }

  /** An inference accepted while its epoch is current is sound. */
  lemma AcceptedIsSound(setup: Setup, z: System, link: Link, a: nat, epoch: nat)
    requires RpcBarrier.SysInv(setup, z) && a < |z.w.trace| && z.w.trace[a].Accepted?
    requires z.w.trace[a].generation == z.w.c.generation && !z.w.c.resetRequired
    requires EpochBased(z.w, epoch, link) && FramesLinked(z.w.net, epoch, link)
    ensures Sound(z, link, a, epoch)
  {
    NewestGrounds(z.w.trace, z.w.c.generation);
    var j := AcceptedWasComputed(setup, z, a);
    LogIsAskedBy(z, link, epoch, j);
  }
}
