/** What ties engine and transport together in every reachable state of both. */
module RemoteInvariant {
  import opened Common
  import opened EngineState
  import opened EngineHistory
  import EngineInvariant
  import RpcWire
  import RpcServer
  import RpcInvariant
  import RpcFrames
  import RpcBarrier
  import opened RemoteEngine

  // ---------------------------------------------------------------- calls

  /** A call that has not ended is the engine's reset or its inference. */
  predicate CallLinked(t: nat, pc: RpcWire.Pc, link: Link) {
    || pc.Done?
    || (link.reset.Some? && link.reset.value.t == t && RpcWire.ActiveReset(pc)
        && pc.generation == link.reset.value.generation)
    || (link.infer == Some(t) && !RpcWire.ActiveReset(pc))
  }


  ghost predicate CallsLinked(w: RpcWire.Wire, link: Link) {
    && (forall t | t in w.calls :: CallLinked(t, w.calls[t], link))
    && (link.reset.Some? ==> link.reset.value.t in w.calls)
    && (link.infer.Some? ==> link.infer.value in w.calls)
    && (link.reset.Some? && link.infer.Some? ==> link.reset.value.t != link.infer.value)
    && (forall a | 0 <= a < |w.trace| && w.trace[a].Accepted? :: w.trace[a].call in w.calls)
  }

  /** Calls run inside the block of the engine that makes them. */
  predicate EngineWaits(s: State, link: Link) {
    && (link.reset.Some? ==> s.lifecycle.Resetting?)
    && (link.infer.Some? ==> s.worker.Inferring?)
    && (s.flags.resetting && EngineInvariant.HasJob(s.worker) ==> s.worker.job.Epoch() < s.ep.epoch)
  }

  // ---------------------------------------------------------------- epochs and resets

  predicate Origins(epoch: nat, resetting: bool, link: Link) {
    && (forall x | x in link.origin ::
          link.origin[x] <= x <= epoch && link.origin[x] in link.openings && (x in link.resets ==> link.origin[x] == x))
    && (forall x | x in link.openings :: x in link.resets && x in link.origin && link.origin[x] == x)
    && (forall x | x in link.resets :: x <= epoch)
    && (resetting ==> epoch in link.resets && epoch !in link.origin)
  }

  /** The reset that opened an epoch began, and was acknowledged, after the epoch began. */
  ghost predicate OpenedWithin(trace: seq<RpcWire.Event>, o: Opening) {
    && o.from <= o.begun < o.upto <= |trace|
    && trace[o.begun] == RpcWire.ResetBegun(o.generation)
    && RpcWire.ResetAcknowledged(o.generation) in trace[o.begun..o.upto]
  }

  ghost predicate ResetRunning(w: RpcWire.Wire, link: Link) {
    link.reset.Some? ==>
      var asked := link.reset.value;
      && link.since <= asked.begun < |w.trace| && w.trace[asked.begun] == RpcWire.ResetBegun(asked.generation)
      && RpcInvariant.LastBegun(w.trace) == asked.generation <= w.c.generation
      && (RpcWire.ResetAcknowledged(asked.generation) in w.trace ==>
            RpcWire.ResetAcknowledged(asked.generation) in w.trace[asked.begun..])
  }

  /** Outside a reset's teardown the newest reset is that of the epoch's origin, or
      inference is blocked. */
  ghost predicate EpochBased(w: RpcWire.Wire, epoch: nat, link: Link) {
    if epoch in link.origin && link.origin[epoch] in link.openings then
      RpcInvariant.LastBegun(w.trace) == link.openings[link.origin[epoch]].generation
    else w.c.resetRequired
  }

  ghost predicate ResetsLinked(w: RpcWire.Wire, s: State, link: Link) {
    && ResetRunning(w, link)
    && link.since <= |w.trace|
    && (forall x | x in link.openings :: OpenedWithin(w.trace, link.openings[x]))
    && (!s.lifecycle.Resetting? ==> EpochBased(w, s.ep.epoch, link))
  }

  // ---------------------------------------------------------------- frames

  /** What is sent for an epoch under a generation is sent before any later reset. */
  predicate SentBefore(link: Link, epoch: nat, generation: nat) {
    && (forall x | x in link.openings && epoch < x :: generation < link.openings[x].generation)
    && (link.reset.Some? ==> generation < link.reset.value.generation)
  }

  predicate FrameLinked(f: RpcWire.Frame, epoch: nat, link: Link) {
    f.kind.InferKind? ==>
      && f.id in link.sentFor && link.sentFor[f.id] <= epoch && SentBefore(link, link.sentFor[f.id], f.generation)
  }

  ghost predicate FramesLinked(net: map<nat, RpcWire.Sock>, epoch: nat, link: Link) {
    forall k, i | k in net && 0 <= i < |net[k].sent| :: FrameLinked(net[k].sent[i], epoch, link)
  }

  predicate IdsUsed(next: nat, link: Link) {
    forall id | id in link.sentFor :: id < next
  }

  predicate SenderLinked(w: RpcWire.Wire, s: State, link: Link) {
    link.infer.Some? && s.worker.Inferring? && link.infer.value in w.calls ==>
      var pc := w.calls[link.infer.value];
      pc.Connecting? || pc.Sending? ==> SentBefore(link, s.worker.job.Epoch(), pc.generation)
  }

  // ---------------------------------------------------------------- results

  /** Everything the server computed up to `j` was asked for by `epoch` or before. */
  ghost predicate AskedBy(log: seq<RpcServer.Mark>, j: int, epoch: nat, link: Link)
    requires 0 <= j <= |log|
  {
    forall m | 0 <= m < j && log[m].Began? && log[m].frame.kind.InferKind? ::
      log[m].frame.id in link.sentFor && link.sentFor[log[m].frame.id] <= epoch
  }

  ghost predicate ComputedAt(log: seq<RpcServer.Mark>, j: int, generation: nat, id: nat) {
    && 0 <= j < |log| && log[j].Ended? && log[j].ok && log[j].frame.kind.InferKind?
    && log[j].frame.generation == generation && log[j].frame.id == id
  }

  /** The server computed the result for `epoch`, and the reset of the epoch's origin was
      the newest one when its frame was sent. */
  ghost predicate Sound(y: RpcServer.System, link: Link, a: nat, epoch: nat) {
    && a < |y.w.trace| && y.w.trace[a].Accepted?
    && y.w.trace[a].generation <= y.w.c.generation
    && epoch in link.origin && link.origin[epoch] in link.openings
    && RpcFrames.Grounds(y.w.trace, y.w.trace[a].generation, link.openings[link.origin[epoch]].generation)
    && exists j :: ComputedAt(y.s.x.log, j, y.w.trace[a].generation, y.w.trace[a].id) && AskedBy(y.s.x.log, j, epoch, link)
  }

  ghost predicate ResultsSound(y: RpcServer.System, worker: Worker, link: Link) {
    && (forall id | id in link.served :: Sound(y, link, link.served[id], id.epoch))
    && (link.infer.Some? && worker.Inferring? ==>
          forall a: nat | a < |y.w.trace| && y.w.trace[a].Accepted? && y.w.trace[a].call == link.infer.value ::
            Sound(y, link, a, worker.job.Epoch()))
  }

  /** Whatever the policy returned came from an accepted result. */
  ghost predicate Served(s: State, commits: seq<Commit>, served: map<RequestId, nat>) {
    && (s.worker.Completed? || s.worker.Delivering? ==> s.worker.job.Id() in served)
    && (s.worker.Scheduling? ==> s.worker.response.Id() in served)
    && (forall r | r in s.ep.pending :: r.Id() in served)
    && (s.delivery.Merging? ==> s.delivery.response.Id() in served)
    && (forall i | 0 <= i < |commits| :: RequestId(commits[i].epoch, commits[i].ordinal) in served)
  }

  // ---------------------------------------------------------------- the invariant

  ghost predicate Tied(j: Joint) {
    && CallsLinked(j.y.w, j.link)
    && EngineWaits(j.e.s, j.link)
    && Origins(j.e.s.ep.epoch, j.e.s.lifecycle.Resetting?, j.link)
    && ResetsLinked(j.y.w, j.e.s, j.link)
    && FramesLinked(j.y.w.net, j.e.s.ep.epoch, j.link)
    && IdsUsed(j.y.w.nextFrame, j.link)
    && SenderLinked(j.y.w, j.e.s, j.link)
    && Served(j.e.s, j.e.h.commits, j.link.served)
  }

  ghost predicate Linked(j: Joint) {
    Tied(j) && ResultsSound(j.y, j.e.s.worker, j.link)
  }

  ghost predicate JointInv(c: Config, setup: RpcServer.Setup, j: Joint) {
    && EngineInvariant.Owned(c, j.e.s) && EngineInvariant.Isolated(j.e.s)
    && RpcBarrier.SysInv(setup, j.y)
    && Linked(j)
  }
}
