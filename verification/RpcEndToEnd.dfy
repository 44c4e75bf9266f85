/** What client and server promise together, over every schedule. */
module RpcEndToEnd {
  import opened Common
  import opened RpcWire
  import opened RpcInvariant
  import opened RpcFrames
  import opened RpcServer
  import opened RpcService
  import opened RpcBarrier

  function After(setup: Setup, schedule: seq<SysStep>): System {
    SysRun(setup, NEW_SYSTEM, schedule)
  }

  lemma InitialClientInv()
    ensures Inv(NEW_WIRE) && OnRecord(NEW_WIRE)
  {
  }

  lemma InitialWorkInv(hasReset: bool)
    ensures WorkInv(NEW_EXECUTOR, hasReset)
  {
  }

  lemma InitialSysInv(setup: Setup)
    ensures SysInv(setup, NEW_SYSTEM)
  {
    InitialClientInv();
    InitialWorkInv(setup.hasReset);
  }

  lemma ReachableSysInv(setup: Setup, schedule: seq<SysStep>)
    ensures SysInv(setup, After(setup, schedule))
  {
    InitialSysInv(setup);
    SysRunKeepsInv(setup, NEW_SYSTEM, schedule);
  }

  /** The worker enters one callback at a time: the log is start, end, start, end, ...,
      each end that of the start just before it, over jobs in the order they queued. */
  lemma CallbacksNeverOverlap(setup: Setup, schedule: seq<SysStep>)
    ensures var x := After(setup, schedule).s.x;
            && Paired(x.log) && Increasing(x.log)
            && (x.log != [] && x.log[|x.log| - 1].Began? <==> x.worker.Computing?)
  {
    ReachableSysInv(setup, schedule);
  }

  /** Every job taken from the queue is counted once: dropped, an inference call, or a
      reset that succeeded or failed, or it is the one in the worker's hands. */
  lemma JobsCountedOnce(setup: Setup, schedule: seq<SysStep>)
    ensures var x := After(setup, schedule).s.x;
            var c := x.counters;
            var inHand := x.worker.Picked? || x.worker.Cleared?
                          || (x.log != [] && x.log[|x.log| - 1].Began? && x.log[|x.log| - 1].frame.kind.ResetKind?);
            && Counted(x, setup.hasReset)
            && c.dropped + c.inferenceCalls + c.resetSuccesses + c.resetFailures + (if inHand then 1 else 0) == x.picked
  {
    ReachableSysInv(setup, schedule);
  }

  /** The barrier: once the callback of a reset has begun, nothing sent under an
      earlier generation begins any more. */
  lemma NothingOlderRunsAfterReset(setup: Setup, schedule: seq<SysStep>, i: nat, j: nat)
    requires var log := After(setup, schedule).s.x.log;
             i < j < |log| && log[i].Began? && log[i].frame.kind.ResetKind? && log[j].Began?
    ensures var log := After(setup, schedule).s.x.log; log[j].frame.generation >= log[i].frame.generation
  {
    ReachableSysInv(setup, schedule);
  }

  /** An acknowledgement the client accepts is that of a reset callback that ran to its
      end. */
  lemma AcknowledgedResetsHaveRun(setup: Setup, schedule: seq<SysStep>, generation: nat)
    requires ResetAcknowledged(generation) in After(setup, schedule).w.trace
    ensures exists frame: Frame ::
              && frame.kind.ResetKind? && frame.generation == generation
              && Performed(After(setup, schedule).s.x.log, frame, true)
  {
    ReachableSysInv(setup, schedule);
    var y := After(setup, schedule);
    var a :| 0 <= a < |y.w.trace| && y.w.trace[a] == ResetAcknowledged(generation);
    assert EventAnswered(y.w.trace[a], y.w.net);
    var i := AnsweredHasRun(y.w.net, y.s, ResetKind, generation, None);
    assert Performed(y.s.x.log, y.s.x.log[i].frame, true);
  }

  // ---------------------------------------------------------------- inference after its own reset

  /** Two starts of resets of one generation are the same start. */
  lemma ResetsRunOnce(w: Wire, x: Executor, i: nat, j: nat)
    requires OneFramePerReset(w.net) && JobsOnNet(w.net, x.jobs) && LogMatchesJobs(x) && Increasing(x.log)
    requires i < |x.log| && j < |x.log| && x.log[i].Began? && x.log[j].Began?
    requires x.log[i].frame.kind.ResetKind? && x.log[j].frame.kind.ResetKind?
    requires x.log[i].frame.generation == x.log[j].frame.generation
    ensures i == j
  {
    var a, b := x.jobs[x.log[i].job], x.jobs[x.log[j].job];
    assert JobOnNet(w.net, a) && JobOnNet(w.net, b);
    assert w.net[a.sock].sent[a.position].generation == w.net[b.sock].sent[b.position].generation;
    assert a.sock == b.sock && a.position == b.position;
  }

  lemma RunResetsHaveBegun(w: Wire, x: Executor, i: nat)
    requires FramesOnRecord(w.net, w.trace) && JobsOnNet(w.net, x.jobs) && LogMatchesJobs(x)
    requires i < |x.log| && x.log[i].frame.kind.ResetKind?
    ensures ResetBegun(x.log[i].frame.generation) in w.trace
  {
    var a := x.jobs[x.log[i].job];
    assert JobOnNet(w.net, a);
    assert FrameOnRecord(w.net[a.sock].sent[a.position], a.sock, w.net, w.trace);
  }

  /** Between the reset and the inference, the worker runs only inferences, none sent
      before the reset. */
  ghost predicate OnlyNewerInferences(log: seq<Mark>, i: int, j: int, generation: nat)
    requires 0 <= i <= j <= |log|
  {
    forall m | i < m < j && log[m].Began? :: log[m].frame.kind.InferKind? && log[m].frame.generation >= generation
  }

  lemma NoResetBetween(w: Wire, x: Executor, i: nat, j: nat)
    requires FramesOnRecord(w.net, w.trace) && OneFramePerReset(w.net) && JobsOnNet(w.net, x.jobs)
    requires LogMatchesJobs(x) && Increasing(x.log) && Paired(x.log) && Barrier(x.log)
    requires i < j < |x.log| && x.log[j].Began?
    requires RunsAfter(w.trace, x.log, i, x.log[j].frame.generation)
    ensures OnlyNewerInferences(x.log, i, j, x.log[i].frame.generation)
  {
    var log := x.log;
    assert log[i - 1] == Began(log[i].job, log[i].frame);
    forall m | i < m < j && log[m].Began?
      ensures log[m].frame.kind.InferKind? && log[m].frame.generation >= log[i].frame.generation
    {
      if log[m].frame.kind.ResetKind? {
        RunResetsHaveBegun(w, x, m);
        if log[m].frame.generation == log[i].frame.generation {
          ResetsRunOnce(w, x, i - 1, m);
        }
        assert false;
      }
    }
  }

  /** Every inference that computes does so on the state left by a reset that was
      acknowledged before it was sent and was the newest then, and by inferences sent
      after that reset: no policy state crosses a reset, on any schedule. */
  lemma InferenceRunsOnItsResetsState(setup: Setup, schedule: seq<SysStep>, j: nat)
    requires var log := After(setup, schedule).s.x.log; j < |log| && log[j].Began? && log[j].frame.kind.InferKind?
    ensures var y := After(setup, schedule);
            var log := y.s.x.log;
            exists i :: 0 <= i < j
              && log[i].Ended? && log[i].ok && log[i].frame.kind.ResetKind?
              && Grounds(y.w.trace, log[j].frame.generation, log[i].frame.generation)
              && OnlyNewerInferences(log, i, j, log[i].frame.generation)
  {
    ReachableSysInv(setup, schedule);
    var y := After(setup, schedule);
    var i :| i < j && RunsAfter(y.w.trace, y.s.x.log, i, y.s.x.log[j].frame.generation);
    NoResetBetween(y.w, y.s.x, i, j);
  }

  /** The callback that ended at `j` computed on such a state. */
  ghost predicate ComputedClean(trace: seq<Event>, log: seq<Mark>, i: int, j: int) {
    && 0 <= i < j < |log|
    && log[j].Ended? && log[j].ok && log[j].frame.kind.InferKind? && log[j - 1] == Began(log[j].job, log[j].frame)
    && RunsAfter(trace, log, i, log[j].frame.generation)
    && OnlyNewerInferences(log, i, j, log[i].frame.generation)
  }

  lemma EndedInferencesAreClean(w: Wire, x: Executor, j: nat) returns (i: nat)
    requires FramesOnRecord(w.net, w.trace) && OneFramePerReset(w.net) && JobsOnNet(w.net, x.jobs)
    requires LogMatchesJobs(x) && Increasing(x.log) && Paired(x.log) && Barrier(x.log) && RunsGrounded(w.trace, x.log)
    requires j < |x.log| && x.log[j].Ended? && x.log[j].ok && x.log[j].frame.kind.InferKind?
    ensures ComputedClean(w.trace, x.log, i, j)
  {
    var log := x.log;
    assert log[j - 1] == Began(log[j].job, log[j].frame);
    var m :| m < j - 1 && RunsAfter(w.trace, log, m, log[j - 1].frame.generation);
    i := m;
    NoResetBetween(w, x, i, j - 1);
    assert log[j - 1].frame.generation >= log[i].frame.generation;
  }

  /** By the counter that stands for `uuid4`. */
  lemma FramesAreIdentified(setup: Setup, schedule: seq<SysStep>)
    ensures var w := After(setup, schedule).w; DistinctIds(w.net, w.nextFrame)
  {
    ReachableSysInv(setup, schedule);
  }

  /** Every result the client accepts was computed by the server for that very frame, on
      the state left by the acknowledged reset that was newest when it was sent and by
      inferences sent after that reset. */
  lemma AcceptedResultsWereComputedClean(setup: Setup, schedule: seq<SysStep>, a: nat)
    returns (i: nat, j: nat)
    requires var trace := After(setup, schedule).w.trace; a < |trace| && trace[a].Accepted?
    ensures var y := After(setup, schedule);
            && ComputedClean(y.w.trace, y.s.x.log, i, j)
            && y.s.x.log[j].frame.id == y.w.trace[a].id
            && y.s.x.log[j].frame.generation == y.w.trace[a].generation
            && DistinctIds(y.w.net, y.w.nextFrame)
  {
    FramesAreIdentified(setup, schedule);
    ReachableSysInv(setup, schedule);
    var y := After(setup, schedule);
    var e := y.w.trace[a];
    assert EventAnswered(e, y.w.net);
    j := AnsweredHasRun(y.w.net, y.s, InferKind, e.generation, Some(e.id));
    i := EndedInferencesAreClean(y.w, y.s.x, j);
  }
}
