/** Client, network and server composed: the reset barrier. */
module RpcBarrier {
  import opened Common
  import opened RpcClientState
  import opened RpcWire
  import opened RpcInvariant
  import opened RpcSteps
  import opened RpcFrames
  import opened RpcServer
  import opened RpcService

  // ---------------------------------------------------------------- clauses

  ghost predicate JobOnNet(net: map<nat, Sock>, job: Job) {
    && job.sock in net
    && job.position < net[job.sock].taken <= |net[job.sock].sent|
    && job.frame == net[job.sock].sent[job.position]
    && (job.frame.kind.ResetKind? ==> ClosesVisible(net, job.frame))
  }

  /** Every job is for a frame of its own. */
  ghost predicate JobsOnNet(net: map<nat, Sock>, jobs: seq<Job>) {
    && (forall j | 0 <= j < |jobs| :: JobOnNet(net, jobs[j]))
    && (forall i, j | 0 <= i < j < |jobs| && jobs[i].sock == jobs[j].sock :: jobs[i].position < jobs[j].position)
  }

  /** A connection's process has answered all it has read but the frame it is working
      on; an affirmative answer means that the callback ran and succeeded. */
  ghost predicate ConnOk(s: Sock, proc: Option<Proc>, jobs: seq<Job>, log: seq<Mark>, k: nat) {
    && |s.replies| <= s.taken <= |s.sent|
    && (proc.None? ==> s.taken == 0)
    && (proc == Some(Listening) ==> |s.replies| == s.taken)
    && (proc.Some? && !proc.value.Listening? && !proc.value.Closed? ==> |s.replies| + 1 == s.taken)
    && (proc.Some? && proc.value.Waiting? ==>
          proc.value.job < |jobs| && jobs[proc.value.job].sock == k && jobs[proc.value.job].position + 1 == s.taken)
    && (proc.Some? && proc.value.Answering? && proc.value.verdict.Ok? ==>
          s.taken > 0 && Performed(log, s.sent[s.taken - 1], true))
    && (forall i | 0 <= i < |s.replies| && s.replies[i].verdict.Ok? :: Performed(log, s.sent[i], true))
  }

  /** A job in hand that has no job of its own yet is for a frame not seen before. */
  ghost predicate Fresh(s: Sock, proc: Option<Proc>, jobs: seq<Job>, k: nat) {
    proc.Some? && proc.value.Deciding? ==>
      && 0 < s.taken <= |s.sent| && s.sent[s.taken - 1].kind.InferKind?
      && forall j | 0 <= j < |jobs| && jobs[j].sock == k :: jobs[j].position + 1 < s.taken
  }

  function ProcAt(s: Service, k: nat): Option<Proc> {
    if k in s.procs then Some(s.procs[k]) else None
  }

  ghost predicate ConnsOk(net: map<nat, Sock>, s: Service) {
    && (forall k | k in net :: ConnOk(net[k], ProcAt(s, k), s.x.jobs, s.x.log, k))
    && (forall k | k in net :: Fresh(net[k], ProcAt(s, k), s.x.jobs, k))
    && (forall k | k in s.procs :: k in net)
  }

  /** Once a reset has begun, nothing sent before it begins any more. */
  ghost predicate Barrier(log: seq<Mark>) {
    forall i, j | 0 <= i < j < |log| && log[i].Began? && log[i].frame.kind.ResetKind? && log[j].Began? ::
      log[j].frame.generation >= log[i].frame.generation
  }

  ghost predicate Clearance(x: Executor) {
    x.worker.Cleared? && x.worker.job < |x.jobs| ==>
      forall i | 0 <= i < |x.log| && x.log[i].Began? && x.log[i].frame.kind.ResetKind? ::
        x.jobs[x.worker.job].frame.generation >= x.log[i].frame.generation
  }

  /** At `i` ended, with success, the reset that was the newest when the inference of
      this generation was sent. */
  ghost predicate RunsAfter(trace: seq<Event>, log: seq<Mark>, i: int, generation: nat) {
    && 0 <= i < |log| && log[i].Ended? && log[i].ok && log[i].frame.kind.ResetKind?
    && Grounds(trace, generation, log[i].frame.generation)
  }

  ghost predicate RunsGrounded(trace: seq<Event>, log: seq<Mark>) {
    forall j | 0 <= j < |log| && log[j].Began? && log[j].frame.kind.InferKind? ::
      exists i :: i < j && RunsAfter(trace, log, i, log[j].frame.generation)
  }

  ghost predicate ClientInv(w: Wire) {
    Inv(w) && OnRecord(w)
  }

  ghost predicate WorkInv(x: Executor, hasReset: bool) {
    ExecutorOk(x, hasReset) && Barrier(x.log) && Clearance(x)
  }

  ghost predicate ConnsInv(net: map<nat, Sock>, s: Service) {
    JobsOnNet(net, s.x.jobs) && ConnsOk(net, s)
  }

  ghost predicate SysInv(setup: Setup, y: System) {
    && ClientInv(y.w)
    && WorkInv(y.s.x, setup.hasReset)
    && ConnsInv(y.w.net, y.s)
    && RunsGrounded(y.w.trace, y.s.x.log)
  }

  // ---------------------------------------------------------------- the client moves

  lemma GrowthKeepsJobs(net: map<nat, Sock>, after: map<nat, Sock>, jobs: seq<Job>)
    requires JobsOnNet(net, jobs) && NetGrows(net, after)
    ensures JobsOnNet(after, jobs)
  {
    forall j | 0 <= j < |jobs| ensures JobOnNet(after, jobs[j]) {
      assert JobOnNet(net, jobs[j]) && Grows(net[jobs[j].sock], after[jobs[j].sock]);
      if jobs[j].frame.kind.ResetKind? {
        forall k | k in jobs[j].frame.closedBefore ensures k in after && after[k].visible {
          assert k in net && Grows(net[k], after[k]);
        }
      }
    }
  }

  lemma GrowthKeepsConn(a: Sock, b: Sock, proc: Option<Proc>, jobs: seq<Job>, log: seq<Mark>, k: nat)
    requires ConnOk(a, proc, jobs, log, k) && Fresh(a, proc, jobs, k) && Grows(a, b)
    ensures ConnOk(b, proc, jobs, log, k) && Fresh(b, proc, jobs, k)
  {
    assert forall i | 0 <= i < |a.sent| :: b.sent[i] == a.sent[i];
  }

  lemma GrowthKeepsConns(net: map<nat, Sock>, after: map<nat, Sock>, s: Service)
    requires ConnsOk(net, s) && NetGrows(net, after)
    ensures ConnsOk(after, s)
  {
    forall k | k in after
      ensures ConnOk(after[k], ProcAt(s, k), s.x.jobs, s.x.log, k) && Fresh(after[k], ProcAt(s, k), s.x.jobs, k)
    {
      if k in net {
        GrowthKeepsConn(net[k], after[k], ProcAt(s, k), s.x.jobs, s.x.log, k);
      }
    }
  }

  lemma TraceKeepsRuns(trace: seq<Event>, e: Event, log: seq<Mark>, generation: nat)
    requires RunsGrounded(trace, log)
    requires forall j | 0 <= j < |log| :: log[j].frame.generation <= generation
    requires e.ResetBegun? ==> e.generation > generation
    ensures RunsGrounded(trace + [e], log)
  {
    forall j | 0 <= j < |log| && log[j].Began? && log[j].frame.kind.InferKind?
      ensures exists i :: i < j && RunsAfter(trace + [e], log, i, log[j].frame.generation)
    {
      var i :| i < j && RunsAfter(trace, log, i, log[j].frame.generation);
      assert RunsAfter(trace + [e], log, i, log[j].frame.generation);
    }
  }

  /** Whatever has run was sent under a generation the client has reached. */
  lemma LogIsPast(w: Wire, x: Executor)
    requires Published(w.c, w.net) && FramesOnRecord(w.net, w.trace) && JobsOnNet(w.net, x.jobs) && LogMatchesJobs(x)
    ensures forall j | 0 <= j < |x.log| :: x.log[j].frame.generation <= w.c.generation
  {
    forall j | 0 <= j < |x.log| ensures x.log[j].frame.generation <= w.c.generation {
      var job := x.jobs[x.log[j].job];
      assert JobOnNet(w.net, job);
      assert FrameOnRecord(w.net[job.sock].sent[job.position], job.sock, w.net, w.trace);
    }
  }

  /** The trace grows by at most one event, a new reset's generation being new. */
  ghost predicate TraceGrows(w: Wire, v: Wire) {
    || v.trace == w.trace
    || (exists e :: v.trace == w.trace + [e] && (e.ResetBegun? ==> e.generation > w.c.generation))
  }

  lemma ClientMoves(w: Wire, step: Step)
    requires !step.Server? && Inv(w)
    ensures NetGrows(w.net, Next(w, step).net) && TraceGrows(w, Next(w, step))
  {
    match step
    case Call(t, call) =>
      if CallEffect(w, t, call).Some? {
        var e := CallEffect(w, t, call).value;
        BlocksKeepSocketDiscipline(w, t, call);
        BlocksKeepResetDiscipline(w, t, call);
        PerformGrows(w, t, e);
        if e.event.Some? {
          assert Perform(w, t, e).trace == w.trace + [e.event.value];
        }
      }
    case DoCancel =>
      DropGrows(w, Cancel(w.c));
      assert Next(w, step).trace == w.trace + [Invalidated];
    case DoClose =>
      DropGrows(w, Close(w.c));
      assert Next(w, step).trace == w.trace + [Invalidated];
  }

  lemma ClientKeepsOnRecord(w: Wire, step: Step)
    requires !step.Server? && Inv(w) && OnRecord(w)
    ensures OnRecord(Next(w, step))
  {
    match step
    case Call(t, call) => CallKeepsOnRecord(w, t, call);
    case DoCancel => DropKeepsOnRecord(w, Cancel(w.c));
    case DoClose => DropKeepsOnRecord(w, Close(w.c));
  }

  lemma ClientKeepsSysInv(setup: Setup, y: System, step: Step)
    requires SysInv(setup, y) && !step.Server?
    ensures SysInv(setup, y.(w := Next(y.w, step)))
  {
    var v := Next(y.w, step);
    StepKeepsInv(y.w, step);
    ClientKeepsOnRecord(y.w, step);
    ClientMoves(y.w, step);
    GrowthKeepsJobs(y.w.net, v.net, y.s.x.jobs);
    GrowthKeepsConns(y.w.net, v.net, y.s);
    if v.trace != y.w.trace {
      var e :| v.trace == y.w.trace + [e] && (e.ResetBegun? ==> e.generation > y.w.c.generation);
      LogIsPast(y.w, y.s.x);
      TraceKeepsRuns(y.w.trace, e, y.s.x.log, y.w.c.generation);
    }
  }

  // ---------------------------------------------------------------- the server moves its end

  predicate Advances(a: Sock, b: Sock) {
    && b.generation == a.generation && b.sent == a.sent
    && a.taken <= b.taken <= |b.sent| && a.replies <= b.replies && (a.visible ==> b.visible)
  }

  ghost predicate NetAdvances(net: map<nat, Sock>, after: map<nat, Sock>) {
    && (forall k | k in net :: k in after && Advances(net[k], after[k]))
    && (forall k | k in after :: k in net)
  }

  lemma AnsweredAdvances(net: map<nat, Sock>, after: map<nat, Sock>, kind: Kind, generation: nat, id: Option<nat>)
    requires NetAdvances(net, after) && Answered(net, kind, generation, id)
    ensures Answered(after, kind, generation, id)
  {
    var k, i :| k in net && IsAnswer(net[k], i, kind, generation, id);
    assert Advances(net[k], after[k]) && IsAnswer(after[k], i, kind, generation, id);
  }

  lemma EventAnsweredAdvances(e: Event, net: map<nat, Sock>, after: map<nat, Sock>)
    requires NetAdvances(net, after) && EventAnswered(e, net)
    ensures EventAnswered(e, after)
  {
    if e.ResetAcknowledged? {
      AnsweredAdvances(net, after, ResetKind, e.generation, None);
    } else if e.Accepted? {
      AnsweredAdvances(net, after, InferKind, e.generation, Some(e.id));
    }
  }

  lemma CallAdvances(pc: Pc, net: map<nat, Sock>, after: map<nat, Sock>, trace: seq<Event>)
    requires CallOnRecord(pc, net, trace) && NetAdvances(net, after)
    ensures CallOnRecord(pc, after, trace)
  {
    if Concluding(pc) {
      AnsweredAdvances(net, after, KindOf(pc), pc.generation, IdOf(pc));
    }
    if Unsent(pc) && SentReset(after, pc.generation) {
      assert false;
    }
    if pc.Receiving? && pc.sock in after {
      assert Advances(net[pc.sock], after[pc.sock]);
    }
  }

  lemma FramesAdvance(net: map<nat, Sock>, after: map<nat, Sock>, trace: seq<Event>)
    requires FramesOnRecord(net, trace) && NetAdvances(net, after)
    ensures FramesOnRecord(after, trace)
  {
    forall k, i | k in after && 0 <= i < |after[k].sent| ensures FrameOnRecord(after[k].sent[i], k, after, trace) {
      assert Advances(net[k], after[k]) && FrameOnRecord(net[k].sent[i], k, net, trace);
      forall l | l in after ensures after[l].generation == net[l].generation {
        assert Advances(net[l], after[l]);
      }
    }
  }

  lemma OneFrameAdvances(net: map<nat, Sock>, after: map<nat, Sock>)
    requires OneFramePerReset(net) && NetAdvances(net, after)
    ensures OneFramePerReset(after)
  {
    assert forall k | k in after :: k in net && Advances(net[k], after[k]) && after[k].sent == net[k].sent;
  }

  lemma IdsAdvance(net: map<nat, Sock>, after: map<nat, Sock>, next: nat)
    requires DistinctIds(net, next) && NetAdvances(net, after)
    ensures DistinctIds(after, next)
  {
    assert forall k | k in after :: k in net && Advances(net[k], after[k]) && after[k].sent == net[k].sent;
  }

  lemma OnRecordAdvances(w: Wire, v: Wire)
    requires OnRecord(w) && NetAdvances(w.net, v.net) && v == w.(net := v.net)
    ensures OnRecord(v)
  {
    FramesAdvance(w.net, v.net, w.trace);
    OneFrameAdvances(w.net, v.net);
    IdsAdvance(w.net, v.net, w.nextFrame);
    forall t | t in v.calls ensures CallOnRecord(v.calls[t], v.net, v.trace) {
      CallAdvances(w.calls[t], w.net, v.net, w.trace);
    }
    forall i | 0 <= i < |v.trace| ensures EventAnswered(v.trace[i], v.net) {
      EventAnsweredAdvances(v.trace[i], w.net, v.net);
    }
  }

  lemma JobsAdvance(net: map<nat, Sock>, after: map<nat, Sock>, jobs: seq<Job>)
    requires JobsOnNet(net, jobs) && NetAdvances(net, after)
    ensures JobsOnNet(after, jobs)
  {
    forall j | 0 <= j < |jobs| ensures JobOnNet(after, jobs[j]) {
      assert JobOnNet(net, jobs[j]) && Advances(net[jobs[j].sock], after[jobs[j].sock]);
      if jobs[j].frame.kind.ResetKind? {
        forall k | k in jobs[j].frame.closedBefore ensures k in after && after[k].visible {
          assert k in net && Advances(net[k], after[k]);
        }
      }
    }
  }

  /** One connection moves, and its process with it. */
  lemma ConnsMove(net: map<nat, Sock>, s: Service, k: nat, sock: Sock, proc: Proc, jobs: seq<Job>)
    requires ConnsOk(net, s) && k in net
    requires s.x.jobs <= jobs && (forall j | |s.x.jobs| <= j < |jobs| :: jobs[j].sock == k)
    requires ConnOk(sock, Some(proc), jobs, s.x.log, k) && Fresh(sock, Some(proc), jobs, k)
    ensures ConnsOk(net[k := sock], s.(procs := s.procs[k := proc], x := s.x.(jobs := jobs)))
  {
    var after := net[k := sock];
    var t := s.(procs := s.procs[k := proc], x := s.x.(jobs := jobs));
    forall l | l in after
      ensures ConnOk(after[l], ProcAt(t, l), t.x.jobs, t.x.log, l) && Fresh(after[l], ProcAt(t, l), t.x.jobs, l)
    {
      if l != k {
        assert ConnOk(net[l], ProcAt(s, l), s.x.jobs, s.x.log, l) && Fresh(net[l], ProcAt(s, l), s.x.jobs, l);
      }
    }
  }

  // ---------------------------------------------------------------- steps of a connection's process

  lemma SelfAdvance(net: map<nat, Sock>)
    requires Orderly(net)
    ensures NetAdvances(net, net)
  {
    assert forall k | k in net :: OrderlySock(net[k]);
  }

  lemma ServerAdvances(w: Wire, k: nat, step: ServerStep)
    requires Orderly(w.net)
    ensures NetAdvances(w.net, OnSocket(w, k, step).net)
  {
    SelfAdvance(w.net);
    if k in w.net {
      assert Advances(w.net[k], OnSocket(w, k, step).net[k]);
    }
  }

  lemma CloseProc(net: map<nat, Sock>, s: Service, k: nat)
    requires ConnsInv(net, s) && k in net
    ensures ConnsInv(net, s.(procs := s.procs[k := Closed]))
  {
    assert ConnOk(net[k], ProcAt(s, k), s.x.jobs, s.x.log, k);
    ConnsMove(net, s, k, net[k], Closed, s.x.jobs);
    assert net[k := net[k]] == net && s.x.(jobs := s.x.jobs) == s.x;
  }

  lemma ConnectedKeepsConns(net: map<nat, Sock>, s: Service, k: nat)
    requires ConnsInv(net, s) && k in net && k !in s.procs
    ensures ConnsInv(net, s.(procs := s.procs[k := Listening]))
  {
    assert ConnOk(net[k], ProcAt(s, k), s.x.jobs, s.x.log, k);
    ConnsMove(net, s, k, net[k], Listening, s.x.jobs);
    assert net[k := net[k]] == net && s.x.(jobs := s.x.jobs) == s.x;
  }

  lemma AdmitKeepsConns(net: map<nat, Sock>, s: Service, k: nat, sock: Sock, ordinal: nat)
    requires ConnsOk(net, s) && k in net && HasTaken(net[k := sock], k)
    requires JobsOnNet(net[k := sock], s.x.jobs)
    requires ConnOk(sock, Some(Deciding(ordinal)), s.x.jobs, s.x.log, k)
    requires forall j | 0 <= j < |s.x.jobs| && s.x.jobs[j].sock == k :: s.x.jobs[j].position + 1 < sock.taken
    requires var f := TakenFrame(net[k := sock], k); f.kind.ResetKind? ==> ClosesVisible(net[k := sock], f)
    ensures ConnsInv(net[k := sock], RpcServer.Admit(net[k := sock], s, k, ordinal))
  {
    var after := net[k := sock];
    var job := Job(k, sock.taken - 1, TakenFrame(after, k), ordinal, false, false, None);
    assert JobOnNet(after, job);
    ConnsMove(net, s, k, sock, Waiting(|s.x.jobs|), s.x.jobs + [job]);
  }

  lemma DecideKeepsConns(setup: Setup, net: map<nat, Sock>, s: Service, k: nat)
    requires ConnsInv(net, s)
    ensures ConnsInv(net, Decide(setup, net, s, k))
  {
    var proc := ProcOf(s, k);
    if proc.Deciding? && HasTaken(net, k) {
      assert ConnOk(net[k], ProcAt(s, k), s.x.jobs, s.x.log, k) && Fresh(net[k], ProcAt(s, k), s.x.jobs, k);
      assert net[k := net[k]] == net && s.x.(jobs := s.x.jobs) == s.x;
      if Matches(proc.ordinal, setup.faults.disconnectEvery) {
        CloseProc(net, s, k);
      } else if Matches(proc.ordinal, setup.faults.errorEvery) {
        ConnsMove(net, s, k, net[k], Answering(Refused), s.x.jobs);
      } else {
        AdmitKeepsConns(net, s, k, net[k], proc.ordinal);
      }
    }
  }

  lemma PositionsTaken(net: map<nat, Sock>, jobs: seq<Job>, k: nat)
    requires JobsOnNet(net, jobs) && k in net
    ensures forall j | 0 <= j < |jobs| && jobs[j].sock == k :: jobs[j].position < net[k].taken
  {
    assert forall j | 0 <= j < |jobs| :: JobOnNet(net, jobs[j]);
  }

  lemma TakeAdvancesJobs(w: Wire, jobs: seq<Job>, k: nat)
    requires Orderly(w.net) && JobsOnNet(w.net, jobs)
    ensures var after := OnSocket(w, k, TakeFrame).net;
            && JobsOnNet(after, jobs)
            && forall f | ClosesVisible(w.net, f) :: ClosesVisible(after, f)
  {
    ServerAdvances(w, k, TakeFrame);
    JobsAdvance(w.net, OnSocket(w, k, TakeFrame).net, jobs);
  }

  lemma ReadFrameKeepsConns(y: System, k: nat)
    requires ConnsInv(y.w.net, y.s) && Orderly(y.w.net) && MayRead(y, k)
    ensures var net := OnSocket(y.w, k, TakeFrame).net; ConnsInv(net, Dispatch(net, y.s, k))
  {
    var net, s := y.w.net, y.s;
    var after := OnSocket(y.w, k, TakeFrame).net;
    assert ConnOk(net[k], ProcAt(s, k), s.x.jobs, s.x.log, k);
    TakeAdvancesJobs(y.w, s.x.jobs, k);
    PositionsTaken(net, s.x.jobs, k);
    if TakenFrame(after, k).kind.ResetKind? {
      AdmitKeepsConns(net, s, k, after[k], 0);
    } else {
      ConnsMove(net, s, k, after[k], Deciding(s.nextOrdinal), s.x.jobs);
      assert s.x.(jobs := s.x.jobs) == s.x;
    }
  }

  lemma SendReplyKeepsConns(y: System, k: nat)
    requires ConnsInv(y.w.net, y.s) && Orderly(y.w.net) && ProcOf(y.s, k).Answering? && k in y.w.net
    ensures ConnsInv(OnSocket(y.w, k, Answer(ProcOf(y.s, k).verdict)).net, y.s.(procs := y.s.procs[k := Listening]))
  {
    var net, s := y.w.net, y.s;
    var after := OnSocket(y.w, k, Answer(ProcOf(s, k).verdict)).net;
    assert ConnOk(net[k], ProcAt(s, k), s.x.jobs, s.x.log, k);
    ServerAdvances(y.w, k, Answer(ProcOf(s, k).verdict));
    JobsAdvance(net, after, s.x.jobs);
    ConnsMove(net, s, k, after[k], Listening, s.x.jobs);
    assert s.x.(jobs := s.x.jobs) == s.x;
  }

  lemma SeeCloseKeepsConns(w: Wire, s: Service, k: nat)
    requires ConnsInv(w.net, s) && Orderly(w.net)
    ensures ConnsInv(OnSocket(w, k, NoticeClose).net, s)
  {
    var after := OnSocket(w, k, NoticeClose).net;
    ServerAdvances(w, k, NoticeClose);
    JobsAdvance(w.net, after, s.x.jobs);
    forall l | l in after
      ensures ConnOk(after[l], ProcAt(s, l), s.x.jobs, s.x.log, l) && Fresh(after[l], ProcAt(s, l), s.x.jobs, l)
    {
      assert ConnOk(w.net[l], ProcAt(s, l), s.x.jobs, s.x.log, l) && Fresh(w.net[l], ProcAt(s, l), s.x.jobs, l);
    }
  }

  // ---------------------------------------------------------------- executor steps

  /** The jobs keep their identity. */
  ghost predicate SameJobs(a: seq<Job>, b: seq<Job>) {
    && |a| == |b|
    && forall j | 0 <= j < |a| :: a[j].sock == b[j].sock && a[j].position == b[j].position && a[j].frame == b[j].frame
  }

  lemma PerformedPrefix(log: seq<Mark>, after: seq<Mark>, frame: Frame, ok: bool)
    requires Performed(log, frame, ok) && log <= after
    ensures Performed(after, frame, ok)
  {
    var i :| 0 <= i < |log| && log[i].Ended? && log[i].frame == frame && log[i].ok == ok;
    assert after[i] == log[i];
  }

  lemma ConnSurvives(s: Sock, proc: Option<Proc>, x: Executor, y: Executor, k: nat)
    requires ConnOk(s, proc, x.jobs, x.log, k) && Fresh(s, proc, x.jobs, k)
    requires SameJobs(x.jobs, y.jobs) && x.log <= y.log
    ensures ConnOk(s, proc, y.jobs, y.log, k) && Fresh(s, proc, y.jobs, k)
  {
    forall i | 0 <= i < |s.replies| && s.replies[i].verdict.Ok? ensures Performed(y.log, s.sent[i], true) {
      PerformedPrefix(x.log, y.log, s.sent[i], true);
    }
    if proc.Some? && proc.value.Answering? && proc.value.verdict.Ok? {
      PerformedPrefix(x.log, y.log, s.sent[s.taken - 1], true);
    }
  }

  lemma ConnsSurvive(net: map<nat, Sock>, s: Service, x: Executor)
    requires ConnsInv(net, s) && SameJobs(s.x.jobs, x.jobs) && s.x.log <= x.log
    ensures ConnsInv(net, s.(x := x))
  {
    assert forall j | 0 <= j < |s.x.jobs| :: JobOnNet(net, s.x.jobs[j]);
    var t := s.(x := x);
    forall k | k in net
      ensures ConnOk(net[k], ProcAt(t, k), x.jobs, x.log, k) && Fresh(net[k], ProcAt(t, k), x.jobs, k)
    {
      ConnSurvives(net[k], ProcAt(s, k), s.x, x, k);
    }
  }

  /** What a finished `execute` sends is what the callback did. */
  lemma PollKeepsConns(setup: Setup, net: map<nat, Sock>, s: Service, k: nat, arrived: bool)
    requires ConnsInv(net, s) && ResponsesPerformed(s.x)
    ensures ConnsInv(net, Poll(setup, net, s, k, arrived))
  {
    var proc := ProcOf(s, k);
    if proc.Waiting? && proc.job < |s.x.jobs| && Poll(setup, net, s, k, arrived) != s {
      var x := Abandon(s.x, proc.job);
      ConnsSurvive(net, s, x);
      var t := s.(x := x);
      var next := Poll(setup, net, s, k, arrived).procs[k];
      assert ConnOk(net[k], ProcAt(t, k), x.jobs, x.log, k) && JobOnNet(net, s.x.jobs[proc.job]);
      ConnsMove(net, t, k, net[k], next, x.jobs);
      assert net[k := net[k]] == net && x.(jobs := x.jobs) == x;
    }
  }

  /** A job that passes the check was sent no earlier than any reset that has begun. */
  lemma PassedCheckIsClear(net: map<nat, Sock>, trace: seq<Event>, x: Executor, arrived: bool)
    requires WorkerInStep(x) && LogMatchesJobs(x) && JobsOnNet(net, x.jobs) && FramesOnRecord(net, trace) && Clearance(x)
    requires x.worker.Picked? && !Obsolete(net, x.jobs[x.worker.job], arrived)
    ensures Clearance(Check(x, false))
  {
    var job := x.jobs[x.worker.job];
    assert JobOnNet(net, job) && FrameOnRecord(net[job.sock].sent[job.position], job.sock, net, trace);
    forall i | 0 <= i < |x.log| && x.log[i].Began? && x.log[i].frame.kind.ResetKind?
      ensures job.frame.generation >= x.log[i].frame.generation
    {
      var reset := x.jobs[x.log[i].job];
      assert JobOnNet(net, reset);
      assert FrameOnRecord(net[reset.sock].sent[reset.position], reset.sock, net, trace);
    }
  }

  lemma CheckKeepsWork(y: System, arrived: bool, hasReset: bool)
    requires WorkInv(y.s.x, hasReset) && JobsOnNet(y.w.net, y.s.x.jobs) && FramesOnRecord(y.w.net, y.w.trace)
    ensures WorkInv(Check(y.s.x, WorkerGone(y, arrived)), hasReset)
  {
    CheckKeepsExecutor(y.s.x, WorkerGone(y, arrived), hasReset);
    if y.s.x.worker.Picked? && !WorkerGone(y, arrived) {
      PassedCheckIsClear(y.w.net, y.w.trace, y.s.x, arrived);
    }
  }

  lemma BeginKeepsBarrier(x: Executor, hasReset: bool)
    requires WorkerInStep(x) && Barrier(x.log) && Clearance(x)
    ensures var z := BeginWork(x, hasReset); Barrier(z.log) && Clearance(z)
  {
  }

  lemma EndKeepsBarrier(x: Executor, hasReset: bool, ok: bool)
    requires WorkerInStep(x) && Barrier(x.log) && Clearance(x)
    ensures var z := EndWork(x, hasReset, ok); Barrier(z.log) && Clearance(z)
  {
  }

  /** An affirmative reply means that the callback ran and succeeded. */
  lemma AnsweredHasRun(net: map<nat, Sock>, s: Service, kind: Kind, generation: nat, id: Option<nat>) returns (i: nat)
    requires ConnsOk(net, s) && Answered(net, kind, generation, id)
    ensures i < |s.x.log| && s.x.log[i].Ended? && s.x.log[i].ok
    ensures var f := s.x.log[i].frame; f.kind == kind && f.generation == generation && (id.Some? ==> f.id == id.value)
  {
    var k, n :| k in net && IsAnswer(net[k], n, kind, generation, id);
    assert ConnOk(net[k], ProcAt(s, k), s.x.jobs, s.x.log, k);
    i :| 0 <= i < |s.x.log| && s.x.log[i].Ended? && s.x.log[i].frame == net[k].sent[n] && s.x.log[i].ok;
  }

  /** Some acknowledged reset grounds this generation, and its callback has succeeded. */
  lemma GroundedHasRun(net: map<nat, Sock>, trace: seq<Event>, s: Service, generation: nat)
    requires ConnsOk(net, s) && EventsAnswered(trace, net) && Grounded(trace, generation)
    ensures exists i :: i < |s.x.log| && RunsAfter(trace, s.x.log, i, generation)
  {
    var basis: nat :| Grounds(trace, generation, basis);
    var a :| 0 <= a < |trace| && trace[a] == ResetAcknowledged(basis);
    assert EventAnswered(trace[a], net);
    var i := AnsweredHasRun(net, s, ResetKind, basis, None);
    assert RunsAfter(trace, s.x.log, i, generation);
  }

  lemma RunsExtend(trace: seq<Event>, log: seq<Mark>, m: Mark)
    requires RunsGrounded(trace, log)
    requires m.Began? && m.frame.kind.InferKind? ==>
               exists i :: i < |log| && RunsAfter(trace, log, i, m.frame.generation)
    ensures RunsGrounded(trace, log + [m])
  {
    var longer := log + [m];
    forall j | 0 <= j < |longer| && longer[j].Began? && longer[j].frame.kind.InferKind?
      ensures exists i :: i < j && RunsAfter(trace, longer, i, longer[j].frame.generation)
    {
      var i :| i < j && RunsAfter(trace, log, i, longer[j].frame.generation);
      assert RunsAfter(trace, longer, i, longer[j].frame.generation);
    }
  }

  /** An inference about to run runs after the reset it was sent under. */
  lemma BeginKeepsRuns(w: Wire, s: Service, hasReset: bool)
    requires OnRecord(w) && ConnsInv(w.net, s) && WorkerInStep(s.x) && RunsGrounded(w.trace, s.x.log)
    ensures RunsGrounded(w.trace, BeginWork(s.x, hasReset).log)
  {
    var x := s.x;
    if x.worker.Cleared? {
      var job := x.jobs[x.worker.job];
      assert JobOnNet(w.net, job);
      assert FrameOnRecord(w.net[job.sock].sent[job.position], job.sock, w.net, w.trace);
      if job.frame.kind.InferKind? {
        GroundedHasRun(w.net, w.trace, s, job.frame.generation);
      }
      RunsExtend(w.trace, x.log, Began(x.worker.job, job.frame));
    }
  }

  lemma EndKeepsRuns(trace: seq<Event>, x: Executor, hasReset: bool, ok: bool)
    requires RunsGrounded(trace, x.log) && WorkerInStep(x)
    ensures RunsGrounded(trace, EndWork(x, hasReset, ok).log)
  {
    if x.worker.Computing? {
      RunsExtend(trace, x.log, EndWork(x, hasReset, ok).log[|x.log|]);
    }
  }

  // ---------------------------------------------------------------- every step

  /** A step that adds at most a new job, or marks one. */
  predicate QueueOnly(x: Executor, z: Executor) {
    || z == x
    || (|z.jobs| == |x.jobs| + 1 && z == Enqueue(x, z.jobs[|x.jobs|]) && z.jobs[|x.jobs|].response.None?)
    || (exists j | 0 <= j < |x.jobs| :: z == Abandon(x, j))
  }

  lemma QueueKeepsWork(x: Executor, z: Executor, hasReset: bool)
    requires WorkInv(x, hasReset) && QueueOnly(x, z)
    ensures WorkInv(z, hasReset) && z.log == x.log
  {
    if z == x {
    } else if j :| 0 <= j < |x.jobs| && z == Abandon(x, j) {
      AbandonKeepsExecutor(x, j, hasReset);
    } else {
      EnqueueKeepsExecutor(x, z.jobs[|x.jobs|], hasReset);
    }
  }

  lemma ConnStepKeepsSysInv(setup: Setup, y: System, s: Service)
    requires SysInv(setup, y) && QueueOnly(y.s.x, s.x) && ConnsInv(y.w.net, s)
    ensures SysInv(setup, y.(s := s))
  {
    QueueKeepsWork(y.s.x, s.x, setup.hasReset);
  }

  lemma SocketStepKeepsSysInv(setup: Setup, y: System, k: nat, step: ServerStep, s: Service)
    requires SysInv(setup, y) && QueueOnly(y.s.x, s.x) && ConnsInv(OnSocket(y.w, k, step).net, s)
    ensures SysInv(setup, System(OnSocket(y.w, k, step), s))
  {
    QueueKeepsWork(y.s.x, s.x, setup.hasReset);
    ServerKeepsInv(y.w, k, step);
    ServerAdvances(y.w, k, step);
    OnRecordAdvances(y.w, OnSocket(y.w, k, step));
  }

  lemma WorkStepKeepsSysInv(setup: Setup, y: System, x: Executor)
    requires SysInv(setup, y) && WorkInv(x, setup.hasReset) && RunsGrounded(y.w.trace, x.log)
    requires SameJobs(y.s.x.jobs, x.jobs) && y.s.x.log <= x.log
    ensures SysInv(setup, OnExecutor(y, x))
  {
    ConnsSurvive(y.w.net, y.s, x);
  }

  lemma ProcessStepsQueue(setup: Setup, net: map<nat, Sock>, s: Service, k: nat, arrived: bool)
    ensures QueueOnly(s.x, Decide(setup, net, s, k).x)
    ensures QueueOnly(s.x, Poll(setup, net, s, k, arrived).x)
  {
  }

  lemma ConnectedKeepsSysInv(setup: Setup, y: System, k: nat)
    requires SysInv(setup, y) && k in y.w.net && k !in y.s.procs
    ensures SysInv(setup, y.(s := y.s.(procs := y.s.procs[k := Listening])))
  {
    ConnectedKeepsConns(y.w.net, y.s, k);
    ConnStepKeepsSysInv(setup, y, y.s.(procs := y.s.procs[k := Listening]));
  }

  lemma DecideKeepsSysInv(setup: Setup, y: System, k: nat)
    requires SysInv(setup, y)
    ensures SysInv(setup, y.(s := Decide(setup, y.w.net, y.s, k)))
  {
    DecideKeepsConns(setup, y.w.net, y.s, k);
    ProcessStepsQueue(setup, y.w.net, y.s, k, false);
    ConnStepKeepsSysInv(setup, y, Decide(setup, y.w.net, y.s, k));
  }

  lemma PollKeepsSysInv(setup: Setup, y: System, k: nat, arrived: bool)
    requires SysInv(setup, y)
    ensures SysInv(setup, y.(s := Poll(setup, y.w.net, y.s, k, arrived)))
  {
    PollKeepsConns(setup, y.w.net, y.s, k, arrived);
    ProcessStepsQueue(setup, y.w.net, y.s, k, arrived);
    ConnStepKeepsSysInv(setup, y, Poll(setup, y.w.net, y.s, k, arrived));
  }

  lemma HangUpKeepsSysInv(setup: Setup, y: System, k: nat)
    requires SysInv(setup, y) && k in y.s.procs
    ensures SysInv(setup, y.(s := y.s.(procs := y.s.procs[k := Closed])))
  {
    CloseProc(y.w.net, y.s, k);
    ConnStepKeepsSysInv(setup, y, y.s.(procs := y.s.procs[k := Closed]));
  }

  lemma ReadFrameKeepsSysInv(setup: Setup, y: System, k: nat)
    requires SysInv(setup, y) && MayRead(y, k)
    ensures var w := OnSocket(y.w, k, TakeFrame); SysInv(setup, System(w, Dispatch(w.net, y.s, k)))
  {
    ReadFrameKeepsConns(y, k);
    SocketStepKeepsSysInv(setup, y, k, TakeFrame, Dispatch(OnSocket(y.w, k, TakeFrame).net, y.s, k));
  }

  lemma SendReplyKeepsSysInv(setup: Setup, y: System, k: nat)
    requires SysInv(setup, y) && ProcOf(y.s, k).Answering? && k in y.w.net
    ensures SysInv(setup, System(OnSocket(y.w, k, Answer(ProcOf(y.s, k).verdict)),
                                 y.s.(procs := y.s.procs[k := Listening])))
  {
    SendReplyKeepsConns(y, k);
    SocketStepKeepsSysInv(setup, y, k, Answer(ProcOf(y.s, k).verdict), y.s.(procs := y.s.procs[k := Listening]));
  }

  lemma SeeCloseKeepsSysInv(setup: Setup, y: System, k: nat)
    requires SysInv(setup, y)
    ensures SysInv(setup, System(OnSocket(y.w, k, NoticeClose), y.s))
  {
    SeeCloseKeepsConns(y.w, y.s, k);
    SocketStepKeepsSysInv(setup, y, k, NoticeClose, y.s);
  }

  lemma WorkerMoves(x: Executor, gone: bool)
    ensures SameJobs(x.jobs, Pick(x).jobs) && Pick(x).log == x.log
    ensures SameJobs(x.jobs, Check(x, gone).jobs) && Check(x, gone).log == x.log
    ensures SameJobs(x.jobs, RpcServer.Settle(x, gone).jobs) && RpcServer.Settle(x, gone).log == x.log
  {
  }

  lemma QuietStepKeepsWork(x: Executor, hasReset: bool, gone: bool)
    requires WorkInv(x, hasReset)
    ensures WorkInv(Pick(x), hasReset) && WorkInv(RpcServer.Settle(x, gone), hasReset)
  {
    PickKeepsExecutor(x, hasReset);
    SettleKeepsExecutor(x, gone, hasReset);
  }

  lemma CallbackStepKeepsWork(x: Executor, hasReset: bool, ok: bool)
    requires WorkInv(x, hasReset)
    ensures WorkInv(BeginWork(x, hasReset), hasReset) && WorkInv(EndWork(x, hasReset, ok), hasReset)
  {
    BeginKeepsExecutor(x, hasReset);
    BeginKeepsBarrier(x, hasReset);
    EndKeepsExecutor(x, hasReset, ok);
    EndKeepsBarrier(x, hasReset, ok);
  }

  lemma PickKeepsSysInv(setup: Setup, y: System)
    requires SysInv(setup, y)
    ensures SysInv(setup, OnExecutor(y, Pick(y.s.x)))
  {
    WorkerMoves(y.s.x, false);
    QuietStepKeepsWork(y.s.x, setup.hasReset, false);
    WorkStepKeepsSysInv(setup, y, Pick(y.s.x));
  }

  lemma CheckKeepsSysInv(setup: Setup, y: System, arrived: bool)
    requires SysInv(setup, y)
    ensures SysInv(setup, OnExecutor(y, Check(y.s.x, WorkerGone(y, arrived))))
  {
    var gone := WorkerGone(y, arrived);
    WorkerMoves(y.s.x, gone);
    CheckKeepsWork(y, arrived, setup.hasReset);
    WorkStepKeepsSysInv(setup, y, Check(y.s.x, gone));
  }

  lemma SettleKeepsSysInv(setup: Setup, y: System, arrived: bool)
    requires SysInv(setup, y)
    ensures SysInv(setup, OnExecutor(y, RpcServer.Settle(y.s.x, WorkerGone(y, arrived))))
  {
    var gone := WorkerGone(y, arrived);
    WorkerMoves(y.s.x, gone);
    QuietStepKeepsWork(y.s.x, setup.hasReset, gone);
    WorkStepKeepsSysInv(setup, y, RpcServer.Settle(y.s.x, gone));
  }

  lemma BeginMoves(x: Executor, hasReset: bool)
    ensures var z := BeginWork(x, hasReset); SameJobs(x.jobs, z.jobs) && x.log <= z.log
  {
  }

  lemma EndMoves(x: Executor, hasReset: bool, ok: bool)
    ensures var z := EndWork(x, hasReset, ok); SameJobs(x.jobs, z.jobs) && x.log <= z.log
  {
  }

  lemma BeginKeepsSysInv(setup: Setup, y: System)
    requires SysInv(setup, y)
    ensures SysInv(setup, OnExecutor(y, BeginWork(y.s.x, setup.hasReset)))
  {
    var z := BeginWork(y.s.x, setup.hasReset);
    BeginMoves(y.s.x, setup.hasReset);
    CallbackStepKeepsWork(y.s.x, setup.hasReset, false);
    BeginKeepsRuns(y.w, y.s, setup.hasReset);
    WorkStepKeepsSysInv(setup, y, z);
  }

  lemma EndKeepsSysInv(setup: Setup, y: System, ok: bool)
    requires SysInv(setup, y)
    ensures SysInv(setup, OnExecutor(y, EndWork(y.s.x, setup.hasReset, ok)))
  {
    var z := EndWork(y.s.x, setup.hasReset, ok);
    EndMoves(y.s.x, setup.hasReset, ok);
    CallbackStepKeepsWork(y.s.x, setup.hasReset, ok);
    EndKeepsRuns(y.w.trace, y.s.x, setup.hasReset, ok);
    WorkStepKeepsSysInv(setup, y, z);
  }

  lemma NetworkStepKeepsSysInv(setup: Setup, y: System, step: SysStep)
    requires SysInv(setup, y) && (step.Client? || step.Connected? || step.ReadFrame? || step.SendReply?)
    ensures SysInv(setup, SysNext(setup, y, step))
  {
    match step
    case Client(client) =>
      if !client.Server? {
        ClientKeepsSysInv(setup, y, client);
      }
    case Connected(k) =>
      if k in y.w.net && k !in y.s.procs {
        ConnectedKeepsSysInv(setup, y, k);
      }
    case ReadFrame(k) =>
      if MayRead(y, k) {
        ReadFrameKeepsSysInv(setup, y, k);
      }
    case SendReply(k) =>
      if ProcOf(y.s, k).Answering? && k in y.w.net {
        SendReplyKeepsSysInv(setup, y, k);
      }
  }

  lemma StepKeepsSysInv(setup: Setup, y: System, step: SysStep)
    requires SysInv(setup, y)
    ensures SysInv(setup, SysNext(setup, y, step))
  {
    match step
    case Client(_) => NetworkStepKeepsSysInv(setup, y, step);
    case Connected(_) => NetworkStepKeepsSysInv(setup, y, step);
    case ReadFrame(_) => NetworkStepKeepsSysInv(setup, y, step);
    case SendReply(_) => NetworkStepKeepsSysInv(setup, y, step);
    case HangUp(k) =>
      if k in y.s.procs {
        HangUpKeepsSysInv(setup, y, k);
      }
    case SeeClose(k) => SeeCloseKeepsSysInv(setup, y, k);
    case DoDecide(k) => DecideKeepsSysInv(setup, y, k);
    case DoPoll(k, arrived) => PollKeepsSysInv(setup, y, k, arrived);
    case DoPick => PickKeepsSysInv(setup, y);
    case DoCheck(arrived) => CheckKeepsSysInv(setup, y, arrived);
    case DoBegin => BeginKeepsSysInv(setup, y);
    case DoEnd(ok) => EndKeepsSysInv(setup, y, ok);
    case DoSettle(arrived) => SettleKeepsSysInv(setup, y, arrived);
  }

  lemma {:induction false} SysRunKeepsInv(setup: Setup, y: System, schedule: seq<SysStep>)
    requires SysInv(setup, y)
    ensures SysInv(setup, SysRun(setup, y, schedule))
    decreases |schedule|
  {
    if schedule != [] {
      StepKeepsSysInv(setup, y, schedule[0]);
      SysRunKeepsInv(setup, SysNext(setup, y, schedule[0]), schedule[1..]);
    }
  }
}
