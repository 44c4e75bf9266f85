/** A reset and an inference that go through: every block from the frame's sending to the
    reply's acceptance. */
module RpcTrips {
  import opened Common
  import opened RpcWire
  import opened RpcServer

  const SETUP: Setup := Setup(Faults(0, 0, 0), true)

  // ---------------------------------------------------------------- schedules in parts

  lemma {:induction false} SysRunSplits(y: System, a: seq<SysStep>, b: seq<SysStep>)
    ensures SysRun(SETUP, y, a + b) == SysRun(SETUP, SysRun(SETUP, y, a), b)
    decreases |a|
  {
    if a == [] {
      assert a + b == b;
    } else {
      assert (a + b)[0] == a[0] && (a + b)[1..] == a[1..] + b;
      SysRunSplits(SysNext(SETUP, y, a[0]), a[1..], b);
    }
  }

  lemma SysRunTwo(y: System, a: SysStep, b: SysStep)
    ensures SysRun(SETUP, y, [a, b]) == SysNext(SETUP, SysNext(SETUP, y, a), b)
  {
    var y1 := SysNext(SETUP, y, a);
    assert [a, b][1..] == [b];
    assert SysRun(SETUP, y1, [b]) == SysRun(SETUP, SysNext(SETUP, y1, b), []);
  }

  lemma SysRunThree(y: System, a: SysStep, b: SysStep, d: SysStep)
    ensures SysRun(SETUP, y, [a, b, d]) == SysNext(SETUP, SysNext(SETUP, SysNext(SETUP, y, a), b), d)
  {
    assert [a, b, d][1..] == [b, d];
    SysRunTwo(SysNext(SETUP, y, a), b, d);
  }

  lemma SysRunFour(y: System, a: SysStep, b: SysStep, d: SysStep, e: SysStep)
    ensures SysRun(SETUP, y, [a, b, d, e]) ==
            SysNext(SETUP, SysNext(SETUP, SysNext(SETUP, SysNext(SETUP, y, a), b), d), e)
  {
    assert [a, b, d, e][1..] == [b, d, e];
    SysRunThree(SysNext(SETUP, y, a), b, d, e);
  }

  // ---------------------------------------------------------------- one frame, there and back

  function Block(t: nat, call: CallStep): SysStep {
    Client(Call(t, call))
  }

  /** Call `t` has sent its frame on the new connection `k`. */
  predicate Sent(y: System, t: nat, kind: Kind, k: nat) {
    var w := y.w;
    && t in w.calls && w.lock == Some(t) && k in w.net
    && w.calls[t].Receiving? && w.calls[t].kind == kind && w.calls[t].sock == k
    && w.calls[t].generation == w.c.generation
    && k !in y.s.procs && y.s.x.worker.Idle? && y.s.x.picked == |y.s.x.jobs|
    && var s := w.net[k];
       && |s.sent| == 1 && s.sent[0].id == w.calls[t].id && s.sent[0].kind == kind
       && (kind.ResetKind? ==> s.sent[0].closedBefore == {})
       && s.taken == 0 && s.replies == [] && s.received == 0 && !s.closed && !s.visible
  }

  /** Call `t` holds the request lock and is about to open a connection. */
  predicate Opens(y: System, t: nat, kind: Kind) {
    && t in y.w.calls && y.w.calls[t] == Connecting(kind, y.w.c.generation) && y.w.lock == Some(t)
    && y.w.c.socket.None? && y.s.x.worker.Idle? && y.s.x.picked == |y.s.x.jobs|
  }

  function Sending(t: nat, k: nat): seq<SysStep> {
    [Block(t, DoConnect(k, None)), Block(t, DoSend(None))]
  }

  /** Its connection is published and its frame not sent yet. */
  predicate IsOpen(y: System, t: nat, kind: Kind, k: nat) {
    && t in y.w.calls && y.w.calls[t] == Pc.Sending(kind, y.w.c.generation, k) && y.w.lock == Some(t)
    && k in y.w.net && y.w.net[k] == Sock(y.w.c.generation, [], 0, [], 0, false, false)
    && y.s.x.worker.Idle? && y.s.x.picked == |y.s.x.jobs|
  }

  lemma SocketIsOpened(y: System, t: nat, kind: Kind, k: nat)
    requires Opens(y, t, kind) && k !in y.w.net
    ensures var z := SysNext(SETUP, y, Block(t, DoConnect(k, None)));
            && IsOpen(z, t, kind, k) && z.w.trace == y.w.trace && z.w.c == y.w.c.(socket := Some(k)) && z.s == y.s
            && z.w.net.Keys == y.w.net.Keys + {k} && z.w.calls.Keys == y.w.calls.Keys
  {
  }

  lemma FrameIsSent(y: System, t: nat, kind: Kind, k: nat)
    requires IsOpen(y, t, kind, k) && k !in y.s.procs && (kind.ResetKind? ==> y.w.net.Keys == {k})
    ensures var z := SysNext(SETUP, y, Block(t, DoSend(None)));
            && Sent(z, t, kind, k) && z.w.trace == y.w.trace && z.w.c == y.w.c && z.s == y.s
            && z.w.net.Keys == y.w.net.Keys && z.w.calls.Keys == y.w.calls.Keys
  {
  }

  lemma OpenedIsSent(y: System, t: nat, kind: Kind, k: nat)
    requires Opens(y, t, kind) && k !in y.w.net && k !in y.s.procs && (kind.ResetKind? ==> y.w.net == map[])
    ensures var z := SysRun(SETUP, y, Sending(t, k));
            && Sent(z, t, kind, k) && z.w.trace == y.w.trace && z.w.c == y.w.c.(socket := Some(k)) && z.s == y.s
            && z.w.net.Keys == y.w.net.Keys + {k} && z.w.calls.Keys == y.w.calls.Keys
  {
    SysRunTwo(y, Sending(t, k)[0], Sending(t, k)[1]);
    SocketIsOpened(y, t, kind, k);
    FrameIsSent(SysNext(SETUP, y, Sending(t, k)[0]), t, kind, k);
  }

  function LockingReset(t: nat): seq<SysStep> {
    [Block(t, DoLockReset(true)), Block(t, DoFindSocket(None))]
  }

  lemma ResetIsLocked(y: System, t: nat)
    requires t in y.w.calls && y.w.calls[t] == ResetWaiting(y.w.c.generation) && y.w.lock.None?
    requires y.w.c.socket.None? && y.s.x.worker.Idle? && y.s.x.picked == |y.s.x.jobs|
    ensures var z := SysRun(SETUP, y, LockingReset(t));
            && Opens(z, t, ResetKind) && z.w.trace == y.w.trace && z.w.c == y.w.c && z.s == y.s
            && z.w.net == y.w.net && z.w.calls.Keys == y.w.calls.Keys
  {
    SysRunTwo(y, LockingReset(t)[0], LockingReset(t)[1]);
  }

  function SendingReset(t: nat, k: nat): seq<SysStep> {
    LockingReset(t) + Sending(t, k)
  }

  lemma ResetIsSent(y: System, t: nat, k: nat)
    requires t in y.w.calls && y.w.calls[t] == ResetWaiting(y.w.c.generation) && y.w.lock.None?
    requires y.w.c.socket.None? && y.w.net == map[]
    requires k !in y.s.procs && y.s.x.worker.Idle? && y.s.x.picked == |y.s.x.jobs|
    ensures var z := SysRun(SETUP, y, SendingReset(t, k));
            && Sent(z, t, ResetKind, k) && z.w.trace == y.w.trace && z.w.c == y.w.c.(socket := Some(k)) && z.s == y.s
            && z.w.net.Keys == {k} && z.w.calls.Keys == y.w.calls.Keys
  {
    SysRunSplits(y, LockingReset(t), Sending(t, k));
    ResetIsLocked(y, t);
    OpenedIsSent(SysRun(SETUP, y, LockingReset(t)), t, ResetKind, k);
  }

  function SendingInference(t: nat, k: nat): seq<SysStep> {
    [Block(t, DoAdmitInfer), Block(t, DoFindSocket(None))] + Sending(t, k)
  }

  lemma InferenceIsSent(y: System, t: nat, k: nat)
    requires t in y.w.calls && y.w.calls[t] == InferWaiting(y.w.c.generation) && y.w.lock.None?
    requires y.w.c.socket.None? && k !in y.w.net && !y.w.c.resetRequired
    requires k !in y.s.procs && y.s.x.worker.Idle? && y.s.x.picked == |y.s.x.jobs|
    ensures var z := SysRun(SETUP, y, SendingInference(t, k));
            Sent(z, t, InferKind, k) && z.w.trace == y.w.trace + [Admitted(t)] && z.s == y.s
  {
    var a := [Block(t, DoAdmitInfer), Block(t, DoFindSocket(None))];
    SysRunSplits(y, a, Sending(t, k));
    SysRunTwo(y, a[0], a[1]);
    OpenedIsSent(SysRun(SETUP, y, a), t, InferKind, k);
  }

  /** The server has queued the frame of connection `k` as its newest job. */
  predicate Queued(y: System, k: nat, frame: Frame) {
    && k in y.w.net && |y.s.x.jobs| > 0 && ProcOf(y.s, k) == Waiting(|y.s.x.jobs| - 1)
    && y.w.net[k].sent == [frame] && y.w.net[k].taken == 1 && y.w.net[k].replies == [] && !y.w.net[k].visible
    && var job := y.s.x.jobs[|y.s.x.jobs| - 1];
       job.sock == k && job.frame == frame && !job.obsolete
  }

  lemma FrameIsQueued(y: System, t: nat, kind: Kind, k: nat)
    requires Sent(y, t, kind, k)
    ensures var z := SysRun(SETUP, y, [Connected(k), ReadFrame(k), DoDecide(k)]);
            && Queued(z, k, y.w.net[k].sent[0]) && z.s.procs.Keys == y.s.procs.Keys + {k}
            && z.w == y.w.(net := y.w.net[k := y.w.net[k].(taken := 1)])
            && z.s.x.worker.Idle? && z.s.x.picked == |z.s.x.jobs| - 1
  {
    SysRunThree(y, Connected(k), ReadFrame(k), DoDecide(k));
  }

  lemma FrameIsServed(y: System, k: nat, frame: Frame)
    requires Queued(y, k, frame) && y.s.x.worker.Idle? && y.s.x.picked == |y.s.x.jobs| - 1
    ensures var z := SysRun(SETUP, y, [DoPick, DoCheck(false), DoBegin, DoEnd(true)]);
            var v := SysNext(SETUP, z, DoSettle(false));
            && Queued(v, k, frame) && v.w == y.w && v.s.procs == y.s.procs
            && v.s.x.worker.Idle? && v.s.x.picked == |v.s.x.jobs|
            && v.s.x.jobs[|v.s.x.jobs| - 1].done && v.s.x.jobs[|v.s.x.jobs| - 1].response == Some(Ok)
  {
    SysRunFour(y, DoPick, DoCheck(false), DoBegin, DoEnd(true));
  }

  lemma FrameIsAnswered(y: System, k: nat, frame: Frame)
    requires Queued(y, k, frame) && y.s.x.jobs[|y.s.x.jobs| - 1].done
    requires y.s.x.jobs[|y.s.x.jobs| - 1].response == Some(Ok)
    ensures var z := SysNext(SETUP, SysNext(SETUP, y, DoPoll(k, false)), SendReply(k));
            && z.w == y.w.(net := y.w.net[k := y.w.net[k].(replies := [Reply(frame.id, Ok)])])
            && z.s.procs == y.s.procs[k := Listening]
            && z.s.x.worker == y.s.x.worker && z.s.x.picked == y.s.x.picked && |z.s.x.jobs| == |y.s.x.jobs|
  {
    var s := y.w.net[k];
    assert s.replies + [Reply(s.sent[|s.replies|].id, Ok)] == [Reply(frame.id, Ok)];
  }

  function Serving(k: nat): seq<SysStep> {
    [DoPick, DoCheck(false), DoBegin, DoEnd(true)] + [DoSettle(false), DoPoll(k, false), SendReply(k)]
  }

  lemma QueuedIsAnswered(y: System, k: nat, frame: Frame)
    requires Queued(y, k, frame) && y.s.x.worker.Idle? && y.s.x.picked == |y.s.x.jobs| - 1
    ensures var z := SysRun(SETUP, y, Serving(k));
            && z.w == y.w.(net := y.w.net[k := y.w.net[k].(replies := [Reply(frame.id, Ok)])])
            && z.s.procs == y.s.procs[k := Listening]
            && z.s.x.worker.Idle? && z.s.x.picked == |z.s.x.jobs|
  {
    var b := [DoPick, DoCheck(false), DoBegin, DoEnd(true)];
    SysRunSplits(y, b, [DoSettle(false), DoPoll(k, false), SendReply(k)]);
    var z := SysRun(SETUP, y, b);
    FrameIsServed(y, k, frame);
    SysRunThree(z, DoSettle(false), DoPoll(k, false), SendReply(k));
    FrameIsAnswered(SysNext(SETUP, z, DoSettle(false)), k, frame);
  }

  /** The server reads the frame, runs its callback and replies. */
  function Answering(k: nat): seq<SysStep> {
    [Connected(k), ReadFrame(k), DoDecide(k)] + Serving(k)
  }

  /** The reply to the frame of call `t` has arrived. */
  predicate Replied(w: Wire, t: nat, kind: Kind, k: nat) {
    && t in w.calls && w.lock == Some(t) && k in w.net
    && w.calls[t].Receiving? && w.calls[t].kind == kind && w.calls[t].sock == k
    && w.calls[t].generation == w.c.generation
    && w.net[k].replies == [Reply(w.calls[t].id, Ok)] && w.net[k].received == 0
  }

  lemma SentIsReplied(y: System, t: nat, kind: Kind, k: nat)
    requires Sent(y, t, kind, k)
    ensures var z := SysRun(SETUP, y, Answering(k));
            && Replied(z.w, t, kind, k) && z.w == y.w.(net := z.w.net) && z.w.net.Keys == y.w.net.Keys
            && z.s.procs.Keys == y.s.procs.Keys + {k}
            && z.s.x.worker.Idle? && z.s.x.picked == |z.s.x.jobs|
  {
    var a := [Connected(k), ReadFrame(k), DoDecide(k)];
    SysRunSplits(y, a, Serving(k));
    FrameIsQueued(y, t, kind, k);
    QueuedIsAnswered(SysRun(SETUP, y, a), k, y.w.net[k].sent[0]);
  }

  function TakingAcknowledgement(t: nat): seq<SysStep> {
    [Block(t, DoReceive(None)), Block(t, DoJudge(false, false)), Block(t, DoSucceedReset)]
  }

  lemma ResetIsAcknowledged(y: System, t: nat, k: nat)
    requires Replied(y.w, t, ResetKind, k)
    ensures var z := SysRun(SETUP, y, TakingAcknowledgement(t));
            && z.w.calls == y.w.calls[t := Done] && z.w.lock.None? && z.s == y.s && z.w.net.Keys == y.w.net.Keys
            && z.w.c.generation == y.w.c.generation && !z.w.c.resetRequired
            && z.w.trace == y.w.trace + [ResetAcknowledged(y.w.c.generation)]
  {
    var a := TakingAcknowledgement(t);
    SysRunThree(y, a[0], a[1], a[2]);
  }

  function Taking(t: nat): seq<SysStep> {
    [Block(t, DoReceive(None)), Block(t, DoJudge(false, false))]
  }

  lemma ReplyIsTaken(y: System, t: nat, k: nat)
    requires Replied(y.w, t, InferKind, k)
    ensures var w := SysRun(SETUP, y, Taking(t)).w;
            && w.calls == y.w.calls[t := Accepting(y.w.c.generation, y.w.calls[t].id)]
            && w.c == y.w.c && w.trace == y.w.trace
  {
    SysRunTwo(y, Taking(t)[0], Taking(t)[1]);
  }

  function Keeping(t: nat): seq<SysStep> {
    [Block(t, DoAccept(false)), Block(t, DoFinish)]
  }

  lemma TakenIsKept(y: System, t: nat, id: nat)
    requires t in y.w.calls && y.w.calls[t] == Accepting(y.w.c.generation, id)
    ensures var w := SysRun(SETUP, y, Keeping(t)).w;
            && w.calls == y.w.calls[t := Done] && |w.trace| == |y.w.trace| + 1
            && w.trace[|y.w.trace|].Accepted? && w.trace[|y.w.trace|].call == t
  {
    SysRunTwo(y, Keeping(t)[0], Keeping(t)[1]);
  }

  function TakingResult(t: nat): seq<SysStep> {
    Taking(t) + Keeping(t)
  }

  lemma ResultIsAccepted(y: System, t: nat, k: nat)
    requires Replied(y.w, t, InferKind, k)
    ensures var w := SysRun(SETUP, y, TakingResult(t)).w;
            && w.calls == y.w.calls[t := Done] && |w.trace| == |y.w.trace| + 1
            && w.trace[|y.w.trace|].Accepted? && w.trace[|y.w.trace|].call == t
  {
    ReplyIsTaken(y, t, k);
    SysRunSplits(y, Taking(t), Keeping(t));
    TakenIsKept(SysRun(SETUP, y, Taking(t)), t, y.w.calls[t].id);
  }

  /** The server is at rest and nobody holds the request lock. */
  predicate AtRest(y: System) {
    y.w.lock.None? && y.s.x.worker.Idle? && y.s.x.picked == |y.s.x.jobs|
  }

  function ResetTrip(t: nat, k: nat): seq<SysStep> {
    SendingReset(t, k) + (Answering(k) + TakingAcknowledgement(t))
  }

  lemma ResetReturns(y: System, t: nat, k: nat)
    requires AtRest(y) && t in y.w.calls && y.w.calls[t] == ResetWaiting(y.w.c.generation)
    requires y.w.c.socket.None? && y.w.net == map[] && k !in y.s.procs
    ensures var z := SysRun(SETUP, y, ResetTrip(t, k));
            && AtRest(z) && PcOf(z.w, t).Done? && z.w.calls.Keys == y.w.calls.Keys
            && !z.w.c.resetRequired && z.w.c.generation == y.w.c.generation
            && z.w.net.Keys == {k} && z.s.procs.Keys == y.s.procs.Keys + {k}
            && z.w.trace == y.w.trace + [ResetAcknowledged(y.w.c.generation)]
  {
    var y1 := SysRun(SETUP, y, SendingReset(t, k));
    ResetIsSent(y, t, k);
    SentIsReplied(y1, t, ResetKind, k);
    ResetIsAcknowledged(SysRun(SETUP, y1, Answering(k)), t, k);
    SysRunSplits(y, SendingReset(t, k), Answering(k) + TakingAcknowledgement(t));
    SysRunSplits(y1, Answering(k), TakingAcknowledgement(t));
  }

  function InferenceTrip(t: nat, k: nat): seq<SysStep> {
    SendingInference(t, k) + (Answering(k) + TakingResult(t))
  }

  lemma InferenceReturns(y: System, t: nat, k: nat) returns (a: nat)
    requires AtRest(y) && t in y.w.calls && y.w.calls[t] == InferWaiting(y.w.c.generation)
    requires y.w.c.socket.None? && !y.w.c.resetRequired && k !in y.w.net && k !in y.s.procs
    ensures var w := SysRun(SETUP, y, InferenceTrip(t, k)).w;
            PcOf(w, t).Done? && a < |w.trace| && w.trace[a].Accepted? && w.trace[a].call == t
  {
    var y1 := SysRun(SETUP, y, SendingInference(t, k));
    InferenceIsSent(y, t, k);
    SentIsReplied(y1, t, InferKind, k);
    var y2 := SysRun(SETUP, y1, Answering(k));
    ResultIsAccepted(y2, t, k);
    SysRunSplits(y, SendingInference(t, k), Answering(k) + TakingResult(t));
    SysRunSplits(y1, Answering(k), TakingResult(t));
    a := |y2.w.trace|;
  }

  // ---------------------------------------------------------------- a client that has gone

  /** The process of connection `k` waits for job `j`, not yet taken, whose client closed. */
  predicate Deserted(y: System, k: nat, j: nat) {
    && k in y.w.net && y.w.net[k].closed && ProcOf(y.s, k) == Waiting(j) && k in y.s.procs
    && j < |y.s.x.jobs| && y.s.x.jobs[j].sock == k && !y.s.x.jobs[j].done
    && y.s.x.worker.Idle? && y.s.x.picked == j
  }

  /** Once the close can be seen, the process gives its job up. */
  lemma DesertedIsAbandoned(setup: Setup, y: System, k: nat, j: nat)
    requires Deserted(y, k, j)
    ensures var z := SysNext(setup, SysNext(setup, y, SeeClose(k)), DoPoll(k, false));
            && z.w.net[k].visible && ProcOf(z.s, k) == Closed && z.s.x.jobs[j].obsolete && !z.s.x.jobs[j].done
            && z.s.x.worker.Idle? && z.s.x.picked == j && |z.s.x.jobs| == |y.s.x.jobs|
            && z.s.x.log == y.s.x.log && z.s.x.counters == y.s.x.counters
  {
  }

  /** The worker drops it, counted once and with nothing computed for it. */
  lemma AbandonedIsDropped(setup: Setup, y: System, j: nat)
    requires y.s.x.worker.Idle? && y.s.x.picked == j < |y.s.x.jobs| && y.s.x.jobs[j].obsolete
    ensures var z := SysNext(setup, SysNext(setup, y, DoPick), DoCheck(false));
            && z.s.x.worker.Idle? && z.s.x.picked == j + 1 && z.s.x.jobs[j].done
            && z.s.x.log == y.s.x.log
            && z.s.x.counters == y.s.x.counters.(dropped := y.s.x.counters.dropped + 1)
  {
  }

  /** So nothing is computed for a client that has gone before its turn. */
  lemma DesertedIsDropped(setup: Setup, y: System, k: nat, j: nat)
    requires Deserted(y, k, j)
    ensures var z := SysNext(setup, SysNext(setup, SysNext(setup, SysNext(setup, y, SeeClose(k)), DoPoll(k, false)), DoPick),
                             DoCheck(false));
            && ProcOf(z.s, k) == Closed && z.s.x.picked == j + 1 && z.s.x.log == y.s.x.log
            && z.s.x.counters == y.s.x.counters.(dropped := y.s.x.counters.dropped + 1)
  {
    DesertedIsAbandoned(setup, y, k, j);
    AbandonedIsDropped(setup, SysNext(setup, SysNext(setup, y, SeeClose(k)), DoPoll(k, false)), j);
  }
}
