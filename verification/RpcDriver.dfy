/** Client object, executor object and network under any schedule: the objects together
    move as the specification does, so what is proved of its runs holds of them. */
module RpcDriver {
  import opened Common
  import opened RpcClientState
  import opened RpcWire
  import opened RpcInvariant
  import opened RpcServer
  import opened RpcService
  import opened RpcClient
  import opened RpcExecutor
  import RpcEndToEnd

  /** One block of one call. */
  function Called(y: System, t: nat, step: CallStep): System {
    y.(w := CallNext(y.w, t, step))
  }

  class RpcSystem {
    const setup: Setup
    const client: TcpInferenceTransport
    const executor: SingleOwnerExecutor

    var lock: Option<nat>
    var calls: map<nat, Pc>
    var admitted: map<nat, nat>
    var net: map<nat, Sock>
    var trace: seq<Event>
    var nextFrame: nat

    var procs: map<nat, Proc>
    var nextOrdinal: nat

    function WireWith(c: Client): Wire
      reads this
    {
      Wire(c, lock, calls, admitted, net, trace, nextFrame)
    }

    function View(): System
      reads this, client, executor
    {
      System(WireWith(client.View()), Service(procs, nextOrdinal, executor.View()))
    }

    constructor (setup: Setup)
      ensures this.setup == setup && executor.hasReset == setup.hasReset
      ensures View() == NEW_SYSTEM && fresh(client) && fresh(executor)
    {
      this.setup := setup;
      client := new TcpInferenceTransport();
      executor := new SingleOwnerExecutor(setup.hasReset);
      lock, calls, admitted, net, trace, nextFrame := None, map[], map[], map[], [], 0;
      procs, nextOrdinal := map[], 1;
    }

    function At(t: nat): Pc
      reads this
    {
      if t in calls then calls[t] else Done
    }

    // -------------------------------------------------------------- client calls

    /** The end of a block of call `t`: its new place, what it did to the network and
        what the trace says of it. `was` is the client before the block. */
    method Carry(t: nat, pc: Pc, event: Option<Event>, io: Io, was: Client)
      modifies this`lock, this`calls, this`admitted, this`net, this`trace, this`nextFrame
      ensures WireWith(client.View()) == RpcWire.Perform(old(WireWith(was)), t, Effect(client.View(), pc, event, io))
    {
      if Holds(pc) {
        lock := Some(t);
      } else if lock == Some(t) {
        lock := None;
      }
      calls := calls[t := pc];
      if event == Some(Admitted(t)) {
        admitted := admitted[t := |trace|];
      }
      net := Exchange(DropSocket(net, was.socket, client.socket), io, client.generation, nextFrame);
      if event.Some? {
        trace := trace + [event.value];
      }
      if io.Transmit? {
        nextFrame := nextFrame + 1;
      }
    }

    /** A block that touches neither client nor network. */
    method MoveTo(t: nat, pc: Pc)
      modifies this
      ensures View() == old(View()).(w := RpcWire.Perform(old(View()).w, t, Effect(client.View(), pc, None, NoIo)))
    {
      Carry(t, pc, None, NoIo, client.View());
    }

    method InferEnter(t: nat)
      modifies this
      ensures View() == Called(old(View()), t, DoEnterInfer)
    {
      if t !in calls && !client.resetRequired {
        MoveTo(t, InferWaiting(client.generation));
      }
    }

    method InferAdmit(t: nat)
      modifies this, client
      ensures View() == Called(old(View()), t, DoAdmitInfer)
    {
      var pc := At(t);
      if pc.InferWaiting? && lock.None? {
        var was := client.View();
        var open := client.Admit(pc.generation);
        if open {
          Carry(t, Holding(InferKind, pc.generation), Some(Admitted(t)), NoIo, was);
        } else {
          MoveTo(t, Done);
        }
      }
    }

    method ResetEnter(t: nat)
      modifies this, client
      ensures View() == Called(old(View()), t, DoBeginReset)
    {
      if t !in calls {
        var was := client.View();
        var g := client.BeginReset();
        Carry(t, ResetWaiting(g), Some(ResetBegun(g)), NoIo, was);
      }
    }

    method ResetLock(t: nat, inTime: bool)
      modifies this
      ensures View() == Called(old(View()), t, DoLockReset(inTime))
    {
      var pc := At(t);
      if pc.ResetWaiting? {
        if !inTime {
          MoveTo(t, ResetBroken(pc.generation));
        } else if lock.None? {
          MoveTo(t, Holding(ResetKind, pc.generation));
        }
      }
    }

    method FindSocket(t: nat, how: Option<Failure>)
      modifies this
      ensures View() == Called(old(View()), t, DoFindSocket(how))
    {
      var pc := At(t);
      if pc.Holding? {
        if how == Some(DeadlineHit) || how == Some(WasCancelled) {
          MoveTo(t, Break(pc.kind, pc.generation, how.value));
        } else if pc.generation != client.generation {
          MoveTo(t, Break(pc.kind, pc.generation, WasCancelled));
        } else if client.socket.Some? {
          MoveTo(t, Sending(pc.kind, pc.generation, client.socket.value));
        } else {
          MoveTo(t, Connecting(pc.kind, pc.generation));
        }
      }
    }

    method Connect(t: nat, k: nat, how: Option<Failure>)
      modifies this, client
      ensures View() == Called(old(View()), t, DoConnect(k, how))
    {
      var pc := At(t);
      if pc.Connecting? && k !in net {
        if how == Some(DeadlineHit) || how == Some(IoError) {
          MoveTo(t, Break(pc.kind, pc.generation, how.value));
          return;
        }
        var was := client.View();
        var sock := client.PublishSocket(pc.generation, k);
        if sock.None? {
          MoveTo(t, Break(pc.kind, pc.generation, WasCancelled));
        } else {
          Carry(t, Sending(pc.kind, pc.generation, sock.value), None, if was.socket.None? then Publish(k) else NoIo, was);
        }
      }
    }

    method Send(t: nat, how: Option<Failure>)
      modifies this
      ensures View() == Called(old(View()), t, DoSend(how))
    {
      var pc := At(t);
      if pc.Sending? && pc.sock in net {
        if how == Some(Escaped) {
          MoveTo(t, Break(pc.kind, pc.generation, Escaped));
        } else if net[pc.sock].closed {
          MoveTo(t, Break(pc.kind, pc.generation, IoError));
        } else {
          var next := if how == Some(DeadlineHit) || how == Some(IoError) || how == Some(WasCancelled) then
                        Break(pc.kind, pc.generation, how.value)
                      else Receiving(pc.kind, pc.generation, pc.sock, nextFrame);
          Carry(t, next, None, Transmit(pc.sock, pc.kind), client.View());
        }
      }
    }

    method Receive(t: nat, how: Option<Failure>)
      modifies this
      ensures View() == Called(old(View()), t, DoReceive(how))
    {
      var pc := At(t);
      if pc.Receiving? && pc.sock in net {
        if how == Some(DeadlineHit) || how == Some(IoError) {
          MoveTo(t, Break(pc.kind, pc.generation, how.value));
        } else if net[pc.sock].received < |net[pc.sock].replies| {
          var reply := net[pc.sock].replies[net[pc.sock].received];
          Carry(t, Judging(pc.kind, pc.generation, pc.id, reply), None, ReadReply(pc.sock), client.View());
        }
      }
    }

    method Judge(t: nat, late: bool, escapes: bool)
      modifies this
      ensures View() == Called(old(View()), t, DoJudge(late, escapes))
    {
      var pc := At(t);
      if pc.Judging? {
        if late {
          MoveTo(t, Break(pc.kind, pc.generation, DeadlineHit));
        } else if escapes {
          MoveTo(t, Break(pc.kind, pc.generation, Escaped));
        } else if pc.generation != client.generation {
          MoveTo(t, Break(pc.kind, pc.generation, WasCancelled));
        } else if pc.reply.id != pc.id || pc.reply.verdict.Garbled? {
          MoveTo(t, Break(pc.kind, pc.generation, BadReply));
        } else if pc.reply.verdict.Refused? {
          MoveTo(t, Break(pc.kind, pc.generation, ServerError));
        } else if pc.kind.InferKind? {
          MoveTo(t, Accepting(pc.generation, pc.id));
        } else {
          MoveTo(t, ResetAcked(pc.generation));
        }
      }
    }

    method Accept(t: nat, eventSet: bool)
      modifies this, client
      ensures View() == Called(old(View()), t, DoAccept(eventSet))
    {
      var pc := At(t);
      if pc.Accepting? {
        var was := client.View();
        var accepted := client.Accept(pc.generation, eventSet);
        if accepted {
          var since := if t in admitted then admitted[t] else 0;
          Carry(t, Leaving(Success), Some(Accepted(t, since, pc.generation, pc.id)), NoIo, was);
        } else {
          MoveTo(t, Broken(pc.generation, WasCancelled));
        }
      }
    }

    method Recover(t: nat)
      modifies this, client
      ensures View() == Called(old(View()), t, DoHandle)
    {
      var pc := At(t);
      if pc.Broken? {
        var was := client.View();
        var outcome := client.HandleFailure(pc.generation, pc.how);
        Carry(t, Leaving(outcome), if client.generation != was.generation then Some(Invalidated) else None, NoIo, was);
      }
    }

    method Finish(t: nat)
      modifies this, client
      ensures View() == Called(old(View()), t, DoFinish)
    {
      var pc := At(t);
      if pc.Leaving? {
        var was := client.View();
        client.Leave(pc.outcome);
        Carry(t, Done, None, NoIo, was);
      }
    }

    method ResetSucceeds(t: nat)
      modifies this, client
      ensures View() == Called(old(View()), t, DoSucceedReset)
    {
      var pc := At(t);
      if pc.ResetAcked? {
        var was := client.View();
        var ok := client.FinishReset(pc.generation);
        if ok {
          Carry(t, Done, Some(ResetAcknowledged(pc.generation)), NoIo, was);
        } else {
          MoveTo(t, ResetBroken(pc.generation));
        }
      }
    }

    method ResetFails(t: nat)
      modifies this, client
      ensures View() == Called(old(View()), t, DoFailReset)
    {
      var pc := At(t);
      if pc.ResetBroken? {
        var was := client.View();
        client.FailReset(pc.generation);
        Carry(t, Done, if pc.generation == was.generation then Some(Invalidated) else None, NoIo, was);
      }
    }

    method Call(t: nat, step: CallStep)
      modifies this, client
      ensures View() == Called(old(View()), t, step)
    {
      match step
      case DoEnterInfer => InferEnter(t);
      case DoAdmitInfer => InferAdmit(t);
      case DoBeginReset => ResetEnter(t);
      case DoLockReset(inTime) => ResetLock(t, inTime);
      case DoFindSocket(how) => FindSocket(t, how);
      case DoConnect(k, how) => Connect(t, k, how);
      case DoSend(how) => Send(t, how);
      case DoReceive(how) => Receive(t, how);
      case DoJudge(late, escapes) => Judge(t, late, escapes);
      case DoAccept(eventSet) => Accept(t, eventSet);
      case DoHandle => Recover(t);
      case DoFinish => Finish(t);
      case DoSucceedReset => ResetSucceeds(t);
      case DoFailReset => ResetFails(t);
    }

    method ClientStep(step: Step)
      modifies this, client
      ensures View() == SysNext(setup, old(View()), SysStep.Client(step))
    {
      match step
      case Call(t, call) => Call(t, call);
      case DoCancel =>
        var before := client.socket;
        var _ := client.Cancel();
        net := DropSocket(net, before, client.socket);
        trace := trace + [Invalidated];
      case DoClose =>
        var before := client.socket;
        client.Close();
        net := DropSocket(net, before, client.socket);
        trace := trace + [Invalidated];
      case Server(_, _) =>
    }

    // -------------------------------------------------------------- connections

    /** A connection's process hands its frame to the executor. */
    method Admit(k: nat, ordinal: nat)
      requires HasTaken(net, k)
      modifies this`procs, executor
      ensures View() == old(View()).(s := RpcServer.Admit(net, old(View()).s, k, ordinal))
    {
      var job := Job(k, net[k].taken - 1, TakenFrame(net, k), ordinal, false, false, None);
      var id := executor.Submit(job);
      procs := procs[k := Waiting(id)];
    }

    method ReadFrame(k: nat)
      modifies this, executor
      ensures View() == SysNext(setup, old(View()), SysStep.ReadFrame(k))
    {
      if MayRead(View(), k) {
        net := net[k := ServerNext(net[k], TakeFrame)];
        if TakenFrame(net, k).kind.ResetKind? {
          Admit(k, 0);
        } else {
          procs := procs[k := Deciding(nextOrdinal)];
          nextOrdinal := nextOrdinal + 1;
        }
      }
    }

    method Decide(k: nat)
      modifies this, executor
      ensures View() == SysNext(setup, old(View()), DoDecide(k))
    {
      if k in procs && procs[k].Deciding? && HasTaken(net, k) {
        var ordinal := procs[k].ordinal;
        if Matches(ordinal, setup.faults.disconnectEvery) {
          procs := procs[k := Closed];
        } else if Matches(ordinal, setup.faults.errorEvery) {
          procs := procs[k := Answering(Refused)];
        } else {
          Admit(k, ordinal);
        }
      }
    }

    method Poll(k: nat, arrived: bool)
      modifies this, executor
      ensures View() == SysNext(setup, old(View()), DoPoll(k, arrived))
    {
      if k in procs && procs[k].Waiting? && procs[k].job < |executor.jobs| {
        var job := executor.jobs[procs[k].job];
        var gone := Obsolete(net, job, arrived);
        if job.done || gone {
          var _ := executor.Release(procs[k].job);
          procs := procs[k := if job.done then RpcServer.Outcome(setup, job, gone) else Closed];
        }
      }
    }

    method Reply(k: nat)
      modifies this
      ensures View() == SysNext(setup, old(View()), SendReply(k))
    {
      if k in procs && procs[k].Answering? && k in net {
        net := net[k := ServerNext(net[k], Answer(procs[k].verdict))];
        procs := procs[k := Listening];
      }
    }

    method Connection(step: SysStep)
      requires step.Connected? || step.HangUp? || step.SeeClose?
      modifies this
      ensures View() == SysNext(setup, old(View()), step)
    {
      match step
      case Connected(k) =>
        if k in net && k !in procs {
          procs := procs[k := Listening];
        }
      case HangUp(k) =>
        if k in procs && (procs[k].Listening? || procs[k].Answering?) {
          procs := procs[k := Closed];
        }
      case SeeClose(k) =>
        if k in net {
          net := net[k := ServerNext(net[k], NoticeClose)];
        }
    }

    // -------------------------------------------------------------- the worker

    method WorkerStep(step: SysStep)
      requires step.DoPick? || step.DoCheck? || step.DoBegin? || step.DoEnd? || step.DoSettle?
      requires executor.hasReset == setup.hasReset
      modifies executor
      ensures View() == SysNext(setup, old(View()), step)
    {
      match step
      case DoPick => executor.PickJob();
      case DoCheck(arrived) => executor.CheckJob(WorkerGone(View(), arrived));
      case DoBegin => executor.BeginCallback();
      case DoEnd(ok) => executor.EndCallback(ok);
      case DoSettle(arrived) => executor.SettleJob(WorkerGone(View(), arrived));
    }

    // -------------------------------------------------------------- any schedule

    method Perform(step: SysStep)
      requires executor.hasReset == setup.hasReset
      modifies this, client, executor
      ensures View() == SysNext(setup, old(View()), step)
    {
      match step
      case Client(inner) => ClientStep(inner);
      case ReadFrame(k) => ReadFrame(k);
      case DoDecide(k) => Decide(k);
      case DoPoll(k, arrived) => Poll(k, arrived);
      case SendReply(k) => Reply(k);
      case Connected(k) => Connection(step);
      case HangUp(k) => Connection(step);
      case SeeClose(k) => Connection(step);
      case _ => WorkerStep(step);
    }

    /** A new system under `schedule`. Inference is blocked exactly until the newest reset
        is acknowledged, and the worker's callbacks never overlap. */
    method Drive(schedule: seq<SysStep>)
      requires executor.hasReset == setup.hasReset && View() == NEW_SYSTEM
      modifies this, client, executor
      ensures View() == SysRun(setup, NEW_SYSTEM, schedule)
      ensures client.resetRequired <==> !Confirmed(trace)
      ensures Paired(executor.log) && Counted(executor.View(), setup.hasReset)
    {
      for k := 0 to |schedule|
        invariant SysRun(setup, View(), schedule[k..]) == SysRun(setup, NEW_SYSTEM, schedule)
      {
        assert schedule[k..][0] == schedule[k] && schedule[k..][1..] == schedule[k + 1..];
        Perform(schedule[k]);
      }
      RpcEndToEnd.ReachableSysInv(setup, schedule);
    }
  }
}
