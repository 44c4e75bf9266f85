/** The client object: each method is one block the source runs under its state lock. */
module RpcClient {
  import opened Common
  import opened RpcClientState

  class TcpInferenceTransport {
    var generation: nat
    var resetRequired: bool
    var socket: Option<nat>
    var inflight: bool
    var tallies: Tallies

    function View(): Client
      reads this
    {
      Client(generation, resetRequired, socket, inflight, tallies)
    }

    constructor ()
      ensures View() == NEW_CLIENT
    {
      generation, resetRequired, socket, inflight := 0, true, None, false;
      tallies := Tallies(0, 0, 0, 0, 0, 0, 0, 0, 0);
    }

    method CloseSocket()
      modifies this`socket
      ensures socket == None
    {
      socket := None;
    }

    method CountCancellation()
      modifies this`tallies
      ensures tallies == RpcClientState.CountCancellation(old(View()))
    {
      if inflight {
        tallies := tallies.(cancellations := tallies.cancellations + 1);
      }
    }

    /** The second admission check of a request, under both locks. */
    method Admit(admittedUnder: nat) returns (open: bool)
      modifies this
      ensures open == AdmissionOpen(old(View()), admittedUnder)
      ensures View() == if open then RpcClientState.Admit(old(View())) else old(View())
    {
      open := !resetRequired && admittedUnder == generation;
      if open {
        inflight := true;
        tallies := tallies.(started := tallies.started + 1);
      }
    }

    /** Publishes a connection unless the generation has moved on or another one is
        already published; `sock` is the connection to use. */
    method PublishSocket(admittedUnder: nat, k: nat) returns (sock: Option<nat>)
      modifies this`socket
      ensures admittedUnder != generation ==> sock == None && socket == old(socket)
      ensures admittedUnder == generation ==>
                sock == socket == if old(socket).Some? then old(socket) else Some(k)
    {
      if admittedUnder != generation {
        return None;
      }
      if socket == None {
        socket := Some(k);
      }
      sock := socket;
    }

    /** The last check of a request; `eventSet` is its own cancellation event. */
    method Accept(admittedUnder: nat, eventSet: bool) returns (accepted: bool)
      modifies this`tallies
      ensures accepted <==> admittedUnder == generation && !eventSet
      ensures View() == if accepted then AcceptResult(old(View())) else old(View())
    {
      accepted := admittedUnder == generation && !eventSet;
      if accepted {
        tallies := tallies.(completed := tallies.completed + 1);
      }
    }

    method HandleFailure(admittedUnder: nat, how: Failure) returns (outcome: Outcome)
      modifies this
      ensures View() == Handle(old(View()), admittedUnder, how)
      ensures outcome == OutcomeOf(old(View()), admittedUnder, how)
    {
      var current := admittedUnder == generation;
      outcome := CancelledOutcome;
      match how
      case DeadlineHit =>
        if current {
          generation := generation + 1;
          CloseSocket();
          outcome := DeadlineOutcome;
        }
      case WasCancelled =>
        CloseSocket();
      case BadReply =>
        tallies := tallies.(transportErrors := tallies.transportErrors + 1);
        generation := generation + 1;
        CloseSocket();
        outcome := TransportOutcome;
      case IoError =>
        CloseSocket();
        if current {
          tallies := tallies.(transportErrors := tallies.transportErrors + 1);
          generation := generation + 1;
          outcome := TransportOutcome;
        }
      case ServerError =>
        tallies := tallies.(serverErrors := tallies.serverErrors + 1);
        outcome := ServerOutcome;
      case Escaped =>
    }

    method Leave(outcome: Outcome)
      modifies this
      ensures View() == RpcClientState.Leave(old(View()), outcome)
    {
      inflight := false;
      if outcome.CancelledOutcome? || outcome.DeadlineOutcome? {
        tallies := tallies.(invalidated := tallies.invalidated + 1);
      }
    }

    method Cancel() returns (wasInflight: bool)
      modifies this
      ensures View() == RpcClientState.Cancel(old(View())) && wasInflight == old(inflight)
    {
      wasInflight := inflight;
      generation := generation + 1;
      CountCancellation();
      CloseSocket();
    }

    method Close()
      modifies this
      ensures View() == RpcClientState.Close(old(View()))
    {
      generation := generation + 1;
      CloseSocket();
    }

    method BeginReset() returns (resetGeneration: nat)
      modifies this
      ensures View() == ResetBegin(old(View())) && resetGeneration == generation
    {
      resetRequired := true;
      CountCancellation();
      tallies := tallies.(resets := tallies.resets + 1);
      generation := generation + 1;
      resetGeneration := generation;
      CloseSocket();
    }

    /** The block after the acknowledgement; a newer invalidation makes it a failure. */
    method FinishReset(resetGeneration: nat) returns (ok: bool)
      modifies this
      ensures ok == (resetGeneration == old(generation))
      ensures View() == if ok then ResetSucceed(old(View())) else old(View())
    {
      ok := resetGeneration == generation;
      if ok {
        resetRequired := false;
        tallies := tallies.(resetSuccesses := tallies.resetSuccesses + 1);
      }
    }

    method FailReset(resetGeneration: nat)
      modifies this
      ensures View() == ResetFail(old(View()), resetGeneration)
    {
      tallies := tallies.(resetFailures := tallies.resetFailures + 1);
      if resetGeneration == generation {
        resetRequired := true;
        generation := generation + 1;
        CloseSocket();
      }
    }
  }
}
