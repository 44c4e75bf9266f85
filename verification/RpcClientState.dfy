/** The TCP inference client: what its state lock protects, and each block the
    source runs under that lock as one function. */
module RpcClientState {
  import opened Common

  datatype Tallies = Tallies(
    started: nat, completed: nat, invalidated: nat, transportErrors: nat, serverErrors: nat,
    resets: nat, resetSuccesses: nat, resetFailures: nat, cancellations: nat
  )

  /** `socket` names the published connection. */
  datatype Client = Client(
    generation: nat, resetRequired: bool, socket: Option<nat>, inflight: bool, tallies: Tallies
  )

  const NEW_CLIENT: Client := Client(0, true, None, false, Tallies(0, 0, 0, 0, 0, 0, 0, 0, 0))

  /** How an inference attempt ended, as its handlers classify it. `Escaped` is an
      exception no handler names; the source raises those only before anything is
      sent or after a whole reply has been read. */
  datatype Failure = DeadlineHit | WasCancelled | BadReply | IoError | ServerError | Escaped

  datatype Outcome = Success | CancelledOutcome | DeadlineOutcome | TransportOutcome | ServerOutcome

  /** Every invalidation advances the generation and drops the published socket. */
  function Invalidate(c: Client): Client {
    c.(generation := c.generation + 1, socket := None)
  }

  predicate AdmissionOpen(c: Client, generation: nat) {
    !c.resetRequired && generation == c.generation
  }

  function Admit(c: Client): Client {
    c.(inflight := true, tallies := c.tallies.(started := c.tallies.started + 1))
  }

  /** The last block of an attempt that got an acceptable reply. */
  function AcceptResult(c: Client): Client {
    c.(tallies := c.tallies.(completed := c.tallies.completed + 1))
  }

  function Handle(c: Client, generation: nat, how: Failure): Client {
    match how
    case DeadlineHit => if generation != c.generation then c else Invalidate(c)
    case WasCancelled => c.(socket := None)
    case BadReply => Invalidate(c).(tallies := c.tallies.(transportErrors := c.tallies.transportErrors + 1))
    case IoError =>
      if generation != c.generation then c.(socket := None)
      else Invalidate(c).(tallies := c.tallies.(transportErrors := c.tallies.transportErrors + 1))
    case ServerError => c.(tallies := c.tallies.(serverErrors := c.tallies.serverErrors + 1))
    case Escaped => c
  }

  function OutcomeOf(c: Client, generation: nat, how: Failure): Outcome {
    match how
    case DeadlineHit => if generation != c.generation then CancelledOutcome else DeadlineOutcome
    case WasCancelled => CancelledOutcome
    case BadReply => TransportOutcome
    case IoError => if generation != c.generation then CancelledOutcome else TransportOutcome
    case ServerError => ServerOutcome
    case Escaped => CancelledOutcome
  }

  function Leave(c: Client, outcome: Outcome): Client {
    var t := c.tallies;
    c.(inflight := false,
       tallies := if outcome.CancelledOutcome? || outcome.DeadlineOutcome? then t.(invalidated := t.invalidated + 1)
                  else t)
  }

  function CountCancellation(c: Client): Tallies {
    if c.inflight then c.tallies.(cancellations := c.tallies.cancellations + 1) else c.tallies
  }

  function Cancel(c: Client): Client {
    Invalidate(c).(tallies := CountCancellation(c))
  }

  function Close(c: Client): Client {
    Invalidate(c)
  }

  function ResetBegin(c: Client): Client {
    Invalidate(c).(resetRequired := true,
                   tallies := CountCancellation(c).(resets := c.tallies.resets + 1))
  }

  function ResetSucceed(c: Client): Client {
    c.(resetRequired := false, tallies := c.tallies.(resetSuccesses := c.tallies.resetSuccesses + 1))
  }

  /** An older reset must not invalidate a newer one. */
  function ResetFail(c: Client, generation: nat): Client {
    var t := c.tallies.(resetFailures := c.tallies.resetFailures + 1);
    if generation == c.generation then Invalidate(c).(resetRequired := true, tallies := t)
    else c.(tallies := t)
  }
}
