/** How attempts end, and why: every counter of the client against a book kept of the
    causes, and what each cause does to the connection. */
module RpcAttempts {
  import opened Common
  import opened RpcClientState
  import opened RpcWire
  import opened RpcInvariant
  import opened RpcSteps

  /** Why an attempt did not succeed. */
  datatype Cause =
    | Late              // its deadline passed
    | Stopped           // its own event was set
    | Superseded        // the generation moved
    | Mismatched        // the reply is of another frame, or no reply at all
    | Disconnected      // the connection failed
    | RefusedRemotely   // the server replied with an error
    | Unexpected        // an exception no handler names

  /** `moved` says whether the generation had moved when the cause was handled. */
  datatype Attempt = Attempt(cause: Option<Cause>, moved: bool)

  /** `open` is the attempt about to end, `ended` are those that have. `failed` counts the
      resets that raised, and `cut` the calls of cancel and reset that met an attempt. */
  datatype Book = Book(open: Option<Attempt>, ended: seq<Attempt>, failed: nat, cut: nat)

  const NEW_BOOK: Book := Book(None, [], 0, 0)

  // ---------------------------------------------------------------- what the book records

  function CauseOfHow(how: Failure): Option<Cause> {
    match how
    case DeadlineHit => Some(Late)
    case WasCancelled => Some(Stopped)
    case IoError => Some(Disconnected)
    case Escaped => Some(Unexpected)
    case _ => None
  }

  /** The cause met while a frame is exchanged, if any. */
  function IoCause(w: Wire, pc: Pc, call: CallStep): Option<Cause>
    requires InIo(pc)
  {
    match call
    case DoFindSocket(how) =>
      if how == Some(DeadlineHit) || how == Some(WasCancelled) then CauseOfHow(how.value)
      else if pc.generation != w.c.generation then Some(Superseded)
      else None
    case DoConnect(_, how) =>
      if how == Some(DeadlineHit) || how == Some(IoError) then CauseOfHow(how.value)
      else if pc.generation != w.c.generation then Some(Superseded)
      else None
    case DoSend(how) =>
      if how == Some(Escaped) then Some(Unexpected)
      else if pc.Sending? && pc.sock in w.net && w.net[pc.sock].closed then Some(Disconnected)
      else if how == Some(DeadlineHit) || how == Some(IoError) || how == Some(WasCancelled) then CauseOfHow(how.value)
      else None
    case DoReceive(how) => if how == Some(DeadlineHit) || how == Some(IoError) then CauseOfHow(how.value) else None
    case _ => None
  }

  /** The cause found in a reply that has been read. */
  function ReplyCause(w: Wire, pc: Pc, late: bool, escapes: bool): Option<Cause>
    requires pc.Judging?
  {
    if late then Some(Late)
    else if escapes then Some(Unexpected)
    else if pc.generation != w.c.generation then Some(Superseded)
    else if pc.reply.id != pc.id then Some(Mismatched)
    else
      match pc.reply.verdict
      case Ok => None
      case Refused => Some(RefusedRemotely)
      case Garbled => Some(Mismatched)
  }

  function CauseMet(w: Wire, pc: Pc, call: CallStep): Option<Cause> {
    if pc.Judging? && call.DoJudge? then ReplyCause(w, pc, call.late, call.escapes)
    else if InIo(pc) then IoCause(w, pc, call)
    else None
  }

  predicate Attempting(w: Wire) {
    w.lock.Some? && w.lock.value in w.calls
    && (AdmittedInfer(w.calls[w.lock.value]) || w.calls[w.lock.value].Leaving?)
  }

  /** A block of an inference that holds the request lock. */
  function AttemptEntry(b: Book, w: Wire, pc: Pc, call: CallStep): Book {
    if InIo(pc) && pc.kind.InferKind? then
      var cause := CauseMet(w, pc, call);
      if cause.Some? then b.(open := Some(Attempt(cause, false))) else b
    else if pc.Accepting? then
      b.(open := Some(Attempt(if pc.generation != w.c.generation then Some(Superseded)
                              else if call == DoAccept(true) then Some(Stopped)
                              else None, false)))
    else if pc.Broken? && b.open.Some? then
      b.(open := Some(b.open.value.(moved := pc.generation != w.c.generation)))
    else if pc.Leaving? && b.open.Some? then b.(open := None, ended := b.ended + [b.open.value])
    else b
  }

  function Entry(b: Book, w: Wire, step: Step): Book {
    match step
    case Call(t, call) =>
      if CallEffect(w, t, call).None? then b
      else if call.DoBeginReset? then b.(cut := b.cut + if Attempting(w) then 1 else 0)
      else if call.DoFailReset? then b.(failed := b.failed + 1)
      else AttemptEntry(b, w, PcOf(w, t), call)
    case DoCancel => b.(cut := b.cut + if Attempting(w) then 1 else 0)
    case _ => b
  }

  function BookOf(b: Book, w: Wire, schedule: seq<Step>): Book
    decreases |schedule|
  {
    if schedule == [] then b else BookOf(Entry(b, w, schedule[0]), Next(w, schedule[0]), schedule[1..])
  }

  // ---------------------------------------------------------------- what an attempt counts as

  /** An error reply is the server's; a reply that does not fit is the transport's, and so
      is a broken connection unless the call was invalidated meanwhile. */
  function Verdicted(a: Attempt): Outcome {
    match a.cause
    case None => Success
    case Some(RefusedRemotely) => ServerOutcome
    case Some(Mismatched) => TransportOutcome
    case Some(Disconnected) => if a.moved then CancelledOutcome else TransportOutcome
    case Some(Late) => if a.moved then CancelledOutcome else DeadlineOutcome
    case Some(_) => CancelledOutcome
  }

  function Count(attempts: seq<Attempt>, outcome: Outcome): nat {
    if attempts == [] then 0
    else
      Count(attempts[..|attempts| - 1], outcome)
      + if Verdicted(attempts[|attempts| - 1]) == outcome then 1 else 0
  }

  lemma CountExtends(attempts: seq<Attempt>, a: Attempt, outcome: Outcome)
    ensures Count(attempts + [a], outcome) == Count(attempts, outcome) + if Verdicted(a) == outcome then 1 else 0
  {
    assert (attempts + [a])[..|attempts|] == attempts;
  }

  /** Attempts of this outcome, the one whose outcome is settled and counted included. */
  function Tallied(b: Book, leaving: bool, outcome: Outcome): nat {
    Count(b.ended, outcome) + if leaving && b.open.Some? && Verdicted(b.open.value) == outcome then 1 else 0
  }

  predicate TalliesKept(y: Tallies, b: Book, leaving: bool) {
    && y.completed == Tallied(b, leaving, Success)
    && y.serverErrors == Tallied(b, leaving, ServerOutcome)
    && y.transportErrors == Tallied(b, leaving, TransportOutcome)
    && y.invalidated == Count(b.ended, CancelledOutcome) + Count(b.ended, DeadlineOutcome)
    && y.resetFailures == b.failed
    && y.cancellations == b.cut
  }

  predicate HowMatches(how: Failure, a: Attempt) {
    match how
    case DeadlineHit => a.cause == Some(Late)
    case WasCancelled => a.cause == Some(Stopped) || a.cause == Some(Superseded)
    case BadReply => a.cause == Some(Mismatched)
    case IoError => a.cause == Some(Disconnected)
    case ServerError => a.cause == Some(RefusedRemotely)
    case Escaped => a.cause == Some(Unexpected)
  }

  /** The attempt about to end is that of the call with this counter. */
  predicate OpenKept(pc: Pc, b: Book) {
    if pc.Broken? then b.open.Some? && HowMatches(pc.how, b.open.value)
    else if pc.Leaving? then b.open.Some? && Verdicted(b.open.value) == pc.outcome
    else b.open.None?
  }

  /** The counter of the call that holds the request lock, `Done` if none does. */
  function Holder(w: Wire): Pc {
    if w.lock.Some? then PcOf(w, w.lock.value) else Done
  }

  predicate KeptFor(c: Client, holder: Pc, b: Book) {
    && OpenKept(holder, b)
    && TalliesKept(c.tallies, b, holder.Leaving?)
    && (c.inflight <==> AdmittedInfer(holder) || holder.Leaving?)
  }

  predicate Kept(w: Wire, b: Book) {
    KeptFor(w.c, Holder(w), b)
  }

  // ---------------------------------------------------------------- the book is right

  /** The counter of the holder after a block: released, it is `Done`. */
  function HeldBy(pc: Pc): Pc {
    if Holds(pc) then pc else Done
  }

  lemma SocketKeepsBook(w: Wire, b: Book, t: nat, call: CallStep)
    requires KeptFor(w.c, PcOf(w, t), b) && CallEffect(w, t, call).Some? && InIo(PcOf(w, t))
    requires call.DoFindSocket? || call.DoConnect? || call.DoSend? || call.DoReceive?
    ensures var e := CallEffect(w, t, call).value; KeptFor(e.c, HeldBy(e.pc), AttemptEntry(b, w, PcOf(w, t), call))
  {
  }

  lemma ReplyKeepsBook(w: Wire, b: Book, t: nat, call: CallStep)
    requires KeptFor(w.c, PcOf(w, t), b) && CallEffect(w, t, call).Some? && InIo(PcOf(w, t)) && call.DoJudge?
    ensures var e := CallEffect(w, t, call).value; KeptFor(e.c, HeldBy(e.pc), AttemptEntry(b, w, PcOf(w, t), call))
  {
  }

  lemma AcceptKeepsBook(w: Wire, b: Book, t: nat, call: CallStep)
    requires KeptFor(w.c, PcOf(w, t), b) && CallEffect(w, t, call).Some? && PcOf(w, t).Accepting?
    ensures var e := CallEffect(w, t, call).value; KeptFor(e.c, HeldBy(e.pc), AttemptEntry(b, w, PcOf(w, t), call))
  {
  }

  lemma HandlingKeepsBook(w: Wire, b: Book, t: nat, call: CallStep)
    requires KeptFor(w.c, PcOf(w, t), b) && CallEffect(w, t, call).Some? && PcOf(w, t).Broken?
    ensures var e := CallEffect(w, t, call).value; KeptFor(e.c, HeldBy(e.pc), AttemptEntry(b, w, PcOf(w, t), call))
  {
  }

  lemma CountsExtend(attempts: seq<Attempt>, a: Attempt)
    ensures forall outcome :: Count(attempts + [a], outcome) ==
                              Count(attempts, outcome) + if Verdicted(a) == outcome then 1 else 0
  {
    forall outcome {
      CountExtends(attempts, a, outcome);
    }
  }

  lemma LeavingKeepsBook(w: Wire, b: Book, t: nat, call: CallStep)
    requires KeptFor(w.c, PcOf(w, t), b) && CallEffect(w, t, call).Some? && PcOf(w, t).Leaving?
    ensures var e := CallEffect(w, t, call).value; KeptFor(e.c, HeldBy(e.pc), AttemptEntry(b, w, PcOf(w, t), call))
  {
    CountsExtend(b.ended, b.open.value);
  }

  lemma BlocksOfHolder(w: Wire, t: nat, call: CallStep)
    requires CallEffect(w, t, call).Some? && Holds(PcOf(w, t))
    ensures !call.DoBeginReset? && !call.DoFailReset?
    ensures InIo(PcOf(w, t)) ==> call.DoFindSocket? || call.DoConnect? || call.DoSend? || call.DoReceive? || call.DoJudge?
  {
  }

  lemma HolderKeepsBook(w: Wire, b: Book, t: nat, call: CallStep)
    requires KeptFor(w.c, PcOf(w, t), b) && CallEffect(w, t, call).Some? && Holds(PcOf(w, t))
    ensures var e := CallEffect(w, t, call).value; KeptFor(e.c, HeldBy(e.pc), Entry(b, w, Call(t, call)))
  {
    BlocksOfHolder(w, t, call);
    if !InIo(PcOf(w, t)) {
      if PcOf(w, t).Accepting? {
        AcceptKeepsBook(w, b, t, call);
      } else if PcOf(w, t).Broken? {
        HandlingKeepsBook(w, b, t, call);
      } else {
        LeavingKeepsBook(w, b, t, call);
      }
    } else if call.DoJudge? {
      ReplyKeepsBook(w, b, t, call);
    } else {
      SocketKeepsBook(w, b, t, call);
    }
  }

  /** A call without the lock takes it when it is free, or leaves the holder alone. */
  lemma OthersKeepBook(w: Wire, b: Book, t: nat, call: CallStep)
    requires Kept(w, b) && CallEffect(w, t, call).Some? && !Holds(PcOf(w, t)) && (w.lock.Some? ==> w.lock.value in w.calls)
    ensures var e := CallEffect(w, t, call).value;
            && (Holds(e.pc) ==> w.lock.None?)
            && KeptFor(e.c, if Holds(e.pc) then e.pc else Holder(w), Entry(b, w, Call(t, call)))
  {
  }

  lemma HolderAfter(w: Wire, t: nat, e: Effect)
    requires Locked(w.lock, w.calls) && (Holds(e.pc) ==> w.lock.None? || w.lock == Some(t))
    ensures Holder(Perform(w, t, e)) ==
            if Holds(e.pc) then e.pc else if w.lock == Some(t) then Done else Holder(w)
    ensures Holds(PcOf(w, t)) <==> w.lock == Some(t)
  {
  }

  lemma CallKeepsBook(w: Wire, b: Book, t: nat, call: CallStep)
    requires Locked(w.lock, w.calls) && Kept(w, b) && CallEffect(w, t, call).Some?
    ensures Kept(CallNext(w, t, call), Entry(b, w, Call(t, call)))
  {
    var e := CallEffect(w, t, call).value;
    BlocksTakeLockFairly(w, t, call);
    HolderAfter(w, t, e);
    if Holds(PcOf(w, t)) {
      HolderKeepsBook(w, b, t, call);
    } else {
      OthersKeepBook(w, b, t, call);
    }
  }

  lemma StepKeepsBook(w: Wire, b: Book, step: Step)
    requires Locked(w.lock, w.calls) && Kept(w, b)
    ensures Kept(Next(w, step), Entry(b, w, step))
  {
    match step
    case Call(t, call) =>
      if CallEffect(w, t, call).Some? {
        CallKeepsBook(w, b, t, call);
      }
    case DoCancel =>
    case DoClose =>
    case Server(_, _) =>
  }

  lemma {:induction false} RunKeepsBook(w: Wire, b: Book, schedule: seq<Step>)
    requires Inv(w) && Kept(w, b)
    ensures Kept(Run(w, schedule), BookOf(b, w, schedule))
    decreases |schedule|
  {
    if schedule != [] {
      StepKeepsBook(w, b, schedule[0]);
      StepKeepsInv(w, schedule[0]);
      RunKeepsBook(Next(w, schedule[0]), Entry(b, w, schedule[0]), schedule[1..]);
    }
  }

  predicate Blank(b: Book) {
    b.open.None? && b.ended == [] && b.failed == 0 && b.cut == 0
  }

  lemma NewIsKept(c: Client, b: Book)
    requires c.tallies == Tallies(0, 0, 0, 0, 0, 0, 0, 0, 0) && !c.inflight && Blank(b)
    ensures KeptFor(c, Done, b)
  {
    assert TalliesKept(c.tallies, b, false);
  }

  lemma RunFromNew(w: Wire, b: Book, schedule: seq<Step>)
    requires Inv(w) && w.lock.None? && Blank(b)
    requires w.c.tallies == Tallies(0, 0, 0, 0, 0, 0, 0, 0, 0) && !w.c.inflight
    ensures Kept(Run(w, schedule), BookOf(b, w, schedule))
  {
    NewIsKept(w.c, b);
    RunKeepsBook(w, b, schedule);
  }

  /** In every reachable state each counter is the number of attempts that ended for a
      cause it stands for, a request is in flight exactly while one is being attempted,
      and failed resets and cut requests are counted. */
  lemma AttemptsAreClassified(schedule: seq<Step>)
    ensures Kept(Run(NEW_WIRE, schedule), BookOf(NEW_BOOK, NEW_WIRE, schedule))
  {
    RunFromNew(NEW_WIRE, NEW_BOOK, schedule);
  }

  // ---------------------------------------------------------------- what a cause does

  /** The blocks that end an attempt whose reply has been read in time. */
  function Concluded(w: Wire, t: nat): Wire {
    Next(Next(Next(w, Call(t, DoJudge(false, false))), Call(t, DoHandle)), Call(t, DoFinish))
  }

  predicate ReadsRefusal(w: Wire, t: nat) {
    && t in w.calls && w.calls[t].Judging? && w.calls[t].kind.InferKind? && w.calls[t].generation == w.c.generation
    && w.calls[t].reply.verdict.Refused?
  }

  lemma RefusalIsJudged(w: Wire, t: nat)
    requires ReadsRefusal(w, t) && w.calls[t].reply.id == w.calls[t].id && w.lock == Some(t)
    ensures Next(w, Call(t, DoJudge(false, false))) == w.(calls := w.calls[t := Broken(w.c.generation, ServerError)])
  {
  }

  lemma ServerErrorIsHandled(w: Wire, t: nat)
    requires t in w.calls && w.calls[t] == Broken(w.c.generation, ServerError) && w.lock == Some(t)
    ensures Next(w, Call(t, DoHandle)) ==
            w.(calls := w.calls[t := Leaving(ServerOutcome)],
               c := w.c.(tallies := w.c.tallies.(serverErrors := w.c.tallies.serverErrors + 1)))
  {
  }

  lemma ServerErrorLeaves(w: Wire, t: nat)
    requires t in w.calls && w.calls[t] == Leaving(ServerOutcome) && w.lock == Some(t)
    ensures Next(w, Call(t, DoFinish)) ==
            w.(calls := w.calls[t := Done], lock := None, c := w.c.(inflight := false))
  {
  }

  /** Only the count of server errors moves, and the request is over. */
  predicate OnlyRefused(w: Wire, v: Wire, t: nat) {
    v == w.(calls := w.calls[t := Done], lock := None,
            c := w.c.(inflight := false,
                      tallies := w.c.tallies.(serverErrors := w.c.tallies.serverErrors + 1)))
  }

  lemma RefusalEnds(w: Wire, t: nat)
    requires ReadsRefusal(w, t) && w.calls[t].reply.id == w.calls[t].id && w.lock == Some(t)
    ensures OnlyRefused(w, Concluded(w, t), t)
  {
    RefusalIsJudged(w, t);
    var w1 := Next(w, Call(t, DoJudge(false, false)));
    ServerErrorIsHandled(w1, t);
    ServerErrorLeaves(Next(w1, Call(t, DoHandle)), t);
  }

  lemma JudgesOwnReply(w: Wire, t: nat)
    requires Inv(w) && t in w.calls && w.calls[t].Judging?
    ensures w.calls[t].reply.id == w.calls[t].id && w.lock == Some(t)
  {
    assert UsesOwnSocket(w.calls[t], w.net);
  }

  /** An error reply to a request of the current generation, read in time, is a server
      error and nothing else: generation, connection and every other counter stay. */
  lemma RemoteErrorsAreMild(schedule: seq<Step>, t: nat)
    requires ReadsRefusal(Run(NEW_WIRE, schedule), t)
    ensures var w := Run(NEW_WIRE, schedule); OnlyRefused(w, Concluded(w, t), t)
  {
    RunKeepsInv(NEW_WIRE, schedule);
    JudgesOwnReply(Run(NEW_WIRE, schedule), t);
    RefusalEnds(Run(NEW_WIRE, schedule), t);
  }

  /** No connection is open. */
  predicate AllClosed(w: Wire) {
    w.c.socket.None? && forall k | k in w.net :: w.net[k].closed
  }

  /** What handling a failure of attempt `t` may leave: a stale deadline, an error reply and
      an unexpected exception touch no connection; anything else leaves none open, under a
      new generation if it is the transport's failure or the deadline of a current call. */
  predicate Contained(w: Wire, v: Wire, pc: Pc)
    requires pc.Broken?
  {
    var current := pc.generation == w.c.generation;
    var mild := pc.how.ServerError? || pc.how.Escaped? || (pc.how.DeadlineHit? && !current);
    var renewed := pc.how.BadReply? || (current && (pc.how.DeadlineHit? || pc.how.IoError?));
    && (mild ==> v.net == w.net && v.c.socket == w.c.socket)
    && (!mild ==> AllClosed(v))
    && v.c.generation == w.c.generation + (if renewed then 1 else 0)
    && v.c.resetRequired == w.c.resetRequired
  }

  lemma FailureIsContained(w: Wire, t: nat)
    requires Published(w.c, w.net) && t in w.calls && w.calls[t].Broken?
    ensures Contained(w, Next(w, Call(t, DoHandle)), w.calls[t])
  {
  }

  lemma FailuresAreContained(schedule: seq<Step>, t: nat)
    requires var w := Run(NEW_WIRE, schedule); t in w.calls && w.calls[t].Broken?
    ensures var w := Run(NEW_WIRE, schedule); Contained(w, Next(w, Call(t, DoHandle)), w.calls[t])
  {
    RunKeepsInv(NEW_WIRE, schedule);
    FailureIsContained(Run(NEW_WIRE, schedule), t);
  }

  // ---------------------------------------------------------------- who is let in

  lemma AdmissionDecided(w: Wire, t: nat)
    requires FailClosed(w.c, w.trace)
    ensures EnterInfer(w, t).Some? <==> t !in w.calls && Confirmed(w.trace)
    ensures t in w.calls && w.calls[t].InferWaiting? && w.lock.None? ==>
              var v := Next(w, Call(t, DoAdmitInfer));
              if Confirmed(w.trace) && w.calls[t].generation == w.c.generation then
                v.calls[t] == Holding(InferKind, w.c.generation) && v.lock == Some(t) && v.c.inflight
                && v.c.tallies.started == w.c.tallies.started + 1
              else v == w.(calls := w.calls[t := Done])
  {
  }

  /** A new inference may queue exactly when the newest reset is acknowledged. When the
      request lock is free a queued one is admitted exactly when that is so and nothing has
      moved the generation since, and is refused otherwise. */
  lemma AdmittedExactly(schedule: seq<Step>, t: nat)
    ensures var w := Run(NEW_WIRE, schedule);
            && (EnterInfer(w, t).Some? <==> t !in w.calls && Confirmed(w.trace))
            && (t in w.calls && w.calls[t].InferWaiting? && w.lock.None? ==>
                  var v := Next(w, Call(t, DoAdmitInfer));
                  if Confirmed(w.trace) && w.calls[t].generation == w.c.generation then
                    v.calls[t] == Holding(InferKind, w.c.generation) && v.lock == Some(t) && v.c.inflight
                    && v.c.tallies.started == w.c.tallies.started + 1
                  else v == w.(calls := w.calls[t := Done]))
  {
    RunKeepsInv(NEW_WIRE, schedule);
    AdmissionDecided(Run(NEW_WIRE, schedule), t);
  }

  /** A call that holds the lock uses the published connection if there is one, and opens
      one only if there is none. */
  lemma ConnectionIsReused(w: Wire, t: nat)
    requires t in w.calls && w.calls[t].Holding? && w.calls[t].generation == w.c.generation
    ensures var v := Next(w, Call(t, DoFindSocket(None)));
            && v.net == w.net && v.c == w.c
            && v.calls[t] == (if w.c.socket.Some? then Sending(w.calls[t].kind, w.c.generation, w.c.socket.value)
                              else Connecting(w.calls[t].kind, w.c.generation))
  {
  }

  /** A reset that waits for the lock beyond its deadline fails: it is over, counted once,
      and keeps inference blocked if it was the newest. */
  lemma ResetTimesOut(w: Wire, t: nat)
    requires Locked(w.lock, w.calls) && t in w.calls && w.calls[t].ResetWaiting?
    ensures var v := Next(Next(w, Call(t, DoLockReset(false))), Call(t, DoFailReset));
            && v.calls == w.calls[t := Done] && v.lock == w.lock
            && v.c.tallies == w.c.tallies.(resetFailures := w.c.tallies.resetFailures + 1)
            && (if w.calls[t].generation == w.c.generation then
                  v.c.resetRequired && v.c.generation == w.c.generation + 1 && v.c.socket.None?
                else v.c == w.c.(tallies := v.c.tallies) && v.net == w.net)
  {
    assert w.lock != Some(t);
    var w1 := Next(w, Call(t, DoLockReset(false)));
    assert w1 == w.(calls := w.calls[t := ResetBroken(w.calls[t].generation)]);
  }

  // ---------------------------------------------------------------- resets

  function ResetsBegun(trace: seq<Event>): nat {
    if trace == [] then 0
    else ResetsBegun(trace[..|trace| - 1]) + if trace[|trace| - 1].ResetBegun? then 1 else 0
  }

  function Acknowledgements(trace: seq<Event>): nat {
    if trace == [] then 0
    else Acknowledgements(trace[..|trace| - 1]) + if trace[|trace| - 1].ResetAcknowledged? then 1 else 0
  }

  lemma EventsExtend(trace: seq<Event>, e: Event)
    ensures ResetsBegun(trace + [e]) == ResetsBegun(trace) + if e.ResetBegun? then 1 else 0
    ensures Acknowledgements(trace + [e]) == Acknowledgements(trace) + if e.ResetAcknowledged? then 1 else 0
  {
    assert (trace + [e])[..|trace|] == trace;
  }

  /** The resets that have neither returned nor raised. */
  function Pending(calls: map<nat, Pc>): set<nat> {
    set t | t in calls && ActiveReset(calls[t])
  }

  predicate ResetsCounted(w: Wire) {
    && w.c.tallies.resets == ResetsBegun(w.trace)
    && w.c.tallies.resetSuccesses == Acknowledgements(w.trace)
    && w.c.tallies.resets == w.c.tallies.resetSuccesses + w.c.tallies.resetFailures + |Pending(w.calls)|
  }

  /** What a block does to the counters of resets and to the resets pending. */
  predicate CountsResets(w: Wire, t: nat, e: Effect) {
    var y, z, was := w.c.tallies, e.c.tallies, ActiveReset(PcOf(w, t));
    && z.resets == y.resets + (if Begins(e) then 1 else 0)
    && z.resetSuccesses == y.resetSuccesses + (if Acknowledges(e) then 1 else 0)
    && (ActiveReset(e.pc) <==> Begins(e) || (was && !Acknowledges(e) && z.resetFailures == y.resetFailures))
    && (was || z.resetFailures == y.resetFailures)
    && (Acknowledges(e) ==> was && z.resetFailures == y.resetFailures)
    && (Begins(e) ==> !was && z.resetFailures == y.resetFailures)
    && y.resetFailures <= z.resetFailures <= y.resetFailures + 1
  }

  lemma BlocksCountResets(w: Wire, t: nat, call: CallStep)
    requires CallEffect(w, t, call).Some?
    ensures CountsResets(w, t, CallEffect(w, t, call).value)
  {
  }

  lemma PendingChanges(calls: map<nat, Pc>, t: nat, pc: Pc)
    ensures var was := t in calls && ActiveReset(calls[t]);
            |Pending(calls[t := pc])| ==
            |Pending(calls)| + (if ActiveReset(pc) then 1 else 0) - (if was then 1 else 0)
  {
    var rest := Pending(calls) - {t};
    assert Pending(calls) == if t in calls && ActiveReset(calls[t]) then rest + {t} else rest;
    assert Pending(calls[t := pc]) == if ActiveReset(pc) then rest + {t} else rest;
  }

  lemma StepCountsResets(w: Wire, step: Step)
    requires ResetsCounted(w)
    ensures ResetsCounted(Next(w, step))
  {
    match step
    case Call(t, call) =>
      if CallEffect(w, t, call).Some? {
        var e := CallEffect(w, t, call).value;
        BlocksCountResets(w, t, call);
        PendingChanges(w.calls, t, e.pc);
        if e.event.Some? {
          EventsExtend(w.trace, e.event.value);
        }
      }
    case DoCancel => EventsExtend(w.trace, Invalidated);
    case DoClose => EventsExtend(w.trace, Invalidated);
    case Server(_, _) =>
  }

  lemma {:induction false} RunCountsResets(w: Wire, schedule: seq<Step>)
    requires ResetsCounted(w)
    ensures ResetsCounted(Run(w, schedule))
    decreases |schedule|
  {
    if schedule != [] {
      StepCountsResets(w, schedule[0]);
      RunCountsResets(Next(w, schedule[0]), schedule[1..]);
    }
  }

  /** Every reset begun is counted once as acknowledged or failed, or is still running. */
  lemma ResetsAreConserved(schedule: seq<Step>)
    ensures ResetsCounted(Run(NEW_WIRE, schedule))
  {
    assert Pending(NEW_WIRE.calls) == {};
    RunCountsResets(NEW_WIRE, schedule);
  }
}
