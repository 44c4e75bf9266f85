/** Any number of concurrent client calls against an in-order server.

    Each call is a program counter; `lock` is the request lock. The network keeps,
    per connection, the frames sent, the replies produced and how far either side
    has read. The server appears only as steps that read the next frame, answer the
    next unanswered frame, or notice a close. A block of the client is a function to
    its `Effect`; `Perform` carries an effect out. */
module RpcWire {
  import opened Common
  import opened RpcClientState

  datatype Kind = InferKind | ResetKind

  /** `generation` and `closedBefore` are not on the wire: the generation of the call
      that sent the frame, and the connections already closed when it was sent. */
  datatype Frame = Frame(id: nat, kind: Kind, generation: nat, closedBefore: set<nat>)

  datatype Verdict = Ok | Refused | Garbled

  datatype Reply = Reply(id: nat, verdict: Verdict)

  /** `generation` is the client generation the connection was published under. */
  datatype Sock = Sock(
    generation: nat, sent: seq<Frame>, taken: nat, replies: seq<Reply>, received: nat, closed: bool, visible: bool
  )

  datatype Pc =
    | InferWaiting(generation: nat)                       // first check passed, wants the request lock
    | ResetWaiting(generation: nat)                       // begun, wants the request lock
    | Holding(kind: Kind, generation: nat)
    | Connecting(kind: Kind, generation: nat)
    | Sending(kind: Kind, generation: nat, sock: nat)
    | Receiving(kind: Kind, generation: nat, sock: nat, id: nat)
    | Judging(kind: Kind, generation: nat, id: nat, reply: Reply)
    | Accepting(generation: nat, id: nat)
    | Broken(generation: nat, how: Failure)               // inference, still holds the request lock
    | Leaving(outcome: Outcome)                           // inference, still holds the request lock
    | ResetBroken(generation: nat)                        // request lock already released
    | ResetAcked(generation: nat)                         // request lock already released
    | Done

  predicate InIo(pc: Pc) {
    pc.Holding? || pc.Connecting? || pc.Sending? || pc.Receiving? || pc.Judging?
  }

  predicate Holds(pc: Pc) {
    InIo(pc) || pc.Accepting? || pc.Broken? || pc.Leaving?
  }

  predicate ActiveReset(pc: Pc) {
    pc.ResetWaiting? || pc.ResetBroken? || pc.ResetAcked? || (InIo(pc) && pc.kind.ResetKind?)
  }

  predicate AdmittedInfer(pc: Pc) {
    pc.Accepting? || pc.Broken? || (InIo(pc) && pc.kind.InferKind?)
  }

  datatype Event =
    | ResetBegun(generation: nat)
    | ResetAcknowledged(generation: nat)
    | Invalidated                          // cancel, close, deadline, transport error, failed reset
    | Admitted(call: nat)
    | Accepted(call: nat, since: nat, generation: nat, id: nat)   // `since`: where the call was admitted; `id`: its frame

  predicate Invalidates(e: Option<Event>) {
    e.Some? && (e.value.ResetBegun? || e.value.Invalidated?)
  }

  datatype Wire = Wire(
    c: Client, lock: Option<nat>, calls: map<nat, Pc>, admitted: map<nat, nat>,
    net: map<nat, Sock>, trace: seq<Event>, nextFrame: nat
  )

  const NEW_WIRE: Wire := Wire(NEW_CLIENT, None, map[], map[], map[], [], 0)

  // ---------------------------------------------------------------- effects

  datatype Io = NoIo | Publish(k: nat) | Transmit(k: nat, kind: Kind) | ReadReply(k: nat)

  datatype Effect = Effect(c: Client, pc: Pc, event: Option<Event>, io: Io)

  function PcOf(w: Wire, t: nat): Pc {
    if t in w.calls then w.calls[t] else Done
  }

  predicate Dirty(s: Sock) {
    s.received < |s.sent|
  }

  function ClosedSockets(net: map<nat, Sock>): set<nat> {
    set k | k in net && net[k].closed
  }

  /** A published socket that the client drops is closed. */
  function DropSocket(net: map<nat, Sock>, before: Option<nat>, after: Option<nat>): map<nat, Sock> {
    if before.Some? && after != before && before.value in net then
      net[before.value := net[before.value].(closed := true)]
    else net
  }

  function Exchange(net: map<nat, Sock>, io: Io, generation: nat, id: nat): map<nat, Sock> {
    match io
    case NoIo => net
    case Publish(k) => net[k := Sock(generation, [], 0, [], 0, false, false)]
    case Transmit(k, kind) =>
      if k in net then
        net[k := net[k].(sent := net[k].sent + [Frame(id, kind, net[k].generation, ClosedSockets(net))])]
      else net
    case ReadReply(k) => if k in net then net[k := net[k].(received := net[k].received + 1)] else net
  }

  function Perform(w: Wire, t: nat, e: Effect): Wire {
    Wire(e.c,
         if Holds(e.pc) then Some(t) else if w.lock == Some(t) then None else w.lock,
         w.calls[t := e.pc],
         if e.event == Some(Admitted(t)) then w.admitted[t := |w.trace|] else w.admitted,
         Exchange(DropSocket(w.net, w.c.socket, e.c.socket), e.io, e.c.generation, w.nextFrame),
         if e.event.Some? then w.trace + [e.event.value] else w.trace,
         if e.io.Transmit? then w.nextFrame + 1 else w.nextFrame)
  }

  /** An exception: an inference keeps the request lock for its handlers, a reset
      has released it by the time its handler runs. */
  function Break(kind: Kind, generation: nat, how: Failure): Pc {
    if kind.InferKind? then Broken(generation, how) else ResetBroken(generation)
  }

  // ---------------------------------------------------------------- client blocks

  function EnterInfer(w: Wire, t: nat): Option<Effect> {
    if t !in w.calls && !w.c.resetRequired then Some(Effect(w.c, InferWaiting(w.c.generation), None, NoIo))
    else None
  }

  function AdmitInfer(w: Wire, t: nat): Option<Effect> {
    var pc := PcOf(w, t);
    if !pc.InferWaiting? || w.lock.Some? then None
    else if AdmissionOpen(w.c, pc.generation) then
      Some(Effect(Admit(w.c), Holding(InferKind, pc.generation), Some(Admitted(t)), NoIo))
    else Some(Effect(w.c, Done, None, NoIo))
  }

  function BeginReset(w: Wire, t: nat): Option<Effect> {
    var g := w.c.generation + 1;
    if t !in w.calls then Some(Effect(ResetBegin(w.c), ResetWaiting(g), Some(ResetBegun(g)), NoIo)) else None
  }

  /** The request lock is acquired, or the reset's deadline passes first. */
  function LockReset(w: Wire, t: nat, inTime: bool): Option<Effect> {
    var pc := PcOf(w, t);
    if !pc.ResetWaiting? then None
    else if !inTime then Some(Effect(w.c, ResetBroken(pc.generation), None, NoIo))
    else if w.lock.None? then Some(Effect(w.c, Holding(ResetKind, pc.generation), None, NoIo))
    else None
  }

  /** First block of `_ensure_socket`; `how` is a deadline or cancellation met before it. */
  function FindSocket(w: Wire, t: nat, how: Option<Failure>): Option<Effect> {
    var pc := PcOf(w, t);
    if !pc.Holding? then None
    else
      var next :=
        if how.Some? && (how.value.DeadlineHit? || how.value.WasCancelled?) then
          Break(pc.kind, pc.generation, how.value)
        else if pc.generation != w.c.generation then Break(pc.kind, pc.generation, WasCancelled)
        else if w.c.socket.Some? then Sending(pc.kind, pc.generation, w.c.socket.value)
        else Connecting(pc.kind, pc.generation);
      Some(Effect(w.c, next, None, NoIo))
  }

  /** The connect returned `k` or failed; then the second block of `_ensure_socket`. */
  function Connect(w: Wire, t: nat, k: nat, how: Option<Failure>): Option<Effect> {
    var pc := PcOf(w, t);
    if !pc.Connecting? || k in w.net then None
    else if how.Some? && (how.value.DeadlineHit? || how.value.IoError?) then
      Some(Effect(w.c, Break(pc.kind, pc.generation, how.value), None, NoIo))
    else if pc.generation != w.c.generation then
      Some(Effect(w.c, Break(pc.kind, pc.generation, WasCancelled), None, NoIo))
    else if w.c.socket.Some? then
      Some(Effect(w.c, Sending(pc.kind, pc.generation, w.c.socket.value), None, NoIo))
    else
      Some(Effect(w.c.(socket := Some(k)), Sending(pc.kind, pc.generation, k), None, Publish(k)))
  }

  /** Sending fails on a closed connection, and may fail on an open one after some or
      all of the frame is out; `Escaped` stands for a payload that cannot be encoded,
      before anything is sent. */
  function Send(w: Wire, t: nat, how: Option<Failure>): Option<Effect> {
    var pc := PcOf(w, t);
    if !pc.Sending? || pc.sock !in w.net then None
    else if how == Some(Escaped) then Some(Effect(w.c, Break(pc.kind, pc.generation, Escaped), None, NoIo))
    else if w.net[pc.sock].closed then Some(Effect(w.c, Break(pc.kind, pc.generation, IoError), None, NoIo))
    else
      var next :=
        if how.Some? && (how.value.DeadlineHit? || how.value.IoError? || how.value.WasCancelled?) then
          Break(pc.kind, pc.generation, how.value)
        else Receiving(pc.kind, pc.generation, pc.sock, w.nextFrame);
      Some(Effect(w.c, next, None, Transmit(pc.sock, pc.kind)))
  }

  /** A whole reply arrives, or the wait ends in a timeout, an end of stream or an error. */
  function Receive(w: Wire, t: nat, how: Option<Failure>): Option<Effect> {
    var pc := PcOf(w, t);
    if !pc.Receiving? || pc.sock !in w.net then None
    else if how.Some? && (how.value.DeadlineHit? || how.value.IoError?) then
      Some(Effect(w.c, Break(pc.kind, pc.generation, how.value), None, NoIo))
    else if w.net[pc.sock].received < |w.net[pc.sock].replies| then
      var reply := w.net[pc.sock].replies[w.net[pc.sock].received];
      Some(Effect(w.c, Judging(pc.kind, pc.generation, pc.id, reply), None, ReadReply(pc.sock)))
    else None
  }

  /** The checks on a reply that has been read in full. */
  function Judge(w: Wire, t: nat, late: bool, escapes: bool): Option<Effect> {
    var pc := PcOf(w, t);
    if !pc.Judging? then None
    else
      var next :=
        if late then Break(pc.kind, pc.generation, DeadlineHit)
        else if escapes then Break(pc.kind, pc.generation, Escaped)
        else if pc.generation != w.c.generation then Break(pc.kind, pc.generation, WasCancelled)
        else if pc.reply.id != pc.id || pc.reply.verdict.Garbled? then Break(pc.kind, pc.generation, BadReply)
        else if pc.reply.verdict.Refused? then Break(pc.kind, pc.generation, ServerError)
        else if pc.kind.InferKind? then Accepting(pc.generation, pc.id)
        else ResetAcked(pc.generation);
      Some(Effect(w.c, next, None, NoIo))
  }

  /** The last check; `eventSet` is the caller's own cancellation event. */
  function Accept(w: Wire, t: nat, eventSet: bool): Option<Effect> {
    var pc := PcOf(w, t);
    if !pc.Accepting? then None
    else if pc.generation != w.c.generation || eventSet then
      Some(Effect(w.c, Broken(pc.generation, WasCancelled), None, NoIo))
    else
      var since := if t in w.admitted then w.admitted[t] else 0;
      Some(Effect(AcceptResult(w.c), Leaving(Success), Some(Accepted(t, since, pc.generation, pc.id)), NoIo))
  }

  function HandleFailure(w: Wire, t: nat): Option<Effect> {
    var pc := PcOf(w, t);
    if !pc.Broken? then None
    else
      var c := Handle(w.c, pc.generation, pc.how);
      Some(Effect(c, Leaving(OutcomeOf(w.c, pc.generation, pc.how)),
                  if c.generation != w.c.generation then Some(Invalidated) else None, NoIo))
  }

  function Finish(w: Wire, t: nat): Option<Effect> {
    var pc := PcOf(w, t);
    if pc.Leaving? then Some(Effect(RpcClientState.Leave(w.c, pc.outcome), Done, None, NoIo)) else None
  }

  /** The acknowledged reset's last block, which a newer invalidation turns into a failure. */
  function SucceedReset(w: Wire, t: nat): Option<Effect> {
    var pc := PcOf(w, t);
    if !pc.ResetAcked? then None
    else if pc.generation != w.c.generation then Some(Effect(w.c, ResetBroken(pc.generation), None, NoIo))
    else Some(Effect(ResetSucceed(w.c), Done, Some(ResetAcknowledged(pc.generation)), NoIo))
  }

  function FailReset(w: Wire, t: nat): Option<Effect> {
    var pc := PcOf(w, t);
    if !pc.ResetBroken? then None
    else
      Some(Effect(ResetFail(w.c, pc.generation), Done,
                  if pc.generation == w.c.generation then Some(Invalidated) else None, NoIo))
  }

  // ---------------------------------------------------------------- scheduling

  datatype CallStep =
    | DoEnterInfer | DoAdmitInfer | DoBeginReset | DoLockReset(inTime: bool)
    | DoFindSocket(how: Option<Failure>) | DoConnect(k: nat, how: Option<Failure>)
    | DoSend(how: Option<Failure>) | DoReceive(how: Option<Failure>)
    | DoJudge(late: bool, escapes: bool) | DoAccept(eventSet: bool)
    | DoHandle | DoFinish | DoSucceedReset | DoFailReset

  function CallEffect(w: Wire, t: nat, step: CallStep): Option<Effect> {
    match step
    case DoEnterInfer => EnterInfer(w, t)
    case DoAdmitInfer => AdmitInfer(w, t)
    case DoBeginReset => BeginReset(w, t)
    case DoLockReset(inTime) => LockReset(w, t, inTime)
    case DoFindSocket(how) => FindSocket(w, t, how)
    case DoConnect(k, how) => Connect(w, t, k, how)
    case DoSend(how) => Send(w, t, how)
    case DoReceive(how) => Receive(w, t, how)
    case DoJudge(late, escapes) => Judge(w, t, late, escapes)
    case DoAccept(eventSet) => Accept(w, t, eventSet)
    case DoHandle => HandleFailure(w, t)
    case DoFinish => Finish(w, t)
    case DoSucceedReset => SucceedReset(w, t)
    case DoFailReset => FailReset(w, t)
  }

  function CallNext(w: Wire, t: nat, step: CallStep): Wire {
    var e := CallEffect(w, t, step);
    if e.Some? then Perform(w, t, e.value) else w
  }

  /** `cancel` and `close` are single blocks. */
  function Drop(w: Wire, c: Client): Wire {
    w.(c := c, net := DropSocket(w.net, w.c.socket, c.socket), trace := w.trace + [Invalidated])
  }

  // ---------------------------------------------------------------- the server, as the client sees it

  datatype ServerStep = TakeFrame | Answer(verdict: Verdict) | NoticeClose

  /** The server reads the next frame, or answers the next unanswered frame it has
      read, or notices that the client closed. */
  function ServerNext(s: Sock, step: ServerStep): Sock {
    match step
    case TakeFrame => if s.taken < |s.sent| then s.(taken := s.taken + 1) else s
    case Answer(verdict) =>
      if |s.replies| < s.taken <= |s.sent| then
        s.(replies := s.replies + [Reply(s.sent[|s.replies|].id, verdict)])
      else s
    case NoticeClose => if s.closed then s.(visible := true) else s
  }

  function OnSocket(w: Wire, k: nat, step: ServerStep): Wire {
    if k in w.net then w.(net := w.net[k := ServerNext(w.net[k], step)]) else w
  }

  datatype Step =
    | Call(t: nat, call: CallStep)
    | DoCancel
    | DoClose
    | Server(k: nat, server: ServerStep)

  function Next(w: Wire, step: Step): Wire {
    match step
    case Call(t, call) => CallNext(w, t, call)
    case DoCancel => Drop(w, Cancel(w.c))
    case DoClose => Drop(w, Close(w.c))
    case Server(k, server) => OnSocket(w, k, server)
  }

  function Run(w: Wire, schedule: seq<Step>): Wire
    decreases |schedule|
  {
    if schedule == [] then w else Run(Next(w, schedule[0]), schedule[1..])
  }
}
