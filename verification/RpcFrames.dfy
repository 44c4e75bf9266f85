/** What the frames on the network say about the calls that sent them. */
module RpcFrames {
  import opened Common
  import opened RpcClientState
  import opened RpcWire
  import opened RpcInvariant
  import opened RpcSteps

  // ---------------------------------------------------------------- clauses

  /** Resets begin with growing generations, none beyond the client's. */
  ghost predicate BegunInOrder(trace: seq<Event>, generation: nat) {
    && (forall i | 0 <= i < |trace| && trace[i].ResetBegun? :: trace[i].generation <= generation)
    && (forall i, j | 0 <= i < j < |trace| && trace[i].ResetBegun? && trace[j].ResetBegun? ::
          trace[i].generation < trace[j].generation)
  }

  /** A reset whose frame has not been sent yet. */
  predicate Unsent(pc: Pc) {
    pc.ResetWaiting? || ((pc.Holding? || pc.Connecting? || pc.Sending?) && pc.kind.ResetKind?)
  }

  ghost predicate SentReset(net: map<nat, Sock>, generation: nat) {
    exists k, i ::
      && k in net && 0 <= i < |net[k].sent|
      && net[k].sent[i].kind.ResetKind? && net[k].sent[i].generation == generation
  }

  /** An affirmative reply to a frame of this kind and generation, and of this identity
      if one is given. */
  predicate IsAnswer(s: Sock, i: int, kind: Kind, generation: nat, id: Option<nat>) {
    && 0 <= i < |s.replies| && i < |s.sent|
    && s.replies[i].verdict.Ok? && s.sent[i].kind == kind && s.sent[i].generation == generation
    && (id.Some? ==> s.sent[i].id == id.value)
  }

  ghost predicate Answered(net: map<nat, Sock>, kind: Kind, generation: nat, id: Option<nat>) {
    exists k, i :: k in net && IsAnswer(net[k], i, kind, generation, id)
  }

  ghost predicate HeldBack(pc: Pc, net: map<nat, Sock>) {
    Unsent(pc) ==> !SentReset(net, pc.generation)
  }

  predicate LastIsOwn(pc: Pc, net: map<nat, Sock>) {
    pc.Receiving? && pc.sock in net && net[pc.sock].sent != [] ==>
      net[pc.sock].sent[|net[pc.sock].sent| - 1].kind == pc.kind
  }

  /** A call that has read an affirmative reply. */
  predicate Concluding(pc: Pc) {
    pc.ResetAcked? || pc.Accepting? || (pc.Judging? && pc.reply.verdict.Ok?)
  }

  function KindOf(pc: Pc): Kind
    requires Concluding(pc)
  {
    if pc.ResetAcked? then ResetKind else if pc.Accepting? then InferKind else pc.kind
  }

  /** Resets are told apart by their generation, inferences by their frame. */
  function IdOf(pc: Pc): Option<nat>
    requires Concluding(pc)
  {
    if KindOf(pc).ResetKind? then None else Some(pc.id)
  }

  ghost predicate HasAnswer(pc: Pc, net: map<nat, Sock>) {
    Concluding(pc) ==> Answered(net, KindOf(pc), pc.generation, IdOf(pc))
  }

  ghost predicate CallOnRecord(pc: Pc, net: map<nat, Sock>, trace: seq<Event>) {
    && (ActiveReset(pc) ==> ResetBegun(pc.generation) in trace)
    && HeldBack(pc, net)
    && LastIsOwn(pc, net)
    && HasAnswer(pc, net)
  }

  /** The newest reset when an inference frame was sent had been acknowledged, and no
      other one begins until after the frame's generation. */
  ghost predicate Grounds(trace: seq<Event>, generation: nat, basis: nat) {
    && basis <= generation && ResetAcknowledged(basis) in trace
    && forall i | 0 <= i < |trace| && trace[i].ResetBegun? ::
         trace[i].generation <= basis || trace[i].generation > generation
  }

  ghost predicate Grounded(trace: seq<Event>, generation: nat) {
    exists basis: nat :: Grounds(trace, generation, basis)
  }

  /** Every connection of an earlier generation was closed before the frame was sent. */
  predicate Fenced(net: map<nat, Sock>, f: Frame) {
    forall k | k in net && net[k].generation < f.generation :: k in f.closedBefore
  }

  ghost predicate FrameOnRecord(f: Frame, k: nat, net: map<nat, Sock>, trace: seq<Event>)
    requires k in net
  {
    && f.generation == net[k].generation
    && Fenced(net, f)
    && (f.kind.ResetKind? ==> ResetBegun(f.generation) in trace)
    && (f.kind.InferKind? ==> Grounded(trace, f.generation))
  }

  ghost predicate OneFramePerReset(net: map<nat, Sock>) {
    forall k, i, l, j |
      && k in net && 0 <= i < |net[k].sent| && l in net && 0 <= j < |net[l].sent|
      && net[k].sent[i].kind.ResetKind? && net[l].sent[j].kind.ResetKind?
      && net[k].sent[i].generation == net[l].sent[j].generation :: k == l && i == j
  }

  /** No two frames share an identity. */
  ghost predicate DistinctIds(net: map<nat, Sock>, next: nat) {
    && (forall k, i | k in net && 0 <= i < |net[k].sent| :: net[k].sent[i].id < next)
    && (forall k, i, l, j |
          k in net && 0 <= i < |net[k].sent| && l in net && 0 <= j < |net[l].sent|
          && net[k].sent[i].id == net[l].sent[j].id :: k == l && i == j)
  }

  ghost predicate FramesOnRecord(net: map<nat, Sock>, trace: seq<Event>) {
    forall k, i | k in net && 0 <= i < |net[k].sent| :: FrameOnRecord(net[k].sent[i], k, net, trace)
  }

  ghost predicate EventAnswered(e: Event, net: map<nat, Sock>) {
    && (e.ResetAcknowledged? ==> Answered(net, ResetKind, e.generation, None))
    && (e.Accepted? ==> Answered(net, InferKind, e.generation, Some(e.id)))
  }

  ghost predicate EventsAnswered(trace: seq<Event>, net: map<nat, Sock>) {
    forall i | 0 <= i < |trace| :: EventAnswered(trace[i], net)
  }

  ghost predicate OnRecord(w: Wire) {
    && BegunInOrder(w.trace, w.c.generation)
    && (forall t | t in w.calls :: CallOnRecord(w.calls[t], w.net, w.trace))
    && FramesOnRecord(w.net, w.trace)
    && OneFramePerReset(w.net)
    && DistinctIds(w.net, w.nextFrame)
    && EventsAnswered(w.trace, w.net)
  }

  // ---------------------------------------------------------------- growth of the network

  /** What one end of a connection may see change while the client runs. */
  predicate Grows(a: Sock, b: Sock) {
    && b.generation == a.generation && b.taken == a.taken && b.replies == a.replies && b.visible == a.visible
    && a.sent <= b.sent && (a.closed ==> b.closed)
  }

  ghost predicate NetGrows(net: map<nat, Sock>, after: map<nat, Sock>) {
    && (forall k | k in net :: k in after && Grows(net[k], after[k]))
    && (forall k | k in after && k !in net :: after[k].taken == 0 && after[k].replies == [])
  }

  lemma PerformGrows(w: Wire, t: nat, e: Effect)
    requires SocketDiscipline(w, t, e)
    ensures NetGrows(w.net, Perform(w, t, e).net)
  {
  }

  lemma DropGrows(w: Wire, c: Client)
    ensures NetGrows(w.net, Drop(w, c).net)
  {
  }

  lemma AnsweredGrows(net: map<nat, Sock>, after: map<nat, Sock>, kind: Kind, generation: nat, id: Option<nat>)
    requires NetGrows(net, after) && Answered(net, kind, generation, id)
    ensures Answered(after, kind, generation, id)
  {
    var k, i :| k in net && IsAnswer(net[k], i, kind, generation, id);
    assert k in after && Grows(net[k], after[k]) && IsAnswer(after[k], i, kind, generation, id);
  }

  lemma HasAnswerGrows(pc: Pc, net: map<nat, Sock>, after: map<nat, Sock>)
    requires NetGrows(net, after) && HasAnswer(pc, net)
    ensures HasAnswer(pc, after)
  {
    if Concluding(pc) {
      AnsweredGrows(net, after, KindOf(pc), pc.generation, IdOf(pc));
    }
  }

  lemma EventAnsweredGrows(e: Event, net: map<nat, Sock>, after: map<nat, Sock>)
    requires NetGrows(net, after) && EventAnswered(e, net)
    ensures EventAnswered(e, after)
  {
    if e.ResetAcknowledged? {
      AnsweredGrows(net, after, ResetKind, e.generation, None);
    } else if e.Accepted? {
      AnsweredGrows(net, after, InferKind, e.generation, Some(e.id));
    }
  }

  // ---------------------------------------------------------------- growth of the trace

  lemma GroundedGrows(trace: seq<Event>, e: Event, generation: nat)
    requires Grounded(trace, generation) && (e.ResetBegun? ==> e.generation > generation)
    ensures Grounded(trace + [e], generation)
  {
    var basis :| Grounds(trace, generation, basis);
    assert Grounds(trace + [e], generation, basis);
  }

  /** An admitted inference of the current generation is grounded. */
  lemma ConfirmedGrounds(trace: seq<Event>, generation: nat)
    requires Confirmed(trace) && BegunInOrder(trace, generation)
    ensures Grounded(trace, generation)
  {
    var b: nat, a: nat :| Newest(trace, b) && b < a < |trace| && trace[a] == ResetAcknowledged(trace[b].generation);
    assert Grounds(trace, generation, trace[b].generation);
  }

  // ---------------------------------------------------------------- blocks

  /** How a block may carry a reset or a reply forward. */
  predicate FrameDiscipline(w: Wire, t: nat, e: Effect) {
    var was := PcOf(w, t);
    && (e.io.Transmit? ==> was.Sending? && e.io.kind == was.kind && !Unsent(e.pc))
    && (e.pc.Receiving? ==> was.Sending? && e.pc.kind == was.kind && e.io.Transmit?)
    && (Unsent(e.pc) && !Begins(e) ==> Unsent(was) && was.generation == e.pc.generation)
    && (e.pc.ResetAcked? || e.pc.Accepting? ==>
          && was.Judging? && was.reply.verdict.Ok? && was.generation == e.pc.generation
          && (e.pc.ResetAcked? ==> was.kind.ResetKind?)
          && (e.pc.Accepting? ==> was.kind.InferKind? && was.id == e.pc.id))
    && (e.event.Some? && e.event.value.Accepted? ==>
          was.Accepting? && was.generation == e.event.value.generation && was.id == e.event.value.id)
  }

  lemma BlocksKeepFrameDiscipline(w: Wire, t: nat, step: CallStep)
    requires CallEffect(w, t, step).Some?
    ensures FrameDiscipline(w, t, CallEffect(w, t, step).value)
  {
  }

  lemma PerformKeepsOrder(w: Wire, t: nat, e: Effect)
    requires BegunInOrder(w.trace, w.c.generation) && ResetDiscipline(w, t, e)
    ensures var v := Perform(w, t, e); BegunInOrder(v.trace, v.c.generation)
  {
  }

  /** The frame a block sends. */
  function NewFrame(w: Wire, e: Effect): Frame
    requires e.io.Transmit? && e.io.k in w.net
  {
    Frame(w.nextFrame, e.io.kind, w.net[e.io.k].generation, ClosedSockets(w.net))
  }

  lemma NewFrameOnRecord(w: Wire, t: nat, e: Effect)
    requires Inv(w) && OnRecord(w) && SocketDiscipline(w, t, e) && FrameDiscipline(w, t, e) && e.io.Transmit?
    ensures FrameOnRecord(NewFrame(w, e), e.io.k, w.net, w.trace)
    ensures NewFrame(w, e).generation == PcOf(w, t).generation
  {
    var pc := w.calls[t];
    assert UsesOwnSocket(pc, w.net) && CallOnRecord(pc, w.net, w.trace);
    if e.io.kind.InferKind? {
      assert AdmittedInfer(pc) && !w.c.resetRequired;
      ConfirmedGrounds(w.trace, w.c.generation);
    }
  }

  /** A frame already on record stays so when the client moves on. */
  lemma FrameStaysOnRecord(w: Wire, t: nat, e: Effect, f: Frame, k: nat)
    requires Published(w.c, w.net) && ResetDiscipline(w, t, e) && SocketDiscipline(w, t, e)
    requires k in w.net && FrameOnRecord(f, k, w.net, w.trace)
    ensures var v := Perform(w, t, e); k in v.net && FrameOnRecord(f, k, v.net, v.trace)
  {
    if e.event.Some? && f.kind.InferKind? {
      GroundedGrows(w.trace, e.event.value, f.generation);
    }
  }

  lemma PerformKeepsFrames(w: Wire, t: nat, e: Effect)
    requires Published(w.c, w.net) && FramesOnRecord(w.net, w.trace)
    requires ResetDiscipline(w, t, e) && SocketDiscipline(w, t, e)
    requires e.io.Transmit? ==> FrameOnRecord(NewFrame(w, e), e.io.k, w.net, w.trace)
    ensures var v := Perform(w, t, e); FramesOnRecord(v.net, v.trace)
  {
    var v := Perform(w, t, e);
    if e.io.Transmit? {
      FrameStaysOnRecord(w, t, e, NewFrame(w, e), e.io.k);
    }
    forall k, i | k in v.net && 0 <= i < |v.net[k].sent| ensures FrameOnRecord(v.net[k].sent[i], k, v.net, v.trace) {
      if k in w.net && i < |w.net[k].sent| {
        assert v.net[k].sent[i] == w.net[k].sent[i];
        FrameStaysOnRecord(w, t, e, w.net[k].sent[i], k);
      }
    }
  }

  /** The only reset frame that can be new is the one just sent. */
  lemma NewResetFrames(w: Wire, t: nat, e: Effect, generation: nat)
    requires SocketDiscipline(w, t, e) && SentReset(Perform(w, t, e).net, generation)
    ensures SentReset(w.net, generation)
         || (e.io.Transmit? && e.io.kind.ResetKind? && NewFrame(w, e).generation == generation)
  {
    var net := Perform(w, t, e).net;
    var k, i :| k in net && 0 <= i < |net[k].sent|
      && net[k].sent[i].kind.ResetKind? && net[k].sent[i].generation == generation;
    if k in w.net && i < |w.net[k].sent| {
      assert net[k].sent[i] == w.net[k].sent[i];
    }
  }

  lemma PerformKeepsOneFrame(w: Wire, t: nat, e: Effect)
    requires OneFramePerReset(w.net) && SocketDiscipline(w, t, e)
    requires e.io.Transmit? && e.io.kind.ResetKind? ==> !SentReset(w.net, NewFrame(w, e).generation)
    ensures OneFramePerReset(Perform(w, t, e).net)
  {
    var net := Perform(w, t, e).net;
    forall k, i, l, j |
      && k in net && 0 <= i < |net[k].sent| && l in net && 0 <= j < |net[l].sent|
      && net[k].sent[i].kind.ResetKind? && net[l].sent[j].kind.ResetKind?
      && net[k].sent[i].generation == net[l].sent[j].generation
      ensures k == l && i == j
    {
      var oldI := k in w.net && i < |w.net[k].sent|;
      var oldJ := l in w.net && j < |w.net[l].sent|;
      if oldI {
        assert net[k].sent[i] == w.net[k].sent[i];
      }
      if oldJ {
        assert net[l].sent[j] == w.net[l].sent[j];
      }
    }
  }

  /** A frame with an identity from before is a frame from before. */
  lemma OldIdsAreOldFrames(w: Wire, t: nat, e: Effect, k: nat, i: nat)
    requires DistinctIds(w.net, w.nextFrame) && SocketDiscipline(w, t, e)
    requires var net := Perform(w, t, e).net; k in net && i < |net[k].sent|
    ensures var v := Perform(w, t, e);
            && v.net[k].sent[i].id < v.nextFrame
            && (if k in w.net && i < |w.net[k].sent| then v.net[k].sent[i] == w.net[k].sent[i]
                else v.net[k].sent[i].id == w.nextFrame && e.io.Transmit? && e.io.k == k && i == |w.net[k].sent|)
  {
  }

  lemma PerformKeepsIds(w: Wire, t: nat, e: Effect)
    requires DistinctIds(w.net, w.nextFrame) && SocketDiscipline(w, t, e)
    ensures var v := Perform(w, t, e); DistinctIds(v.net, v.nextFrame)
  {
    var v := Perform(w, t, e);
    forall k, i, l, j |
      k in v.net && 0 <= i < |v.net[k].sent| && l in v.net && 0 <= j < |v.net[l].sent|
      && v.net[k].sent[i].id == v.net[l].sent[j].id
      ensures k == l && i == j
    {
      OldIdsAreOldFrames(w, t, e, k, i);
      OldIdsAreOldFrames(w, t, e, l, j);
    }
    forall k, i | k in v.net && 0 <= i < |v.net[k].sent| ensures v.net[k].sent[i].id < v.nextFrame {
      OldIdsAreOldFrames(w, t, e, k, i);
    }
  }

  lemma OthersHoldBack(w: Wire, t: nat, e: Effect, pc: Pc)
    requires SocketDiscipline(w, t, e) && HeldBack(pc, w.net)
    requires Unsent(pc) && e.io.Transmit? && e.io.kind.ResetKind? ==> NewFrame(w, e).generation != pc.generation
    ensures HeldBack(pc, Perform(w, t, e).net)
  {
    if Unsent(pc) && SentReset(Perform(w, t, e).net, pc.generation) {
      NewResetFrames(w, t, e, pc.generation);
      assert false;
    }
  }

  lemma OthersStayOnRecord(w: Wire, t: nat, e: Effect, pc: Pc)
    requires CallOnRecord(pc, w.net, w.trace) && SocketDiscipline(w, t, e)
    requires e.io.Transmit? ==>
               !pc.Receiving?
               && (Unsent(pc) && e.io.kind.ResetKind? ==> NewFrame(w, e).generation != pc.generation)
    ensures var v := Perform(w, t, e); CallOnRecord(pc, v.net, v.trace)
  {
    var v := Perform(w, t, e);
    OthersHoldBack(w, t, e, pc);
    PerformGrows(w, t, e);
    HasAnswerGrows(pc, w.net, v.net);
  }

  /** A call that has just read an affirmative reply to its own frame. */
  lemma ReadReplyAnswers(w: Wire, t: nat, e: Effect)
    requires SocketDiscipline(w, t, e) && e.io.ReadReply? && Concluding(e.pc)
    requires OrderlySock(w.net[e.io.k]) && UsesOwnSocket(PcOf(w, t), w.net)
    requires LastIsOwn(PcOf(w, t), w.net) && FramesOnRecord(w.net, w.trace)
    ensures HasAnswer(e.pc, w.net)
  {
    var s := w.net[e.io.k];
    var f := s.sent[s.received];
    assert FrameOnRecord(f, e.io.k, w.net, w.trace);
    assert IsAnswer(s, s.received, KindOf(e.pc), e.pc.generation, IdOf(e.pc));
  }

  lemma CallerHoldsBack(w: Wire, t: nat, e: Effect)
    requires Published(w.c, w.net) && FramesOnRecord(w.net, w.trace) && HeldBack(PcOf(w, t), w.net)
    requires ResetDiscipline(w, t, e) && SocketDiscipline(w, t, e) && FrameDiscipline(w, t, e)
    ensures HeldBack(e.pc, Perform(w, t, e).net)
  {
    if Unsent(e.pc) && SentReset(Perform(w, t, e).net, e.pc.generation) {
      NewResetFrames(w, t, e, e.pc.generation);
      assert false;
    }
  }

  lemma CallerStaysOnRecord(w: Wire, t: nat, e: Effect)
    requires Inv(w) && OnRecord(w)
    requires ResetDiscipline(w, t, e) && SocketDiscipline(w, t, e) && FrameDiscipline(w, t, e)
    ensures var v := Perform(w, t, e); CallOnRecord(e.pc, v.net, v.trace)
  {
    var v := Perform(w, t, e);
    var was := PcOf(w, t);
    assert CallOnRecord(was, w.net, w.trace) && UsesOwnSocket(was, w.net);
    CallerHoldsBack(w, t, e);
    PerformGrows(w, t, e);
    if Concluding(e.pc) && e.io.ReadReply? {
      assert OrderlySock(w.net[e.io.k]);
      ReadReplyAnswers(w, t, e);
    }
    HasAnswerGrows(e.pc, w.net, v.net);
  }

  lemma PerformKeepsEvents(w: Wire, t: nat, e: Effect)
    requires OnRecord(w) && ResetDiscipline(w, t, e) && SocketDiscipline(w, t, e) && FrameDiscipline(w, t, e)
    ensures var v := Perform(w, t, e); EventsAnswered(v.trace, v.net)
  {
    var v := Perform(w, t, e);
    PerformGrows(w, t, e);
    forall i | 0 <= i < |v.trace| ensures EventAnswered(v.trace[i], v.net) {
      if i == |w.trace| && t in w.calls {
        assert CallOnRecord(w.calls[t], w.net, w.trace);
      }
      EventAnsweredGrows(v.trace[i], w.net, v.net);
    }
  }

  lemma PerformKeepsCalls(w: Wire, t: nat, e: Effect)
    requires Inv(w) && OnRecord(w)
    requires ResetDiscipline(w, t, e) && SocketDiscipline(w, t, e) && FrameDiscipline(w, t, e)
    ensures var v := Perform(w, t, e); forall u | u in v.calls :: CallOnRecord(v.calls[u], v.net, v.trace)
  {
    CallerStaysOnRecord(w, t, e);
    if e.io.Transmit? {
      NewFrameOnRecord(w, t, e);
      assert Holds(w.calls[t]);
    }
    var v := Perform(w, t, e);
    forall u | u in v.calls && u != t ensures CallOnRecord(v.calls[u], v.net, v.trace) {
      OthersStayOnRecord(w, t, e, w.calls[u]);
    }
  }

  lemma PerformKeepsOnRecord(w: Wire, t: nat, e: Effect)
    requires Inv(w) && OnRecord(w)
    requires ResetDiscipline(w, t, e) && SocketDiscipline(w, t, e) && FrameDiscipline(w, t, e)
    ensures OnRecord(Perform(w, t, e))
  {
    if e.io.Transmit? {
      NewFrameOnRecord(w, t, e);
      assert CallOnRecord(w.calls[t], w.net, w.trace);
    }
    PerformKeepsOrder(w, t, e);
    PerformKeepsFrames(w, t, e);
    PerformKeepsOneFrame(w, t, e);
    PerformKeepsIds(w, t, e);
    PerformKeepsEvents(w, t, e);
    PerformKeepsCalls(w, t, e);
  }

  lemma CallKeepsOnRecord(w: Wire, t: nat, step: CallStep)
    requires Inv(w) && OnRecord(w)
    ensures OnRecord(CallNext(w, t, step))
  {
    if CallEffect(w, t, step).Some? {
      BlocksKeepResetDiscipline(w, t, step);
      BlocksKeepSocketDiscipline(w, t, step);
      BlocksKeepFrameDiscipline(w, t, step);
      PerformKeepsOnRecord(w, t, CallEffect(w, t, step).value);
    }
  }

  // ---------------------------------------------------------------- cancel and close

  lemma DropKeepsFrames(w: Wire, c: Client)
    requires FramesOnRecord(w.net, w.trace)
    ensures var v := Drop(w, c); FramesOnRecord(v.net, v.trace)
  {
    var v := Drop(w, c);
    forall k, i | k in v.net && 0 <= i < |v.net[k].sent| ensures FrameOnRecord(v.net[k].sent[i], k, v.net, v.trace) {
      var f := w.net[k].sent[i];
      assert FrameOnRecord(f, k, w.net, w.trace);
      if f.kind.InferKind? {
        GroundedGrows(w.trace, Invalidated, f.generation);
      }
    }
  }

  lemma DropKeepsCalls(w: Wire, c: Client, pc: Pc)
    requires CallOnRecord(pc, w.net, w.trace)
    ensures var v := Drop(w, c); CallOnRecord(pc, v.net, v.trace)
  {
    var v := Drop(w, c);
    DropGrows(w, c);
    HasAnswerGrows(pc, w.net, v.net);
    if Unsent(pc) && SentReset(v.net, pc.generation) {
      assert false;
    }
  }

  lemma DropKeepsOnRecord(w: Wire, c: Client)
    requires OnRecord(w) && IsDrop(w.c, c)
    ensures OnRecord(Drop(w, c))
  {
    var v := Drop(w, c);
    DropGrows(w, c);
    DropKeepsFrames(w, c);
    assert forall k | k in v.net :: k in w.net && v.net[k].sent == w.net[k].sent;
    forall t | t in v.calls ensures CallOnRecord(v.calls[t], v.net, v.trace) {
      DropKeepsCalls(w, c, w.calls[t]);
    }
    forall i | 0 <= i < |v.trace| ensures EventAnswered(v.trace[i], v.net) {
      EventAnsweredGrows(v.trace[i], w.net, v.net);
    }
  }
}
