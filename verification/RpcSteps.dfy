/** Every block of every call keeps every clause of the client invariant. What a
    clause needs to know of a block is said once, of its effect. */
module RpcSteps {
  import opened Common
  import opened RpcClientState
  import opened RpcWire
  import opened RpcInvariant

  // ---------------------------------------------------------------- traces

  lemma LastBegunExtends(trace: seq<Event>, e: Event)
    ensures LastBegun(trace + [e]) == if e.ResetBegun? then e.generation else LastBegun(trace)
  {
    assert (trace + [e])[..|trace|] == trace;
  }

  lemma {:induction false} NewestIsLastBegun(trace: seq<Event>)
    ensures forall b: nat | Newest(trace, b) :: trace[b].generation == LastBegun(trace)
    ensures LastBegun(trace) > 0 ==> exists b: nat :: Newest(trace, b)
  {
    if trace != [] {
      var n := |trace| - 1;
      NewestIsLastBegun(trace[..n]);
      assert forall b: nat | b < n :: Newest(trace, b) <==> Newest(trace[..n], b) && !trace[n].ResetBegun?;
      assert trace[n].ResetBegun? ==> Newest(trace, n);
    }
  }

  lemma NewestExtends(trace: seq<Event>, e: Event, b: nat)
    requires b < |trace|
    ensures Newest(trace + [e], b) <==> Newest(trace, b) && !e.ResetBegun?
  {
    var longer := trace + [e];
    assert longer[|trace|] == e;
    assert forall i | 0 <= i < |trace| :: trace[i] == longer[i];
  }

  lemma ConfirmedExtends(trace: seq<Event>, e: Event)
    requires e.ResetAcknowledged? ==> e.generation == LastBegun(trace) > 0
    ensures Confirmed(trace + [e]) <==> !e.ResetBegun? && (e.ResetAcknowledged? || Confirmed(trace))
  {
    var longer := trace + [e];
    NewestIsLastBegun(trace);
    assert longer[|trace|] == e;
    forall b: nat | b < |trace| ensures Newest(longer, b) <==> Newest(trace, b) && !e.ResetBegun? {
      NewestExtends(trace, e, b);
    }
    if Confirmed(trace) && !e.ResetBegun? {
      var b: nat, a: nat :| Newest(trace, b) && b < a < |trace| && trace[a] == ResetAcknowledged(trace[b].generation);
      assert Newest(longer, b) && longer[a] == ResetAcknowledged(longer[b].generation);
    }
    if e.ResetAcknowledged? {
      var b: nat :| Newest(trace, b);
      assert Newest(longer, b) && longer[|trace|] == ResetAcknowledged(longer[b].generation);
    }
    if e.ResetBegun? {
      assert Newest(longer, |trace|);
    } else if !e.ResetAcknowledged? && Confirmed(longer) {
      var b: nat, a: nat :| Newest(longer, b) && b < a < |longer| && longer[a] == ResetAcknowledged(longer[b].generation);
      assert Newest(trace, b) && trace[a] == ResetAcknowledged(trace[b].generation);
    }
  }

  // ---------------------------------------------------------------- what blocks do

  /** The request lock is only taken when free. */
  predicate TakesLockFairly(w: Wire, t: nat, e: Effect) {
    Holds(e.pc) ==> w.lock == Some(t) || w.lock.None?
  }

  predicate Begins(e: Effect) {
    e.event.Some? && e.event.value.ResetBegun?
  }

  predicate Acknowledges(e: Effect) {
    e.event.Some? && e.event.value.ResetAcknowledged?
  }

  /** How a block may touch the generation, the poison flag and the reset it runs for. */
  predicate ResetDiscipline(w: Wire, t: nat, e: Effect) {
    var was := PcOf(w, t);
    && e.c.generation == w.c.generation + (if Invalidates(e.event) then 1 else 0)
    && (Begins(e) ==> e.event == Some(ResetBegun(e.c.generation)) && e.pc == ResetWaiting(e.c.generation))
    && (ActiveReset(e.pc) && !Begins(e) ==> ActiveReset(was) && was.generation == e.pc.generation)
    && (Acknowledges(e) ==> was == ResetAcked(w.c.generation) && e.event == Some(ResetAcknowledged(w.c.generation)))
    && e.c.resetRequired == (if Begins(e) then true
                             else if Acknowledges(e) then false
                             else if was == ResetBroken(w.c.generation) then true
                             else w.c.resetRequired)
    && (was == ResetBroken(w.c.generation) || Acknowledges(e) ==> e.pc.Done?)
    && (was == ResetBroken(w.c.generation) ==> e.event == Some(Invalidated))
  }

  /** How a block may admit or continue an inference. */
  predicate InferDiscipline(w: Wire, t: nat, e: Effect) {
    var was := PcOf(w, t);
    && (e.event.Some? && e.event.value.Admitted? ==>
          e.event == Some(Admitted(t)) && !w.c.resetRequired && e.pc == Holding(InferKind, w.c.generation))
    && (AdmittedInfer(e.pc) && e.event != Some(Admitted(t)) ==>
          AdmittedInfer(was) && was.generation == e.pc.generation)
    && (AdmittedInfer(was) && e.event == Some(Admitted(t)) ==> false)
  }

  /** How a block may touch the published socket and its traffic. */
  predicate SocketDiscipline(w: Wire, t: nat, e: Effect) {
    var was := PcOf(w, t);
    && (e.c.socket == w.c.socket || e.c.socket.None? || (e.io.Publish? && w.c.socket.None?))
    && (e.io.Publish? ==> e.io.k !in w.net && e.c.socket == Some(e.io.k) && e.c.generation == w.c.generation)
    && (Invalidates(e.event) ==> e.c.socket.None?)
    && (e.io.Transmit? || e.io.ReadReply? ==> e.c == w.c)
    && (e.io.Transmit? ==> was.Sending? && was.sock == e.io.k && e.io.k in w.net && !w.net[e.io.k].closed)
    && (e.io.ReadReply? ==>
          && was.Receiving? && was.sock == e.io.k && e.io.k in w.net
          && w.net[e.io.k].received < |w.net[e.io.k].replies|
          && e.pc == Judging(was.kind, was.generation, was.id, w.net[e.io.k].replies[w.net[e.io.k].received]))
    && (e.pc.Judging? ==> e.io.ReadReply?)
    && (e.pc.Sending? ==> e.c.socket == Some(e.pc.sock) && e.pc.generation == e.c.generation == w.c.generation)
    && (e.pc.Receiving? ==>
          e.io.Transmit? && e.pc.sock == e.io.k && e.pc.generation == was.generation && e.pc.id == w.nextFrame)
  }

  predicate ClosingFailure(pc: Pc, generation: nat) {
    pc.Broken? && pc.generation == generation && !pc.how.ServerError? && !pc.how.Escaped?
  }

  /** A frame left unanswered is left to a handler that closes the connection. */
  predicate CleanupDiscipline(w: Wire, t: nat, e: Effect) {
    var was := PcOf(w, t);
    && (e.io.Transmit? && !e.pc.Receiving? ==>
          was.Sending? && (ClosingFailure(e.pc, was.generation) || e.pc == ResetBroken(was.generation)))
    && (was.Receiving? && !e.io.ReadReply? ==>
          ClosingFailure(e.pc, was.generation) || e.pc == ResetBroken(was.generation))
    && (ClosingFailure(was, w.c.generation) || was == ResetBroken(w.c.generation) ==> e.c.socket.None?)
  }

  /** Starting and ending an attempt are each counted once. */
  predicate TallyDiscipline(w: Wire, t: nat, e: Effect) {
    Balance(e.c.tallies) - Owes(e.pc) == Balance(w.c.tallies) - Owes(PcOf(w, t))
  }

  lemma BlocksTakeLockFairly(w: Wire, t: nat, step: CallStep)
    requires Locked(w.lock, w.calls) && CallEffect(w, t, step).Some?
    ensures TakesLockFairly(w, t, CallEffect(w, t, step).value)
  {
  }

  lemma BlocksKeepResetDiscipline(w: Wire, t: nat, step: CallStep)
    requires CallEffect(w, t, step).Some?
    ensures ResetDiscipline(w, t, CallEffect(w, t, step).value)
  {
  }

  lemma BlocksKeepInferDiscipline(w: Wire, t: nat, step: CallStep)
    requires CallEffect(w, t, step).Some?
    ensures InferDiscipline(w, t, CallEffect(w, t, step).value)
  {
  }

  lemma BlocksKeepSocketDiscipline(w: Wire, t: nat, step: CallStep)
    requires CallEffect(w, t, step).Some?
    ensures SocketDiscipline(w, t, CallEffect(w, t, step).value)
  {
  }

  lemma BlocksKeepCleanupDiscipline(w: Wire, t: nat, step: CallStep)
    requires CallEffect(w, t, step).Some?
    ensures CleanupDiscipline(w, t, CallEffect(w, t, step).value)
  {
  }

  lemma BlocksKeepTallyDiscipline(w: Wire, t: nat, step: CallStep)
    requires CallEffect(w, t, step).Some?
    ensures TallyDiscipline(w, t, CallEffect(w, t, step).value)
  {
  }

  // ---------------------------------------------------------------- what the clauses survive

  lemma PerformKeepsLocked(w: Wire, t: nat, e: Effect)
    requires Locked(w.lock, w.calls) && TakesLockFairly(w, t, e)
    ensures var v := Perform(w, t, e); Locked(v.lock, v.calls)
  {
  }

  lemma PerformKeepsResets(w: Wire, t: nat, e: Effect)
    requires ResetsDistinct(w.calls) && ResetsBlock(w.c, w.calls, LastBegun(w.trace)) && ResetDiscipline(w, t, e)
    ensures var v := Perform(w, t, e); ResetsDistinct(v.calls) && ResetsBlock(v.c, v.calls, LastBegun(v.trace))
  {
    if e.event.Some? {
      LastBegunExtends(w.trace, e.event.value);
    }
  }

  lemma PerformKeepsFailClosed(w: Wire, t: nat, e: Effect)
    requires FailClosed(w.c, w.trace) && ResetsBlock(w.c, w.calls, LastBegun(w.trace)) && ResetDiscipline(w, t, e)
    ensures var v := Perform(w, t, e); FailClosed(v.c, v.trace)
  {
    if e.event.Some? {
      ConfirmedExtends(w.trace, e.event.value);
    }
  }

  lemma PerformKeepsInferences(w: Wire, t: nat, e: Effect)
    requires InferencesCurrent(w.c, w.calls, w.admitted, w.trace)
    requires ResetsBlock(w.c, w.calls, LastBegun(w.trace))
    requires ResetDiscipline(w, t, e) && InferDiscipline(w, t, e)
    ensures var v := Perform(w, t, e); InferencesCurrent(v.c, v.calls, v.admitted, v.trace)
  {
  }

  lemma PerformKeepsNetwork(w: Wire, t: nat, e: Effect)
    requires Published(w.c, w.net) && Orderly(w.net)
    requires ResetDiscipline(w, t, e) && SocketDiscipline(w, t, e)
    ensures var v := Perform(w, t, e); Published(v.c, v.net) && Orderly(v.net)
  {
  }

  lemma PerformKeepsSettled(w: Wire, t: nat, e: Effect)
    requires Locked(w.lock, w.calls) && TakesLockFairly(w, t, e)
    requires Settled(w.c.tallies, w.lock, w.calls) && TallyDiscipline(w, t, e)
    ensures var v := Perform(w, t, e); Settled(v.c.tallies, v.lock, v.calls)
  {
  }

  /** A call about to send on an open connection finds every earlier frame answered. */
  lemma SendersAreClean(w: Wire, t: nat)
    requires Inv(w) && PcOf(w, t).Sending? && PcOf(w, t).sock in w.net && !w.net[PcOf(w, t).sock].closed
    ensures !Dirty(w.net[PcOf(w, t).sock])
  {
    var pc := w.calls[t];
    assert UsesOwnSocket(pc, w.net);
    assert w.lock == Some(t);
    assert pc.generation == w.c.generation;
    assert AdmittedInfer(pc) ==> !w.c.resetRequired;
    forall u | u in w.calls ensures w.calls[u] != ResetBroken(w.c.generation) {
      assert ActiveReset(w.calls[u]) && u != t ==> !ActiveReset(pc) || w.calls[u].generation != pc.generation;
    }
  }

  lemma OthersKeepUse(w: Wire, t: nat, e: Effect, u: nat)
    requires Locked(w.lock, w.calls) && TakesLockFairly(w, t, e) && SocketDiscipline(w, t, e)
    requires u in w.calls && u != t && UsesOwnSocket(w.calls[u], w.net)
    ensures UsesOwnSocket(w.calls[u], Perform(w, t, e).net)
  {
  }

  lemma CallerKeepsUse(w: Wire, t: nat, e: Effect)
    requires Published(w.c, w.net) && Orderly(w.net) && UsesOwnSocket(PcOf(w, t), w.net)
    requires SocketDiscipline(w, t, e) && e.c.generation >= w.c.generation
    requires e.io.Transmit? ==> !Dirty(w.net[e.io.k])
    ensures UsesOwnSocket(e.pc, Perform(w, t, e).net)
  {
    if e.io.ReadReply? {
      assert OrderlySock(w.net[e.io.k]);
    }
  }

  lemma PerformKeepsUse(w: Wire, t: nat, e: Effect)
    requires Inv(w) && TakesLockFairly(w, t, e) && ResetDiscipline(w, t, e) && SocketDiscipline(w, t, e)
    ensures var v := Perform(w, t, e); forall u | u in v.calls :: UsesOwnSocket(v.calls[u], v.net)
  {
    var v := Perform(w, t, e);
    if e.io.Transmit? {
      SendersAreClean(w, t);
    }
    assert UsesOwnSocket(PcOf(w, t), w.net);
    CallerKeepsUse(w, t, e);
    forall u | u in v.calls && u != t ensures UsesOwnSocket(v.calls[u], v.net) {
      OthersKeepUse(w, t, e, u);
    }
  }

  lemma PerformKeepsClean(w: Wire, t: nat, e: Effect)
    requires Inv(w) && TakesLockFairly(w, t, e) && ResetDiscipline(w, t, e) && SocketDiscipline(w, t, e)
    requires CleanupDiscipline(w, t, e)
    ensures var v := Perform(w, t, e); Clean(v.c, v.lock, v.calls, v.net)
  {
    var v := Perform(w, t, e);
    assert UsesOwnSocket(PcOf(w, t), w.net);
    if v.c.socket.Some? && v.c.socket.value in v.net && Dirty(v.net[v.c.socket.value]) {
      var k := v.c.socket.value;
      assert v.c.generation == w.c.generation;
      if e.io.Transmit? {
        assert Excused(v.c, v.lock, v.calls, k) by {
          assert v.calls[t] == e.pc;
        }
      } else {
        assert k in w.net && Dirty(w.net[k]) && w.c.socket == Some(k);
        if u: nat :| u in w.calls && w.calls[u] == ResetBroken(w.c.generation) {
          assert u != t && v.calls[u] == ResetBroken(v.c.generation);
        } else {
          var u := w.lock.value;
          assert HolderExcuses(w.calls[u], w.c.generation, k);
          if u == t {
            assert v.calls[t] == e.pc;
          } else {
            assert v.lock == w.lock && v.calls[u] == w.calls[u];
          }
        }
      }
    }
  }

  lemma CallKeepsInv(w: Wire, t: nat, step: CallStep)
    requires Inv(w)
    ensures Inv(CallNext(w, t, step))
  {
    if CallEffect(w, t, step).Some? {
      var e := CallEffect(w, t, step).value;
      BlocksTakeLockFairly(w, t, step);
      BlocksKeepResetDiscipline(w, t, step);
      BlocksKeepInferDiscipline(w, t, step);
      BlocksKeepSocketDiscipline(w, t, step);
      BlocksKeepCleanupDiscipline(w, t, step);
      BlocksKeepTallyDiscipline(w, t, step);
      PerformKeepsLocked(w, t, e);
      PerformKeepsResets(w, t, e);
      PerformKeepsFailClosed(w, t, e);
      PerformKeepsInferences(w, t, e);
      PerformKeepsNetwork(w, t, e);
      PerformKeepsUse(w, t, e);
      PerformKeepsClean(w, t, e);
      PerformKeepsSettled(w, t, e);
    }
  }

  predicate IsDrop(before: Client, after: Client) {
    after == Cancel(before) || after == Close(before)
  }

  lemma DropKeepsNetwork(w: Wire, c: Client)
    requires Published(w.c, w.net) && Orderly(w.net) && IsDrop(w.c, c)
    ensures var v := Drop(w, c); Published(v.c, v.net) && Orderly(v.net)
  {
  }

  lemma DropKeepsUse(w: Wire, c: Client, pc: Pc)
    requires UsesOwnSocket(pc, w.net) && IsDrop(w.c, c)
    ensures UsesOwnSocket(pc, Drop(w, c).net)
  {
  }

  lemma DropKeepsFailClosed(w: Wire, c: Client)
    requires FailClosed(w.c, w.trace) && IsDrop(w.c, c)
    ensures var v := Drop(w, c); FailClosed(v.c, v.trace) && LastBegun(v.trace) == LastBegun(w.trace)
  {
    LastBegunExtends(w.trace, Invalidated);
    ConfirmedExtends(w.trace, Invalidated);
  }

  lemma DropKeepsInv(w: Wire, c: Client)
    requires Inv(w) && IsDrop(w.c, c)
    ensures Inv(Drop(w, c))
  {
    var v := Drop(w, c);
    DropKeepsNetwork(w, c);
    DropKeepsFailClosed(w, c);
    forall t | t in v.calls ensures UsesOwnSocket(v.calls[t], v.net) {
      DropKeepsUse(w, c, w.calls[t]);
    }
  }

  lemma ServerKeepsNetwork(w: Wire, k: nat, step: ServerStep)
    requires Published(w.c, w.net) && Orderly(w.net)
    ensures var v := OnSocket(w, k, step); Published(v.c, v.net) && Orderly(v.net)
  {
    if k in w.net {
      assert OrderlySock(w.net[k]);
    }
  }

  lemma ServerKeepsUse(w: Wire, k: nat, step: ServerStep, pc: Pc)
    requires UsesOwnSocket(pc, w.net)
    ensures UsesOwnSocket(pc, OnSocket(w, k, step).net)
  {
  }

  lemma ServerKeepsInv(w: Wire, k: nat, step: ServerStep)
    requires Inv(w)
    ensures Inv(OnSocket(w, k, step))
  {
    var v := OnSocket(w, k, step);
    ServerKeepsNetwork(w, k, step);
    forall t | t in v.calls ensures UsesOwnSocket(v.calls[t], v.net) {
      ServerKeepsUse(w, k, step, w.calls[t]);
    }
  }

  lemma StepKeepsInv(w: Wire, step: Step)
    requires Inv(w)
    ensures Inv(Next(w, step))
  {
    match step
    case Call(t, call) => CallKeepsInv(w, t, call);
    case DoCancel => DropKeepsInv(w, Cancel(w.c));
    case DoClose => DropKeepsInv(w, Close(w.c));
    case Server(k, server) => ServerKeepsInv(w, k, server);
  }

  lemma {:induction false} RunKeepsInv(w: Wire, schedule: seq<Step>)
    requires Inv(w)
    ensures Inv(Run(w, schedule))
    decreases |schedule|
  {
    if schedule != [] {
      StepKeepsInv(w, schedule[0]);
      RunKeepsInv(Next(w, schedule[0]), schedule[1..]);
    }
  }
}
