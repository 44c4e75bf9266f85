/** What holds in every reachable state of the client, over any number of
    concurrent inferences, resets, cancels and closes. */
module RpcInvariant {
  import opened Common
  import opened RpcClientState
  import opened RpcWire

  // ---------------------------------------------------------------- what the trace says

  /** The generation of the most recently begun reset, 0 before the first. */
  function LastBegun(trace: seq<Event>): nat {
    if trace == [] then 0
    else
      var last := trace[|trace| - 1];
      if last.ResetBegun? then last.generation else LastBegun(trace[..|trace| - 1])
  }

  /** Position `b` is where the most recent reset began. */
  ghost predicate Newest(trace: seq<Event>, b: nat) {
    && b < |trace| && trace[b].ResetBegun?
    && forall i | b < i < |trace| :: !trace[i].ResetBegun?
  }

  /** The most recently begun reset has been acknowledged. */
  ghost predicate Confirmed(trace: seq<Event>) {
    exists b: nat, a: nat ::
      Newest(trace, b) && b < a < |trace| && trace[a] == ResetAcknowledged(trace[b].generation)
  }

  /** Nothing invalidated the client after position `since`. */
  predicate Undisturbed(trace: seq<Event>, since: nat) {
    forall i | since < i < |trace| :: !Invalidates(Some(trace[i]))
  }

  // ---------------------------------------------------------------- clauses

  /** The request lock has one holder, the call whose counter says so. */
  ghost predicate Locked(lock: Option<nat>, calls: map<nat, Pc>) {
    && (lock.Some? ==> lock.value in calls)
    && (forall t | t in calls :: Holds(calls[t]) <==> lock == Some(t))
  }

  ghost predicate ResetsDistinct(calls: map<nat, Pc>) {
    forall t, u | t in calls && u in calls && t != u && ActiveReset(calls[t]) && ActiveReset(calls[u]) ::
      calls[t].generation != calls[u].generation
  }

  /** A reset still running, if it is the newest one, keeps inference blocked. */
  ghost predicate ResetsBlock(c: Client, calls: map<nat, Pc>, newest: nat) {
    && newest <= c.generation
    && forall t | t in calls && ActiveReset(calls[t]) ::
         0 < calls[t].generation <= newest && (calls[t].generation == newest ==> c.resetRequired)
  }

  ghost predicate FailClosed(c: Client, trace: seq<Event>) {
    c.resetRequired <==> !Confirmed(trace)
  }

  /** An admitted inference whose generation is still current runs undisturbed. */
  ghost predicate InferencesCurrent(c: Client, calls: map<nat, Pc>, admitted: map<nat, nat>, trace: seq<Event>) {
    forall t | t in calls && AdmittedInfer(calls[t]) ::
      && calls[t].generation <= c.generation
      && t in admitted && admitted[t] < |trace| && trace[admitted[t]] == Admitted(t)
      && (calls[t].generation == c.generation ==> !c.resetRequired && Undisturbed(trace, admitted[t]))
  }

  ghost predicate Published(c: Client, net: map<nat, Sock>) {
    && (forall k | k in net :: net[k].generation <= c.generation && (!net[k].closed ==> c.socket == Some(k)))
    && (c.socket.Some? ==>
          var k := c.socket.value;
          k in net && !net[k].closed && net[k].generation == c.generation)
  }

  ghost predicate OrderlySock(s: Sock) {
    && s.received <= |s.replies| <= s.taken <= |s.sent|
    && forall i | 0 <= i < |s.replies| :: s.replies[i].id == s.sent[i].id
  }

  ghost predicate Orderly(net: map<nat, Sock>) {
    forall k | k in net :: OrderlySock(net[k])
  }

  /** A call that waits for a reply waits for the answer to the last frame sent. */
  predicate Awaits(s: Sock, id: nat) {
    s.sent != [] && s.sent[|s.sent| - 1].id == id && s.received == |s.sent| - 1
  }

  /** The connection a call is using belongs to the call's generation, and the
      reply it reads is the answer to its own frame. */
  ghost predicate UsesOwnSocket(pc: Pc, net: map<nat, Sock>) {
    && (pc.Sending? || pc.Receiving? ==> pc.sock in net && net[pc.sock].generation == pc.generation)
    && (pc.Receiving? ==> Awaits(net[pc.sock], pc.id))
    && (pc.Judging? ==> pc.reply.id == pc.id)
  }

  /** The holder of the request lock is waiting for a reply on `k`, or failed at a
      point where its handler is about to close the current connection. */
  predicate HolderExcuses(pc: Pc, generation: nat, k: nat) {
    || (pc.Receiving? && pc.sock == k)
    || (pc.Broken? && pc.generation == generation && !pc.how.ServerError? && !pc.how.Escaped?)
  }

  ghost predicate Excused(c: Client, lock: Option<nat>, calls: map<nat, Pc>, k: nat) {
    || (lock.Some? && lock.value in calls && HolderExcuses(calls[lock.value], c.generation, k))
    || (exists t :: t in calls && calls[t] == ResetBroken(c.generation))
  }

  /** An open connection with an unanswered frame is about to be read or closed. */
  ghost predicate Clean(c: Client, lock: Option<nat>, calls: map<nat, Pc>, net: map<nat, Sock>) {
    c.socket.Some? && c.socket.value in net && Dirty(net[c.socket.value]) ==>
      Excused(c, lock, calls, c.socket.value)
  }

  /** An attempt the tallies have counted as started but not yet as ended. */
  function Owes(pc: Pc): nat {
    if AdmittedInfer(pc) || (pc.Leaving? && (pc.outcome.CancelledOutcome? || pc.outcome.DeadlineOutcome?))
    then 1 else 0
  }

  /** Attempts started, less those counted as ended. */
  function Balance(y: Tallies): int {
    y.started - y.completed - y.invalidated - y.transportErrors - y.serverErrors
  }

  ghost predicate Settled(y: Tallies, lock: Option<nat>, calls: map<nat, Pc>) {
    Balance(y) == if lock.Some? && lock.value in calls then Owes(calls[lock.value]) else 0
  }

  ghost predicate Inv(w: Wire) {
    && Locked(w.lock, w.calls)
    && ResetsDistinct(w.calls)
    && ResetsBlock(w.c, w.calls, LastBegun(w.trace))
    && FailClosed(w.c, w.trace)
    && InferencesCurrent(w.c, w.calls, w.admitted, w.trace)
    && Published(w.c, w.net)
    && Orderly(w.net)
    && (forall t | t in w.calls :: UsesOwnSocket(w.calls[t], w.net))
    && Clean(w.c, w.lock, w.calls, w.net)
    && Settled(w.c.tallies, w.lock, w.calls)
  }
}
