/** What the client protocol promises over every schedule of any number of
    concurrent inferences, resets, cancels and closes. */
module RpcTheorems {
  import opened Common
  import opened RpcClientState
  import opened RpcWire
  import opened RpcInvariant
  import opened RpcSteps

  function After(schedule: seq<Step>): Wire {
    Run(NEW_WIRE, schedule)
  }

  lemma ReachableInv(schedule: seq<Step>)
    ensures Inv(After(schedule))
  {
    RunKeepsInv(NEW_WIRE, schedule);
  }

  // ---------------------------------------------------------------- clean pairing

  /** Every frame ever sent goes out on an open connection of the sender's own,
      still current, generation on which each earlier frame has been answered and
      its answer read. */
  lemma FramesGoOnCleanSockets(schedule: seq<Step>, t: nat, how: Option<Failure>)
    ensures var w := After(schedule);
            var e := Send(w, t, how);
            e.Some? && e.value.io.Transmit? ==>
              && !Dirty(w.net[e.value.io.k])
              && w.net[e.value.io.k].generation == PcOf(w, t).generation == w.c.generation
              && w.c.socket == Some(e.value.io.k)
  {
    var w := After(schedule);
    ReachableInv(schedule);
    var e := Send(w, t, how);
    if e.Some? && e.value.io.Transmit? {
      SendersAreClean(w, t);
      assert UsesOwnSocket(PcOf(w, t), w.net);
    }
  }

  /** The branch for a reply that answers some other frame is never taken. */
  lemma MismatchIsUnreachable(schedule: seq<Step>, t: nat)
    ensures var pc := PcOf(After(schedule), t); pc.Judging? ==> pc.reply.id == pc.id
  {
    ReachableInv(schedule);
    var w := After(schedule);
    if t in w.calls {
      assert UsesOwnSocket(w.calls[t], w.net);
    }
  }

  // ---------------------------------------------------------------- fail-closed resets

  /** Inference is blocked exactly while the most recently begun reset has not been
      acknowledged, so the late failure of an older reset never undoes a newer one. */
  lemma BlockedExactlyUntilNewestResetAcknowledged(schedule: seq<Step>)
    ensures var w := After(schedule); w.c.resetRequired <==> !Confirmed(w.trace)
  {
    ReachableInv(schedule);
  }

  /** Each admission finds the newest reset acknowledged; each accepted result was
      admitted at `since` with nothing invalidated in between. */
  ghost predicate Disciplined(trace: seq<Event>) {
    && (forall i | 0 <= i < |trace| && trace[i].Admitted? :: Confirmed(trace[..i]))
    && (forall i | 0 <= i < |trace| && trace[i].Accepted? ::
          var since := trace[i].since;
          && since < i && trace[since] == Admitted(trace[i].call)
          && Undisturbed(trace[..i], since))
  }

  lemma DisciplinedExtends(trace: seq<Event>, e: Event)
    requires Disciplined(trace)
    requires e.Admitted? ==> Confirmed(trace)
    requires e.Accepted? ==>
               e.since < |trace| && trace[e.since] == Admitted(e.call) && Undisturbed(trace, e.since)
    ensures Disciplined(trace + [e])
  {
    var longer := trace + [e];
    assert longer[..|trace|] == trace;
    forall i | 0 <= i < |trace| ensures longer[..i] == trace[..i] {
    }
  }

  lemma AcceptedIsCurrent(w: Wire, t: nat, call: CallStep)
    requires InferencesCurrent(w.c, w.calls, w.admitted, w.trace)
    requires var e := CallEffect(w, t, call); e.Some? && e.value.event.Some? && e.value.event.value.Accepted?
    ensures var a := CallEffect(w, t, call).value.event.value;
            a.since < |w.trace| && w.trace[a.since] == Admitted(a.call) && Undisturbed(w.trace, a.since)
  {
    assert call.DoAccept? && AdmittedInfer(w.calls[t]);
  }

  lemma StepKeepsDisciplined(w: Wire, step: Step)
    requires Inv(w) && Disciplined(w.trace)
    ensures Disciplined(Next(w, step).trace)
  {
    match step
    case Call(t, call) =>
      if CallEffect(w, t, call).Some? {
        var e := CallEffect(w, t, call).value;
        if e.event.Some? {
          BlocksKeepInferDiscipline(w, t, call);
          if e.event.value.Accepted? {
            AcceptedIsCurrent(w, t, call);
          }
          DisciplinedExtends(w.trace, e.event.value);
        }
      }
    case DoCancel => DisciplinedExtends(w.trace, Invalidated);
    case DoClose => DisciplinedExtends(w.trace, Invalidated);
    case Server(k, server) =>
  }

  lemma {:induction false} RunKeepsDisciplined(w: Wire, schedule: seq<Step>)
    requires Inv(w) && Disciplined(w.trace)
    ensures Disciplined(Run(w, schedule).trace)
    decreases |schedule|
  {
    if schedule != [] {
      StepKeepsInv(w, schedule[0]);
      StepKeepsDisciplined(w, schedule[0]);
      RunKeepsDisciplined(Next(w, schedule[0]), schedule[1..]);
    }
  }

  lemma AdmissionsAndResultsAreFailClosed(schedule: seq<Step>)
    ensures Disciplined(After(schedule).trace)
  {
    RunKeepsDisciplined(NEW_WIRE, schedule);
  }

  // ---------------------------------------------------------------- conservation

  /** Every attempt is counted once as completed, invalidated, a transport error or a
      server error; at most one, that of the request-lock holder, is still open. */
  lemma AttemptsAreConserved(schedule: seq<Step>)
    ensures var w := After(schedule);
            && 0 <= Balance(w.c.tallies) <= 1
            && (Balance(w.c.tallies) == 1 ==> w.lock.Some? && Owes(PcOf(w, w.lock.value)) == 1)
            && (w.lock.None? ==> Balance(w.c.tallies) == 0)
  {
    ReachableInv(schedule);
  }
}
