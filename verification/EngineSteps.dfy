/** Every step of every thread keeps every clause of the engine invariant, whatever
    the other threads are doing: a step only needs the clauses it lists. */
module EngineSteps {
  import opened EngineState
  import opened EngineHistory
  import opened EngineInvariant
  import opened EngineFate

  lemma CalledCleanGrows(p: seq<PolicyEvent>, x: PolicyEvent, id: RequestId)
    requires CalledClean(p, id)
    ensures CalledClean(p + [x], id)
  {
    var j :| 0 <= j < |p| && p[j] == InferCall(id.epoch, id.ordinal) && CleanSince(p[..j], id.epoch);
    assert (p + [x])[..j] == p[..j] && (p + [x])[j] == p[j];
  }

  lemma CalledCleanNow(p: seq<PolicyEvent>, id: RequestId)
    requires CleanSince(p, id.epoch)
    ensures CalledClean(p + [InferCall(id.epoch, id.ordinal)], id)
  {
    var q := p + [InferCall(id.epoch, id.ordinal)];
    assert q[..|p|] == p && q[|p|] == InferCall(id.epoch, id.ordinal);
  }

  lemma CallsStayClean(ep: Episode, w: Worker, d: Delivery, p: seq<PolicyEvent>, commits: seq<Commit>,
                       x: PolicyEvent)
    requires CallsClean(ep, w, d, p, commits)
    ensures CallsClean(ep, w, d, p + [x], commits)
  {
    forall id | CalledClean(p, id) ensures CalledClean(p + [x], id) {
      CalledCleanGrows(p, x, id);
    }
  }

  lemma ControlKeepsOwned(c: Config, s: State, a: ControlStep)
    requires Owned(c, s) && Isolated(s)
    ensures Owned(c, ControlNext(c, s, a))
  {
  }

  lemma LifecycleKeepsOwned(c: Config, s: State, a: LifecycleStep)
    requires Owned(c, s) && Isolated(s)
    ensures Owned(c, LifecycleNext(c, s, a))
  {
  }

  lemma AskKeepsOwned(c: Config, s: State, a: AskStep)
    requires Owned(c, s) && Isolated(s)
    ensures Owned(c, AskNext(s, a))
  {
  }

  lemma AnswerKeepsOwned(c: Config, s: State, a: AnswerStep)
    requires Owned(c, s) && Isolated(s)
    ensures Owned(c, AnswerNext(c, s, a))
  {
  }

  lemma DeliverKeepsOwned(c: Config, s: State, a: DeliveryStep)
    requires Owned(c, s) && Isolated(s)
    ensures Owned(c, DeliverNext(c, s, a))
  {
  }

  lemma ControlKeepsIsolated(c: Config, s: State, a: ControlStep)
    requires Isolated(s) && Owned(c, s)
    ensures Isolated(ControlNext(c, s, a))
  {
  }

  lemma LifecycleKeepsIsolated(c: Config, s: State, a: LifecycleStep)
    requires Isolated(s) && Owned(c, s)
    ensures Isolated(LifecycleNext(c, s, a))
  {
  }

  lemma AskKeepsIsolated(c: Config, s: State, a: AskStep)
    requires Isolated(s) && Owned(c, s)
    ensures Isolated(AskNext(s, a))
  {
  }

  lemma AnswerKeepsIsolated(c: Config, s: State, a: AnswerStep)
    requires Isolated(s) && Owned(c, s)
    ensures Isolated(AnswerNext(c, s, a))
  {
  }

  lemma DeliverKeepsIsolated(c: Config, s: State, a: DeliveryStep)
    requires Isolated(s) && Owned(c, s)
    ensures Isolated(DeliverNext(c, s, a))
  {
  }

  lemma ControlKeepsPaced(c: Config, s: State, h: History, a: ControlStep)
    requires Paced(c, s.ep, s.worker, h.intake.submitted) && Isolated(s) && c.Valid()
    ensures var t := ControlNext(c, s, a); var g := RecordControl(c, h, s, a);
            Paced(c, t.ep, t.worker, g.intake.submitted)
  {
  }

  lemma LifecycleKeepsPaced(c: Config, s: State, h: History, a: LifecycleStep)
    requires Paced(c, s.ep, s.worker, h.intake.submitted) && Isolated(s) && c.Valid()
    ensures var t := LifecycleNext(c, s, a); var g := RecordLifecycle(h, s, a);
            Paced(c, t.ep, t.worker, g.intake.submitted)
  {
  }

  lemma AskKeepsPaced(c: Config, s: State, h: History, a: AskStep)
    requires Paced(c, s.ep, s.worker, h.intake.submitted) && Isolated(s) && c.Valid()
    ensures Paced(c, AskNext(s, a).ep, AskNext(s, a).worker, RecordAsk(h, s, a).intake.submitted)
  {
  }

  lemma AnswerKeepsPaced(c: Config, s: State, h: History, a: AnswerStep)
    requires Paced(c, s.ep, s.worker, h.intake.submitted) && Isolated(s) && c.Valid()
    ensures var t := AnswerNext(c, s, a); var g := RecordAnswer(c, h, s, a);
            Paced(c, t.ep, t.worker, g.intake.submitted)
  {
  }

  lemma DeliverKeepsPaced(c: Config, s: State, h: History, a: DeliveryStep)
    requires Paced(c, s.ep, s.worker, h.intake.submitted) && Isolated(s) && c.Valid()
    ensures var t := DeliverNext(c, s, a); var g := RecordDeliver(c, h, s, a);
            Paced(c, t.ep, t.worker, g.intake.submitted)
  {
  }

  lemma ControlKeepsOrdered(c: Config, s: State, h: History, a: ControlStep)
    requires Ordered(s.ep, s.worker, s.delivery, h.completed) && Isolated(s)
    requires Paced(c, s.ep, s.worker, h.intake.submitted)
    ensures var t := ControlNext(c, s, a); var g := RecordControl(c, h, s, a);
            Ordered(t.ep, t.worker, t.delivery, g.completed)
  {
  }

  lemma LifecycleKeepsOrdered(c: Config, s: State, h: History, a: LifecycleStep)
    requires Ordered(s.ep, s.worker, s.delivery, h.completed) && Isolated(s)
    requires Paced(c, s.ep, s.worker, h.intake.submitted)
    ensures var t := LifecycleNext(c, s, a); var g := RecordLifecycle(h, s, a);
            Ordered(t.ep, t.worker, t.delivery, g.completed)
  {
  }

  lemma AskKeepsOrdered(c: Config, s: State, h: History, a: AskStep)
    requires Ordered(s.ep, s.worker, s.delivery, h.completed) && Isolated(s)
    requires Paced(c, s.ep, s.worker, h.intake.submitted)
    ensures var t := AskNext(s, a); var g := RecordAsk(h, s, a);
            Ordered(t.ep, t.worker, t.delivery, g.completed)
  {
  }

  /** A completion is newer than every earlier one, and is itself on record. */
  lemma CompletionKeepsOrdered(c: Config, s: State, h: History)
    requires Ordered(s.ep, s.worker, s.delivery, h.completed) && Isolated(s)
    requires Paced(c, s.ep, s.worker, h.intake.submitted)
    ensures var t := CommitCompletion(s); var g := RecordAnswer(c, h, s, DoCommitCompletion);
            Ordered(t.ep, t.worker, t.delivery, g.completed)
  {
  }

  lemma AnswerKeepsOrdered(c: Config, s: State, h: History, a: AnswerStep)
    requires Ordered(s.ep, s.worker, s.delivery, h.completed) && Isolated(s)
    requires Paced(c, s.ep, s.worker, h.intake.submitted)
    ensures var t := AnswerNext(c, s, a); var g := RecordAnswer(c, h, s, a);
            Ordered(t.ep, t.worker, t.delivery, g.completed)
  {
    if a.DoCommitCompletion? {
      CompletionKeepsOrdered(c, s, h);
    }
  }

  lemma DeliverKeepsOrdered(c: Config, s: State, h: History, a: DeliveryStep)
    requires Ordered(s.ep, s.worker, s.delivery, h.completed) && Isolated(s)
    requires Paced(c, s.ep, s.worker, h.intake.submitted)
    ensures var t := DeliverNext(c, s, a); var g := RecordDeliver(c, h, s, a);
            Ordered(t.ep, t.worker, t.delivery, g.completed)
  {
  }

  lemma ControlKeepsCommitted(c: Config, s: State, h: History, a: ControlStep)
    requires Committed(c, s.ep, s.worker, h.completed, h.commits) && Owned(c, s) && Isolated(s)
    requires Ordered(s.ep, s.worker, s.delivery, h.completed)
    ensures var t := ControlNext(c, s, a); var g := RecordControl(c, h, s, a);
            Committed(c, t.ep, t.worker, g.completed, g.commits)
  {
  }

  lemma LifecycleKeepsCommitted(c: Config, s: State, h: History, a: LifecycleStep)
    requires Committed(c, s.ep, s.worker, h.completed, h.commits) && Owned(c, s) && Isolated(s)
    requires Ordered(s.ep, s.worker, s.delivery, h.completed)
    ensures var t := LifecycleNext(c, s, a); var g := RecordLifecycle(h, s, a);
            Committed(c, t.ep, t.worker, g.completed, g.commits)
  {
  }

  lemma AskKeepsCommitted(c: Config, s: State, h: History, a: AskStep)
    requires Committed(c, s.ep, s.worker, h.completed, h.commits) && Owned(c, s) && Isolated(s)
    requires Ordered(s.ep, s.worker, s.delivery, h.completed)
    ensures var t := AskNext(s, a); var g := RecordAsk(h, s, a);
            Committed(c, t.ep, t.worker, g.completed, g.commits)
  {
  }

  lemma AnswerKeepsCommitted(c: Config, s: State, h: History, a: AnswerStep)
    requires Committed(c, s.ep, s.worker, h.completed, h.commits) && Owned(c, s) && Isolated(s)
    requires Ordered(s.ep, s.worker, s.delivery, h.completed)
    ensures var t := AnswerNext(c, s, a); var g := RecordAnswer(c, h, s, a);
            Committed(c, t.ep, t.worker, g.completed, g.commits)
  {
  }

  lemma DeliverKeepsCommitted(c: Config, s: State, h: History, a: DeliveryStep)
    requires Committed(c, s.ep, s.worker, h.completed, h.commits) && Owned(c, s) && Isolated(s)
    requires Ordered(s.ep, s.worker, s.delivery, h.completed)
    ensures var t := DeliverNext(c, s, a); var g := RecordDeliver(c, h, s, a);
            Committed(c, t.ep, t.worker, g.completed, g.commits)
  {
  }

  lemma ControlKeepsSourced(c: Config, s: State, h: History, a: ControlStep)
    requires Sourced(s.ep.epoch, s.out, h.commits) && Owned(c, s) && Isolated(s)
    requires Ordered(s.ep, s.worker, s.delivery, h.completed)
    requires Committed(c, s.ep, s.worker, h.completed, h.commits)
    ensures var t := ControlNext(c, s, a); var g := RecordControl(c, h, s, a);
            Sourced(t.ep.epoch, t.out, g.commits)
  {
  }

  lemma LifecycleKeepsSourced(c: Config, s: State, h: History, a: LifecycleStep)
    requires Sourced(s.ep.epoch, s.out, h.commits) && Owned(c, s) && Isolated(s)
    requires Ordered(s.ep, s.worker, s.delivery, h.completed)
    requires Committed(c, s.ep, s.worker, h.completed, h.commits)
    ensures var t := LifecycleNext(c, s, a); var g := RecordLifecycle(h, s, a);
            Sourced(t.ep.epoch, t.out, g.commits)
  {
  }

  lemma AskKeepsSourced(c: Config, s: State, h: History, a: AskStep)
    requires Sourced(s.ep.epoch, s.out, h.commits) && Owned(c, s) && Isolated(s)
    requires Ordered(s.ep, s.worker, s.delivery, h.completed)
    requires Committed(c, s.ep, s.worker, h.completed, h.commits)
    ensures Sourced(AskNext(s, a).ep.epoch, AskNext(s, a).out, RecordAsk(h, s, a).commits)
  {
  }

  lemma AnswerKeepsSourced(c: Config, s: State, h: History, a: AnswerStep)
    requires Sourced(s.ep.epoch, s.out, h.commits) && Owned(c, s) && Isolated(s)
    requires Ordered(s.ep, s.worker, s.delivery, h.completed)
    requires Committed(c, s.ep, s.worker, h.completed, h.commits)
    ensures Sourced(AnswerNext(c, s, a).ep.epoch, AnswerNext(c, s, a).out, RecordAnswer(c, h, s, a).commits)
  {
  }

  lemma DeliverKeepsSourced(c: Config, s: State, h: History, a: DeliveryStep)
    requires Sourced(s.ep.epoch, s.out, h.commits) && Owned(c, s) && Isolated(s)
    requires Ordered(s.ep, s.worker, s.delivery, h.completed)
    requires Committed(c, s.ep, s.worker, h.completed, h.commits)
    ensures var t := DeliverNext(c, s, a); var g := RecordDeliver(c, h, s, a);
            Sourced(t.ep.epoch, t.out, g.commits)
  {
    DeliverKeepsCommitted(c, s, h, a);
  }

  /** A packet handed out now is not older than the last one. */
  lemma PullKeepsDispatched(c: Config, s: State, h: History)
    requires Dispatched(c, s, h.dispatches) && Owned(c, s) && Isolated(s)
    requires Sourced(s.ep.epoch, s.out, h.commits)
    ensures Dispatched(c, Pull(c, s), RecordPull(c, h, s).dispatches)
  {
  }

  lemma ControlKeepsDispatched(c: Config, s: State, h: History, a: ControlStep)
    requires Dispatched(c, s, h.dispatches) && Owned(c, s) && Isolated(s)
    requires Sourced(s.ep.epoch, s.out, h.commits)
    ensures Dispatched(c, ControlNext(c, s, a), RecordControl(c, h, s, a).dispatches)
  {
    if a.DoPull? {
      PullKeepsDispatched(c, s, h);
    }
  }

  lemma LifecycleKeepsDispatched(c: Config, s: State, h: History, a: LifecycleStep)
    requires Dispatched(c, s, h.dispatches) && Owned(c, s) && Isolated(s)
    requires Sourced(s.ep.epoch, s.out, h.commits)
    ensures Dispatched(c, LifecycleNext(c, s, a), RecordLifecycle(h, s, a).dispatches)
  {
  }

  lemma AskKeepsDispatched(c: Config, s: State, h: History, a: AskStep)
    requires Dispatched(c, s, h.dispatches) && Owned(c, s) && Isolated(s)
    requires Sourced(s.ep.epoch, s.out, h.commits)
    ensures Dispatched(c, AskNext(s, a), RecordAsk(h, s, a).dispatches)
  {
  }

  lemma AnswerKeepsDispatched(c: Config, s: State, h: History, a: AnswerStep)
    requires Dispatched(c, s, h.dispatches) && Owned(c, s) && Isolated(s)
    requires Sourced(s.ep.epoch, s.out, h.commits)
    ensures Dispatched(c, AnswerNext(c, s, a), RecordAnswer(c, h, s, a).dispatches)
  {
  }

  lemma DeliverKeepsDispatched(c: Config, s: State, h: History, a: DeliveryStep)
    requires Dispatched(c, s, h.dispatches) && Owned(c, s) && Isolated(s)
    requires Sourced(s.ep.epoch, s.out, h.commits)
    ensures Dispatched(c, DeliverNext(c, s, a), RecordDeliver(c, h, s, a).dispatches)
  {
  }

  lemma ControlKeepsOwnerClean(c: Config, s: State, h: History, a: ControlStep)
    requires OwnerClean(s.ep, s.worker, h.policy) && Owned(c, s) && Isolated(s)
    ensures OwnerClean(ControlNext(c, s, a).ep, ControlNext(c, s, a).worker, RecordControl(c, h, s, a).policy)
  {
  }

  lemma LifecycleKeepsOwnerClean(c: Config, s: State, h: History, a: LifecycleStep)
    requires OwnerClean(s.ep, s.worker, h.policy) && Owned(c, s) && Isolated(s)
    ensures var t := LifecycleNext(c, s, a); var g := RecordLifecycle(h, s, a);
            OwnerClean(t.ep, t.worker, g.policy)
  {
  }

  lemma AskKeepsOwnerClean(c: Config, s: State, h: History, a: AskStep)
    requires OwnerClean(s.ep, s.worker, h.policy) && Owned(c, s) && Isolated(s)
    ensures OwnerClean(AskNext(s, a).ep, AskNext(s, a).worker, RecordAsk(h, s, a).policy)
  {
  }

  lemma AnswerKeepsOwnerClean(c: Config, s: State, h: History, a: AnswerStep)
    requires OwnerClean(s.ep, s.worker, h.policy) && Owned(c, s) && Isolated(s)
    ensures OwnerClean(AnswerNext(c, s, a).ep, AnswerNext(c, s, a).worker, RecordAnswer(c, h, s, a).policy)
  {
  }

  lemma DeliverKeepsOwnerClean(c: Config, s: State, h: History, a: DeliveryStep)
    requires OwnerClean(s.ep, s.worker, h.policy) && Owned(c, s) && Isolated(s)
    ensures OwnerClean(DeliverNext(c, s, a).ep, DeliverNext(c, s, a).worker, RecordDeliver(c, h, s, a).policy)
  {
  }

  lemma ControlKeepsCallsClean(c: Config, s: State, h: History, a: ControlStep)
    requires CallsClean(s.ep, s.worker, s.delivery, h.policy, h.commits) && OwnerClean(s.ep, s.worker, h.policy)
    ensures var t := ControlNext(c, s, a); var g := RecordControl(c, h, s, a);
            CallsClean(t.ep, t.worker, t.delivery, g.policy, g.commits)
  {
  }

  lemma LifecycleKeepsCallsClean(c: Config, s: State, h: History, a: LifecycleStep)
    requires CallsClean(s.ep, s.worker, s.delivery, h.policy, h.commits) && OwnerClean(s.ep, s.worker, h.policy)
    ensures var t := LifecycleNext(c, s, a); var g := RecordLifecycle(h, s, a);
            CallsClean(t.ep, t.worker, t.delivery, g.policy, g.commits)
  {
  }

  lemma AskKeepsCallsClean(c: Config, s: State, h: History, a: AskStep)
    requires CallsClean(s.ep, s.worker, s.delivery, h.policy, h.commits) && OwnerClean(s.ep, s.worker, h.policy)
    ensures var t := AskNext(s, a); var g := RecordAsk(h, s, a);
            CallsClean(t.ep, t.worker, t.delivery, g.policy, g.commits)
  {
    match a
    case DoProviderReset(call) =>
      if s.worker.Taken? && s.worker.job.resetProvider {
        CallsStayClean(s.ep, s.worker, s.delivery, h.policy, h.commits,
                       ResetCall(s.worker.job.Epoch(), call.Returned?));
      }
    case DoEnterInference =>
      if s.worker.Ready? && !Cancelled(s, s.worker.job) {
        var id := s.worker.job.Id();
        CallsStayClean(s.ep, s.worker, s.delivery, h.policy, h.commits, InferCall(id.epoch, id.ordinal));
        CalledCleanNow(h.policy, id);
      }
    case _ =>
  }

  lemma AnswerKeepsCallsClean(c: Config, s: State, h: History, a: AnswerStep)
    requires CallsClean(s.ep, s.worker, s.delivery, h.policy, h.commits) && OwnerClean(s.ep, s.worker, h.policy)
    ensures var t := AnswerNext(c, s, a); var g := RecordAnswer(c, h, s, a);
            CallsClean(t.ep, t.worker, t.delivery, g.policy, g.commits)
  {
  }

  lemma DeliverKeepsCallsClean(c: Config, s: State, h: History, a: DeliveryStep)
    requires CallsClean(s.ep, s.worker, s.delivery, h.policy, h.commits) && OwnerClean(s.ep, s.worker, h.policy)
    ensures var t := DeliverNext(c, s, a); var g := RecordDeliver(c, h, s, a);
            CallsClean(t.ep, t.worker, t.delivery, g.policy, g.commits)
  {
  }

  lemma ControlKeepsNumbered(c: Config, s: State, h: History, a: ControlStep)
    requires Numbered(s, h.fate) && Isolated(s) && Paced(c, s.ep, s.worker, h.intake.submitted)
    ensures Numbered(ControlNext(c, s, a), RecordControl(c, h, s, a).fate)
  {
  }

  lemma LifecycleKeepsNumbered(c: Config, s: State, h: History, a: LifecycleStep)
    requires Numbered(s, h.fate) && Isolated(s) && Paced(c, s.ep, s.worker, h.intake.submitted)
    ensures Numbered(LifecycleNext(c, s, a), RecordLifecycle(h, s, a).fate)
  {
  }

  lemma AskKeepsNumbered(c: Config, s: State, h: History, a: AskStep)
    requires Numbered(s, h.fate) && Isolated(s) && Paced(c, s.ep, s.worker, h.intake.submitted)
    ensures Numbered(AskNext(s, a), RecordAsk(h, s, a).fate)
  {
  }

  lemma AnswerKeepsNumbered(c: Config, s: State, h: History, a: AnswerStep)
    requires Numbered(s, h.fate) && Isolated(s) && Paced(c, s.ep, s.worker, h.intake.submitted)
    ensures Numbered(AnswerNext(c, s, a), RecordAnswer(c, h, s, a).fate)
  {
  }

  lemma DeliverKeepsNumbered(c: Config, s: State, h: History, a: DeliveryStep)
    requires Numbered(s, h.fate) && Isolated(s) && Paced(c, s.ep, s.worker, h.intake.submitted)
    ensures Numbered(DeliverNext(c, s, a), RecordDeliver(c, h, s, a).fate)
  {
  }

  lemma ControlKeepsIntakeCounted(c: Config, s: State, h: History, a: ControlStep)
    requires IntakeCounted(s.metrics, s.ep, h.intake)
    ensures var t := ControlNext(c, s, a); var g := RecordControl(c, h, s, a);
            IntakeCounted(t.metrics, t.ep, g.intake)
  {
  }

  lemma LifecycleKeepsIntakeCounted(c: Config, s: State, h: History, a: LifecycleStep)
    requires IntakeCounted(s.metrics, s.ep, h.intake)
    ensures var t := LifecycleNext(c, s, a); var g := RecordLifecycle(h, s, a);
            IntakeCounted(t.metrics, t.ep, g.intake)
  {
  }

  lemma AskKeepsIntakeCounted(c: Config, s: State, h: History, a: AskStep)
    requires IntakeCounted(s.metrics, s.ep, h.intake)
    ensures IntakeCounted(AskNext(s, a).metrics, AskNext(s, a).ep, RecordAsk(h, s, a).intake)
  {
  }

  lemma AnswerKeepsIntakeCounted(c: Config, s: State, h: History, a: AnswerStep)
    requires IntakeCounted(s.metrics, s.ep, h.intake)
    ensures var t := AnswerNext(c, s, a); var g := RecordAnswer(c, h, s, a);
            IntakeCounted(t.metrics, t.ep, g.intake)
  {
  }

  lemma DeliverKeepsIntakeCounted(c: Config, s: State, h: History, a: DeliveryStep)
    requires IntakeCounted(s.metrics, s.ep, h.intake)
    ensures var t := DeliverNext(c, s, a); var g := RecordDeliver(c, h, s, a);
            IntakeCounted(t.metrics, t.ep, g.intake)
  {
  }

  lemma ControlKeepsRepliesCounted(c: Config, s: State, a: ControlStep)
    requires RepliesCounted(s) && Owned(c, s) && Isolated(s)
    ensures RepliesCounted(ControlNext(c, s, a))
  {
  }

  lemma LifecycleKeepsRepliesCounted(c: Config, s: State, a: LifecycleStep)
    requires RepliesCounted(s) && Owned(c, s) && Isolated(s)
    ensures RepliesCounted(LifecycleNext(c, s, a))
  {
  }

  lemma AskKeepsRepliesCounted(c: Config, s: State, a: AskStep)
    requires RepliesCounted(s) && Owned(c, s) && Isolated(s)
    ensures RepliesCounted(AskNext(s, a))
  {
  }

  lemma AnswerKeepsRepliesCounted(c: Config, s: State, a: AnswerStep)
    requires RepliesCounted(s) && Owned(c, s) && Isolated(s)
    ensures RepliesCounted(AnswerNext(c, s, a))
  {
  }

  lemma DeliverKeepsRepliesCounted(c: Config, s: State, a: DeliveryStep)
    requires RepliesCounted(s) && Owned(c, s) && Isolated(s)
    ensures RepliesCounted(DeliverNext(c, s, a))
  {
  }

  lemma ControlKeepsHoldBounded(c: Config, s: State, h: History, a: ControlStep)
    requires HoldBounded(c, s.out, h.replay) && Isolated(s)
    ensures HoldBounded(c, ControlNext(c, s, a).out, RecordControl(c, h, s, a).replay)
  {
  }

  lemma LifecycleKeepsHoldBounded(c: Config, s: State, h: History, a: LifecycleStep)
    requires HoldBounded(c, s.out, h.replay) && Isolated(s)
    ensures HoldBounded(c, LifecycleNext(c, s, a).out, RecordLifecycle(h, s, a).replay)
  {
  }

  lemma AskKeepsHoldBounded(c: Config, s: State, h: History, a: AskStep)
    requires HoldBounded(c, s.out, h.replay) && Isolated(s)
    ensures HoldBounded(c, AskNext(s, a).out, RecordAsk(h, s, a).replay)
  {
  }

  lemma AnswerKeepsHoldBounded(c: Config, s: State, h: History, a: AnswerStep)
    requires HoldBounded(c, s.out, h.replay) && Isolated(s)
    ensures HoldBounded(c, AnswerNext(c, s, a).out, RecordAnswer(c, h, s, a).replay)
  {
  }

  lemma DeliverKeepsHoldBounded(c: Config, s: State, h: History, a: DeliveryStep)
    requires HoldBounded(c, s.out, h.replay) && Isolated(s)
    ensures HoldBounded(c, DeliverNext(c, s, a).out, RecordDeliver(c, h, s, a).replay)
  {
  }

  lemma ControlKeepsHeadAligned(c: Config, s: State, h: History, a: ControlStep)
    requires HeadAligned(s.ep.step, s.out, h.pacing) && Isolated(s)
    requires Paced(c, s.ep, s.worker, h.intake.submitted) && Ordered(s.ep, s.worker, s.delivery, h.completed)
    ensures var t := ControlNext(c, s, a); var g := RecordControl(c, h, s, a);
            HeadAligned(t.ep.step, t.out, g.pacing)
  {
  }

  lemma LifecycleKeepsHeadAligned(c: Config, s: State, h: History, a: LifecycleStep)
    requires HeadAligned(s.ep.step, s.out, h.pacing) && Isolated(s)
    requires Paced(c, s.ep, s.worker, h.intake.submitted) && Ordered(s.ep, s.worker, s.delivery, h.completed)
    ensures var t := LifecycleNext(c, s, a); var g := RecordLifecycle(h, s, a);
            HeadAligned(t.ep.step, t.out, g.pacing)
  {
  }

  lemma AskKeepsHeadAligned(c: Config, s: State, h: History, a: AskStep)
    requires HeadAligned(s.ep.step, s.out, h.pacing) && Isolated(s)
    requires Paced(c, s.ep, s.worker, h.intake.submitted) && Ordered(s.ep, s.worker, s.delivery, h.completed)
    ensures HeadAligned(AskNext(s, a).ep.step, AskNext(s, a).out, RecordAsk(h, s, a).pacing)
  {
  }

  lemma AnswerKeepsHeadAligned(c: Config, s: State, h: History, a: AnswerStep)
    requires HeadAligned(s.ep.step, s.out, h.pacing) && Isolated(s)
    requires Paced(c, s.ep, s.worker, h.intake.submitted) && Ordered(s.ep, s.worker, s.delivery, h.completed)
    ensures HeadAligned(AnswerNext(c, s, a).ep.step, AnswerNext(c, s, a).out, RecordAnswer(c, h, s, a).pacing)
  {
  }

  lemma DeliverKeepsHeadAligned(c: Config, s: State, h: History, a: DeliveryStep)
    requires HeadAligned(s.ep.step, s.out, h.pacing) && Isolated(s)
    requires Paced(c, s.ep, s.worker, h.intake.submitted) && Ordered(s.ep, s.worker, s.delivery, h.completed)
    ensures var t := DeliverNext(c, s, a); var g := RecordDeliver(c, h, s, a);
            HeadAligned(t.ep.step, t.out, g.pacing)
  {
  }

  lemma ControlKeepsDispatchAligned(c: Config, s: State, h: History, a: ControlStep)
    requires DispatchAligned(h.dispatches, h.pacing) && HeadAligned(s.ep.step, s.out, h.pacing)
    ensures DispatchAligned(RecordControl(c, h, s, a).dispatches, RecordControl(c, h, s, a).pacing)
  {
  }

  lemma LifecycleKeepsDispatchAligned(c: Config, s: State, h: History, a: LifecycleStep)
    requires DispatchAligned(h.dispatches, h.pacing) && HeadAligned(s.ep.step, s.out, h.pacing)
    ensures DispatchAligned(RecordLifecycle(h, s, a).dispatches, RecordLifecycle(h, s, a).pacing)
  {
  }

  lemma AskKeepsDispatchAligned(c: Config, s: State, h: History, a: AskStep)
    requires DispatchAligned(h.dispatches, h.pacing) && HeadAligned(s.ep.step, s.out, h.pacing)
    ensures DispatchAligned(RecordAsk(h, s, a).dispatches, RecordAsk(h, s, a).pacing)
  {
  }

  lemma AnswerKeepsDispatchAligned(c: Config, s: State, h: History, a: AnswerStep)
    requires DispatchAligned(h.dispatches, h.pacing) && HeadAligned(s.ep.step, s.out, h.pacing)
    ensures DispatchAligned(RecordAnswer(c, h, s, a).dispatches, RecordAnswer(c, h, s, a).pacing)
  {
  }

  lemma DeliverKeepsDispatchAligned(c: Config, s: State, h: History, a: DeliveryStep)
    requires DispatchAligned(h.dispatches, h.pacing) && HeadAligned(s.ep.step, s.out, h.pacing)
    ensures DispatchAligned(RecordDeliver(c, h, s, a).dispatches, RecordDeliver(c, h, s, a).pacing)
  {
  }

  lemma KeepsAccounted(c: Config, s: State, h: History, step: Step)
    requires Owned(c, s) && Numbered(s, h.fate) && Accounted(s, h.fate)
    ensures Accounted(Next(c, s, step), Record(c, h, s, step).fate)
  {
    forall id ensures AccountedFor(Next(c, s, step), Record(c, h, s, step).fate, id) {
      match step
      case Control(a) => ControlKeepsAccounted(c, s, h, a, id);
      case Lifecycle(a) => LifecycleKeepsAccounted(c, s, h, a, id);
      case Ask(a) => AskKeepsAccounted(s, h, a, id);
      case Answer(a) => AnswerKeepsAccounted(c, s, h, a, id);
      case Deliver(a) => DeliverKeepsAccounted(c, s, h, a, id);
    }
  }

  lemma ControlKeepsInv(c: Config, w: World, a: ControlStep)
    requires c.Valid() && Inv(c, w)
    ensures Inv(c, Advance(c, w, Control(a)))
  {
    var (s, h) := (w.s, w.h);
    ControlKeepsOwned(c, s, a);
    ControlKeepsIsolated(c, s, a);
    ControlKeepsPaced(c, s, h, a);
    ControlKeepsOrdered(c, s, h, a);
    ControlKeepsCommitted(c, s, h, a);
    ControlKeepsSourced(c, s, h, a);
    ControlKeepsDispatched(c, s, h, a);
    ControlKeepsOwnerClean(c, s, h, a);
    ControlKeepsCallsClean(c, s, h, a);
    ControlKeepsNumbered(c, s, h, a);
    ControlKeepsIntakeCounted(c, s, h, a);
    ControlKeepsRepliesCounted(c, s, a);
    ControlKeepsHoldBounded(c, s, h, a);
    ControlKeepsHeadAligned(c, s, h, a);
    ControlKeepsDispatchAligned(c, s, h, a);
    KeepsAccounted(c, s, h, Control(a));
  }

  lemma LifecycleKeepsInv(c: Config, w: World, a: LifecycleStep)
    requires c.Valid() && Inv(c, w)
    ensures Inv(c, Advance(c, w, Lifecycle(a)))
  {
    var (s, h) := (w.s, w.h);
    LifecycleKeepsOwned(c, s, a);
    LifecycleKeepsIsolated(c, s, a);
    LifecycleKeepsPaced(c, s, h, a);
    LifecycleKeepsOrdered(c, s, h, a);
    LifecycleKeepsCommitted(c, s, h, a);
    LifecycleKeepsSourced(c, s, h, a);
    LifecycleKeepsDispatched(c, s, h, a);
    LifecycleKeepsOwnerClean(c, s, h, a);
    LifecycleKeepsCallsClean(c, s, h, a);
    LifecycleKeepsNumbered(c, s, h, a);
    LifecycleKeepsIntakeCounted(c, s, h, a);
    LifecycleKeepsRepliesCounted(c, s, a);
    LifecycleKeepsHoldBounded(c, s, h, a);
    LifecycleKeepsHeadAligned(c, s, h, a);
    LifecycleKeepsDispatchAligned(c, s, h, a);
    KeepsAccounted(c, s, h, Lifecycle(a));
  }

  lemma AskKeepsInv(c: Config, w: World, a: AskStep)
    requires c.Valid() && Inv(c, w)
    ensures Inv(c, Advance(c, w, Ask(a)))
  {
    var (s, h) := (w.s, w.h);
    AskKeepsOwned(c, s, a);
    AskKeepsIsolated(c, s, a);
    AskKeepsPaced(c, s, h, a);
    AskKeepsOrdered(c, s, h, a);
    AskKeepsCommitted(c, s, h, a);
    AskKeepsSourced(c, s, h, a);
    AskKeepsDispatched(c, s, h, a);
    AskKeepsOwnerClean(c, s, h, a);
    AskKeepsCallsClean(c, s, h, a);
    AskKeepsNumbered(c, s, h, a);
    AskKeepsIntakeCounted(c, s, h, a);
    AskKeepsRepliesCounted(c, s, a);
    AskKeepsHoldBounded(c, s, h, a);
    AskKeepsHeadAligned(c, s, h, a);
    AskKeepsDispatchAligned(c, s, h, a);
    KeepsAccounted(c, s, h, Ask(a));
  }

  lemma AnswerKeepsInv(c: Config, w: World, a: AnswerStep)
    requires c.Valid() && Inv(c, w)
    ensures Inv(c, Advance(c, w, Answer(a)))
  {
    var (s, h) := (w.s, w.h);
    AnswerKeepsOwned(c, s, a);
    AnswerKeepsIsolated(c, s, a);
    AnswerKeepsPaced(c, s, h, a);
    AnswerKeepsOrdered(c, s, h, a);
    AnswerKeepsCommitted(c, s, h, a);
    AnswerKeepsSourced(c, s, h, a);
    AnswerKeepsDispatched(c, s, h, a);
    AnswerKeepsOwnerClean(c, s, h, a);
    AnswerKeepsCallsClean(c, s, h, a);
    AnswerKeepsNumbered(c, s, h, a);
    AnswerKeepsIntakeCounted(c, s, h, a);
    AnswerKeepsRepliesCounted(c, s, a);
    AnswerKeepsHoldBounded(c, s, h, a);
    AnswerKeepsHeadAligned(c, s, h, a);
    AnswerKeepsDispatchAligned(c, s, h, a);
    KeepsAccounted(c, s, h, Answer(a));
  }

  lemma DeliverKeepsInv(c: Config, w: World, a: DeliveryStep)
    requires c.Valid() && Inv(c, w)
    ensures Inv(c, Advance(c, w, Deliver(a)))
  {
    var (s, h) := (w.s, w.h);
    DeliverKeepsOwned(c, s, a);
    DeliverKeepsIsolated(c, s, a);
    DeliverKeepsPaced(c, s, h, a);
    DeliverKeepsOrdered(c, s, h, a);
    DeliverKeepsCommitted(c, s, h, a);
    DeliverKeepsSourced(c, s, h, a);
    DeliverKeepsDispatched(c, s, h, a);
    DeliverKeepsOwnerClean(c, s, h, a);
    DeliverKeepsCallsClean(c, s, h, a);
    DeliverKeepsNumbered(c, s, h, a);
    DeliverKeepsIntakeCounted(c, s, h, a);
    DeliverKeepsRepliesCounted(c, s, a);
    DeliverKeepsHoldBounded(c, s, h, a);
    DeliverKeepsHeadAligned(c, s, h, a);
    DeliverKeepsDispatchAligned(c, s, h, a);
    KeepsAccounted(c, s, h, Deliver(a));
  }

  lemma StepKeepsInv(c: Config, w: World, step: Step)
    requires c.Valid() && Inv(c, w)
    ensures Inv(c, Advance(c, w, step))
  {
    match step
    case Control(a) => ControlKeepsInv(c, w, a);
    case Lifecycle(a) => LifecycleKeepsInv(c, w, a);
    case Ask(a) => AskKeepsInv(c, w, a);
    case Answer(a) => AnswerKeepsInv(c, w, a);
    case Deliver(a) => DeliverKeepsInv(c, w, a);
  }
}
