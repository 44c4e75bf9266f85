/** In aligned mode every action dispatched at a control step was planned for it. */
module AlignedRuns {
  import opened LatestWorker
  import opened BenchRunner

  predicate PlannedFrom(actions: seq<Action>, step: int) {
    forall j | 0 <= j < |actions| :: actions[j].planned == step + j
  }

  predicate ResultsPlanned(results: seq<Result>) {
    forall i | 0 <= i < |results| :: PlannedFrom(results[i].chunk, results[i].request.step)
  }

  /** A step that is not a hold dispatched the action planned for it. */
  predicate OnTime(tr: Trace) {
    |tr.held| == |tr.actions| && forall i | 0 <= i < |tr.actions| && !tr.held[i] :: tr.actions[i].planned == i
  }

  predicate Inv(r: Runner) {
    PlannedFrom(r.q.actions, StepCount(r)) && ResultsPlanned(r.w.results) && OnTime(r.tr)
  }

  lemma RecordKeepsInv(s: Setup, r: Runner, result: Result)
    requires s.mode.Aligned? && Inv(r) && PlannedFrom(result.chunk, result.request.step)
    ensures Inv(Record(s, r, result))
  {
  }

  lemma {:induction false} RecordAllKeepsInv(s: Setup, r: Runner, results: seq<Result>)
    requires s.mode.Aligned? && Inv(r) && ResultsPlanned(results)
    ensures Inv(RecordAll(s, r, results))
    decreases |results|
  {
    if results != [] {
      RecordKeepsInv(s, r, results[0]);
      RecordAllKeepsInv(s, Record(s, r, results[0]), results[1..]);
    }
  }

  lemma AbsorbKeepsInv(s: Setup, r: Runner)
    requires s.mode.Aligned? && Inv(r)
    ensures Inv(Absorb(s, r))
  {
    if r.w.error.None? {
      RecordAllKeepsInv(s, r.(w := Drain(r.w, r.now)), Drained(r.w, r.now));
    }
  }

  lemma ThreadMoveKeepsInv(s: Setup, r: Runner, move: Move)
    requires Inv(r) && (move.Take? || move.Measure? || move.Store? || move.Fail? || move.Wait?)
    ensures Inv(Advance(s, r, move))
  {
  }

  lemma ActKeepsInv(r: Runner, over: bool)
    requires Inv(r)
    ensures Inv(Act(r, over))
  {
  }

  lemma AskKeepsInv(s: Setup, r: Runner)
    requires Inv(r)
    ensures Inv(Decide(s, r))
  {
  }

  lemma EndingKeepsInv(r: Runner)
    requires Inv(r)
    ensures Inv(CancelMailbox(r)) && Inv(SettleAll(r))
  {
  }

  lemma MoveKeepsInv(s: Setup, r: Runner, move: Move)
    requires s.mode.Aligned? && Inv(r)
    ensures Inv(Advance(s, r, move))
  {
    if move.DoFirst? || move.DoDrain? {
      AbsorbKeepsInv(s, r);
    } else if move.DoAct? {
      ActKeepsInv(r, move.over);
    } else if move.DoDecide? {
      AskKeepsInv(s, r);
    } else if move.DoCancel? || move.DoSettle? {
      EndingKeepsInv(r);
    } else {
      ThreadMoveKeepsInv(s, r, move);
    }
  }

  lemma {:induction false} PlayKeepsInv(s: Setup, r: Runner, schedule: seq<Move>)
    requires s.mode.Aligned? && Inv(r)
    ensures Inv(Play(s, r, schedule))
    decreases |schedule|
  {
    if schedule != [] {
      MoveKeepsInv(s, r, schedule[0]);
      PlayKeepsInv(s, Advance(s, r, schedule[0]), schedule[1..]);
    }
  }

  lemma AlignedActionsAreOnTime(s: Setup, w: Worker, now: int, schedule: seq<Move>)
    requires s.mode.Aligned?
    ensures OnTime(Play(s, Start(s, w, now), schedule).tr)
  {
    PlayKeepsInv(s, Start(s, w, now), schedule);
  }
}
