/** What callers of the latest-request worker may expect, kept beside every run: the last
    accepted submission is the one that is started, and the results of the episode's calls
    come back complete, in order and on time. */
module WorkerLedger {
  import opened Common
  import opened LatestWorker

  /** The call being made: its request, whether its episode goes on, and when it ended. */
  datatype Running = Running(request: Request, current: bool, ended: int)

  /** `accepted` are all submissions that were not refused; `waiting` says that nothing has
      happened to the last one. Since the episode began, `failed` says that a call raised,
      `discarded` counts the results of older calls, `finished` are the results due and
      `handed` those handed over. */
  datatype Ledger = Ledger(
    accepted: seq<Request>, waiting: bool, running: Option<Running>, failed: bool,
    discarded: nat, finished: seq<Result>, handed: seq<Result>
  )

  const NEW_LEDGER: Ledger := Ledger([], false, None, false, 0, [], [])

  function AfterCaller(l: Ledger, r: Run, step: Step): Ledger {
    match step
    case DoReset(_) =>
      Ledger(l.accepted, false,
             if l.running.Some? then Some(l.running.value.(current := false)) else None, false, 0, [], [])
    case DoSubmit(request) =>
      if !l.failed && !r.w.closed && r.w.episode == Some(request.episode) then
        l.(accepted := l.accepted + [request], waiting := true)
      else l
    case DoCancel => if l.failed then l else l.(waiting := false)
    case DoClose => l.(waiting := false)
    case DoDrain => l.(handed := l.handed + Drained(r.w, r.now))
    case DoDrainAll =>
      if l.failed || l.waiting || l.running.Some? then l else l.(handed := l.finished)
    case _ => l
  }

  function AfterThread(l: Ledger, r: Run, delay: nat, step: Step): Ledger {
    match step
    case DoTake =>
      if l.waiting && l.running.None? && !r.w.closed && l.accepted != [] then
        l.(waiting := false, running := Some(Running(l.accepted[|l.accepted| - 1], true, 0)))
      else l
    case DoMeasure =>
      if l.running.Some? && r.w.thread.Inferring? then l.(running := Some(l.running.value.(ended := r.now))) else l
    case DoStore(chunk) =>
      if l.running.None? || !r.w.thread.Measured? then l
      else
        var call := l.running.value;
        l.(running := None,
           discarded := l.discarded + (if call.current then 0 else 1),
           finished := if call.current then
                         l.finished + [Result(call.request, r.w.generation, chunk, call.ended + delay)]
                       else l.finished)
    case DoFail =>
      if l.running.Some? && r.w.thread.Inferring? then l.(running := None, failed := true) else l
    case _ => l
  }

  function Entered(l: Ledger, r: Run, delay: nat, step: Step): Ledger {
    AfterThread(AfterCaller(l, r, step), r, delay, step)
  }

  function LedgerOf(l: Ledger, r: Run, delay: nat, schedule: seq<Step>): Ledger
    decreases |schedule|
  {
    if schedule == [] then l
    else LedgerOf(Entered(l, r, delay, schedule[0]), Next(r, delay, schedule[0]), delay, schedule[1..])
  }

  // ---------------------------------------------------------------- the worker meets it

  predicate CallMatches(w: Worker, running: Option<Running>) {
    && (w.thread.Waiting? <==> running.None?)
    && (running.Some? ==>
          && w.thread.ticket.request == running.value.request
          && (running.value.current <==> w.thread.ticket.generation == w.generation)
          && w.thread.ticket.generation <= w.generation
          && (running.value.current ==> w.episode == Some(running.value.request.episode))
          && (w.thread.Measured? ==> w.thread.end == running.value.ended))
  }

  /** The mailbox holds the last accepted submission, or nothing if something has happened
      to it; the thread works on what it took; results are handed over or still held. */
  predicate Meets(w: Worker, l: Ledger) {
    && (l.waiting ==> l.accepted != [])
    && w.pending == (if l.waiting && l.accepted != [] then Some(Ticket(w.generation, l.accepted[|l.accepted| - 1]))
                     else None)
    && (l.waiting && l.accepted != [] ==> w.episode == Some(l.accepted[|l.accepted| - 1].episode))
    && CallMatches(w, l.running)
    && (w.error.Some? <==> l.failed)
    && w.tallies.oldDiscarded == l.discarded
    && l.handed + w.results == l.finished
  }

  lemma CallerStepMeets(r: Run, l: Ledger, delay: nat, step: Step)
    requires Meets(r.w, l)
    requires step.DoReset? || step.DoSubmit? || step.DoCancel? || step.DoClose? || step.DoDrainAll?
    ensures Meets(Next(r, delay, step).w, Entered(l, r, delay, step))
  {
  }

  lemma HandedOver(handed: seq<Result>, held: seq<Result>, n: nat)
    requires n <= |held|
    ensures handed + held[..n] + held[n..] == handed + held
  {
    assert held == held[..n] + held[n..];
  }

  lemma DrainMeets(r: Run, l: Ledger, delay: nat)
    requires Meets(r.w, l)
    ensures Meets(Next(r, delay, DoDrain).w, Entered(l, r, delay, DoDrain))
  {
    HandedOver(l.handed, r.w.results, DueCount(r.w.results, r.now));
    assert r.w.error.Some? ==> l.handed + Drained(r.w, r.now) == l.handed;
  }

  lemma ThreadStepMeets(r: Run, l: Ledger, delay: nat, step: Step)
    requires Meets(r.w, l)
    requires step.DoTake? || step.DoMeasure? || step.DoStore? || step.DoFail? || step.Wait?
    ensures Meets(Next(r, delay, step).w, Entered(l, r, delay, step))
  {
  }

  lemma StepMeets(r: Run, l: Ledger, delay: nat, step: Step)
    requires Meets(r.w, l)
    ensures Meets(Next(r, delay, step).w, Entered(l, r, delay, step))
  {
    if step.DoDrain? {
      DrainMeets(r, l, delay);
    } else if step.DoReset? || step.DoSubmit? || step.DoCancel? || step.DoClose? || step.DoDrainAll? {
      CallerStepMeets(r, l, delay, step);
    } else {
      ThreadStepMeets(r, l, delay, step);
    }
  }

  lemma {:induction false} RunMeets(r: Run, l: Ledger, delay: nat, schedule: seq<Step>)
    requires Meets(r.w, l)
    ensures Meets(RunAll(r, delay, schedule).w, LedgerOf(l, r, delay, schedule))
    decreases |schedule|
  {
    if schedule != [] {
      StepMeets(r, l, delay, schedule[0]);
      RunMeets(Next(r, delay, schedule[0]), Entered(l, r, delay, schedule[0]), delay, schedule[1..]);
    }
  }

  /** In every reachable state the mailbox holds the last accepted submission exactly when
      it has not been taken, cancelled or dropped since, and the results handed over and
      held are those of the episode's finished calls, in order, each due its delay after
      its call ended. */
  lemma LatestRequestWins(start: int, delay: nat, schedule: seq<Step>)
    ensures Meets(RunAll(Run(NEW_WORKER, start), delay, schedule).w,
                  LedgerOf(NEW_LEDGER, Run(NEW_WORKER, start), delay, schedule))
  {
    RunMeets(Run(NEW_WORKER, start), NEW_LEDGER, delay, schedule);
  }

  /** A submission that is not refused fills the mailbox whatever was in it, and is the
      one that the thread then starts. */
  lemma AcceptedIsStartedNext(start: int, delay: nat, schedule: seq<Step>, request: Request)
    requires var w := RunAll(Run(NEW_WORKER, start), delay, schedule).w;
             w.error.None? && !w.closed && w.episode == Some(request.episode) && w.thread.Waiting?
    ensures var r := RunAll(Run(NEW_WORKER, start), delay, schedule);
            var v := Next(Next(r, delay, DoSubmit(request)), delay, DoTake).w;
            v.thread == Inferring(Ticket(r.w.generation, request)) && v.pending.None?
  {
    var r := RunAll(Run(NEW_WORKER, start), delay, schedule);
    var l := LedgerOf(NEW_LEDGER, Run(NEW_WORKER, start), delay, schedule);
    LatestRequestWins(start, delay, schedule);
    StepMeets(r, l, delay, DoSubmit(request));
    StepMeets(Next(r, delay, DoSubmit(request)), Entered(l, r, delay, DoSubmit(request)), delay, DoTake);
  }
}
