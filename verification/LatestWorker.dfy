/** The benchmark's inference worker: one thread behind a single-slot mailbox. */
module LatestWorker {
  import opened Common

  /** An action remembers the control step it was planned for. */
  datatype Action = Action(planned: int, command: int)

  datatype Request = Request(episode: nat, step: nat, depth: nat)

  /** `generation` is the one the request was submitted under; it is not stored by the
      source, which compares it before storing. */
  datatype Result = Result(request: Request, generation: nat, chunk: seq<Action>, delivery: int)

  datatype Ticket = Ticket(generation: nat, request: Request)

  /** The worker thread; from `Inferring` on the worker is active. */
  datatype Thread = Waiting | Inferring(ticket: Ticket) | Measured(ticket: Ticket, end: int)

  /** Counts since the last episode reset. `accepted`, `dropped` and `failed` are not
      counted by the source. */
  datatype Tallies = Tallies(
    accepted: nat, started: nat, completed: nat, replaced: nat, cancelled: nat, dropped: nat, failed: nat,
    oldDiscarded: nat
  )

  /** `error` holds the generation of the call that failed. */
  datatype Worker = Worker(
    pending: Option<Ticket>, results: seq<Result>, error: Option<nat>, thread: Thread, closed: bool,
    episode: Option<nat>, generation: nat, tallies: Tallies
  )

  const NO_TALLIES: Tallies := Tallies(0, 0, 0, 0, 0, 0, 0, 0)

  const NEW_WORKER: Worker := Worker(None, [], None, Waiting, false, None, 0, NO_TALLIES)

  predicate Active(w: Worker) {
    !w.thread.Waiting?
  }

  predicate Idle(w: Worker) {
    !Active(w) && w.pending.None?
  }

  // ---------------------------------------------------------------- the caller's side

  function ResetEpisode(w: Worker, episode: nat): Worker {
    w.(generation := w.generation + 1, episode := Some(episode), pending := None, results := [], error := None,
       tallies := NO_TALLIES)
  }

  predicate SubmitFails(w: Worker, request: Request) {
    w.error.Some? || w.closed || w.episode != Some(request.episode)
  }

  function Submit(w: Worker, request: Request): Worker {
    if SubmitFails(w, request) then w
    else
      var t := w.tallies.(accepted := w.tallies.accepted + 1);
      w.(pending := Some(Ticket(w.generation, request)),
         tallies := if w.pending.Some? then t.(replaced := t.replaced + 1) else t)
  }

  function CancelPending(w: Worker): Worker {
    if w.error.Some? || w.pending.None? then w
    else w.(pending := None, tallies := w.tallies.(cancelled := w.tallies.cancelled + 1))
  }

  function Close(w: Worker): Worker {
    w.(closed := true, pending := None,
       tallies := if w.pending.Some? then w.tallies.(dropped := w.tallies.dropped + 1) else w.tallies)
  }

  /** How many results at the front are due. */
  function DueCount(results: seq<Result>, now: int): (n: nat)
    ensures n <= |results|
  {
    if results == [] || results[0].delivery > now then 0 else 1 + DueCount(results[1..], now)
  }

  function Drain(w: Worker, now: int): Worker {
    if w.error.Some? then w else w.(results := w.results[DueCount(w.results, now)..])
  }

  function Drained(w: Worker, now: int): seq<Result> {
    if w.error.Some? then [] else w.results[..DueCount(w.results, now)]
  }

  predicate DrainAllFails(w: Worker) {
    w.error.Some? || !Idle(w)
  }

  function DrainAll(w: Worker): Worker {
    if DrainAllFails(w) then w else w.(results := [])
  }

  // ---------------------------------------------------------------- the thread's side

  function Take(w: Worker): Worker {
    if w.thread.Waiting? && w.pending.Some? && !w.closed then
      w.(thread := Inferring(w.pending.value), pending := None,
         tallies := w.tallies.(started := w.tallies.started + 1))
    else w
  }

  /** The inference returned and its result is built; it is stored later. */
  function Measure(w: Worker, now: int): Worker {
    if w.thread.Inferring? then w.(thread := Measured(w.thread.ticket, now)) else w
  }

  function Store(w: Worker, chunk: seq<Action>, delay: nat): Worker {
    if !w.thread.Measured? then w
    else
      var ticket := w.thread.ticket;
      if ticket.generation == w.generation && w.episode == Some(ticket.request.episode) then
        w.(thread := Waiting,
           results := w.results + [Result(ticket.request, ticket.generation, chunk, w.thread.end + delay)],
           tallies := w.tallies.(completed := w.tallies.completed + 1))
      else
        w.(thread := Waiting, tallies := w.tallies.(oldDiscarded := w.tallies.oldDiscarded + 1))
  }

  /** The inference raised: the error is stored whatever its generation. */
  function Fail(w: Worker): Worker {
    if !w.thread.Inferring? then w
    else
      var g := w.thread.ticket.generation;
      w.(thread := Waiting, error := Some(g),
         tallies := if g == w.generation then w.tallies.(failed := w.tallies.failed + 1) else w.tallies)
  }

  // ---------------------------------------------------------------- scheduling

  datatype Step =
    | DoReset(episode: nat) | DoSubmit(request: Request) | DoCancel | DoClose | DoDrain | DoDrainAll
    | DoTake | DoMeasure | DoStore(chunk: seq<Action>) | DoFail
    | Wait(ticks: nat)

  datatype Run = Run(w: Worker, now: int)

  function Next(r: Run, delay: nat, step: Step): Run {
    match step
    case DoReset(episode) => r.(w := ResetEpisode(r.w, episode))
    case DoSubmit(request) => r.(w := Submit(r.w, request))
    case DoCancel => r.(w := CancelPending(r.w))
    case DoClose => r.(w := Close(r.w))
    case DoDrain => r.(w := Drain(r.w, r.now))
    case DoDrainAll => r.(w := DrainAll(r.w))
    case DoTake => r.(w := Take(r.w))
    case DoMeasure => r.(w := Measure(r.w, r.now))
    case DoStore(chunk) => r.(w := Store(r.w, chunk, delay))
    case DoFail => r.(w := Fail(r.w))
    case Wait(ticks) => r.(now := r.now + ticks)
  }

  function RunAll(r: Run, delay: nat, schedule: seq<Step>): Run
    decreases |schedule|
  {
    if schedule == [] then r else RunAll(Next(r, delay, schedule[0]), delay, schedule[1..])
  }

  // ---------------------------------------------------------------- invariant

  predicate Sorted(results: seq<Result>) {
    forall i, j | 0 <= i < j < |results| :: results[i].delivery <= results[j].delivery
  }

  /** Everything held belongs to the current episode; only the thread may lag behind. */
  predicate Current(w: Worker) {
    && (w.pending.Some? ==> w.pending.value.generation == w.generation
                            && w.episode == Some(w.pending.value.request.episode))
    && (forall i | 0 <= i < |w.results| ::
          w.results[i].generation == w.generation && w.episode == Some(w.results[i].request.episode))
    && (Active(w) ==> w.thread.ticket.generation <= w.generation)
    && (Active(w) && w.thread.ticket.generation == w.generation ==> w.episode == Some(w.thread.ticket.request.episode))
  }

  /** Results are in delivery order, and so will be what the thread measures next. */
  predicate InOrder(r: Run, delay: nat) {
    && Sorted(r.w.results)
    && (r.w.thread.Measured? ==> r.w.thread.end <= r.now)
    && forall i | 0 <= i < |r.w.results| ::
         r.w.results[i].delivery <= (if r.w.thread.Measured? then r.w.thread.end else r.now) + delay
  }

  function Lagging(w: Worker): nat {
    if Active(w) && w.thread.ticket.generation < w.generation then 1 else 0
  }

  function Working(w: Worker): nat {
    if Active(w) && w.thread.ticket.generation == w.generation then 1 else 0
  }

  /** Every accepted submission is accounted for, every started call too. */
  predicate Conserved(w: Worker) {
    var t := w.tallies;
    && t.accepted == t.started + t.replaced + t.cancelled + t.dropped + (if w.pending.Some? then 1 else 0)
    && t.started == t.completed + t.failed + Working(w)
    && t.oldDiscarded + Lagging(w) <= 1
  }

  predicate Inv(r: Run, delay: nat) {
    Current(r.w) && InOrder(r, delay) && Conserved(r.w)
  }

  lemma DueIsPrefix(results: seq<Result>, now: int)
    requires Sorted(results)
    ensures forall i | 0 <= i < |results| :: i < DueCount(results, now) <==> results[i].delivery <= now
  {
    if results != [] && results[0].delivery <= now {
      DueIsPrefix(results[1..], now);
      assert forall i | 1 <= i < |results| :: results[1..][i - 1] == results[i];
    }
  }

  lemma StepKeepsCurrent(r: Run, delay: nat, step: Step)
    requires Current(r.w)
    ensures Current(Next(r, delay, step).w)
  {
  }

  lemma StepKeepsOrder(r: Run, delay: nat, step: Step)
    requires InOrder(r, delay)
    ensures InOrder(Next(r, delay, step), delay)
  {
    match step
    case DoReset(_) =>
    case DoSubmit(_) =>
    case DoCancel =>
    case DoClose =>
    case DoDrain =>
    case DoDrainAll =>
    case DoTake =>
    case DoMeasure =>
    case DoStore(_) =>
    case DoFail =>
    case Wait(_) =>
  }

  lemma StepKeepsConserved(r: Run, delay: nat, step: Step)
    requires Current(r.w) && Conserved(r.w)
    ensures Conserved(Next(r, delay, step).w)
  {
  }

  lemma StepKeepsInv(r: Run, delay: nat, step: Step)
    requires Inv(r, delay)
    ensures Inv(Next(r, delay, step), delay)
  {
    StepKeepsCurrent(r, delay, step);
    StepKeepsOrder(r, delay, step);
    StepKeepsConserved(r, delay, step);
  }

  lemma {:induction false} RunKeepsInv(r: Run, delay: nat, schedule: seq<Step>)
    requires Inv(r, delay)
    ensures Inv(RunAll(r, delay, schedule), delay)
    decreases |schedule|
  {
    if schedule != [] {
      StepKeepsInv(r, delay, schedule[0]);
      RunKeepsInv(Next(r, delay, schedule[0]), delay, schedule[1..]);
    }
  }

  // ---------------------------------------------------------------- theorems

  lemma InitialInv(start: int, delay: nat)
    ensures Inv(Run(NEW_WORKER, start), delay)
  {
  }

  lemma ReachableInv(start: int, delay: nat, schedule: seq<Step>)
    ensures Inv(RunAll(Run(NEW_WORKER, start), delay, schedule), delay)
  {
    InitialInv(start, delay);
    RunKeepsInv(Run(NEW_WORKER, start), delay, schedule);
  }

  /** No result of an earlier episode is ever stored, at most one is discarded per
      episode, and every submission since the reset is started, replaced, cancelled,
      dropped by closing or still pending. */
  lemma SubmissionsConserved(delay: nat, start: int, schedule: seq<Step>)
    ensures var w := RunAll(Run(NEW_WORKER, start), delay, schedule).w;
            && Current(w) && Conserved(w)
  {
    ReachableInv(start, delay, schedule);
  }

  /** Draining hands over exactly the results due by now, in order, and keeps the rest. */
  predicate SplitsAtDue(results: seq<Result>, taken: seq<Result>, left: seq<Result>, now: int) {
    && taken + left == results
    && (forall i | 0 <= i < |taken| :: taken[i].delivery <= now)
    && (forall i | 0 <= i < |left| :: left[i].delivery > now)
  }

  lemma DrainSplits(w: Worker, now: int)
    requires Sorted(w.results) && w.error.None?
    ensures SplitsAtDue(w.results, Drained(w, now), Drain(w, now).results, now)
  {
    DueIsPrefix(w.results, now);
  }

  lemma DrainReturnsExactlyDue(delay: nat, start: int, schedule: seq<Step>)
    ensures var r := RunAll(Run(NEW_WORKER, start), delay, schedule);
            r.w.error.None? ==> SplitsAtDue(r.w.results, Drained(r.w, r.now), Drain(r.w, r.now).results, r.now)
  {
    ReachableInv(start, delay, schedule);
    var r := RunAll(Run(NEW_WORKER, start), delay, schedule);
    if r.w.error.None? {
      DrainSplits(r.w, r.now);
    }
  }

  predicate WithinEpisode(schedule: seq<Step>) {
    forall i | 0 <= i < |schedule| :: !schedule[i].DoReset?
  }

  /** An error of an earlier episode's call. */
  predicate ForeignError(w: Worker) {
    w.error.Some? && w.error.value < w.generation
  }

  lemma QuietStep(r: Run, delay: nat, step: Step)
    requires Current(r.w) && (Lagging(r.w) == 1 ==> r.w.thread.Measured?)
    requires !ForeignError(r.w) && !step.DoReset?
    ensures var w := Next(r, delay, step).w;
            !ForeignError(w) && (Lagging(w) == 1 ==> w.thread.Measured?)
  {
  }

  /** A call whose inference has already returned can no longer fail. */
  lemma {:induction false} NoFailureAfterMeasure(r: Run, delay: nat, schedule: seq<Step>)
    requires Current(r.w) && (Lagging(r.w) == 1 ==> r.w.thread.Measured?)
    requires !ForeignError(r.w) && WithinEpisode(schedule)
    ensures !ForeignError(RunAll(r, delay, schedule).w)
    decreases |schedule|
  {
    if schedule != [] {
      assert WithinEpisode(schedule[1..]);
      StepKeepsCurrent(r, delay, schedule[0]);
      QuietStep(r, delay, schedule[0]);
      NoFailureAfterMeasure(Next(r, delay, schedule[0]), delay, schedule[1..]);
    }
  }

  ghost predicate MayFailForeign(r: Run, delay: nat) {
    exists schedule :: WithinEpisode(schedule) && ForeignError(RunAll(r, delay, schedule).w)
  }

  /** The failure of an earlier episode can reach the new one exactly when the worker
      was still inferring as the episode was reset. */
  lemma OldErrorsReachExactlyFromActiveResets(r: Run, delay: nat, episode: nat)
    requires Inv(r, delay)
    ensures MayFailForeign(Next(r, delay, DoReset(episode)), delay) <==> r.w.thread.Inferring?
  {
    var renewed := Next(r, delay, DoReset(episode));
    StepKeepsInv(r, delay, DoReset(episode));
    if r.w.thread.Inferring? {
      var schedule := [DoFail];
      assert RunAll(Next(renewed, delay, DoFail), delay, []) == Next(renewed, delay, DoFail);
      assert schedule[1..] == [] && WithinEpisode(schedule);
      assert ForeignError(RunAll(renewed, delay, schedule).w);
    } else if schedule :| WithinEpisode(schedule) && ForeignError(RunAll(renewed, delay, schedule).w) {
      NoFailureAfterMeasure(renewed, delay, schedule);
    }
  }

  // ---------------------------------------------------------------- the object

  class LatestRequestWorker {
    const delay: nat
    var pending: Option<Ticket>
    var results: seq<Result>
    var error: Option<nat>
    var thread: Thread
    var closed: bool
    var episode: Option<nat>
    var generation: nat
    var tallies: Tallies

    function View(): Worker
      reads this
    {
      Worker(pending, results, error, thread, closed, episode, generation, tallies)
    }

    constructor (delay: nat)
      ensures View() == NEW_WORKER && this.delay == delay
    {
      this.delay := delay;
      pending, results, error, thread, closed := None, [], None, Waiting, false;
      episode, generation, tallies := None, 0, NO_TALLIES;
    }

    method Begin(newEpisode: nat)
      modifies this
      ensures View() == ResetEpisode(old(View()), newEpisode)
    {
      generation := generation + 1;
      episode := Some(newEpisode);
      pending := None;
      results := [];
      error := None;
      tallies := NO_TALLIES;
    }

    /** Not accepted stands for the errors the source raises. */
    method Offer(request: Request) returns (accepted: bool)
      modifies this
      ensures accepted <==> !SubmitFails(old(View()), request)
      ensures View() == Submit(old(View()), request)
    {
      if error.Some? || closed || episode != Some(request.episode) {
        return false;
      }
      if pending.Some? {
        tallies := tallies.(replaced := tallies.replaced + 1);
      }
      tallies := tallies.(accepted := tallies.accepted + 1);
      pending := Some(Ticket(generation, request));
      return true;
    }

    method PopDue(now: int) returns (due: seq<Result>)
      modifies this`results
      ensures var n := DueCount(old(results), now); due == old(results)[..n] && results == old(results)[n..]
    {
      due := [];
      ghost var all := results;
      while results != [] && results[0].delivery <= now
        invariant due + results == all
        invariant |due| + DueCount(results, now) == DueCount(all, now)
        decreases |results|
      {
        due := due + [results[0]];
        results := results[1..];
      }
      assert all[..|due|] == due && all[|due|..] == results;
    }

    /** None stands for the error raised when the thread has failed, here and below. */
    method DrainResults(now: int) returns (drained: Option<seq<Result>>)
      modifies this`results
      ensures View() == Drain(old(View()), now)
      ensures drained == if error.Some? then None else Some(Drained(old(View()), now))
      ensures drained.Some? && Sorted(old(results)) ==> SplitsAtDue(old(results), drained.value, results, now)
    {
      if error.Some? {
        return None;
      }
      var due := PopDue(now);
      if Sorted(old(results)) {
        DrainSplits(old(View()), now);
      }
      return Some(due);
    }

    method DrainAllResults() returns (drained: Option<seq<Result>>)
      modifies this`results
      ensures View() == DrainAll(old(View()))
      ensures drained == if DrainAllFails(old(View())) then None else Some(old(results))
    {
      if error.Some? || thread != Waiting || pending.Some? {
        return None;
      }
      drained := Some(results);
      results := [];
    }

    method CancelMailbox() returns (cancelled: Option<bool>)
      modifies this
      ensures View() == CancelPending(old(View()))
      ensures cancelled == if error.Some? then None else Some(old(pending).Some?)
    {
      if error.Some? {
        return None;
      }
      cancelled := Some(pending.Some?);
      if pending.Some? {
        pending := None;
        tallies := tallies.(cancelled := tallies.cancelled + 1);
      }
    }

    method Shut()
      modifies this
      ensures View() == Close(old(View()))
    {
      closed := true;
      if pending.Some? {
        tallies := tallies.(dropped := tallies.dropped + 1);
      }
      pending := None;
    }

    method TakeRequest() returns (taken: bool)
      modifies this
      ensures View() == Take(old(View()))
      ensures taken <==> old(thread.Waiting? && pending.Some? && !closed)
    {
      taken := thread.Waiting? && pending.Some? && !closed;
      if taken {
        thread := Inferring(pending.value);
        pending := None;
        tallies := tallies.(started := tallies.started + 1);
      }
    }

    method MeasureEnd(now: int)
      modifies this
      ensures View() == Measure(old(View()), now)
    {
      if thread.Inferring? {
        thread := Measured(thread.ticket, now);
      }
    }

    method StoreResult(chunk: seq<Action>)
      requires thread.Measured?
      modifies this
      ensures View() == Store(old(View()), chunk, delay)
    {
      var ticket, end := thread.ticket, thread.end;
      thread := Waiting;
      if ticket.generation == generation && episode == Some(ticket.request.episode) {
        results := results + [Result(ticket.request, ticket.generation, chunk, end + delay)];
        tallies := tallies.(completed := tallies.completed + 1);
      } else {
        tallies := tallies.(oldDiscarded := tallies.oldDiscarded + 1);
      }
    }

    method FailInference()
      modifies this
      ensures View() == Fail(old(View()))
    {
      if thread.Inferring? {
        if thread.ticket.generation == generation {
          tallies := tallies.(failed := tallies.failed + 1);
        }
        error := Some(thread.ticket.generation);
        thread := Waiting;
      }
    }

    method Perform(now: int, step: Step) returns (later: int)
      modifies this
      ensures Run(View(), later) == Next(Run(old(View()), now), delay, step)
    {
      later := now;
      match step
      case DoReset(newEpisode) => Begin(newEpisode);
      case DoSubmit(request) => var _ := Offer(request);
      case DoCancel => var _ := CancelMailbox();
      case DoClose => Shut();
      case DoDrain => var _ := DrainResults(now);
      case DoDrainAll => var _ := DrainAllResults();
      case DoTake => var _ := TakeRequest();
      case DoMeasure => MeasureEnd(now);
      case DoStore(chunk) =>
        if thread.Measured? {
          StoreResult(chunk);
        }
      case DoFail => FailInference();
      case Wait(ticks) => later := now + ticks;
    }

    /** The worker under a schedule of its callers and its thread. */
    method Drive(start: int, schedule: seq<Step>) returns (now: int)
      requires Inv(Run(View(), start), delay)
      modifies this
      ensures Run(View(), now) == RunAll(Run(old(View()), start), delay, schedule)
      ensures Inv(Run(View(), now), delay)
    {
      now := start;
      for k := 0 to |schedule|
        invariant RunAll(Run(View(), now), delay, schedule[k..]) == RunAll(Run(old(View()), start), delay, schedule)
        invariant Inv(Run(View(), now), delay)
      {
        assert schedule[k..][0] == schedule[k] && schedule[k..][1..] == schedule[k + 1..];
        StepKeepsInv(Run(View(), now), delay, schedule[k]);
        now := Perform(now, schedule[k]);
      }
    }
  }
}
