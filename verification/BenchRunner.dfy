/** The benchmark's control loop, with the inference worker running beside it. */
module BenchRunner {
  import opened Common
  import opened LatestWorker
  import opened BenchQueue

  datatype Merge = Merge(step: nat, accepted: bool, before: nat)

  /** One inference as the trace records it; `merge` is None for a result that was left
      over when the episode ended. */
  datatype Event = Event(step: nat, depth: nat, delivery: int, merge: Option<Merge>)

  /** Row `i` of each list but `events` is control step `i`. */
  datatype Trace = Trace(
    events: seq<Event>, actions: seq<Action>, dispatch: seq<int>, before: seq<nat>, after: seq<nat>, held: seq<bool>
  )

  /** Where the loop is. `Acting` has drained this tick's results, `Deciding` has
      dispatched, `Ending` has left the loop, `Settling` has cancelled the mailbox. */
  datatype Phase = First | Control | Acting | Deciding(over: bool) | Ending | Settling | Over | Aborted

  /** What stays fixed for an episode. */
  datatype Setup = Setup(mode: Mode, episode: nat, length: nat, interval: nat, delay: nat)

  /** `asked` lists the steps requests were submitted at and `cancelled` says whether the
      last one was cancelled in the mailbox; the source keeps neither. */
  datatype Runner = Runner(
    phase: Phase, q: Queue, w: Worker, now: int, waiting: bool, tr: Trace, asked: seq<nat>, cancelled: bool
  )

  function StepCount(r: Runner): nat {
    |r.tr.actions|
  }

  function Abort(r: Runner): Runner {
    r.(phase := Aborted)
  }

  function Ask(s: Setup, r: Runner, step: nat): Runner {
    var request := Request(s.episode, step, |r.q.actions|);
    if SubmitFails(r.w, request) then Abort(r)
    else r.(w := Submit(r.w, request), asked := r.asked + [step], waiting := r.waiting || s.mode.SyncHold?)
  }

  function Start(s: Setup, w: Worker, now: int): Runner {
    Ask(s, Runner(First, NewQueue(s.episode), ResetEpisode(w, s.episode), now, false,
                  Trace([], [], [], [], [], []), [], false), 0)
  }

  /** Merges one result and records it. */
  function Record(s: Setup, r: Runner, result: Result): Runner {
    var n := StepCount(r);
    if r.phase.Aborted? || ReplaceFails(r.q, result, n) then Abort(r)
    else
      var merge := Merge(n, Accepts(r.q, result, n, s.mode), |r.q.actions|);
      var event := Event(result.request.step, result.request.depth, result.delivery, Some(merge));
      r.(q := Replace(r.q, result, n, s.mode),
         waiting := r.waiting && !s.mode.SyncHold?,
         tr := r.tr.(events := r.tr.events + [event]))
  }

  function RecordAll(s: Setup, r: Runner, results: seq<Result>): Runner
    decreases |results|
  {
    if results == [] then r else RecordAll(s, Record(s, r, results[0]), results[1..])
  }

  /** Drains and records what is due now; a failed worker ends the episode. */
  function Absorb(s: Setup, r: Runner): Runner {
    if r.w.error.Some? then Abort(r)
    else RecordAll(s, r.(w := Drain(r.w, r.now)), Drained(r.w, r.now))
  }

  /** Another tick, or the end of the loop. */
  function LoopTest(s: Setup, steps: nat): Phase {
    if steps < s.length then Control else Ending
  }

  function FirstChunk(s: Setup, r: Runner): Runner {
    if !r.phase.First? then r
    else if r.w.error.Some? then Abort(r)
    else if DueCount(r.w.results, r.now) == 0 then r
    else
      var merged := Absorb(s, r);
      if merged.phase.Aborted? || NotReady(merged.q) then Abort(merged)
      else merged.(phase := LoopTest(s, StepCount(merged)))
  }

  function DrainTick(s: Setup, r: Runner): Runner {
    if !r.phase.Control? then r
    else
      var merged := Absorb(s, r);
      if merged.phase.Aborted? then merged else merged.(phase := Acting)
  }

  /** Dispatches the next command; `over` says whether the environment then ended. */
  function Act(r: Runner, over: bool): Runner {
    if !r.phase.Acting? then r
    else if NotReady(r.q) then Abort(r)
    else
      var after := AfterNext(r.q);
      r.(phase := Deciding(over), q := after,
         tr := r.tr.(actions := r.tr.actions + [NextAction(r.q)],
                     dispatch := r.tr.dispatch + [r.now],
                     before := r.tr.before + [|r.q.actions|],
                     after := r.tr.after + [|after.actions|],
                     held := r.tr.held + [NextIsHold(r.q)]))
  }

  predicate Asks(s: Setup, r: Runner) {
    if s.mode.SyncHold? then r.q.actions == [] && !r.waiting
    else s.interval > 0 && StepCount(r) % s.interval == 0
  }

  function Decide(s: Setup, r: Runner): Runner {
    if !r.phase.Deciding? then r
    else if r.phase.over then r.(phase := Ending)
    else
      var asked := if Asks(s, r) then Ask(s, r, StepCount(r)) else r;
      if asked.phase.Aborted? then asked
      else asked.(phase := LoopTest(s, StepCount(r)))
  }

  function CancelMailbox(r: Runner): Runner {
    if !r.phase.Ending? then r
    else if r.w.error.Some? then Abort(r)
    else r.(phase := Settling, w := CancelPending(r.w), cancelled := r.w.pending.Some?)
  }

  function LeftOver(results: seq<Result>): seq<Event> {
    seq(|results|, i requires 0 <= i < |results| =>
      Event(results[i].request.step, results[i].request.depth, results[i].delivery, None))
  }

  /** Once the worker is idle, what is left is recorded but not merged. */
  function SettleAll(r: Runner): Runner {
    if !r.phase.Settling? then r
    else if r.w.error.Some? then Abort(r)
    else if !LatestWorker.Idle(r.w) then r
    else
      r.(phase := Over, w := DrainAll(r.w), tr := r.tr.(events := r.tr.events + LeftOver(r.w.results)))
  }

  // ---------------------------------------------------------------- scheduling

  /** A chunk's actions are planned for the steps from its observation on. */
  function Chunk(step: nat, commands: seq<int>): seq<Action> {
    seq(|commands|, i requires 0 <= i < |commands| => Action(step + i, commands[i]))
  }

  datatype Move =
    | Take | Measure | Store(commands: seq<int>) | Fail | Wait(ticks: nat)
    | DoFirst | DoDrain | DoAct(over: bool) | DoDecide | DoCancel | DoSettle

  function Advance(s: Setup, r: Runner, move: Move): Runner {
    match move
    case Take => r.(w := LatestWorker.Take(r.w))
    case Measure => r.(w := LatestWorker.Measure(r.w, r.now))
    case Store(commands) =>
      if r.w.thread.Measured? && commands != [] then
        r.(w := LatestWorker.Store(r.w, Chunk(r.w.thread.ticket.request.step, commands), s.delay))
      else r
    case Fail => r.(w := LatestWorker.Fail(r.w))
    case Wait(ticks) => r.(now := r.now + ticks)
    case DoFirst => FirstChunk(s, r)
    case DoDrain => DrainTick(s, r)
    case DoAct(over) => Act(r, over)
    case DoDecide => Decide(s, r)
    case DoCancel => CancelMailbox(r)
    case DoSettle => SettleAll(r)
  }

  function Play(s: Setup, r: Runner, schedule: seq<Move>): Runner
    decreases |schedule|
  {
    if schedule == [] then r else Play(s, Advance(s, r, schedule[0]), schedule[1..])
  }
}
