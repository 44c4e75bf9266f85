/** Every stop-and-wait run, under every interleaving with the inference thread, leaves
    a trace that the validator accepts, but for one family of endings. */
module SyncHoldRuns {
  import opened Common
  import opened LatestWorker
  import opened BenchQueue
  import opened BenchEpisode
  import opened BenchRunner
  import opened BenchValidator

  // ---------------------------------------------------------------- the request in flight

  predicate Nothing(w: Worker) {
    w.pending.None? && w.results == [] && Working(w) == 0
  }

  /** The one outstanding request is in the mailbox, with the thread, or a result. */
  predicate InFlight(w: Worker, request: Request) {
    || (w.pending == Some(Ticket(w.generation, request)) && w.results == [] && Working(w) == 0)
    || (w.pending.None? && w.results == [] && Working(w) == 1 && w.thread.ticket.request == request)
    || (w.pending.None? && Working(w) == 0 && |w.results| == 1
        && w.results[0].request == request && w.results[0].chunk != [])
  }

  predicate Outstanding(s: Setup, w: Worker, asked: seq<nat>, waiting: bool) {
    && w.episode == Some(s.episode) && !w.closed
    && (Active(w) ==> w.thread.ticket.generation <= w.generation)
    && if waiting then asked != [] && InFlight(w, Request(s.episode, asked[|asked| - 1], 0)) else Nothing(w)
  }

  // ---------------------------------------------------------------- the trace so far

  predicate Rows(tr: Trace) {
    var n := |tr.actions|;
    |tr.dispatch| == n && |tr.before| == n && |tr.after| == n && |tr.held| == n
  }

  predicate RowsOk(tr: Trace) {
    Rows(tr) && (|tr.actions| > 0 ==> forall i | 0 <= i < |tr.actions| :: HoldOk(tr, i))
  }

  predicate Increasing(asked: seq<nat>) {
    forall i, j | 0 <= i < j < |asked| :: asked[i] < asked[j]
  }

  /** Events answer the requests in order. */
  predicate Answers(events: seq<Event>, asked: seq<nat>) {
    |events| <= |asked| && forall i | 0 <= i < |events| :: events[i].step == asked[i]
  }

  /** Only the first event is the initial chunk, delivered before the first step. */
  predicate EventsOk(tr: Trace, now: int) {
    && (forall k | 0 <= k < |tr.events| :: StopAndWait(tr.events[k]) && (IsInitial(tr.events[k]) <==> k == 0))
    && (tr.events != [] ==>
          && tr.events[0].delivery <= now
          && (tr.dispatch != [] ==> tr.events[0].delivery <= tr.dispatch[0]))
  }

  predicate StartsAsked(held: seq<bool>, asked: seq<nat>) {
    forall i | 0 <= i < |held| && HoldStart(held, i) :: i in asked
  }

  /** Since the outstanding request every step has been a hold; the one before was not. */
  predicate HeldSince(held: seq<bool>, asked: seq<nat>) {
    asked != [] &&
    var o := asked[|asked| - 1];
    && o <= |held|
    && (o > 0 ==> !held[o - 1])
    && forall j | o <= j < |held| :: held[j]
  }

  /** What the lists so far say. */
  predicate Recorded(tr: Trace, asked: seq<nat>, waiting: bool, now: int) {
    && RowsOk(tr) && EventsOk(tr, now)
    && Increasing(asked) && Answers(tr.events, asked)
    && (forall i | 0 <= i < |asked| :: asked[i] <= |tr.held|)
    && StartsAsked(tr.held, asked)
    && (waiting ==> HeldSince(tr.held, asked))
    && |tr.events| + (if waiting then 1 else 0) == |asked|
  }

  // ---------------------------------------------------------------- the invariant

  predicate QueueInStep(s: Setup, r: Runner) {
    && r.q.episode == Some(s.episode)
    && (r.waiting ==> r.q.actions == [])
    && (r.tr.actions != [] ==> r.q.last == Some(r.tr.actions[|r.tr.actions| - 1]))
  }

  /** In the loop the queue is empty only while a request is outstanding; an episode of
      length 0 never enters it. */
  predicate LoopOk(s: Setup, r: Runner) {
    && (r.phase.Control? || r.phase.Acting? || r.tr.actions != [] ==> s.length > 0)
    && (r.phase.First? ==> r.tr.events == [] && r.tr.actions == [] && r.asked == [0] && r.waiting)
    && (r.phase.Control? || r.phase.Acting? ==> (r.q.actions == [] ==> r.waiting && r.tr.actions != []))
    && (r.phase.Deciding? ==> r.tr.actions != [])
    && (r.phase.Ending? || r.phase.Settling? ==> r.tr.actions != [] || s.length == 0)
    && (r.phase.Deciding? && !r.waiting && r.tr.held != [] ==> !r.tr.held[|r.tr.held| - 1])
    && (r.phase.Deciding? ==> forall i | 0 <= i < |r.asked| :: r.asked[i] < |r.tr.held|)
    && (!r.phase.First? ==> r.tr.events != [])
  }

  predicate WorkerInStep(s: Setup, r: Runner) {
    && Outstanding(s, r.w, r.asked, r.waiting && !r.cancelled)
    && (r.cancelled ==> r.waiting && r.phase.Settling?)
    && (r.phase.Settling? ==> r.w.pending.None?)
  }

  predicate Alive(s: Setup, r: Runner) {
    Recorded(r.tr, r.asked, r.waiting, r.now) && QueueInStep(s, r) && LoopOk(s, r) && WorkerInStep(s, r)
  }

  /** What a finished run has left behind. */
  predicate Finished(s: Setup, r: Runner) {
    && (r.tr.actions != [] <==> s.length > 0)
    && RowsOk(r.tr) && r.tr.events != [] && EventsOk(r.tr, r.now)
    && Increasing(r.asked) && Answers(r.tr.events, r.asked)
    && (forall i | 0 <= i < |r.asked| :: r.asked[i] <= |r.tr.held|)
    && StartsAsked(r.tr.held, r.asked)
    && |r.tr.events| + (if r.cancelled then 1 else 0) == |r.asked|
    && (r.cancelled ==> HeldSince(r.tr.held, r.asked))
  }

  predicate Inv(s: Setup, r: Runner) {
    || r.phase.Aborted?
    || (r.phase.Over? && Finished(s, r))
    || (!r.phase.Over? && (r.w.error.Some? || Alive(s, r)))
  }

  // ---------------------------------------------------------------- the thread moves

  lemma ThreadKeepsOutstanding(s: Setup, w: Worker, asked: seq<nat>, waiting: bool, now: int, commands: seq<int>)
    requires Outstanding(s, w, asked, waiting)
    ensures Outstanding(s, LatestWorker.Take(w), asked, waiting)
    ensures Outstanding(s, LatestWorker.Measure(w, now), asked, waiting)
    ensures w.thread.Measured? && commands != [] ==>
              Outstanding(s, LatestWorker.Store(w, Chunk(w.thread.ticket.request.step, commands), s.delay), asked, waiting)
  {
  }

  lemma WorkerChange(s: Setup, r: Runner, w: Worker)
    requires Alive(s, r) && Outstanding(s, w, r.asked, r.waiting && !r.cancelled)
    requires r.w.pending.None? ==> w.pending.None?
    ensures Alive(s, r.(w := w))
  {
  }

  lemma TimePasses(s: Setup, r: Runner, ticks: nat)
    requires Alive(s, r)
    ensures Alive(s, r.(now := r.now + ticks))
  {
  }

  lemma ThreadMoveKeepsAlive(s: Setup, r: Runner, move: Move)
    requires Alive(s, r) && (move.Take? || move.Measure? || move.Store?)
    ensures Alive(s, Advance(s, r, move))
  {
    var commands := if move.Store? then move.commands else [];
    ThreadKeepsOutstanding(s, r.w, r.asked, r.waiting && !r.cancelled, r.now, commands);
    WorkerChange(s, r, Advance(s, r, move).w);
  }

  lemma ThreadMoveKeepsInv(s: Setup, r: Runner, move: Move)
    requires Inv(s, r)
    requires move.Take? || move.Measure? || move.Store? || move.Fail? || move.Wait?
    ensures Inv(s, Advance(s, r, move))
  {
    if !r.phase.Aborted? && !r.phase.Over? && r.w.error.None? {
      if move.Wait? {
        TimePasses(s, r, move.ticks);
      } else if !move.Fail? {
        ThreadMoveKeepsAlive(s, r, move);
      }
    }
  }

  // ---------------------------------------------------------------- merging

  /** The one result there can be, merged into the empty queue. */
  function Merged(s: Setup, r: Runner): Runner
    requires |r.w.results| == 1
  {
    Record(s, r.(w := r.w.(results := [])), r.w.results[0])
  }

  lemma AbsorbsAtMostOne(s: Setup, r: Runner)
    requires |r.w.results| <= 1 && r.w.error.None?
    ensures Absorb(s, r) ==
            if |r.w.results| == 1 && r.w.results[0].delivery <= r.now then Merged(s, r) else r
  {
    var due := DueCount(r.w.results, r.now);
    if |r.w.results| == 1 && r.w.results[0].delivery <= r.now {
      assert r.w.results[1..] == [] && due == 1;
      assert Drained(r.w, r.now) == [r.w.results[0]];
      assert Drain(r.w, r.now) == r.w.(results := []);
      var kept := r.(w := r.w.(results := []));
      assert RecordAll(s, kept, [r.w.results[0]]) == RecordAll(s, Record(s, kept, r.w.results[0]), []);
    } else {
      assert due == 0 && Drained(r.w, r.now) == [] && Drain(r.w, r.now) == r.w;
      assert r.(w := r.w) == r;
    }
  }

  lemma EventAppended(tr: Trace, asked: seq<nat>, now: int, e: Event)
    requires Recorded(tr, asked, true, now) && e.step == asked[|asked| - 1]
    requires StopAndWait(e) && (IsInitial(e) <==> tr.events == []) && e.delivery <= now
    requires tr.events == [] ==> tr.dispatch == []
    ensures Recorded(tr.(events := tr.events + [e]), asked, false, now)
  {
    var more := tr.(events := tr.events + [e]);
    assert forall i | 0 <= i < |tr.actions| :: HoldOk(more, i) <==> HoldOk(tr, i);
  }

  lemma MergedRecords(s: Setup, r: Runner)
    requires s.mode.SyncHold? && Alive(s, r) && r.waiting && !r.cancelled
    requires |r.w.results| == 1 && r.w.results[0].delivery <= r.now
    requires r.phase.First? || r.phase.Control?
    ensures var m := Merged(s, r);
            && m.phase == r.phase && m.w == r.w.(results := []) && m.now == r.now && !m.waiting
            && m.asked == r.asked && !m.cancelled && m.tr.actions == r.tr.actions && m.tr.held == r.tr.held
            && m.tr.events != []
            && Recorded(m.tr, m.asked, false, m.now)
            && m.q.actions == r.w.results[0].chunk && m.q.actions != []
            && m.q.episode == r.q.episode && m.q.last == r.q.last
  {
    var result := r.w.results[0];
    var n := |r.tr.actions|;
    assert result.request == Request(s.episode, r.asked[|r.asked| - 1], 0);
    assert result.chunk[0..] == result.chunk;
    var merge := BenchRunner.Merge(n, true, 0);
    EventAppended(r.tr, r.asked, r.now, Event(result.request.step, 0, result.delivery, Some(merge)));
  }

  /** How the wait for the first chunk ends. */
  lemma LoopEntered(s: Setup, r: Runner, merged: Runner)
    requires r.phase.First? && r.w.error.None? && DueCount(r.w.results, r.now) != 0
    requires merged == Absorb(s, r) && !merged.phase.Aborted? && !NotReady(merged.q)
    ensures FirstChunk(s, r) == merged.(phase := LoopTest(s, StepCount(merged)))
  {
  }

  lemma FirstMergeIsAlive(s: Setup, r: Runner)
    requires s.mode.SyncHold? && Alive(s, r) && r.phase.First?
    requires |r.w.results| == 1 && r.w.results[0].delivery <= r.now
    ensures var m := Merged(s, r);
            !m.phase.Aborted? && !NotReady(m.q) && Alive(s, m.(phase := LoopTest(s, StepCount(m))))
  {
    MergedRecords(s, r);
  }

  lemma FirstKeepsInv(s: Setup, r: Runner)
    requires s.mode.SyncHold? && Inv(s, r)
    ensures Inv(s, FirstChunk(s, r))
  {
    if r.phase.First? && r.w.error.None? && DueCount(r.w.results, r.now) != 0 {
      AbsorbsAtMostOne(s, r);
      FirstMergeIsAlive(s, r);
      LoopEntered(s, r, Merged(s, r));
    }
  }

  lemma MergedIsAlive(s: Setup, r: Runner)
    requires s.mode.SyncHold? && Alive(s, r) && r.phase.Control?
    requires |r.w.results| == 1 && r.w.results[0].delivery <= r.now
    ensures !Merged(s, r).phase.Aborted? && Alive(s, Merged(s, r).(phase := Acting))
  {
    MergedRecords(s, r);
  }

  lemma UnmergedIsAlive(s: Setup, r: Runner)
    requires Alive(s, r) && r.phase.Control?
    ensures Alive(s, r.(phase := Acting))
  {
  }

  lemma DrainKeepsInv(s: Setup, r: Runner)
    requires s.mode.SyncHold? && Inv(s, r)
    ensures Inv(s, DrainTick(s, r))
  {
    if r.phase.Control? && r.w.error.None? {
      AbsorbsAtMostOne(s, r);
      if |r.w.results| == 1 && r.w.results[0].delivery <= r.now {
        MergedIsAlive(s, r);
      } else {
        UnmergedIsAlive(s, r);
      }
    }
  }

  // ---------------------------------------------------------------- dispatching

  /** One more row. */
  lemma RowAppended(tr: Trace, asked: seq<nat>, waiting: bool, now: int, q: Queue)
    requires Recorded(tr, asked, waiting, now) && tr.events != [] && !NotReady(q)
    requires q.actions == [] ==> waiting && tr.actions != []
    requires waiting ==> q.actions == []
    requires tr.actions != [] ==> q.last == Some(tr.actions[|tr.actions| - 1])
    ensures var more := tr.(actions := tr.actions + [NextAction(q)], dispatch := tr.dispatch + [now],
                            before := tr.before + [|q.actions|], after := tr.after + [|AfterNext(q).actions|],
                            held := tr.held + [NextIsHold(q)]);
            Recorded(more, asked, waiting, now)
  {
    var more := tr.(actions := tr.actions + [NextAction(q)], dispatch := tr.dispatch + [now],
                    before := tr.before + [|q.actions|], after := tr.after + [|AfterNext(q).actions|],
                    held := tr.held + [NextIsHold(q)]);
    var n := |tr.actions|;
    forall i | 0 <= i <= n ensures HoldOk(more, i) {
      if i < n {
        assert HoldOk(tr, i);
        assert i > 0 ==> more.actions[i - 1] == tr.actions[i - 1];
      }
    }
    forall i | 0 <= i < |more.held| && HoldStart(more.held, i) ensures i in asked {
      if i < n {
        assert HoldStart(tr.held, i);
      } else {
        assert asked[|asked| - 1] == n;
      }
    }
  }

  lemma ActKeepsInv(s: Setup, r: Runner, over: bool)
    requires Inv(s, r)
    ensures Inv(s, Act(r, over))
  {
    if r.phase.Acting? && !NotReady(r.q) && r.w.error.None? {
      RowAppended(r.tr, r.asked, r.waiting, r.now, r.q);
    }
  }

  // ---------------------------------------------------------------- asking

  lemma AskRecorded(tr: Trace, asked: seq<nat>, now: int)
    requires Recorded(tr, asked, false, now) && tr.actions != [] && !tr.held[|tr.held| - 1]
    requires forall i | 0 <= i < |asked| :: asked[i] < |tr.held|
    ensures Recorded(tr, asked + [|tr.actions|], true, now)
  {
    var more := asked + [|tr.actions|];
    assert forall i | 0 <= i < |tr.held| && HoldStart(tr.held, i) :: i in asked;
  }

  lemma DecideKeepsInv(s: Setup, r: Runner)
    requires s.mode.SyncHold? && Inv(s, r)
    ensures Inv(s, Decide(s, r))
  {
    if r.phase.Deciding? && !r.phase.over && r.w.error.None? && Asks(s, r) {
      AskRecorded(r.tr, r.asked, r.now);
    }
  }

  // ---------------------------------------------------------------- ending

  lemma CancelKeepsInv(s: Setup, r: Runner)
    requires Inv(s, r)
    ensures Inv(s, CancelMailbox(r))
  {
  }

  lemma LeftOverFinishes(s: Setup, r: Runner)
    requires Recorded(r.tr, r.asked, r.waiting, r.now) && r.tr.events != []
    requires r.tr.actions != [] <==> s.length > 0
    requires r.cancelled ==> r.waiting && r.w.results == []
    requires r.waiting && !r.cancelled ==>
               && |r.w.results| == 1 && r.w.results[0].request.depth == 0
               && r.w.results[0].request.step == r.asked[|r.asked| - 1]
    requires !r.waiting ==> r.w.results == []
    ensures Finished(s, r.(tr := r.tr.(events := r.tr.events + LeftOver(r.w.results))))
  {
    var more := r.tr.(events := r.tr.events + LeftOver(r.w.results));
    assert forall i | 0 <= i < |r.tr.actions| :: HoldOk(more, i) <==> HoldOk(r.tr, i);
    assert r.w.results == [] ==> more.events == r.tr.events;
  }

  lemma SettleKeepsInv(s: Setup, r: Runner)
    requires Inv(s, r)
    ensures Inv(s, SettleAll(r))
  {
    if r.phase.Settling? && r.w.error.None? && LatestWorker.Idle(r.w) {
      LeftOverFinishes(s, r);
    }
  }

  lemma MoveKeepsInv(s: Setup, r: Runner, move: Move)
    requires s.mode.SyncHold? && Inv(s, r)
    ensures Inv(s, Advance(s, r, move))
  {
    match move
    case DoFirst => FirstKeepsInv(s, r);
    case DoDrain => DrainKeepsInv(s, r);
    case DoAct(over) => ActKeepsInv(s, r, over);
    case DoDecide => DecideKeepsInv(s, r);
    case DoCancel => CancelKeepsInv(s, r);
    case DoSettle => SettleKeepsInv(s, r);
    case Take => ThreadMoveKeepsInv(s, r, move);
    case Measure => ThreadMoveKeepsInv(s, r, move);
    case Store(_) => ThreadMoveKeepsInv(s, r, move);
    case Fail => ThreadMoveKeepsInv(s, r, move);
    case Wait(_) => ThreadMoveKeepsInv(s, r, move);
  }

  lemma {:induction false} PlayKeepsInv(s: Setup, r: Runner, schedule: seq<Move>)
    requires s.mode.SyncHold? && Inv(s, r)
    ensures Inv(s, Play(s, r, schedule))
    decreases |schedule|
  {
    if schedule != [] {
      MoveKeepsInv(s, r, schedule[0]);
      PlayKeepsInv(s, Advance(s, r, schedule[0]), schedule[1..]);
    }
  }

  lemma StartInv(s: Setup, w: Worker, now: int)
    requires s.mode.SyncHold? && Current(w)
    ensures Inv(s, Start(s, w, now))
  {
  }

  // ---------------------------------------------------------------- the verdict on a finished run

  /** The run ended with a request cancelled in the mailbox and its last step a hold. */
  predicate CancelledWhileHolding(r: Runner) {
    r.cancelled && r.tr.held != [] && r.tr.held[|r.tr.held| - 1]
  }

  lemma RequestedOrCancelled(s: Setup, r: Runner, i: int)
    requires Finished(s, r) && s.length > 0 && !CancelledWhileHolding(r)
    requires 0 <= i < |r.tr.held| && HoldStart(r.tr.held, i)
    ensures RequestedAt(r.tr.events, i)
  {
    var k :| 0 <= k < |r.asked| && r.asked[k] == i;
    assert HoldOk(r.tr, i);
    if k < |r.tr.events| {
      assert r.tr.events[k].step == i;
    }
  }

  lemma CancelledIsMissing(s: Setup, r: Runner)
    requires Finished(s, r) && CancelledWhileHolding(r)
    ensures exists i :: 0 <= i < |r.tr.held| && HoldStart(r.tr.held, i) && !RequestedAt(r.tr.events, i)
  {
    var o := r.asked[|r.asked| - 1];
    assert HoldStart(r.tr.held, o);
    assert forall k | 0 <= k < |r.tr.events| :: r.tr.events[k].step == r.asked[k];
  }

  lemma FinishedVerdict(s: Setup, r: Runner)
    requires Finished(s, r) && s.length > 0
    ensures Shaped(r.tr) && (Accepted(r.tr) <==> !CancelledWhileHolding(r))
  {
    assert OneInitialChunk(r.tr) by {
      assert IsInitial(r.tr.events[0]);
    }
    if CancelledWhileHolding(r) {
      CancelledIsMissing(s, r);
    } else {
      forall i | 0 <= i < |r.tr.held| && HoldStart(r.tr.held, i) ensures RequestedAt(r.tr.events, i) {
        RequestedOrCancelled(s, r, i);
      }
    }
  }

  /** A stop-and-wait run that finishes leaves a trace that the validator accepts exactly
      when it did not end by cancelling a request while holding for it. An episode of
      length 0 leaves no row, and so nothing to judge. */
  lemma ValidatorAcceptsExactly(s: Setup, w: Worker, now: int, schedule: seq<Move>)
    requires s.mode.SyncHold? && Current(w)
    ensures var r := Play(s, Start(s, w, now), schedule);
            && (r.phase.Over? && s.length > 0 ==>
                  Shaped(r.tr) && (Accepted(r.tr) <==> !CancelledWhileHolding(r)))
            && (r.phase.Over? && s.length == 0 ==> r.tr.actions == [])
  {
    StartInv(s, w, now);
    PlayKeepsInv(s, Start(s, w, now), schedule);
    var r := Play(s, Start(s, w, now), schedule);
    if r.phase.Over? && s.length > 0 {
      FinishedVerdict(s, r);
    }
  }

  /** Runs an episode and validates its trace; a trace without a row is refused before
      the block is reached. */
  method RunAndValidate(s: Setup, worker: LatestRequestWorker, now: int, schedule: seq<Move>)
    returns (finished: bool, ok: bool)
    requires s.mode.SyncHold? && Current(worker.View()) && worker.delay == s.delay
    modifies worker
    ensures finished <==> Play(s, Start(s, old(worker.View()), now), schedule).phase.Over?
    ensures finished ==>
              (ok <==> s.length > 0 && !CancelledWhileHolding(Play(s, Start(s, old(worker.View()), now), schedule)))
  {
    ValidatorAcceptsExactly(s, worker.View(), now, schedule);
    var episode := new Episode(s, worker, now);
    episode.Drive(schedule);
    finished := episode.phase.Over?;
    ok := false;
    if finished && s.length > 0 {
      ok := ValidateSyncHold(episode.Recording());
    }
  }

  // ---------------------------------------------------------------- a run that is rejected

  /** One action, then a hold whose request the thread never takes up. */
  function HoldingToTheEnd(): seq<Move> {
    [Take, Measure, Store([7]), DoFirst, Move.DoDrain, DoAct(false), DoDecide,
     Move.DoDrain, DoAct(true), DoDecide, Move.DoCancel, DoSettle]
  }

  lemma PlayTwoMore(s: Setup, r: Runner, schedule: seq<Move>)
    requires |schedule| >= 2
    ensures Play(s, r, schedule) == Play(s, Advance(s, Advance(s, r, schedule[0]), schedule[1]), schedule[2..])
  {
    assert schedule[1..][0] == schedule[1] && schedule[1..][1..] == schedule[2..];
  }

  predicate Ready(s: Setup, r: Runner) {
    && s.mode.SyncHold? && r.phase.Control? && r.w.error.None? && !r.w.closed && r.w.episode == Some(s.episode)
    && r.w.thread.Waiting? && r.w.results == [] && r.tr.events != []
  }

  lemma FirstResultStored(s: Setup, now: int)
    requires s.mode.SyncHold? && s.delay == 0
    ensures var r := Advance(s, Advance(s, Advance(s, Start(s, NEW_WORKER, now), Take), Measure), Store([7]));
            && r == Start(s, NEW_WORKER, now).(w := r.w)
            && r.w.results == [Result(Request(s.episode, 0, 0), 1, Chunk(0, [7]), now)]
            && r.w.error.None? && !r.w.closed && r.w.episode == Some(s.episode) && r.w.thread.Waiting? && r.w.pending.None?
  {
  }

  predicate FirstResultDue(s: Setup, r: Runner) {
    && s.mode.SyncHold? && r.phase.First? && r.q == NewQueue(s.episode)
    && r.tr == Trace([], [], [], [], [], [])
    && r.w.results == [Result(Request(s.episode, 0, 0), 1, Chunk(0, [7]), r.now)]
    && r.w.error.None? && !r.w.closed && r.w.episode == Some(s.episode) && r.w.thread.Waiting?
  }

  lemma FirstResultMerges(s: Setup, r: Runner)
    requires FirstResultDue(s, r)
    ensures var m := Merged(s, r);
            && m.phase.First? && |m.q.actions| == 1 && !m.waiting && m.w == r.w.(results := [])
            && m.tr.events != [] && m.tr.held == [] && m.tr.actions == []
  {
    var result := r.w.results[0];
    assert result.chunk[0..] == result.chunk && |result.chunk| == 1;
  }

  lemma FirstChunkMerges(s: Setup, r: Runner)
    requires FirstResultDue(s, r) && s.length > 0
    ensures var v := Advance(s, r, DoFirst);
            Ready(s, v) && |v.q.actions| == 1 && v.tr.held == [] && v.tr.actions == [] && !v.waiting
  {
    AbsorbsAtMostOne(s, r);
    FirstResultMerges(s, r);
    LoopEntered(s, r, Merged(s, r));
  }

  lemma FirstChunkArrives(s: Setup, now: int)
    requires s.mode.SyncHold? && s.delay == 0 && s.length > 0
    ensures var r := Play(s, Start(s, NEW_WORKER, now), [Take, Measure, Store([7]), DoFirst]);
            Ready(s, r) && |r.q.actions| == 1 && r.tr.held == [] && r.tr.actions == [] && !r.waiting
  {
    var moves := [Take, Measure, Store([7]), DoFirst];
    var r0 := Start(s, NEW_WORKER, now);
    var r1 := Advance(s, Advance(s, r0, moves[0]), moves[1]);
    var r2 := Advance(s, r1, moves[2]);
    FirstResultStored(s, now);
    FirstChunkMerges(s, r2);
    PlayTwoMore(s, r0, moves);
    PlayTwoMore(s, r1, moves[2..]);
    assert moves[2..][2..] == [];
  }

  lemma QueueRunsOut(s: Setup, r: Runner)
    requires Ready(s, r) && |r.q.actions| == 1 && r.tr.held == [] && r.tr.actions == [] && !r.waiting && s.length > 1
    ensures var v := Advance(s, Advance(s, Advance(s, r, Move.DoDrain), DoAct(false)), DoDecide);
            Ready(s, v) && v.q.actions == [] && v.q.last.Some? && v.waiting && v.w.pending.Some? && |v.tr.actions| == 1
  {
    AbsorbsAtMostOne(s, r);
  }

  lemma HoldsToTheEnd(s: Setup, r: Runner)
    requires Ready(s, r) && r.q.actions == [] && r.q.last.Some? && r.waiting && r.w.pending.Some?
    ensures var a := Advance(s, Advance(s, Advance(s, r, Move.DoDrain), DoAct(true)), DoDecide);
            var v := Advance(s, Advance(s, a, Move.DoCancel), DoSettle);
            v.phase.Over? && CancelledWhileHolding(v)
  {
    AbsorbsAtMostOne(s, r);
  }

  lemma {:induction false} PlaySplits(s: Setup, r: Runner, a: seq<Move>, b: seq<Move>)
    ensures Play(s, r, a + b) == Play(s, Play(s, r, a), b)
    decreases |a|
  {
    if a == [] {
      assert a + b == b;
    } else {
      assert (a + b)[0] == a[0] && (a + b)[1..] == a[1..] + b;
      PlaySplits(s, Advance(s, r, a[0]), a[1..], b);
    }
  }

  lemma HoldingRunEnds()
    ensures var s := Setup(SyncHold, 0, 5, 1, 0);
            var r := Play(s, Start(s, NEW_WORKER, 0), HoldingToTheEnd());
            r.phase.Over? && CancelledWhileHolding(r)
  {
    var s := Setup(SyncHold, 0, 5, 1, 0);
    var moves := HoldingToTheEnd();
    var r0 := Start(s, NEW_WORKER, 0);
    FirstChunkArrives(s, 0);
    var r1 := Play(s, r0, moves[..4]);
    assert moves[..4] == [Take, Measure, Store([7]), DoFirst];
    QueueRunsOut(s, r1);
    var r2 := Advance(s, Advance(s, Advance(s, r1, moves[4]), moves[5]), moves[6]);
    HoldsToTheEnd(s, r2);
    PlaySplits(s, r0, moves[..4], moves[4..]);
    assert moves[..4] + moves[4..] == moves;
    PlayTwoMore(s, r1, moves[4..]);
    var r3 := Advance(s, Advance(s, r1, moves[4]), moves[5]);
    PlayTwoMore(s, r3, moves[6..]);
    var r4 := Advance(s, r2, moves[7]);
    PlayTwoMore(s, r4, moves[8..]);
    var r5 := Advance(s, Advance(s, r4, moves[8]), moves[9]);
    PlayTwoMore(s, r5, moves[10..]);
    assert moves[10..][2..] == [];
  }

  /** It finishes, and the validator rejects its trace. */
  lemma RejectedRunExists()
    ensures var s := Setup(SyncHold, 0, 5, 1, 0);
            var r := Play(s, Start(s, NEW_WORKER, 0), HoldingToTheEnd());
            r.phase.Over? && CancelledWhileHolding(r) && Shaped(r.tr) && !Accepted(r.tr)
  {
    HoldingRunEnds();
    ValidatorAcceptsExactly(Setup(SyncHold, 0, 5, 1, 0), NEW_WORKER, 0, HoldingToTheEnd());
  }
}
