/** A log kept beside every benchmark episode, in every mode and under every interleaving:
    the queue, its counts, the recorded trace and the requests are what the log says. */
module BenchLog {
  import opened Common
  import opened LatestWorker
  import opened BenchQueue
  import opened BenchRunner
  import opened BenchBook

  /** A result merged at `step`, with `before` actions still queued. */
  datatype Entry = Entry(result: Result, step: nat, before: nat, fate: Fate)

  /** A row of the trace: what was dispatched, when, and how much was queued around it. */
  datatype Row = Row(action: Action, at: int, before: nat, after: nat, held: bool)

  /** A request made at `step`, with `depth` actions queued. */
  datatype Ask = Ask(step: nat, depth: nat)

  /** `left` are the results that came too late to be merged, and `decided` the steps after
      which the loop went on. */
  datatype Log = Log(
    feed: Feed, merged: seq<Entry>, left: seq<Result>, rows: seq<Row>, asks: seq<Ask>, decided: nat
  )

  /** The log of an episode whose first request has been accepted. */
  const NEW_LOG: Log := Log(NO_FEED, [], [], [], [Ask(0, 0)], 0)

  function Remaining(f: Feed): nat {
    if f.from + |f.given| <= |f.chunk| then |f.chunk| - f.from - |f.given| else 0
  }

  // ---------------------------------------------------------------- what is entered

  function Merged(s: Setup, l: Log, step: nat, result: Result): Log {
    if result.request.episode == s.episode && result.request.step > step then l
    else
      var fate := FateOf(result, s.episode, step, s.mode);
      l.(feed := FeedMerged(l.feed, result, fate), merged := l.merged + [Entry(result, step, Remaining(l.feed), fate)])
  }

  function MergedAll(s: Setup, l: Log, step: nat, results: seq<Result>): Log
    decreases |results|
  {
    if results == [] then l else MergedAll(s, Merged(s, l, step, results[0]), step, results[1..])
  }

  function Dispatched(l: Log, now: int): Log {
    var f, n := l.feed, Remaining(l.feed);
    if n > 0 then
      var next := f.chunk[f.from + |f.given|];
      l.(feed := f.(given := f.given + [next], last := Some(next)), rows := l.rows + [Row(next, now, n, n - 1, false)])
    else if f.last.Some? then l.(rows := l.rows + [Row(f.last.value, now, 0, 0, true)])
    else l
  }

  /** Stop-and-wait asks once the queue has run out and no answer is awaited; the others ask
      at every multiple of the interval. */
  predicate AsksNow(s: Setup, l: Log, waiting: bool) {
    if s.mode.SyncHold? then Remaining(l.feed) == 0 && !waiting
    else s.interval > 0 && |l.rows| % s.interval == 0
  }

  function Decided(s: Setup, l: Log, waiting: bool): Log {
    l.(decided := l.decided + 1,
       asks := if AsksNow(s, l, waiting) then l.asks + [Ask(|l.rows|, Remaining(l.feed))] else l.asks)
  }

  function LogAfter(s: Setup, r: Runner, l: Log, move: Move): Log {
    match move
    case DoFirst =>
      if r.phase.First? && r.w.error.None? then MergedAll(s, l, |l.rows|, Drained(r.w, r.now)) else l
    case DoDrain =>
      if r.phase.Control? && r.w.error.None? then MergedAll(s, l, |l.rows|, Drained(r.w, r.now)) else l
    case DoAct(_) => if r.phase.Acting? then Dispatched(l, r.now) else l
    case DoDecide => if r.phase.Deciding? && !r.phase.over then Decided(s, l, r.waiting) else l
    case DoSettle =>
      if r.phase.Settling? && r.w.error.None? && !Active(r.w) && r.w.pending.None? then l.(left := r.w.results) else l
    case _ => l
  }

  function LogOf(s: Setup, r: Runner, l: Log, schedule: seq<Move>): Log
    decreases |schedule|
  {
    if schedule == [] then l
    else LogOf(s, Advance(s, r, schedule[0]), LogAfter(s, r, l, schedule[0]), schedule[1..])
  }

  // ---------------------------------------------------------------- what it says

  function Fates(merged: seq<Entry>): seq<Fate> {
    seq(|merged|, i requires 0 <= i < |merged| => merged[i].fate)
  }

  function Holds(rows: seq<Row>): nat {
    if rows == [] then 0 else Holds(rows[..|rows| - 1]) + if rows[|rows| - 1].held then 1 else 0
  }

  predicate QueueLogged(s: Setup, q: Queue, l: Log) {
    && q.episode == Some(s.episode) && FeedOk(q, l.feed) && CountsOk(q.counts, Fates(l.merged), Holds(l.rows))
  }

  function EventOf(result: Result, merge: Option<BenchRunner.Merge>): Event {
    Event(result.request.step, result.request.depth, result.delivery, merge)
  }

  /** One event for each result, merged or left over. */
  predicate EventsLogged(events: seq<Event>, l: Log) {
    && |events| == |l.merged| + |l.left|
    && (forall i | 0 <= i < |l.merged| ::
          events[i] == EventOf(l.merged[i].result,
                               Some(BenchRunner.Merge(l.merged[i].step, l.merged[i].fate.Taken?, l.merged[i].before))))
    && (forall i | 0 <= i < |l.left| :: events[|l.merged| + i] == EventOf(l.left[i], None))
  }

  predicate RowsLogged(tr: Trace, rows: seq<Row>) {
    && |tr.actions| == |rows| && |tr.dispatch| == |rows| && |tr.before| == |rows| && |tr.after| == |rows|
    && |tr.held| == |rows|
    && forall i | 0 <= i < |rows| ::
         rows[i] == Row(tr.actions[i], tr.dispatch[i], tr.before[i], tr.after[i], tr.held[i])
  }

  /** The request was made in this episode, at that step and with that much queued. */
  predicate Asked(s: Setup, asks: seq<Ask>, request: Request) {
    request.episode == s.episode && Ask(request.step, request.depth) in asks
  }

  predicate RequestsLogged(s: Setup, w: Worker, asked: seq<nat>, l: Log) {
    && |asked| == |l.asks| && (forall i | 0 <= i < |asked| :: asked[i] == l.asks[i].step)
    && (w.pending.Some? ==> Asked(s, l.asks, w.pending.value.request))
    && (Active(w) && w.thread.ticket.generation == w.generation ==> Asked(s, l.asks, w.thread.ticket.request))
    && (forall i | 0 <= i < |w.results| :: Asked(s, l.asks, w.results[i].request))
    && (forall i | 0 <= i < |l.merged| :: Asked(s, l.asks, l.merged[i].result.request))
    && (forall i | 0 <= i < |l.left| :: Asked(s, l.asks, l.left[i].request))
  }

  /** Of the steps after which the loop went on, exactly those the mode asks at. */
  predicate AskedOnTime(s: Setup, l: Log) {
    && l.asks != [] && l.asks[0] == Ask(0, 0)
    && (forall i | 0 < i < |l.asks| :: 0 < l.asks[i].step <= l.decided)
    && (forall i, j | 0 <= i < j < |l.asks| :: l.asks[i].step < l.asks[j].step)
    && (s.mode.SyncHold? ==> forall i | 0 <= i < |l.asks| :: l.asks[i].depth == 0)
    && (!s.mode.SyncHold? && s.interval > 0 ==>
          forall k: nat | 0 < k <= l.decided ::
            k % s.interval == 0 <==> exists i :: 0 < i < |l.asks| && l.asks[i].step == k)
    && (!s.mode.SyncHold? && s.interval == 0 ==> |l.asks| == 1)
  }

  predicate DecidedSteps(phase: Phase, l: Log) {
    match phase
    case First => l.decided == |l.rows| == 0
    case Control => l.decided == |l.rows|
    case Acting => l.decided == |l.rows|
    case Deciding(_) => l.decided + 1 == |l.rows|
    case _ => l.decided <= |l.rows|
  }

  ghost predicate Logged(s: Setup, r: Runner, l: Log) {
    && QueueLogged(s, r.q, l) && EventsLogged(r.tr.events, l) && RowsLogged(r.tr, l.rows)
    && RequestsLogged(s, r.w, r.asked, l) && AskedOnTime(s, l) && DecidedSteps(r.phase, l)
    && (!r.phase.Over? ==> l.left == [])
    && |r.tr.actions| == |l.rows|
  }

  // ---------------------------------------------------------------- merging

  lemma FatesAppend(merged: seq<Entry>, e: Entry)
    ensures Fates(merged + [e]) == Fates(merged) + [e.fate]
  {
  }

  lemma RecordKeepsQueue(s: Setup, r: Runner, l: Log, result: Result)
    requires QueueLogged(s, r.q, l) && |r.tr.actions| == |l.rows|
    requires !r.phase.Aborted? && !Record(s, r, result).phase.Aborted?
    ensures QueueLogged(s, Record(s, r, result).q, Merged(s, l, |l.rows|, result))
    ensures result.request.episode == s.episode ==> result.request.step <= |l.rows|
    ensures Accepts(r.q, result, |l.rows|, s.mode) <==> FateOf(result, s.episode, |l.rows|, s.mode).Taken?
  {
    MergeFailsExactly(r.q, result, |l.rows|);
    MergeIsBooked(r.q, l.feed, Fates(l.merged), Holds(l.rows), result, |l.rows|, s.mode);
    FatesAppend(l.merged, Entry(result, |l.rows|, Remaining(l.feed), FateOf(result, s.episode, |l.rows|, s.mode)));
  }

  lemma RecordKeepsEvents(s: Setup, r: Runner, l: Log, result: Result)
    requires QueueLogged(s, r.q, l) && EventsLogged(r.tr.events, l) && |r.tr.actions| == |l.rows| && l.left == []
    requires !r.phase.Aborted? && !Record(s, r, result).phase.Aborted?
    requires result.request.episode == s.episode ==> result.request.step <= |l.rows|
    requires Accepts(r.q, result, |l.rows|, s.mode) <==> FateOf(result, s.episode, |l.rows|, s.mode).Taken?
    ensures EventsLogged(Record(s, r, result).tr.events, Merged(s, l, |l.rows|, result))
  {
  }

  lemma RecordKeepsRequests(s: Setup, r: Runner, l: Log, result: Result)
    requires RequestsLogged(s, r.w, r.asked, l) && Asked(s, l.asks, result.request)
    ensures RequestsLogged(s, r.w, r.asked, Merged(s, l, |l.rows|, result))
  {
  }

  lemma RecordKeepsRest(s: Setup, r: Runner, l: Log, result: Result)
    requires !r.phase.Aborted? && !Record(s, r, result).phase.Aborted?
    ensures var v := Record(s, r, result);
            v.phase == r.phase && v.w == r.w && v.asked == r.asked && v.now == r.now
            && v.tr == r.tr.(events := v.tr.events)
    ensures var m := Merged(s, l, |l.rows|, result);
            m.rows == l.rows && m.asks == l.asks && m.decided == l.decided && m.left == l.left
  {
  }

  lemma RecordIsLogged(s: Setup, r: Runner, l: Log, result: Result)
    requires Logged(s, r, l) && !r.phase.Over? && Asked(s, l.asks, result.request)
    requires !r.phase.Aborted? && !Record(s, r, result).phase.Aborted?
    ensures Logged(s, Record(s, r, result), Merged(s, l, |l.rows|, result))
    ensures Merged(s, l, |l.rows|, result).rows == l.rows && Merged(s, l, |l.rows|, result).asks == l.asks
    ensures Record(s, r, result).phase == r.phase
  {
    RecordKeepsQueue(s, r, l, result);
    RecordKeepsEvents(s, r, l, result);
    RecordKeepsRequests(s, r, l, result);
    RecordKeepsRest(s, r, l, result);
  }

  lemma {:induction false} AbortedStays(s: Setup, r: Runner, results: seq<Result>)
    requires r.phase.Aborted?
    ensures RecordAll(s, r, results).phase.Aborted?
    decreases |results|
  {
    if results != [] {
      AbortedStays(s, Record(s, r, results[0]), results[1..]);
    }
  }

  lemma {:induction false} RecordAllIsLogged(s: Setup, r: Runner, l: Log, results: seq<Result>)
    requires Logged(s, r, l) && !r.phase.Over? && !r.phase.Aborted?
    requires forall i | 0 <= i < |results| :: Asked(s, l.asks, results[i].request)
    requires !RecordAll(s, r, results).phase.Aborted?
    ensures Logged(s, RecordAll(s, r, results), MergedAll(s, l, |l.rows|, results))
    ensures RecordAll(s, r, results).phase == r.phase
    decreases |results|
  {
    if results != [] {
      if Record(s, r, results[0]).phase.Aborted? {
        AbortedStays(s, Record(s, r, results[0]), results[1..]);
      } else {
        RecordIsLogged(s, r, l, results[0]);
        RecordAllIsLogged(s, Record(s, r, results[0]), Merged(s, l, |l.rows|, results[0]), results[1..]);
      }
    }
  }

  lemma AbsorbIsLogged(s: Setup, r: Runner, l: Log)
    requires Logged(s, r, l) && !r.phase.Over? && !r.phase.Aborted? && r.w.error.None? && !Absorb(s, r).phase.Aborted?
    ensures Logged(s, Absorb(s, r), MergedAll(s, l, |l.rows|, Drained(r.w, r.now)))
    ensures Absorb(s, r).phase == r.phase
  {
    var due := Drained(r.w, r.now);
    assert forall i | 0 <= i < |due| :: due[i] == r.w.results[i];
    RecordAllIsLogged(s, r.(w := Drain(r.w, r.now)), l, due);
  }

  // ---------------------------------------------------------------- the loop's other moves

  lemma HoldsExtend(rows: seq<Row>, row: Row)
    ensures Holds(rows + [row]) == Holds(rows) + if row.held then 1 else 0
  {
    assert (rows + [row])[..|rows|] == rows;
  }

  lemma ActKeepsQueue(s: Setup, r: Runner, l: Log, over: bool)
    requires QueueLogged(s, r.q, l) && r.phase.Acting? && !NotReady(r.q)
    ensures QueueLogged(s, Act(r, over).q, Dispatched(l, r.now))
    ensures |Dispatched(l, r.now).rows| == |l.rows| + 1 && Dispatched(l, r.now).rows[..|l.rows|] == l.rows
    ensures var f := Dispatched(l, r.now).rows[|l.rows|];
            f == Row(NextAction(r.q), r.now, |r.q.actions|, |AfterNext(r.q).actions|, NextIsHold(r.q))
  {
    NextIsBooked(r.q, l.feed, Fates(l.merged), Holds(l.rows));
    HoldsExtend(l.rows, Dispatched(l, r.now).rows[|l.rows|]);
  }

  lemma RowAdded(tr: Trace, rows: seq<Row>, row: Row)
    requires RowsLogged(tr, rows)
    ensures RowsLogged(tr.(actions := tr.actions + [row.action], dispatch := tr.dispatch + [row.at],
                           before := tr.before + [row.before], after := tr.after + [row.after],
                           held := tr.held + [row.held]), rows + [row])
  {
  }

  lemma ActIsLogged(s: Setup, r: Runner, l: Log, over: bool)
    requires Logged(s, r, l) && r.phase.Acting? && !NotReady(r.q)
    ensures Logged(s, Act(r, over), Dispatched(l, r.now))
  {
    ActKeepsQueue(s, r, l, over);
    var rows := Dispatched(l, r.now).rows;
    assert rows == l.rows + [rows[|l.rows|]];
    RowAdded(r.tr, l.rows, rows[|l.rows|]);
  }

  lemma NextMultiple(s: Setup, l: Log, k: nat)
    requires AskedOnTime(s, l) && k == l.decided + 1 && !s.mode.SyncHold? && s.interval > 0
    ensures AskedOnTime(s, l.(decided := k,
                              asks := if k % s.interval == 0 then l.asks + [Ask(k, Remaining(l.feed))] else l.asks))
  {
    var more := l.(decided := k, asks := if k % s.interval == 0 then l.asks + [Ask(k, Remaining(l.feed))] else l.asks);
    forall n: nat | 0 < n <= k
      ensures n % s.interval == 0 <==> exists i :: 0 < i < |more.asks| && more.asks[i].step == n
    {
      if n <= l.decided {
        if n % s.interval == 0 {
          var i :| 0 < i < |l.asks| && l.asks[i].step == n;
          assert more.asks[i].step == n;
        }
        if i :| 0 < i < |more.asks| && more.asks[i].step == n {
          assert i < |l.asks| ==> l.asks[i].step == n;
        }
      } else if n % s.interval == 0 {
        assert more.asks[|l.asks|].step == n;
      }
    }
  }

  lemma DecideAsksOnTime(s: Setup, l: Log, waiting: bool)
    requires AskedOnTime(s, l) && l.decided + 1 == |l.rows|
    ensures AskedOnTime(s, Decided(s, l, waiting))
  {
    if !s.mode.SyncHold? && s.interval > 0 {
      NextMultiple(s, l, |l.rows|);
    }
  }

  lemma AskedStays(s: Setup, asks: seq<Ask>, more: Ask, request: Request)
    requires Asked(s, asks, request)
    ensures Asked(s, asks + [more], request)
  {
  }

  lemma AskKeepsRequests(s: Setup, r: Runner, l: Log, ask: Ask)
    requires RequestsLogged(s, r.w, r.asked, l) && ask == Ask(|r.tr.actions|, |r.q.actions|)
    requires !BenchRunner.Ask(s, r, ask.step).phase.Aborted?
    ensures var v := BenchRunner.Ask(s, r, ask.step);
            RequestsLogged(s, v.w, v.asked, l.(asks := l.asks + [ask]))
  {
    forall request | Asked(s, l.asks, request) ensures Asked(s, l.asks + [ask], request) {
      AskedStays(s, l.asks, ask, request);
    }
  }

  lemma DecideKeepsRequests(s: Setup, r: Runner, l: Log)
    requires RequestsLogged(s, r.w, r.asked, l) && QueueLogged(s, r.q, l) && |r.tr.actions| == |l.rows|
    requires r.phase.Deciding? && !r.phase.over && !Decide(s, r).phase.Aborted?
    ensures var v := Decide(s, r);
            && RequestsLogged(s, v.w, v.asked, Decided(s, l, r.waiting))
            && v.q == r.q && v.tr == r.tr && (v.phase.Control? || v.phase.Ending?)
  {
    assert AsksNow(s, l, r.waiting) <==> Asks(s, r);
    if Asks(s, r) {
      AskKeepsRequests(s, r, l, Ask(|r.tr.actions|, |r.q.actions|));
    }
  }

  lemma DecideIsLogged(s: Setup, r: Runner, l: Log)
    requires Logged(s, r, l) && r.phase.Deciding? && !r.phase.over && !Decide(s, r).phase.Aborted?
    ensures Logged(s, Decide(s, r), Decided(s, l, r.waiting))
  {
    DecideAsksOnTime(s, l, r.waiting);
    DecideKeepsRequests(s, r, l);
  }

  lemma SettleIsLogged(s: Setup, r: Runner, l: Log)
    requires Logged(s, r, l) && r.phase.Settling? && r.w.error.None? && LatestWorker.Idle(r.w)
    ensures Logged(s, SettleAll(r), l.(left := r.w.results))
  {
  }

  lemma CancelIsLogged(s: Setup, r: Runner, l: Log)
    requires Logged(s, r, l) && r.phase.Ending? && r.w.error.None?
    ensures Logged(s, CancelMailbox(r), l)
  {
  }

  lemma ThreadIsLogged(s: Setup, r: Runner, l: Log, move: Move)
    requires Logged(s, r, l) && (move.Take? || move.Measure? || move.Store? || move.Fail? || move.Wait?)
    ensures Logged(s, Advance(s, r, move), l) && Advance(s, r, move).phase == r.phase
  {
  }

  lemma PhaseMoves(s: Setup, r: Runner, l: Log, phase: Phase)
    requires Logged(s, r, l) && DecidedSteps(phase, l) && !r.phase.Over? && !phase.Over?
    ensures Logged(s, r.(phase := phase), l)
  {
  }

  lemma {:induction false} MergingKeepsRows(s: Setup, l: Log, step: nat, results: seq<Result>)
    ensures MergedAll(s, l, step, results).rows == l.rows
    decreases |results|
  {
    if results != [] {
      MergingKeepsRows(s, Merged(s, l, step, results[0]), step, results[1..]);
    }
  }

  lemma DrainIsLogged(s: Setup, r: Runner, l: Log)
    requires Logged(s, r, l) && (r.phase.First? || r.phase.Control?) && r.w.error.None? && !Absorb(s, r).phase.Aborted?
    ensures var m := MergedAll(s, l, |l.rows|, Drained(r.w, r.now));
            && Logged(s, Absorb(s, r).(phase := Acting), m) && Logged(s, Absorb(s, r).(phase := Control), m)
            && Logged(s, Absorb(s, r).(phase := Ending), m) && |m.rows| == |l.rows|
  {
    AbsorbIsLogged(s, r, l);
    var m := MergedAll(s, l, |l.rows|, Drained(r.w, r.now));
    MergingKeepsRows(s, l, |l.rows|, Drained(r.w, r.now));
    PhaseMoves(s, Absorb(s, r), m, Acting);
    PhaseMoves(s, Absorb(s, r), m, Control);
    PhaseMoves(s, Absorb(s, r), m, Ending);
  }

  lemma NothingDrained(s: Setup, r: Runner, l: Log)
    requires DueCount(r.w.results, r.now) == 0
    ensures MergedAll(s, l, |l.rows|, Drained(r.w, r.now)) == l
  {
    assert Drained(r.w, r.now) == [];
  }

  lemma FirstIsLogged(s: Setup, r: Runner, l: Log)
    requires Logged(s, r, l) && r.phase.First? && !FirstChunk(s, r).phase.Aborted?
    ensures Logged(s, FirstChunk(s, r), LogAfter(s, r, l, DoFirst))
  {
    if DueCount(r.w.results, r.now) == 0 {
      NothingDrained(s, r, l);
    } else {
      DrainIsLogged(s, r, l);
    }
  }

  lemma TickIsLogged(s: Setup, r: Runner, l: Log)
    requires Logged(s, r, l) && r.phase.Control? && !DrainTick(s, r).phase.Aborted?
    ensures Logged(s, DrainTick(s, r), LogAfter(s, r, l, Move.DoDrain))
  {
    DrainIsLogged(s, r, l);
  }

  lemma DecisionIsLogged(s: Setup, r: Runner, l: Log)
    requires Logged(s, r, l) && r.phase.Deciding? && !Decide(s, r).phase.Aborted?
    ensures Logged(s, Decide(s, r), LogAfter(s, r, l, DoDecide))
  {
    if r.phase.over {
      PhaseMoves(s, r, l, Ending);
    } else {
      DecideIsLogged(s, r, l);
    }
  }

  lemma EndIsLogged(s: Setup, r: Runner, l: Log, move: Move)
    requires Logged(s, r, l) && (move.DoCancel? || move.DoSettle?) && !r.phase.Aborted?
    requires !Advance(s, r, move).phase.Aborted?
    ensures Logged(s, Advance(s, r, move), LogAfter(s, r, l, move))
  {
    if move.DoCancel? && r.phase.Ending? {
      CancelIsLogged(s, r, l);
    } else if move.DoSettle? && r.phase.Settling? && LatestWorker.Idle(r.w) {
      SettleIsLogged(s, r, l);
    }
  }

  lemma MoveIsLogged(s: Setup, r: Runner, l: Log, move: Move)
    requires Logged(s, r, l) && !r.phase.Aborted? && !Advance(s, r, move).phase.Aborted?
    ensures Logged(s, Advance(s, r, move), LogAfter(s, r, l, move))
  {
    match move
    case DoFirst =>
      if r.phase.First? {
        FirstIsLogged(s, r, l);
      }
    case DoDrain =>
      if r.phase.Control? {
        TickIsLogged(s, r, l);
      }
    case DoAct(over) =>
      if r.phase.Acting? {
        ActIsLogged(s, r, l, over);
      }
    case DoDecide =>
      if r.phase.Deciding? {
        DecisionIsLogged(s, r, l);
      }
    case DoCancel => EndIsLogged(s, r, l, move);
    case DoSettle => EndIsLogged(s, r, l, move);
    case _ => ThreadIsLogged(s, r, l, move);
  }

  lemma {:induction false} StaysAborted(s: Setup, r: Runner, schedule: seq<Move>)
    requires r.phase.Aborted?
    ensures Play(s, r, schedule).phase.Aborted?
    decreases |schedule|
  {
    if schedule != [] {
      StaysAborted(s, Advance(s, r, schedule[0]), schedule[1..]);
    }
  }

  lemma {:induction false} PlayIsLogged(s: Setup, r: Runner, l: Log, schedule: seq<Move>)
    requires Logged(s, r, l) && !r.phase.Aborted? && !Play(s, r, schedule).phase.Aborted?
    ensures Logged(s, Play(s, r, schedule), LogOf(s, r, l, schedule))
    decreases |schedule|
  {
    if schedule != [] {
      var v := Advance(s, r, schedule[0]);
      if v.phase.Aborted? {
        StaysAborted(s, v, schedule[1..]);
      } else {
        MoveIsLogged(s, r, l, schedule[0]);
        PlayIsLogged(s, v, LogAfter(s, r, l, schedule[0]), schedule[1..]);
      }
    }
  }

  // ---------------------------------------------------------------- nothing else raises

  /** Nothing has failed, and whatever is merged is usable. */
  predicate Sane(s: Setup, r: Runner) {
    && r.w.error.None? && !r.w.closed && r.w.episode == Some(s.episode) && !r.phase.Aborted?
    && (forall i | 0 <= i < |r.w.results| :: r.w.results[i].chunk != [])
    && (!r.phase.First? ==> !NotReady(r.q))
  }

  lemma AsksAreNotAhead(s: Setup, l: Log, request: Request)
    requires Asked(s, l.asks, request) && AskedOnTime(s, l) && l.decided <= |l.rows|
    ensures request.step <= |l.rows|
  {
    var i :| 0 <= i < |l.asks| && l.asks[i] == Ask(request.step, request.depth);
  }

  lemma RecordIsSane(s: Setup, r: Runner, l: Log, result: Result)
    requires Logged(s, r, l) && !r.phase.Over? && !r.phase.Aborted? && Asked(s, l.asks, result.request) && result.chunk != []
    ensures !Record(s, r, result).phase.Aborted?
    ensures !NotReady(r.q) ==> !NotReady(Record(s, r, result).q)
    ensures |l.rows| == 0 && result.request.step == 0 ==> !NotReady(Record(s, r, result).q)
  {
    assert l.decided <= |l.rows|;
    AsksAreNotAhead(s, l, result.request);
  }

  lemma {:induction false} RecordAllIsSane(s: Setup, r: Runner, l: Log, results: seq<Result>)
    requires Logged(s, r, l) && !r.phase.Over? && !r.phase.Aborted?
    requires forall i | 0 <= i < |results| :: Asked(s, l.asks, results[i].request) && results[i].chunk != []
    ensures !RecordAll(s, r, results).phase.Aborted?
    ensures !NotReady(r.q) ==> !NotReady(RecordAll(s, r, results).q)
    ensures results != [] && |l.rows| == 0 ==> !NotReady(RecordAll(s, r, results).q)
    ensures RecordAll(s, r, results).w == r.w
    decreases |results|
  {
    if results != [] {
      var v := Record(s, r, results[0]);
      RecordIsSane(s, r, l, results[0]);
      RecordIsLogged(s, r, l, results[0]);
      if |l.rows| == 0 {
        AsksAreNotAhead(s, l, results[0].request);
      }
      RecordAllIsSane(s, v, Merged(s, l, |l.rows|, results[0]), results[1..]);
    }
  }

  lemma AbsorbIsSane(s: Setup, r: Runner, l: Log)
    requires Logged(s, r, l) && Sane(s, r) && !r.phase.Over?
    ensures var v := Absorb(s, r);
            && !v.phase.Aborted? && v.w == Drain(r.w, r.now)
            && (!r.phase.First? || (DueCount(r.w.results, r.now) > 0 && |l.rows| == 0) ==> !NotReady(v.q))
  {
    var due := Drained(r.w, r.now);
    assert forall i | 0 <= i < |due| :: due[i] == r.w.results[i];
    RecordAllIsSane(s, r.(w := Drain(r.w, r.now)), l, due);
  }

  lemma FirstIsSane(s: Setup, r: Runner, l: Log)
    requires Logged(s, r, l) && Sane(s, r) && r.phase.First?
    ensures Sane(s, FirstChunk(s, r))
  {
    if DueCount(r.w.results, r.now) > 0 {
      AbsorbIsSane(s, r, l);
    }
  }

  lemma TickIsSane(s: Setup, r: Runner, l: Log)
    requires Logged(s, r, l) && Sane(s, r) && r.phase.Control?
    ensures Sane(s, DrainTick(s, r))
  {
    AbsorbIsSane(s, r, l);
  }

  lemma OtherMovesAreSane(s: Setup, r: Runner, move: Move)
    requires Sane(s, r) && !move.Fail? && !move.DoFirst? && !move.DoDrain?
    ensures Sane(s, Advance(s, r, move))
  {
  }

  lemma MoveIsSane(s: Setup, r: Runner, l: Log, move: Move)
    requires Logged(s, r, l) && Sane(s, r) && !move.Fail?
    ensures Sane(s, Advance(s, r, move))
  {
    if move.DoFirst? {
      if r.phase.First? {
        FirstIsSane(s, r, l);
      }
    } else if move.DoDrain? {
      if r.phase.Control? {
        TickIsSane(s, r, l);
      }
    } else {
      OtherMovesAreSane(s, r, move);
    }
  }

  lemma {:induction false} PlayIsSane(s: Setup, r: Runner, l: Log, schedule: seq<Move>)
    requires Logged(s, r, l) && Sane(s, r) && Fail !in schedule
    ensures Sane(s, Play(s, r, schedule))
    decreases |schedule|
  {
    if schedule != [] {
      MoveIsSane(s, r, l, schedule[0]);
      MoveIsLogged(s, r, l, schedule[0]);
      PlayIsSane(s, Advance(s, r, schedule[0]), LogAfter(s, r, l, schedule[0]), schedule[1..]);
    }
  }

  // ---------------------------------------------------------------- every episode

  lemma StartIsLogged(s: Setup, w: Worker, now: int)
    requires !w.closed && Current(w)
    ensures Logged(s, Start(s, w, now), NEW_LOG) && !Start(s, w, now).phase.Aborted?
  {
    assert Fates(NEW_LOG.merged) == [];
  }

  /** In every mode, whatever the thread does and as long as nothing raises: the queue holds
      what is left of the chunk last accepted, each result is one event and was merged as
      its age and episode say, each row was dispatched from that chunk or repeats the row
      before, and the requests are those the mode makes, with the depth they were made at. */
  lemma EpisodesAreLogged(s: Setup, w: Worker, now: int, schedule: seq<Move>)
    requires !w.closed && Current(w)
    ensures var r := Play(s, Start(s, w, now), schedule);
            !r.phase.Aborted? ==> Logged(s, r, LogOf(s, Start(s, w, now), NEW_LOG, schedule))
  {
    StartIsLogged(s, w, now);
    if !Play(s, Start(s, w, now), schedule).phase.Aborted? {
      PlayIsLogged(s, Start(s, w, now), NEW_LOG, schedule);
    }
  }

  /** The loop is not entered without an action to dispatch. */
  lemma UnsafeStartRaises(s: Setup, r: Runner)
    requires r.phase.First? && r.w.error.None? && DueCount(r.w.results, r.now) > 0 && NotReady(Absorb(s, r).q)
    ensures FirstChunk(s, r).phase.Aborted?
  {
  }

  /** And nothing raises unless the inference does. */
  lemma OnlyFailuresAbort(s: Setup, w: Worker, now: int, schedule: seq<Move>)
    requires !w.closed && Current(w) && Fail !in schedule
    ensures !Play(s, Start(s, w, now), schedule).phase.Aborted?
  {
    StartIsLogged(s, w, now);
    PlayIsSane(s, Start(s, w, now), NEW_LOG, schedule);
  }
}
