/** What a caller of the engine may expect to be in its queue and its mailbox, kept beside
    every run from what went in and what came out. */
module EngineWatch {
  import opened Common
  import opened EngineState
  import opened EngineHistory
  import EngineInvariant
  import EngineSteps
  import EngineTheorems

  /** The chunk last committed in this epoch, the position it was taken from, the actions
      handed out of it so far, and the last one handed out of any chunk. */
  datatype Feed = Feed(chunk: Option<Response>, from: nat, given: seq<Queued>, last: Option<Queued>)

  /** Of this epoch: the step last taken, the newest step published since, and the one that
      a failed request put back. */
  datatype Inbox = Inbox(taken: Option<int>, newest: Option<int>, returned: Option<int>)

  /** `ends` says of each request that ended in its own epoch whether it was answered. */
  datatype Watch = Watch(feed: Feed, inbox: Inbox, ends: seq<bool>)

  const NO_FEED: Feed := Feed(None, 0, [], None)
  const NO_INBOX: Inbox := Inbox(None, None, None)
  const NEW_WATCH: Watch := Watch(NO_FEED, NO_INBOX, [])

  // ---------------------------------------------------------------- the queue

  /** How many of a chunk's steps have passed. */
  function Passed(step: int, source: int): nat {
    if step > source then step - source else 0
  }

  /** A response is committed if it is current and in order, and either some of its steps
      are still to come or nothing else is left to do. */
  predicate Commits(c: Config, s: State, r: Response, scheduled: bool) {
    && r.epoch == s.ep.epoch && !s.flags.shutdown && !s.flags.resetting && !s.flags.fatal
    && (scheduled ==> s.ep.latestDelivered < r.source)
    && (Passed(s.ep.step, r.source) < |r.actions|
        || (c.fallback && s.out.queue == [] && (s.out.starvedPulls > 0 || c.holdBound <= s.out.holdUsed)))
  }

  function FeedMerged(c: Config, f: Feed, s: State, r: Response, scheduled: bool): Feed {
    if Commits(c, s, r, scheduled) then
      var passed := Passed(s.ep.step, r.source);
      Feed(Some(r), if passed < |r.actions| then passed else 0, [], f.last)
    else f
  }

  function FeedPulled(c: Config, f: Feed, s: State): Feed {
    var result := PullResult(c, s);
    if s.flags.started && Open(s.flags) && s.out.queue != [] && result.Some? then
      f.(given := f.given + [result.value.item], last := Some(result.value.item))
    else f
  }

  predicate Invalidates(s: State, step: Step) {
    s.lifecycle.LifecycleIdle? && (step == Lifecycle(DoResetBegin) || step == Lifecycle(DoStopBegin))
  }

  function FeedAfter(c: Config, f: Feed, s: State, step: Step): Feed {
    if Invalidates(s, step) then NO_FEED
    else if step == Control(DoPull) then FeedPulled(c, f, s)
    else if step == Answer(DoMergeDirect) && s.worker.Delivering? && !c.scheduler then
      FeedMerged(c, f, s, AsResponse(s.worker.job, s.worker.actions, s.now), false)
    else if step == Deliver(DoDeliveryMerge) && s.delivery.Merging? then FeedMerged(c, f, s, s.delivery.response, true)
    else f
  }

  /** Position `i` of the chunk as a queue entry. */
  predicate Entry(q: Queued, r: Response, i: nat) {
    && i < |r.actions| && q.action == r.actions[i] && q.index == i
    && q.epoch == r.epoch && q.revision == r.revision && q.ordinal == r.ordinal && q.source == r.source && q.task == r.task
  }

  /** These entries are the chunk's from position `from` to its last, none missing. */
  ghost predicate Serves(entries: seq<Queued>, r: Response, from: nat) {
    && from <= |r.actions| && |entries| == |r.actions| - from
    && forall i | 0 <= i < |entries| :: Entry(entries[i], r, from + i)
  }

  /** What was handed out of the last chunk and what is still queued are that chunk. */
  ghost predicate FeedOk(out: Output, f: Feed) {
    && (if f.chunk.Some? then Serves(f.given + out.queue, f.chunk.value, f.from) else f.given == [] && out.queue == [])
    && out.lastAction == f.last
  }

  lemma SuffixServes(r: Response, from: nat)
    requires from <= |r.actions|
    ensures Serves(Suffix(r, from), r, from)
  {
  }

  /** A commit puts the whole chunk in the queue, from the first step still to come. */
  lemma CommitsWhole(c: Config, s: State, r: Response, scheduled: bool)
    requires Commits(c, s, r, scheduled)
    ensures var out := Merge(c, s, r, scheduled).out;
            var passed := Passed(s.ep.step, r.source);
            && Serves(out.queue, r, if passed < |r.actions| then passed else 0)
            && out.lastAction == s.out.lastAction && out.holdUsed == 0 && out.starvedPulls == 0
  {
    var passed := Passed(s.ep.step, r.source);
    SuffixServes(r, if passed < |r.actions| then passed else 0);
  }

  /** A response that is not committed leaves the queue as it was. */
  lemma RejectedLeavesQueue(c: Config, s: State, r: Response, scheduled: bool)
    requires !Commits(c, s, r, scheduled)
    ensures Merge(c, s, r, scheduled).out == s.out
  {
  }

  lemma MergeFeeds(c: Config, f: Feed, s: State, r: Response, scheduled: bool)
    requires FeedOk(s.out, f)
    ensures FeedOk(Merge(c, s, r, scheduled).out, FeedMerged(c, f, s, r, scheduled))
  {
    if Commits(c, s, r, scheduled) {
      CommitsWhole(c, s, r, scheduled);
      var queue := Merge(c, s, r, scheduled).out.queue;
      assert [] + queue == queue;
    } else {
      RejectedLeavesQueue(c, s, r, scheduled);
    }
  }

  lemma PullFeeds(c: Config, f: Feed, s: State)
    requires FeedOk(s.out, f)
    ensures FeedOk(Pull(c, s).out, FeedPulled(c, f, s))
  {
    if PullAllowed(s) && s.out.queue != [] {
      assert f.given + [s.out.queue[0]] + s.out.queue[1..] == f.given + s.out.queue;
    }
  }

  /** A step that neither pulls, merges nor invalidates leaves queue and held action alone. */
  predicate TouchesOutput(c: Config, s: State, step: Step) {
    || Invalidates(s, step) || step == Control(DoPull)
    || (step == Answer(DoMergeDirect) && s.worker.Delivering? && !c.scheduler)
    || (step == Deliver(DoDeliveryMerge) && s.delivery.Merging?)
  }

  lemma OthersKeepOutput(c: Config, s: State, step: Step)
    requires !TouchesOutput(c, s, step)
    ensures Next(c, s, step).out == s.out
  {
  }

  lemma StepFeeds(c: Config, f: Feed, s: State, step: Step)
    requires FeedOk(s.out, f)
    ensures FeedOk(Next(c, s, step).out, FeedAfter(c, f, s, step))
  {
    if !TouchesOutput(c, s, step) {
      OthersKeepOutput(c, s, step);
    } else if step == Control(DoPull) {
      PullFeeds(c, f, s);
    } else if step == Answer(DoMergeDirect) {
      MergeFeeds(c, f, s, AsResponse(s.worker.job, s.worker.actions, s.now), false);
    } else if step == Deliver(DoDeliveryMerge) {
      MergeFeeds(c, f, s, s.delivery.response, true);
    }
  }

  // ---------------------------------------------------------------- the mailbox

  /** The budget lets an observation through if the interval has passed since the last
      step that was taken. */
  predicate Published(c: Config, b: Inbox, step: int) {
    b.taken.None? || step >= b.taken.value + c.interval
  }

  function Waiting(b: Inbox): Option<int> {
    if b.newest.Some? then b.newest else b.returned
  }

  function InboxAfter(c: Config, b: Inbox, s: State, step: Step): Inbox {
    if Invalidates(s, step) then NO_INBOX
    else if step == Control(DoNotify) then
      if Published(c, b, s.ep.step + 1) then b.(newest := Some(s.ep.step + 1), returned := None) else b
    else if step == Ask(DoTake) then
      if s.worker.WorkerIdle? && Open(s.flags) && s.flags.active && Waiting(b).Some? then Inbox(Waiting(b), None, None)
      else b
    else if step == Answer(DoRetry) && s.worker.Retrying? then
      if s.worker.job.Epoch() == s.ep.epoch && !s.flags.fatal && !s.flags.shutdown && Waiting(b).None? then
        b.(returned := Some(s.worker.job.envelope.step))
      else b
    else b
  }

  /** The mailbox holds the newest observation published since the last take, or else the
      one put back, and nothing if there is neither. */
  predicate InboxOk(ep: Episode, b: Inbox) {
    && ep.mailbox == (if Waiting(b).Some? then Some(Envelope(ep.epoch, Waiting(b).value)) else None)
    && ep.lastSubmitted == (if b.taken.Some? then b.taken.value else -1)
    && (b.taken.Some? ==> 0 <= b.taken.value) && (Waiting(b).Some? ==> 0 <= Waiting(b).value)
    && -1 <= ep.step
  }

  lemma NotifyDelivers(c: Config, b: Inbox, s: State)
    requires InboxOk(s.ep, b)
    ensures InboxOk(Next(c, s, Control(DoNotify)).ep, InboxAfter(c, b, s, Control(DoNotify)))
  {
  }

  lemma WorkDelivers(c: Config, b: Inbox, s: State, step: Step)
    requires InboxOk(s.ep, b) && (step.Ask? || step.Answer?)
    requires EngineInvariant.HasJob(s.worker) && s.worker.job.Epoch() == s.ep.epoch ==> 0 <= s.worker.job.envelope.step
    ensures InboxOk(Next(c, s, step).ep, InboxAfter(c, b, s, step))
  {
  }

  lemma OthersDeliver(c: Config, b: Inbox, s: State, step: Step)
    requires InboxOk(s.ep, b) && !step.Ask? && !step.Answer? && step != Control(DoNotify)
    ensures InboxOk(Next(c, s, step).ep, InboxAfter(c, b, s, step))
  {
  }

  lemma StepDelivers(c: Config, b: Inbox, s: State, step: Step)
    requires InboxOk(s.ep, b)
    requires EngineInvariant.HasJob(s.worker) && s.worker.job.Epoch() == s.ep.epoch ==> 0 <= s.worker.job.envelope.step
    ensures InboxOk(Next(c, s, step).ep, InboxAfter(c, b, s, step))
  {
    if step == Control(DoNotify) {
      NotifyDelivers(c, b, s);
    } else if step.Ask? || step.Answer? {
      WorkDelivers(c, b, s, step);
    } else {
      OthersDeliver(c, b, s, step);
    }
  }

  // ---------------------------------------------------------------- failures

  function EndsAfter(ends: seq<bool>, s: State, step: Step): seq<bool> {
    if step == Lifecycle(DoResetBegin) && s.lifecycle.LifecycleIdle? then []
    else if step == Lifecycle(DoStart) && s.lifecycle.LifecycleIdle? && !s.flags.started && s.flags.shutdown then []
    else if step == Answer(DoRecordFailure) && s.worker.Failed? && s.worker.job.Epoch() == s.ep.epoch && Open(s.flags) then
      ends + [false]
    else if step == Answer(DoCommitCompletion) && s.worker.Completed? && s.worker.job.Epoch() == s.ep.epoch && Open(s.flags)
    then ends + [true]
    else ends
  }

  /** How many of the last requests failed, without an answer between them. */
  function FailedLast(ends: seq<bool>): (n: nat)
    ensures n <= |ends| && forall i | |ends| - n <= i < |ends| :: !ends[i]
    ensures n < |ends| ==> ends[|ends| - n - 1]
  {
    if ends == [] || ends[|ends| - 1] then 0 else 1 + FailedLast(ends[..|ends| - 1])
  }

  lemma FailedLastExtends(ends: seq<bool>, answered: bool)
    ensures FailedLast(ends + [answered]) == if answered then 0 else FailedLast(ends) + 1
  {
    assert (ends + [answered])[..|ends|] == ends;
  }

  predicate EndsRequest(s: State, step: Step) {
    || (step == Answer(DoRecordFailure) && s.worker.Failed?)
    || (step == Answer(DoCommitCompletion) && s.worker.Completed?)
  }

  lemma EndCountsFailures(c: Config, ends: seq<bool>, s: State, step: Step)
    requires s.metrics.failuresInRow == FailedLast(ends) && EndsRequest(s, step)
    ensures Next(c, s, step).metrics.failuresInRow == FailedLast(EndsAfter(ends, s, step))
  {
    FailedLastExtends(ends, step == Answer(DoCommitCompletion));
  }

  lemma OthersCountNothing(c: Config, ends: seq<bool>, s: State, step: Step)
    requires s.metrics.failuresInRow == FailedLast(ends) && !EndsRequest(s, step)
    ensures Next(c, s, step).metrics.failuresInRow == FailedLast(EndsAfter(ends, s, step))
  {
  }

  lemma StepCountsFailures(c: Config, ends: seq<bool>, s: State, step: Step)
    requires s.metrics.failuresInRow == FailedLast(ends)
    ensures Next(c, s, step).metrics.failuresInRow == FailedLast(EndsAfter(ends, s, step))
  {
    if EndsRequest(s, step) {
      EndCountsFailures(c, ends, s, step);
    } else {
      OthersCountNothing(c, ends, s, step);
    }
  }

  // ---------------------------------------------------------------- every run

  function WatchAfter(c: Config, watch: Watch, s: State, step: Step): Watch {
    Watch(FeedAfter(c, watch.feed, s, step), InboxAfter(c, watch.inbox, s, step), EndsAfter(watch.ends, s, step))
  }

  function WatchOf(c: Config, watch: Watch, s: State, schedule: seq<Step>): Watch
    decreases |schedule|
  {
    if schedule == [] then watch
    else WatchOf(c, WatchAfter(c, watch, s, schedule[0]), Next(c, s, schedule[0]), schedule[1..])
  }

  ghost predicate Watched(s: State, watch: Watch) {
    && FeedOk(s.out, watch.feed)
    && InboxOk(s.ep, watch.inbox)
    && s.metrics.failuresInRow == FailedLast(watch.ends)
  }

  /** A job of the current epoch has a step that was taken. */
  predicate JobsStep(s: State) {
    EngineInvariant.HasJob(s.worker) && s.worker.job.Epoch() == s.ep.epoch ==> 0 <= s.worker.job.envelope.step
  }

  lemma StepIsWatched(c: Config, watch: Watch, s: State, step: Step)
    requires Watched(s, watch) && JobsStep(s)
    ensures Watched(Next(c, s, step), WatchAfter(c, watch, s, step))
  {
    StepFeeds(c, watch.feed, s, step);
    StepDelivers(c, watch.inbox, s, step);
    StepCountsFailures(c, watch.ends, s, step);
  }

  lemma {:induction false} RunIsWatched(c: Config, watch: Watch, w: World, schedule: seq<Step>)
    requires c.Valid() && EngineInvariant.Inv(c, w) && Watched(w.s, watch)
    ensures Watched(Run(c, w, schedule).s, WatchOf(c, watch, w.s, schedule))
    decreases |schedule|
  {
    if schedule != [] {
      StepIsWatched(c, watch, w.s, schedule[0]);
      EngineSteps.StepKeepsInv(c, w, schedule[0]);
      RunIsWatched(c, WatchAfter(c, watch, w.s, schedule[0]), Advance(c, w, schedule[0]), schedule[1..]);
    }
  }

  /** In every reachable state the actions handed out since the last commit, followed by the
      queue, are the chunk of that commit from the first step still to come, or all of it
      for a fallback, to its end; the mailbox holds the newest observation published since
      the last take; and failures are counted since the last answer. */
  lemma QueueAndMailboxAreWatched(c: Config, task: Task, schedule: seq<Step>)
    requires c.Valid()
    ensures Watched(Run(c, Begin(task), schedule).s, WatchOf(c, NEW_WATCH, Initial(task), schedule))
  {
    EngineTheorems.BeginEstablishesInv(c, task);
    RunIsWatched(c, NEW_WATCH, Begin(task), schedule);
  }

  /** Each take hands the worker the newest observation published, or the one put back, and
      with the mailbox occupied and the engine open an idle worker does take. */
  lemma TakesNewest(c: Config, task: Task, schedule: seq<Step>)
    requires c.Valid()
    ensures var s := Run(c, Begin(task), schedule).s;
            var waiting := Waiting(WatchOf(c, NEW_WATCH, Initial(task), schedule).inbox);
            var t := Next(c, s, Ask(DoTake));
            if s.worker.WorkerIdle? && Open(s.flags) && s.flags.active && waiting.Some? then
              t.worker.Taken? && t.worker.job.envelope == Envelope(s.ep.epoch, waiting.value) && t.ep.mailbox.None?
            else t == s
  {
    QueueAndMailboxAreWatched(c, task, schedule);
  }

  /** A pull hands out the next action of the chunk, or repeats the last one handed out
      while holds are left, or nothing. */
  lemma PullsNext(c: Config, task: Task, schedule: seq<Step>)
    requires c.Valid()
    ensures var s := Run(c, Begin(task), schedule).s;
            var f := WatchOf(c, NEW_WATCH, Initial(task), schedule).feed;
            var result := PullResult(c, s);
            if !s.flags.started || !Open(s.flags) then result.None?
            else if f.chunk.Some? && f.from + |f.given| < |f.chunk.value.actions| then
              result.Some? && Entry(result.value.item, f.chunk.value, f.from + |f.given|)
            else if f.last.Some? && s.out.holdUsed < c.holdBound then result == Some(Packet(c.engineId, f.last.value))
            else result.None?
  {
    QueueAndMailboxAreWatched(c, task, schedule);
    var s := Run(c, Begin(task), schedule).s;
    var f := WatchOf(c, NEW_WATCH, Initial(task), schedule).feed;
    if s.out.queue != [] {
      assert (f.given + s.out.queue)[|f.given|] == s.out.queue[0];
    }
  }

  /** The engine turns fatal over failed requests exactly when the limit's worth of them
      have failed in a row. */
  lemma FatalExactlyAtLimit(c: Config, task: Task, schedule: seq<Step>)
    requires c.Valid()
    requires var s := Run(c, Begin(task), schedule).s;
             s.worker.Failed? && s.worker.job.Epoch() == s.ep.epoch && Open(s.flags)
    ensures var s := Run(c, Begin(task), schedule).s;
            var failed := FailedLast(WatchOf(c, NEW_WATCH, Initial(task), schedule).ends) + 1;
            var t := Next(c, Next(c, s, Answer(DoRecordFailure)), Answer(DoCommitFatal));
            (t.flags.fatal <==> c.maxFailures <= failed) && t.worker == Retrying(s.worker.job)
  {
    QueueAndMailboxAreWatched(c, task, schedule);
  }
}
