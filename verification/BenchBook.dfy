/** A book kept beside every benchmark episode, in every mode: what each result was merged
    as, what was dispatched of it, what was asked for and when. The queue, its counts and
    the recorded trace are what the book says. */
module BenchBook {
  import opened Common
  import opened LatestWorker
  import opened BenchQueue
  import opened BenchRunner

  // ---------------------------------------------------------------- the queue alone

  /** The chunk last accepted, where it was entered, what was dispatched of it, and the last
      action dispatched of any. */
  datatype Feed = Feed(chunk: seq<Action>, from: nat, given: seq<Action>, last: Option<Action>)

  /** What a result was merged as: of another episode, wholly in the past, or taken up with
      the first `dropped` of its actions left out. */
  datatype Fate = Foreign | Past(length: nat) | Taken(length: nat, dropped: nat)

  const NO_FEED: Feed := Feed([], 0, [], None)

  /** Only aligned merging leaves out the steps that have passed. */
  function Passed(result: Result, step: nat, mode: Mode): int {
    match mode
    case Aligned => step - result.request.step
    case Naive => 0
    case SyncHold => 0
  }

  function FateOf(result: Result, episode: nat, step: nat, mode: Mode): Fate
    requires result.request.episode == episode ==> result.request.step <= step
  {
    if result.request.episode != episode then Foreign
    else if |result.chunk| <= Passed(result, step, mode) then Past(|result.chunk|)
    else Taken(|result.chunk|, Passed(result, step, mode))
  }

  function FeedMerged(f: Feed, result: Result, fate: Fate): Feed {
    if fate.Taken? then Feed(result.chunk, fate.dropped, [], f.last) else f
  }

  /** Dispatched and queued, the last chunk is all there from where it was entered. */
  predicate FeedOk(q: Queue, f: Feed) {
    && f.from <= |f.chunk| && |f.given| + |q.actions| == |f.chunk| - f.from
    && (forall i | 0 <= i < |f.given| :: f.given[i] == f.chunk[f.from + i])
    && (forall i | 0 <= i < |q.actions| :: q.actions[i] == f.chunk[f.from + |f.given| + i])
    && q.last == f.last
  }

  function Accepted(fates: seq<Fate>): nat {
    if fates == [] then 0 else Accepted(fates[..|fates| - 1]) + if fates[|fates| - 1].Taken? then 1 else 0
  }

  function Stale(fates: seq<Fate>): nat {
    if fates == [] then 0 else Stale(fates[..|fates| - 1]) + if fates[|fates| - 1].Past? then 1 else 0
  }

  function Incoming(fates: seq<Fate>): nat {
    if fates == [] then 0
    else Incoming(fates[..|fates| - 1]) + if fates[|fates| - 1].Foreign? then 0 else fates[|fates| - 1].length
  }

  function Wasted(fates: seq<Fate>): nat {
    if fates == [] then 0
    else
      var last := fates[|fates| - 1];
      Wasted(fates[..|fates| - 1]) + if last.Foreign? then 0 else if last.Past? then last.length else last.dropped
  }

  /** Every count of the queue is a count of what its merges and its holds were. */
  predicate CountsOk(c: Counts, fates: seq<Fate>, holds: nat) {
    && c.holds == holds && c.accepted == Accepted(fates) && c.rejected == |fates| - Accepted(fates)
    && c.staleChunks == Stale(fates) && c.oldChunks == |fates| - Accepted(fates) - Stale(fates)
    && c.incoming == Incoming(fates) && c.staleActions == Wasted(fates)
  }

  lemma FatesExtend(fates: seq<Fate>, fate: Fate)
    ensures var more := fates + [fate];
            && Accepted(more) == Accepted(fates) + (if fate.Taken? then 1 else 0)
            && Stale(more) == Stale(fates) + (if fate.Past? then 1 else 0)
            && Incoming(more) == Incoming(fates) + (if fate.Foreign? then 0 else fate.length)
            && Wasted(more) ==
                 Wasted(fates) + (if fate.Foreign? then 0 else if fate.Past? then fate.length else fate.dropped)
  {
    assert (fates + [fate])[..|fates|] == fates;
  }

  predicate MayMerge(q: Queue, result: Result, step: nat) {
    && q.episode.Some?
    && (result.request.episode == q.episode.value ==> result.request.step <= step && result.chunk != [])
  }

  /** A merge is an error exactly otherwise. */
  lemma MergeFailsExactly(q: Queue, result: Result, step: nat)
    ensures ReplaceFails(q, result, step) <==> !MayMerge(q, result, step)
  {
  }

  lemma MergeFeeds(q: Queue, f: Feed, result: Result, step: nat, mode: Mode)
    requires FeedOk(q, f) && MayMerge(q, result, step)
    ensures var fate := FateOf(result, q.episode.value, step, mode);
            var v := Replace(q, result, step, mode);
            && !ReplaceFails(q, result, step) && v.episode == q.episode && FeedOk(v, FeedMerged(f, result, fate))
            && (Accepts(q, result, step, mode) <==> fate.Taken?)
  {
  }

  lemma MergeCounts(q: Queue, fates: seq<Fate>, holds: nat, result: Result, step: nat, mode: Mode)
    requires CountsOk(q.counts, fates, holds) && MayMerge(q, result, step)
    ensures CountsOk(Replace(q, result, step, mode).counts, fates + [FateOf(result, q.episode.value, step, mode)], holds)
  {
    FatesExtend(fates, FateOf(result, q.episode.value, step, mode));
  }

  /** A merge of a result of another episode, or of one that is neither from the future nor
      empty, does what its fate says. */
  lemma MergeIsBooked(q: Queue, f: Feed, fates: seq<Fate>, holds: nat, result: Result, step: nat, mode: Mode)
    requires FeedOk(q, f) && CountsOk(q.counts, fates, holds) && MayMerge(q, result, step)
    ensures var fate := FateOf(result, q.episode.value, step, mode);
            var v := Replace(q, result, step, mode);
            && !ReplaceFails(q, result, step) && v.episode == q.episode
            && FeedOk(v, FeedMerged(f, result, fate)) && CountsOk(v.counts, fates + [fate], holds)
            && (Accepts(q, result, step, mode) <==> fate.Taken?)
  {
    MergeFeeds(q, f, result, step, mode);
    MergeCounts(q, fates, holds, result, step, mode);
  }

  function FeedNext(q: Queue, f: Feed): Feed
    requires !NotReady(q)
  {
    if q.actions == [] then f else f.(given := f.given + [NextAction(q)], last := Some(NextAction(q)))
  }

  /** A dispatch takes the next action of the chunk, or repeats the last one and is a hold. */
  lemma NextIsBooked(q: Queue, f: Feed, fates: seq<Fate>, holds: nat)
    requires FeedOk(q, f) && CountsOk(q.counts, fates, holds) && !NotReady(q)
    ensures var v := AfterNext(q);
            var hold := f.from + |f.given| == |f.chunk|;
            && (NextIsHold(q) <==> hold) && v.episode == q.episode
            && (if hold then Some(NextAction(q)) == f.last else NextAction(q) == f.chunk[f.from + |f.given|])
            && FeedOk(v, FeedNext(q, f))
            && CountsOk(v.counts, fates, holds + if hold then 1 else 0)
  {
  }
}
