/** The benchmark's action queue and its two merge rules. */
module BenchQueue {
  import opened Common
  import opened LatestWorker

  datatype Mode = SyncHold | Naive | Aligned

  datatype Counts = Counts(
    holds: nat, staleChunks: nat, oldChunks: nat, accepted: nat, rejected: nat, incoming: nat, staleActions: nat
  )

  /** `last` is the command a hold repeats. */
  datatype Queue = Queue(episode: Option<nat>, actions: seq<Action>, last: Option<Action>, counts: Counts)

  function NewQueue(episode: nat): Queue {
    Queue(Some(episode), [], None, Counts(0, 0, 0, 0, 0, 0, 0))
  }

  /** A merge is an error before the first reset, for a chunk without actions, and for
      one observed later than now. */
  predicate ReplaceFails(q: Queue, r: Result, step: nat) {
    || q.episode.None?
    || (r.request.episode == q.episode.value && (r.request.step > step || r.chunk == []))
  }

  function Dropped(r: Result, step: nat, mode: Mode): int {
    if mode.Aligned? then step - r.request.step else 0
  }

  /** A chunk of this episode that is not wholly in the past replaces the queue. */
  predicate Accepts(q: Queue, r: Result, step: nat, mode: Mode) {
    && !ReplaceFails(q, r, step)
    && q.episode == Some(r.request.episode)
    && Dropped(r, step, mode) < |r.chunk|
  }

  function Replace(q: Queue, r: Result, step: nat, mode: Mode): Queue {
    if ReplaceFails(q, r, step) then q
    else if q.episode != Some(r.request.episode) then
      q.(counts := q.counts.(oldChunks := q.counts.oldChunks + 1, rejected := q.counts.rejected + 1))
    else
      var drop := Dropped(r, step, mode);
      var stale := Min(drop, |r.chunk|);
      var c := q.counts.(incoming := q.counts.incoming + |r.chunk|, staleActions := q.counts.staleActions + stale);
      if drop >= |r.chunk| then
        q.(counts := c.(staleChunks := c.staleChunks + 1, rejected := c.rejected + 1))
      else
        q.(actions := r.chunk[drop..], counts := c.(accepted := c.accepted + 1))
  }

  /** Nothing to dispatch: neither a queued action nor one to hold. */
  predicate NotReady(q: Queue) {
    q.actions == [] && q.last.None?
  }

  predicate NextIsHold(q: Queue) {
    q.actions == []
  }

  function NextAction(q: Queue): Action
    requires !NotReady(q)
  {
    if q.actions == [] then q.last.value else q.actions[0]
  }

  function AfterNext(q: Queue): Queue
    requires !NotReady(q)
  {
    if q.actions == [] then q.(counts := q.counts.(holds := q.counts.holds + 1))
    else q.(actions := q.actions[1..], last := Some(q.actions[0]))
  }

  class ActionQueue {
    var episode: Option<nat>
    var queue: seq<Action>
    var last: Option<Action>
    var counts: Counts

    function View(): Queue
      reads this
    {
      Queue(episode, queue, last, counts)
    }

    constructor (episode: nat)
      ensures View() == NewQueue(episode)
    {
      this.episode, queue, last := Some(episode), [], None;
      counts := Counts(0, 0, 0, 0, 0, 0, 0);
    }

    method Merge(r: Result, step: nat, mode: Mode) returns (accepted: Option<bool>)
      modifies this
      ensures View() == Replace(old(View()), r, step, mode)
      ensures accepted.None? <==> ReplaceFails(old(View()), r, step)
      ensures accepted.Some? ==> (accepted.value <==> Accepts(old(View()), r, step, mode))
      ensures accepted == Some(false) ==> queue == old(queue)
    {
      if episode.None? {
        return None;
      }
      if r.request.episode != episode.value {
        counts := counts.(oldChunks := counts.oldChunks + 1, rejected := counts.rejected + 1);
        return Some(false);
      }
      var age := step - r.request.step;
      if age < 0 || r.chunk == [] {
        return None;
      }
      var drop := if mode.Aligned? then age else 0;
      var stale := Min(drop, |r.chunk|);
      counts := counts.(incoming := counts.incoming + |r.chunk|, staleActions := counts.staleActions + stale);
      if drop >= |r.chunk| {
        counts := counts.(staleChunks := counts.staleChunks + 1, rejected := counts.rejected + 1);
        return Some(false);
      }
      queue := r.chunk[drop..];
      counts := counts.(accepted := counts.accepted + 1);
      return Some(true);
    }

    /** None stands for the error of dispatching before the first chunk. */
    method Next() returns (action: Option<Action>, held: bool)
      modifies this
      ensures action.None? <==> NotReady(old(View()))
      ensures action.None? ==> View() == old(View())
      ensures action.Some? ==>
                && action.value == NextAction(old(View())) && View() == AfterNext(old(View()))
                && (held <==> NextIsHold(old(View())))
    {
      if queue != [] {
        var first := queue[0];
        queue := queue[1..];
        last := Some(first);
        return Some(first), false;
      }
      if last.None? {
        return None, false;
      }
      counts := counts.(holds := counts.holds + 1);
      return last, true;
    }
  }
}
