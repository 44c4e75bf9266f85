/** The episode loop as an object over mutable lists, its action queue and its worker. */
module BenchEpisode {
  import opened Common
  import opened LatestWorker
  import opened BenchQueue
  import opened BenchRunner

  class Episode {
    const setup: Setup
    const queue: ActionQueue
    const worker: LatestRequestWorker
    var phase: Phase
    var now: int
    var waiting: bool
    var events: seq<Event>
    var actions: seq<Action>
    var dispatch: seq<int>
    var before: seq<nat>
    var after: seq<nat>
    var held: seq<bool>
    var asked: seq<nat>
    var cancelled: bool

    function Recording(): Trace
      reads this
    {
      Trace(events, actions, dispatch, before, after, held)
    }

    function View(): Runner
      reads this, queue, worker
    {
      Runner(phase, queue.View(), worker.View(), now, waiting, Recording(), asked, cancelled)
    }

    predicate Valid()
      reads this
    {
      worker.delay == setup.delay
    }

    constructor (setup: Setup, worker: LatestRequestWorker, now: int)
      requires worker.delay == setup.delay
      modifies worker
      ensures Valid() && this.setup == setup && this.worker == worker && fresh(queue)
      ensures View() == Start(setup, old(worker.View()), now)
    {
      this.setup, this.worker := setup, worker;
      queue := new ActionQueue(setup.episode);
      phase, this.now, waiting := First, now, false;
      events, actions, dispatch, before, after, held := [], [], [], [], [], [];
      asked, cancelled := [], false;
      new;
      worker.Begin(setup.episode);
      SubmitRequest(0);
    }

    method SubmitRequest(step: nat)
      modifies this, worker
      ensures View() == Ask(setup, old(View()), step)
    {
      var accepted := worker.Offer(Request(setup.episode, step, |queue.queue|));
      if !accepted {
        phase := Aborted;
        return;
      }
      asked := asked + [step];
      if setup.mode == SyncHold {
        waiting := true;
      }
    }

    method RecordResult(result: Result)
      modifies this, queue
      ensures View() == Record(setup, old(View()), result)
    {
      if phase == Aborted {
        return;
      }
      var length := |queue.queue|;
      if ReplaceFails(queue.View(), result, |actions|) {
        phase := Aborted;
        return;
      }
      var accepted := queue.Merge(result, |actions|, setup.mode);
      var merge := BenchRunner.Merge(|actions|, accepted.value, length);
      events := events + [Event(result.request.step, result.request.depth, result.delivery, Some(merge))];
      if setup.mode == SyncHold {
        waiting := false;
      }
    }

    method RecordResults(results: seq<Result>)
      modifies this, queue
      ensures View() == RecordAll(setup, old(View()), results)
    {
      for k := 0 to |results|
        invariant RecordAll(setup, View(), results[k..]) == RecordAll(setup, old(View()), results)
      {
        assert results[k..][0] == results[k] && results[k..][1..] == results[k + 1..];
        RecordResult(results[k]);
      }
    }

    method DrainResults()
      modifies this, queue, worker
      ensures View() == Absorb(setup, old(View()))
    {
      var drained := worker.DrainResults(now);
      if drained.None? {
        phase := Aborted;
      } else {
        RecordResults(drained.value);
      }
    }

    method MergeFirst()
      requires phase.First?
      modifies this, queue, worker
      ensures View() == FirstChunk(setup, old(View()))
    {
      if worker.error.Some? {
        phase := Aborted;
      } else if DueCount(worker.results, now) > 0 {
        DrainResults();
        if phase != Aborted {
          phase := if NotReady(queue.View()) then Aborted else LoopTest(setup, |actions|);
        }
      }
    }

    method Dispatch(over: bool)
      requires phase.Acting?
      modifies this, queue
      ensures View() == Act(old(View()), over)
    {
      if NotReady(queue.View()) {
        phase := Aborted;
        return;
      }
      before := before + [|queue.queue|];
      var action, hold := queue.Next();
      after := after + [|queue.queue|];
      held := held + [hold];
      actions := actions + [action.value];
      dispatch := dispatch + [now];
      phase := Deciding(over);
    }

    method RequestNext()
      requires phase.Deciding?
      modifies this, worker
      ensures View() == Decide(setup, old(View()))
    {
      if phase.over {
        phase := Ending;
        return;
      }
      var ask := if setup.mode == SyncHold then queue.queue == [] && !waiting
                 else setup.interval > 0 && |actions| % setup.interval == 0;
      if ask {
        SubmitRequest(|actions|);
      }
      if phase != Aborted {
        phase := LoopTest(setup, |actions|);
      }
    }

    method Settle()
      requires phase.Settling?
      modifies this, worker
      ensures View() == SettleAll(old(View()))
    {
      if worker.error.Some? {
        phase := Aborted;
      } else if LatestWorker.Idle(worker.View()) {
        var left := worker.DrainAllResults();
        events := events + LeftOver(left.value);
        phase := Over;
      }
    }

    method CancelAsked()
      requires phase.Ending?
      modifies this, worker
      ensures View() == CancelMailbox(old(View()))
    {
      var dropped := worker.CancelMailbox();
      if dropped.None? {
        phase := Aborted;
      } else {
        cancelled := dropped.value;
        phase := Settling;
      }
    }

    /** A block of the thread beside the loop, or time passing. */
    method ThreadMove(move: Move)
      requires Valid() && (move.Take? || move.Measure? || move.Store? || move.Fail? || move.Wait?)
      modifies this, worker
      ensures View() == Advance(setup, old(View()), move)
    {
      match move
      case Take => var _ := worker.TakeRequest();
      case Measure => worker.MeasureEnd(now);
      case Store(commands) =>
        if worker.thread.Measured? && commands != [] {
          worker.StoreResult(Chunk(worker.thread.ticket.request.step, commands));
        }
      case Fail => worker.FailInference();
      case Wait(ticks) => now := now + ticks;
    }

    /** One move, of the loop or of the thread beside it. */
    method Perform(move: Move)
      requires Valid()
      modifies this, queue, worker
      ensures View() == Advance(setup, old(View()), move)
    {
      match move
      case DoFirst =>
        if phase == First {
          MergeFirst();
        }
      case DoDrain =>
        if phase == Control {
          DrainResults();
          if phase != Aborted {
            phase := Acting;
          }
        }
      case DoAct(over) =>
        if phase == Acting {
          Dispatch(over);
        }
      case DoDecide =>
        if phase.Deciding? {
          RequestNext();
        }
      case DoCancel =>
        if phase == Ending {
          CancelAsked();
        }
      case DoSettle =>
        if phase == Settling {
          Settle();
        }
      case _ => ThreadMove(move);
    }

    /** The whole episode under a schedule of moves. */
    method Drive(schedule: seq<Move>)
      requires Valid()
      modifies this, queue, worker
      ensures View() == Play(setup, old(View()), schedule)
    {
      for k := 0 to |schedule|
        invariant Play(setup, View(), schedule[k..]) == Play(setup, old(View()), schedule)
      {
        assert schedule[k..][0] == schedule[k] && schedule[k..][1..] == schedule[k + 1..];
        Perform(schedule[k]);
      }
    }
  }
}
