/** The executor object and its worker loop. */
module RpcExecutor {
  import opened Common
  import opened RpcWire
  import opened RpcServer
  import opened RpcService

  /** What the worker meets while it serves one job: whether the job is obsolete when
      taken, how its callback ends, and whether it is obsolete afterwards. */
  datatype Turn = Turn(gone: bool, ok: bool, late: bool)

  function Serve(x: Executor, hasReset: bool, turn: Turn): Executor {
    Settle(EndWork(BeginWork(Check(Pick(x), turn.gone), hasReset), hasReset, turn.ok), turn.late)
  }

  function Drain(x: Executor, hasReset: bool, turns: seq<Turn>): Executor
    decreases |turns|
  {
    if turns == [] || x.picked >= |x.jobs| then x else Drain(Serve(x, hasReset, turns[0]), hasReset, turns[1..])
  }

  function Counts(c: Counters, kind: Kind, hasReset: bool, fine: bool, late: bool): Counters {
    var infer := kind.InferKind?;
    c.(inferenceCalls := c.inferenceCalls + (if infer then 1 else 0),
       resetCalls := c.resetCalls + (if !infer && hasReset then 1 else 0),
       resetSuccesses := c.resetSuccesses + (if !infer && fine then 1 else 0),
       resetFailures := c.resetFailures + (if !infer && !fine then 1 else 0),
       invalidated := c.invalidated + (if late then 1 else 0))
  }

  /** Serving one job, all its blocks together. */
  lemma ServedAtOnce(x: Executor, hasReset: bool, turn: Turn)
    requires x.worker.Idle? && x.picked < |x.jobs|
    ensures var job := x.jobs[x.picked];
            var z := Serve(x, hasReset, turn);
            && z.picked == x.picked + 1 && z.worker.Idle?
            && (turn.gone ==>
                  && z.jobs == x.jobs[x.picked := job.(done := true)]
                  && z.counters == x.counters.(dropped := x.counters.dropped + 1)
                  && z.log == x.log)
            && (!turn.gone ==>
                  var fine := turn.ok || (job.frame.kind.ResetKind? && !hasReset);
                  var response := if turn.late then None else Some(if fine then Ok else Refused);
                  && z.jobs == x.jobs[x.picked := job.(done := true, response := response)]
                  && z.counters == Counts(x.counters, job.frame.kind, hasReset, fine, turn.late)
                  && z.log == x.log + [Began(x.picked, job.frame)] + [Ended(x.picked, job.frame, fine)])
  {
  }

  lemma ServeKeepsOk(x: Executor, hasReset: bool, turn: Turn)
    requires ExecutorOk(x, hasReset)
    ensures ExecutorOk(Serve(x, hasReset, turn), hasReset)
  {
    var a := Pick(x);
    PickKeepsExecutor(x, hasReset);
    var b := Check(a, turn.gone);
    CheckKeepsExecutor(a, turn.gone, hasReset);
    var c := BeginWork(b, hasReset);
    BeginKeepsExecutor(b, hasReset);
    var d := EndWork(c, hasReset, turn.ok);
    EndKeepsExecutor(c, hasReset, turn.ok);
    SettleKeepsExecutor(d, turn.late, hasReset);
  }

  lemma {:induction false} DrainKeepsOk(x: Executor, hasReset: bool, turns: seq<Turn>)
    requires ExecutorOk(x, hasReset)
    ensures ExecutorOk(Drain(x, hasReset, turns), hasReset)
    decreases |turns|
  {
    if turns != [] && x.picked < |x.jobs| {
      ServeKeepsOk(x, hasReset, turns[0]);
      DrainKeepsOk(Serve(x, hasReset, turns[0]), hasReset, turns[1..]);
    }
  }

  class SingleOwnerExecutor {
    const hasReset: bool
    var jobs: seq<Job>
    var picked: nat
    var worker: Worker
    var counters: Counters
    var log: seq<Mark>

    function View(): Executor
      reads this
    {
      Executor(jobs, picked, worker, counters, log)
    }

    constructor (hasReset: bool)
      ensures View() == NEW_EXECUTOR && this.hasReset == hasReset
    {
      this.hasReset := hasReset;
      jobs, picked, worker, log := [], 0, Idle, [];
      counters := Counters(0, 0, 0, 0, 0, 0);
    }

    method Submit(job: Job) returns (id: nat)
      modifies this`jobs
      ensures View() == Enqueue(old(View()), job) && id == |old(jobs)|
    {
      id := |jobs|;
      jobs := jobs + [job];
    }

    /** The waiting side of `execute` gives its job up when it returns. */
    method Release(id: nat) returns (response: Option<Verdict>)
      requires id < |jobs|
      modifies this`jobs
      ensures View() == Abandon(old(View()), id) && response == old(jobs)[id].response
    {
      response := jobs[id].response;
      jobs := jobs[id := jobs[id].(obsolete := true)];
    }

    method Count(kind: Kind, ended: bool, ok: bool)
      modifies this`counters
      ensures counters ==
              var c := old(counters);
              if !ended && kind.InferKind? then c.(inferenceCalls := c.inferenceCalls + 1)
              else if !ended && hasReset then c.(resetCalls := c.resetCalls + 1)
              else if !ended || kind.InferKind? then c
              else if ok then c.(resetSuccesses := c.resetSuccesses + 1)
              else c.(resetFailures := c.resetFailures + 1)
    {
      if !ended {
        if kind.InferKind? {
          counters := counters.(inferenceCalls := counters.inferenceCalls + 1);
        } else if hasReset {
          counters := counters.(resetCalls := counters.resetCalls + 1);
        }
      } else if kind.ResetKind? {
        if ok {
          counters := counters.(resetSuccesses := counters.resetSuccesses + 1);
        } else {
          counters := counters.(resetFailures := counters.resetFailures + 1);
        }
      }
    }

    method PickJob()
      modifies this
      ensures View() == Pick(old(View()))
    {
      if worker.Idle? && picked < |jobs| {
        worker := Picked(picked);
        picked := picked + 1;
      }
    }

    method CheckJob(gone: bool)
      modifies this
      ensures View() == Check(old(View()), gone)
    {
      if worker.Picked? && worker.job < |jobs| {
        var j := worker.job;
        if gone {
          jobs := jobs[j := jobs[j].(done := true)];
          counters := counters.(dropped := counters.dropped + 1);
          worker := Idle;
        } else {
          worker := Cleared(j);
        }
      }
    }

    method BeginCallback()
      modifies this
      ensures View() == BeginWork(old(View()), hasReset)
    {
      if worker.Cleared? && worker.job < |jobs| {
        var j := worker.job;
        var frame := jobs[j].frame;
        Count(frame.kind, false, false);
        log := log + [Began(j, frame)];
        worker := Computing(j);
      }
    }

    method EndCallback(ok: bool)
      modifies this
      ensures View() == EndWork(old(View()), hasReset, ok)
    {
      if worker.Computing? && worker.job < |jobs| {
        var j := worker.job;
        var frame := jobs[j].frame;
        var fine := ok || (frame.kind.ResetKind? && !hasReset);
        Count(frame.kind, true, fine);
        log := log + [Ended(j, frame, fine)];
        worker := Computed(j, fine);
      }
    }

    method SettleJob(gone: bool)
      modifies this
      ensures View() == Settle(old(View()), gone)
    {
      if worker.Computed? && worker.job < |jobs| {
        var j := worker.job;
        var response := None;
        if gone {
          counters := counters.(invalidated := counters.invalidated + 1);
        } else {
          response := Some(if worker.ok then Ok else Refused);
        }
        jobs := jobs[j := jobs[j].(done := true, response := response)];
        worker := Idle;
      }
    }

    /** One iteration of the worker loop, with nothing in between. */
    method ServeNext(turn: Turn)
      requires worker.Idle? && picked < |jobs|
      modifies this
      ensures View() == Serve(old(View()), hasReset, turn)
      ensures worker.Idle? && picked == old(picked) + 1 && |jobs| == old(|jobs|)
    {
      ServedAtOnce(View(), hasReset, turn);
      PickJob();
      CheckJob(turn.gone);
      BeginCallback();
      EndCallback(turn.ok);
      SettleJob(turn.late);
    }

    /** The worker loop, until the queue or the script of what it meets runs out. */
    method Loop(turns: seq<Turn>)
      requires worker.Idle? && picked <= |jobs|
      modifies this
      ensures View() == Drain(old(View()), hasReset, turns)
      ensures worker.Idle?
      ensures picked == |jobs| || picked == old(picked) + |turns|
    {
      var i := 0;
      while i < |turns| && picked < |jobs|
        invariant i <= |turns| && worker.Idle?
        invariant Drain(View(), hasReset, turns[i..]) == Drain(old(View()), hasReset, turns)
        invariant picked == old(picked) + i <= |jobs|
      {
        assert turns[i..][0] == turns[i] && turns[i..][1..] == turns[i + 1..];
        ServeNext(turns[i]);
        i := i + 1;
      }
    }
  }
}
