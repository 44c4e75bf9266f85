/** What holds of the server in every reachable state of client and server together. */
module RpcService {
  import opened RpcWire
  import opened RpcServer

  // ---------------------------------------------------------------- the executor alone

  predicate WorkerInStep(x: Executor) {
    && x.picked <= |x.jobs|
    && (!x.worker.Idle? ==> x.worker.job + 1 == x.picked)
  }

  /** Each end follows its own start at once, and each start is followed by an end. */
  ghost predicate Paired(log: seq<Mark>) {
    && (forall i | 0 <= i < |log| && log[i].Ended? :: i > 0 && log[i - 1] == Began(log[i].job, log[i].frame))
    && (forall i | 0 <= i < |log| - 1 && log[i].Began? :: log[i + 1].Ended?)
  }

  ghost predicate Increasing(log: seq<Mark>) {
    forall i, j | 0 <= i < j < |log| && log[i].Began? && log[j].Began? :: log[i].job < log[j].job
  }

  ghost predicate LogMatchesJobs(x: Executor) {
    forall i | 0 <= i < |x.log| ::
      && x.log[i].job < x.picked && x.log[i].job < |x.jobs| && x.log[i].frame == x.jobs[x.log[i].job].frame
      && (x.worker.Picked? || x.worker.Cleared? ==> x.log[i].job < x.worker.job)
  }

  /** The log is open exactly while the worker is inside a callback. */
  predicate OpenWhileComputing(x: Executor) {
    var open := x.log != [] && x.log[|x.log| - 1].Began?;
    && (open <==> x.worker.Computing?)
    && (x.worker.Computing? && x.worker.job < |x.jobs| ==>
          x.log[|x.log| - 1] == Began(x.worker.job, x.jobs[x.worker.job].frame))
    && (x.worker.Computed? && x.worker.job < |x.jobs| ==>
          x.log != [] && x.log[|x.log| - 1] == Ended(x.worker.job, x.jobs[x.worker.job].frame, x.worker.ok))
  }

  /** The callback for `frame` has run and ended this way. */
  ghost predicate Performed(log: seq<Mark>, frame: Frame, ok: bool) {
    exists i :: 0 <= i < |log| && log[i].Ended? && log[i].frame == frame && log[i].ok == ok
  }

  ghost predicate ResponsesPerformed(x: Executor) {
    forall j | 0 <= j < |x.jobs| && x.jobs[j].response.Some? ::
      Performed(x.log, x.jobs[j].frame, x.jobs[j].response.value.Ok?)
  }

  function Calls(log: seq<Mark>, kind: Kind): nat {
    if log == [] then 0
    else
      var last := log[|log| - 1];
      Calls(log[..|log| - 1], kind) + (if last.Began? && last.frame.kind == kind then 1 else 0)
  }

  function ResetsEnded(log: seq<Mark>, ok: bool): nat {
    if log == [] then 0
    else
      var last := log[|log| - 1];
      ResetsEnded(log[..|log| - 1], ok) + (if last.Ended? && last.frame.kind.ResetKind? && last.ok == ok then 1 else 0)
  }

  /** Every counter says how many such callbacks the log shows; the jobs taken from the
      queue that never reached a callback are the dropped ones. */
  ghost predicate Counted(x: Executor, hasReset: bool) {
    var c := x.counters;
    && c.inferenceCalls == Calls(x.log, InferKind)
    && c.resetCalls == (if hasReset then Calls(x.log, ResetKind) else 0)
    && c.resetSuccesses == ResetsEnded(x.log, true)
    && c.resetFailures == ResetsEnded(x.log, false)
    && c.dropped + Calls(x.log, InferKind) + Calls(x.log, ResetKind)
       + (if x.worker.Picked? || x.worker.Cleared? then 1 else 0) == x.picked
  }

  /** Reset callbacks still running are the only ones without an outcome. */
  ghost predicate ResetsBalanced(x: Executor) {
    Calls(x.log, ResetKind) == ResetsEnded(x.log, true) + ResetsEnded(x.log, false)
      + (if x.log != [] && x.log[|x.log| - 1].Began? && x.log[|x.log| - 1].frame.kind.ResetKind? then 1 else 0)
  }

  ghost predicate ExecutorOk(x: Executor, hasReset: bool) {
    && WorkerInStep(x) && Paired(x.log) && Increasing(x.log) && LogMatchesJobs(x) && OpenWhileComputing(x)
    && ResponsesPerformed(x) && Counted(x, hasReset) && ResetsBalanced(x)
  }

  // ---------------------------------------------------------------- its steps

  lemma CallsExtend(log: seq<Mark>, m: Mark, kind: Kind)
    ensures Calls(log + [m], kind) == Calls(log, kind) + (if m.Began? && m.frame.kind == kind then 1 else 0)
  {
    assert (log + [m])[..|log|] == log;
  }

  lemma ResetsEndedExtend(log: seq<Mark>, m: Mark, ok: bool)
    ensures ResetsEnded(log + [m], ok) ==
            ResetsEnded(log, ok) + (if m.Ended? && m.frame.kind.ResetKind? && m.ok == ok then 1 else 0)
  {
    assert (log + [m])[..|log|] == log;
  }

  lemma MarkExtends(log: seq<Mark>, m: Mark)
    ensures forall kind :: Calls(log + [m], kind) ==
              Calls(log, kind) + (if m.Began? && m.frame.kind == kind then 1 else 0)
    ensures forall ok :: ResetsEnded(log + [m], ok) ==
              ResetsEnded(log, ok) + (if m.Ended? && m.frame.kind.ResetKind? && m.ok == ok then 1 else 0)
  {
    forall kind {
      CallsExtend(log, m, kind);
    }
    forall ok {
      ResetsEndedExtend(log, m, ok);
    }
  }

  lemma PerformedExtends(log: seq<Mark>, m: Mark, frame: Frame, ok: bool)
    requires Performed(log, frame, ok)
    ensures Performed(log + [m], frame, ok)
  {
    var i :| 0 <= i < |log| && log[i].Ended? && log[i].frame == frame && log[i].ok == ok;
    assert (log + [m])[i] == log[i];
  }

  lemma EnqueueKeepsExecutor(x: Executor, job: Job, hasReset: bool)
    requires ExecutorOk(x, hasReset) && job.response.None?
    ensures ExecutorOk(Enqueue(x, job), hasReset)
  {
  }

  lemma AbandonKeepsExecutor(x: Executor, j: nat, hasReset: bool)
    requires ExecutorOk(x, hasReset)
    ensures ExecutorOk(Abandon(x, j), hasReset)
  {
  }

  lemma PickKeepsExecutor(x: Executor, hasReset: bool)
    requires ExecutorOk(x, hasReset)
    ensures ExecutorOk(Pick(x), hasReset)
  {
  }

  lemma CheckKeepsExecutor(x: Executor, gone: bool, hasReset: bool)
    requires ExecutorOk(x, hasReset)
    ensures ExecutorOk(Check(x, gone), hasReset)
  {
  }

  lemma ResponsesExtend(x: Executor, m: Mark)
    requires ResponsesPerformed(x)
    ensures ResponsesPerformed(x.(log := x.log + [m]))
  {
    forall j | 0 <= j < |x.jobs| && x.jobs[j].response.Some?
      ensures Performed(x.log + [m], x.jobs[j].frame, x.jobs[j].response.value.Ok?)
    {
      PerformedExtends(x.log, m, x.jobs[j].frame, x.jobs[j].response.value.Ok?);
    }
  }

  lemma BeginKeepsLog(x: Executor, hasReset: bool)
    requires WorkerInStep(x) && Paired(x.log) && Increasing(x.log) && LogMatchesJobs(x) && OpenWhileComputing(x)
    ensures var y := BeginWork(x, hasReset);
            WorkerInStep(y) && Paired(y.log) && Increasing(y.log) && LogMatchesJobs(y) && OpenWhileComputing(y)
  {
  }

  lemma BeginKeepsCounts(x: Executor, hasReset: bool)
    requires WorkerInStep(x) && OpenWhileComputing(x) && Counted(x, hasReset) && ResetsBalanced(x)
    ensures var y := BeginWork(x, hasReset); Counted(y, hasReset) && ResetsBalanced(y)
  {
    if x.worker.Cleared? {
      MarkExtends(x.log, Began(x.worker.job, x.jobs[x.worker.job].frame));
    }
  }

  lemma BeginKeepsExecutor(x: Executor, hasReset: bool)
    requires ExecutorOk(x, hasReset)
    ensures ExecutorOk(BeginWork(x, hasReset), hasReset)
  {
    BeginKeepsLog(x, hasReset);
    BeginKeepsCounts(x, hasReset);
    if x.worker.Cleared? {
      ResponsesExtend(x, Began(x.worker.job, x.jobs[x.worker.job].frame));
    }
  }

  lemma EndKeepsLog(x: Executor, hasReset: bool, ok: bool)
    requires WorkerInStep(x) && Paired(x.log) && Increasing(x.log) && LogMatchesJobs(x) && OpenWhileComputing(x)
    ensures var y := EndWork(x, hasReset, ok);
            WorkerInStep(y) && Paired(y.log) && Increasing(y.log) && LogMatchesJobs(y) && OpenWhileComputing(y)
  {
  }

  lemma EndKeepsCounts(x: Executor, hasReset: bool, ok: bool)
    requires WorkerInStep(x) && OpenWhileComputing(x) && Counted(x, hasReset) && ResetsBalanced(x)
    ensures var y := EndWork(x, hasReset, ok); Counted(y, hasReset) && ResetsBalanced(y)
  {
    if x.worker.Computing? {
      MarkExtends(x.log, EndWork(x, hasReset, ok).log[|x.log|]);
    }
  }

  lemma EndKeepsExecutor(x: Executor, hasReset: bool, ok: bool)
    requires ExecutorOk(x, hasReset)
    ensures ExecutorOk(EndWork(x, hasReset, ok), hasReset)
  {
    EndKeepsLog(x, hasReset, ok);
    EndKeepsCounts(x, hasReset, ok);
    if x.worker.Computing? {
      ResponsesExtend(x, EndWork(x, hasReset, ok).log[|x.log|]);
    }
  }

  lemma SettleKeepsExecutor(x: Executor, gone: bool, hasReset: bool)
    requires ExecutorOk(x, hasReset)
    ensures ExecutorOk(Settle(x, gone), hasReset)
  {
    if x.worker.Computed? {
      assert x.log[|x.log| - 1].ok == x.worker.ok;
      assert Performed(x.log, x.jobs[x.worker.job].frame, x.worker.ok);
    }
  }
}
