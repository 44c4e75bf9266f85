/** Injected faults strike by request number, and nothing else does. */
module RpcFaults {
  import opened Common
  import opened RpcWire
  import opened RpcServer

  /** `n` is a multiple of a period that is not zero. */
  ghost predicate Periodic(n: nat, every: nat) {
    every > 0 && exists m: nat :: n == m * every
  }

  lemma MultiplesGrow(d: int, every: nat)
    ensures d >= 1 ==> d * every >= every
    ensures d <= -1 ==> d * every + every <= 0
  {
    assert d * every == (d - 1) * every + every == (d + 1) * every - every;
  }

  lemma MultipleHasNoRemainder(m: nat, every: nat)
    requires every > 0
    ensures m * every % every == 0
  {
    var q, rest := m * every / every, m * every % every;
    assert (m - q) * every == rest;
    MultiplesGrow(m - q, every);
  }

  lemma MatchesPeriodically(n: nat, every: nat)
    ensures Matches(n, every) <==> Periodic(n, every)
  {
    if every > 0 {
      if n % every == 0 {
        assert n == n / every * every;
      }
      if m: nat :| n == m * every {
        MultipleHasNoRemainder(m, every);
      }
    }
  }

  // ---------------------------------------------------------------- request numbers

  predicate ReadsInference(y: System, step: SysStep) {
    step.ReadFrame? && MayRead(y, step.k) && y.w.net[step.k].sent[y.w.net[step.k].taken].kind.InferKind?
  }

  function InferencesRead(setup: Setup, y: System, schedule: seq<SysStep>): nat
    decreases |schedule|
  {
    if schedule == [] then 0
    else
      (if ReadsInference(y, schedule[0]) then 1 else 0)
      + InferencesRead(setup, SysNext(setup, y, schedule[0]), schedule[1..])
  }

  lemma StepNumbers(setup: Setup, y: System, step: SysStep)
    ensures SysNext(setup, y, step).s.nextOrdinal == y.s.nextOrdinal + (if ReadsInference(y, step) then 1 else 0)
    ensures ReadsInference(y, step) ==> ProcOf(SysNext(setup, y, step).s, step.k) == Deciding(y.s.nextOrdinal)
  {
  }

  lemma {:induction false} NumbersFrom(setup: Setup, y: System, schedule: seq<SysStep>)
    ensures SysRun(setup, y, schedule).s.nextOrdinal == y.s.nextOrdinal + InferencesRead(setup, y, schedule)
    decreases |schedule|
  {
    if schedule != [] {
      StepNumbers(setup, y, schedule[0]);
      NumbersFrom(setup, SysNext(setup, y, schedule[0]), schedule[1..]);
    }
  }

  /** Inference requests are numbered from 1 in the order they are read, whichever
      connection they arrive on. */
  lemma RequestsAreNumbered(setup: Setup, schedule: seq<SysStep>, k: nat)
    requires ReadsInference(SysRun(setup, NEW_SYSTEM, schedule), ReadFrame(k))
    ensures var y := SysRun(setup, NEW_SYSTEM, schedule);
            ProcOf(SysNext(setup, y, ReadFrame(k)).s, k) == Deciding(InferencesRead(setup, NEW_SYSTEM, schedule) + 1)
  {
    NumbersFrom(setup, NEW_SYSTEM, schedule);
    StepNumbers(setup, SysRun(setup, NEW_SYSTEM, schedule), ReadFrame(k));
  }

  // ---------------------------------------------------------------- what a fault does

  /** The client of a job has gone: its process gave up, it closed the connection, or it
      sent more without waiting for the reply. */
  predicate Gone(y: System, job: Job, arrived: bool) {
    || job.obsolete
    || (job.sock in y.w.net
        && (y.w.net[job.sock].visible || (arrived && y.w.net[job.sock].taken < |y.w.net[job.sock].sent|)))
  }

  /** A request is cut off, refused or queued, by its number; nothing is computed yet. */
  lemma FaultsStrikeByNumber(setup: Setup, y: System, k: nat)
    requires ProcOf(y.s, k).Deciding? && HasTaken(y.w.net, k)
    ensures var n := ProcOf(y.s, k).ordinal;
            var z := SysNext(setup, y, DoDecide(k));
            && z.w == y.w && z.s.x.log == y.s.x.log
            && (if Periodic(n, setup.faults.disconnectEvery) then ProcOf(z.s, k) == Closed && z.s.x == y.s.x
                else if Periodic(n, setup.faults.errorEvery) then ProcOf(z.s, k) == Answering(Refused) && z.s.x == y.s.x
                else
                  && ProcOf(z.s, k) == Waiting(|y.s.x.jobs|)
                  && z.s.x.jobs == y.s.x.jobs
                       + [Job(k, y.w.net[k].taken - 1, TakenFrame(y.w.net, k), n, false, false, None)])
  {
    MatchesPeriodically(ProcOf(y.s, k).ordinal, setup.faults.disconnectEvery);
    MatchesPeriodically(ProcOf(y.s, k).ordinal, setup.faults.errorEvery);
  }

  /** A reply is held back by its request's number, and only that of an inference that
      succeeded; any other is sent as it is. */
  lemma RepliesDropByNumber(setup: Setup, y: System, k: nat, arrived: bool)
    requires ProcOf(y.s, k).Waiting? && ProcOf(y.s, k).job < |y.s.x.jobs|
    requires var job := y.s.x.jobs[ProcOf(y.s, k).job];
             job.done && job.response.Some? && !Gone(y, job, arrived)
    ensures var job := y.s.x.jobs[ProcOf(y.s, k).job];
            var z := SysNext(setup, y, DoPoll(k, arrived));
            ProcOf(z.s, k) ==
              if job.frame.kind.InferKind? && job.response.value.Ok? && Periodic(job.ordinal, setup.faults.dropEvery)
              then Closed
              else Answering(job.response.value)
  {
    MatchesPeriodically(y.s.x.jobs[ProcOf(y.s, k).job].ordinal, setup.faults.dropEvery);
  }

  /** A job that has no response, or whose client has gone, gets no reply: its connection is
      closed, and its job given up. */
  lemma LostJobsAreNotAnswered(setup: Setup, y: System, k: nat, arrived: bool)
    requires ProcOf(y.s, k).Waiting? && ProcOf(y.s, k).job < |y.s.x.jobs|
    requires var job := y.s.x.jobs[ProcOf(y.s, k).job];
             Gone(y, job, arrived) || (job.done && job.response.None?)
    ensures var z := SysNext(setup, y, DoPoll(k, arrived));
            ProcOf(z.s, k) == Closed && z.s.x.jobs[ProcOf(y.s, k).job].obsolete
  {
  }
}
