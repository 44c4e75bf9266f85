/** A run that leaves pending two stale chunks of one length whose order of delivery
    matters, because fallback is on. */
module FallbackRun {
  import opened Common
  import opened EngineState
  import opened EngineHistory
  import opened EnginePlay
  import opened EngineTheorems
  import opened DeliveryOrder

  // ---------------------------------------------------------------- one request

  /** One observation reaches the policy. */
  function Asking(): seq<Step> {
    [Control(DoNotify), Ask(DoTake), Ask(DoProviderReset(Returned)), Ask(DoClearFlag), Ask(DoEnterInference)]
  }

  /** The policy returns one action, to be delivered 5 later. */
  function Answering(action: Action): seq<Step> {
    [Ask(DoLeaveInference(Returned, [action])), Answer(DoCommitCompletion), Answer(DoChooseDelay(Some(5))),
     Answer(DoSchedule), Answer(DoWorkerInform(false))]
  }

  /** The engine is running and has nothing to hand out. */
  predicate Hungry(s: State) {
    s.flags.started && Open(s.flags) && s.flags.active && s.out == NO_OUTPUT && s.ep.mailbox.None?
  }

  lemma AskingReachesPolicy(c: Config, s: State)
    requires c.interval == 1 && Hungry(s) && s.worker.WorkerIdle? && s.ep.lastSubmitted <= s.ep.step
    ensures var t := Play(c, s, Asking());
            && Hungry(t) && t.worker.Inferring? && t.worker.job.envelope == Envelope(s.ep.epoch, s.ep.step + 1)
            && t.ep.step == t.ep.lastSubmitted == s.ep.step + 1
            && t.ep.epoch == s.ep.epoch && t.ep.pending == s.ep.pending && t.ep.latestDelivered == s.ep.latestDelivered
  {
    var a := Asking();
    PlayFive(c, s, a[0], a[1], a[2], a[3], a[4]);
  }

  /** `t` has one more pending chunk than `s`, of one action. */
  predicate OneMore(s: State, t: State, source: int) {
    && |t.ep.pending| == |s.ep.pending| + 1 && t.ep.pending[..|s.ep.pending|] == s.ep.pending
    && t.ep.pending[|s.ep.pending|].source == source && |t.ep.pending[|s.ep.pending|].actions| == 1
  }

  lemma AnsweringSchedules(c: Config, s: State, action: Action)
    requires c.scheduler && Hungry(s) && s.worker.Inferring? && s.worker.job.Epoch() == s.ep.epoch
    ensures var t := Play(c, s, Answering(action));
            && Hungry(t) && t.worker.WorkerIdle? && OneMore(s, t, s.worker.job.envelope.step)
            && t.ep.step == s.ep.step && t.ep.lastSubmitted == s.ep.lastSubmitted
            && t.ep.latestDelivered == s.ep.latestDelivered
  {
    var a := Answering(action);
    PlayFive(c, s, a[0], a[1], a[2], a[3], a[4]);
  }

  lemma RequestIsScheduled(c: Config, s: State, action: Action)
    requires c.scheduler && c.interval == 1 && Hungry(s) && s.worker.WorkerIdle? && s.ep.lastSubmitted <= s.ep.step
    ensures var t := Play(c, s, Asking() + Answering(action));
            && Hungry(t) && t.worker.WorkerIdle? && OneMore(s, t, s.ep.step + 1)
            && t.ep.step == t.ep.lastSubmitted == s.ep.step + 1 && t.ep.latestDelivered == s.ep.latestDelivered
  {
    PlaySplits(c, s, Asking(), Answering(action));
    AskingReachesPolicy(c, s);
    AnsweringSchedules(c, Play(c, s, Asking()), action);
  }

  // ---------------------------------------------------------------- the run

  /** Start and resume, with three moments in which nothing happens. */
  function Starting(): seq<Step> {
    [Lifecycle(DoStart), Control(DoSetActive(true)), Control(DoTick(0)), Control(DoTick(0)), Control(DoTick(0))]
  }

  /** One pull finds the queue empty, and time passes by two observations. */
  function Starving(): seq<Step> {
    [Control(DoPull), Control(DoNotify), Control(DoNotify), Control(DoTick(0)), Control(DoTick(0))]
  }

  function TwoStaleChunks(): seq<Step> {
    Starting() + ((Asking() + Answering(1)) + ((Asking() + Answering(2)) + Starving()))
  }

  lemma StartingIsHungry(c: Config, task: Task)
    ensures var s := Play(c, Initial(task), Starting());
            && Hungry(s) && s.worker.WorkerIdle?
            && s.ep == FreshEpisode(0)
  {
    var a := Starting();
    PlayFive(c, Initial(task), a[0], a[1], a[2], a[3], a[4]);
  }

  lemma StarvingKeepsPending(c: Config, s: State)
    requires c.holdBound == 0 && Hungry(s)
    ensures var t := Play(c, s, Starving());
            && Open(t.flags) && t.out.queue == [] && t.out.starvedPulls > 0
            && t.ep.pending == s.ep.pending && t.ep.step == s.ep.step + 2 && t.ep.latestDelivered == s.ep.latestDelivered
  {
    var a := Starving();
    PlayFive(c, s, a[0], a[1], a[2], a[3], a[4]);
  }

  predicate TwoWait(s: State) {
    && |s.ep.pending| == 2
    && forall i | 0 <= i < 2 :: s.ep.pending[i].source == i && |s.ep.pending[i].actions| == 1
  }

  lemma TwoRequestsAreScheduled(c: Config, s: State)
    requires c.scheduler && c.interval == 1 && Hungry(s) && s.worker.WorkerIdle? && s.ep == FreshEpisode(0)
    ensures var t := Play(c, Play(c, s, Asking() + Answering(1)), Asking() + Answering(2));
            Hungry(t) && TwoWait(t) && t.ep.step == 1 && t.ep.latestDelivered == -1
  {
    RequestIsScheduled(c, s, 1);
    var t := Play(c, s, Asking() + Answering(1));
    RequestIsScheduled(c, t, 2);
    var u := Play(c, t, Asking() + Answering(2));
    assert u.ep.pending[..1][0] == u.ep.pending[0];
  }

  lemma TwoChunksWait(c: Config, task: Task)
    requires c.scheduler && c.interval == 1 && c.holdBound == 0
    ensures var s := Play(c, Initial(task), TwoStaleChunks());
            && Open(s.flags) && s.out.queue == [] && s.out.starvedPulls > 0
            && s.ep.step == 3 && s.ep.latestDelivered == -1 && TwoWait(s)
  {
    var first, second := Asking() + Answering(1), Asking() + Answering(2);
    StartingIsHungry(c, task);
    var s := Play(c, Initial(task), Starting());
    TwoRequestsAreScheduled(c, s);
    PlaySplits(c, Initial(task), Starting(), first + (second + Starving()));
    PlaySplits(c, s, first, second + Starving());
    PlaySplits(c, Play(c, s, first), second, Starving());
    StarvingKeepsPending(c, Play(c, Play(c, s, first), second));
  }

  /** Both chunks would be taken by fallback, so whichever comes first stays. */
  lemma StaleChunksCompete(c: Config, s: State)
    requires c.fallback && Batch(s, s.ep.pending) && s.out.queue == [] && s.out.starvedPulls > 0
    requires |s.ep.pending| == 2 && s.ep.latestDelivered < s.ep.pending[0].source < s.ep.pending[1].source
    requires forall r | r in s.ep.pending :: FullyStale(s.ep.step, r)
    ensures !OrderFree(c, s, s.ep.pending)
    ensures MergeAll(c, s, s.ep.pending).out.queue
         != MergeAll(c, s, [s.ep.pending[1], s.ep.pending[0]]).out.queue
  {
    var a, b := s.ep.pending[0], s.ep.pending[1];
    assert NewestOf(s, s.ep.pending, b) && !Settles(c, s, s.ep.pending, b);
    assert s.ep.pending == [a] + ([b] + []) && [b, a] == [b] + [a];
    OlderFirst(c, s, a, b, []);
    NewestFirst(c, s, b, [a]);
    assert Suffix(a, 0)[0].source != Suffix(b, 0)[0].source;
  }

  lemma PendingOfRunIsBatch(c: Config, task: Task, schedule: seq<Step>)
    requires c.Valid() && c.scheduler && Open(Run(c, Begin(task), schedule).s.flags)
    ensures var s := Run(c, Begin(task), schedule).s; Batch(s, s.ep.pending)
  {
    ReachableInv(c, task, schedule);
    PendingIsBatch(c, Run(c, Begin(task), schedule));
  }

  /** With fallback on, chunks of one length are not enough: this run reaches a state in
      which two orders of delivery end in different queues. */
  lemma FallbackDependsOnOrder(task: Task)
    ensures var c := Config(0, true, 0, true, 1, 3);
            var s := Run(c, Begin(task), TwoStaleChunks()).s;
            && c.Valid() && Open(s.flags) && |s.ep.pending| == 2
            && |s.ep.pending[0].actions| == |s.ep.pending[1].actions|
            && MergeAll(c, s, s.ep.pending).out.queue
               != MergeAll(c, s, [s.ep.pending[1], s.ep.pending[0]]).out.queue
            && !OrdersAgree(c, s)
  {
    var c := Config(0, true, 0, true, 1, 3);
    var s := Play(c, Initial(task), TwoStaleChunks());
    RunPlays(c, Begin(task), TwoStaleChunks());
    TwoChunksWait(c, task);
    PendingOfRunIsBatch(c, task, TwoStaleChunks());
    StaleChunksCompete(c, s);
    DeliveryOrderIndependence(c, task, TwoStaleChunks());
  }
}
