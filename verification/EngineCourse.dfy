/** What the lifecycle of an engine depends on, kept beside every run: when it is started,
    open and fatal, when the provider is owed a reset, which task is in force, and what is
    reported of each response. */
module EngineCourse {
  import opened Common
  import opened EngineState
  import opened EngineHistory
  import opened EnginePlay

  /** `running` since a start until a stop that joined; `stopped` since a stop until a
      start; `held` while a teardown is in progress; `tripped` since a fatal event until a
      start; `cleaned` once the provider was reset in this epoch. */
  datatype Course = Course(running: bool, stopped: bool, held: bool, tripped: bool, active: bool, cleaned: bool)

  const NEW_COURSE: Course := Course(false, false, false, false, false, false)

  // ---------------------------------------------------------------- fatal events

  /** The epoch may be failed by its owner: it goes on and no teardown has begun. */
  predicate Mine(k: Course, s: State, epoch: nat) {
    epoch == s.ep.epoch && !k.stopped && !k.held
  }

  /** A reset whose transport raised, a stop that did not join, a worker that crashed or
      gave up on the current epoch, an observer that raised on a response of it. */
  predicate FatalEvent(k: Course, s: State, step: Step) {
    match step
    case Lifecycle(DoResetFinish(ok)) => s.lifecycle.Resetting? && !ok && !k.stopped
    case Lifecycle(DoStopFinish(outcome)) => s.lifecycle.Stopping? && !outcome.Joined?
    case Lifecycle(DoAnnounce(i, raises)) => raises && i < |s.notices.owed| && Mine(k, s, s.notices.owed[i].id.epoch)
    case Ask(DoWorkerCrash) => s.worker.Taken?
    case Answer(DoCommitFatal) => s.worker.Fatal? && Mine(k, s, s.worker.job.Epoch())
    case Answer(DoWorkerInform(raises)) => raises && s.worker.Informing? && Mine(k, s, s.worker.response.epoch)
    case Deliver(DoDeliveryReport(raises)) => raises && s.delivery.Reporting? && Mine(k, s, s.delivery.response.epoch)
    case _ => false
  }

  // ---------------------------------------------------------------- the course of a run

  function AfterLifecycle(k: Course, s: State, step: LifecycleStep): Course {
    match step
    case DoStart =>
      if s.lifecycle.LifecycleIdle? && !k.running then
        k.(running := true, stopped := false, tripped := false, cleaned := false)
      else k
    case DoResetBegin => if s.lifecycle.LifecycleIdle? then k.(held := true, cleaned := false) else k
    case DoStopBegin =>
      if s.lifecycle.LifecycleIdle? then k.(held := true, stopped := true, active := false, cleaned := false) else k
    case DoStopFinish(outcome) =>
      if s.lifecycle.Stopping? && outcome.Joined? && s.worker.WorkerDead? && s.delivery.DeliveryDead? then
        k.(running := false)
      else k
    case DoTeardownEnd => if s.lifecycle.Finishing? then k.(held := false) else k
    case _ => k
  }

  function AfterOwn(k: Course, s: State, step: Step): Course {
    match step
    case Control(DoSetActive(active)) => k.(active := active)
    case Lifecycle(a) => AfterLifecycle(k, s, a)
    case Ask(DoClearFlag) =>
      if s.worker.ProviderClean? && Mine(k, s, s.worker.job.Epoch()) && !k.tripped then k.(cleaned := true) else k
    case _ => k
  }

  function CourseAfter(k: Course, s: State, step: Step): Course {
    var own := AfterOwn(k, s, step);
    own.(tripped := own.tripped || FatalEvent(k, s, step))
  }

  function CourseOf(c: Config, k: Course, s: State, schedule: seq<Step>): Course
    decreases |schedule|
  {
    if schedule == [] then k else CourseOf(c, CourseAfter(k, s, schedule[0]), Next(c, s, schedule[0]), schedule[1..])
  }

  // ---------------------------------------------------------------- the engine follows it

  predicate OnCourse(s: State, k: Course) {
    && s.flags == Flags(k.running, k.active, k.stopped, k.held, k.tripped)
    && s.ep.providerResetPending == !k.cleaned
  }

  lemma ControlOnCourse(c: Config, s: State, k: Course, a: ControlStep)
    requires OnCourse(s, k)
    ensures OnCourse(ControlNext(c, s, a), CourseAfter(k, s, Control(a)))
  {
  }

  lemma StartOnCourse(c: Config, s: State, k: Course, a: LifecycleStep)
    requires OnCourse(s, k) && a.DoStart?
    ensures OnCourse(LifecycleNext(c, s, a), CourseAfter(k, s, Lifecycle(a)))
  {
  }

  lemma BeginningOnCourse(c: Config, s: State, k: Course, a: LifecycleStep)
    requires OnCourse(s, k) && (a.DoResetBegin? || a.DoStopBegin?)
    ensures OnCourse(LifecycleNext(c, s, a), CourseAfter(k, s, Lifecycle(a)))
  {
  }

  lemma StoppedOnCourse(c: Config, s: State, k: Course, a: LifecycleStep)
    requires OnCourse(s, k) && a.DoStopFinish?
    ensures OnCourse(LifecycleNext(c, s, a), CourseAfter(k, s, Lifecycle(a)))
  {
  }

  lemma FailingOnCourse(c: Config, s: State, k: Course, a: LifecycleStep)
    requires OnCourse(s, k) && (a.DoResetFinish? || a.DoTeardownEnd? || a.DoAnnounce?)
    ensures OnCourse(LifecycleNext(c, s, a), CourseAfter(k, s, Lifecycle(a)))
  {
  }

  lemma LifecycleOnCourse(c: Config, s: State, k: Course, a: LifecycleStep)
    requires OnCourse(s, k)
    ensures OnCourse(LifecycleNext(c, s, a), CourseAfter(k, s, Lifecycle(a)))
  {
    if a.DoStart? {
      StartOnCourse(c, s, k, a);
    } else if a.DoResetBegin? || a.DoStopBegin? {
      BeginningOnCourse(c, s, k, a);
    } else if a.DoStopFinish? {
      StoppedOnCourse(c, s, k, a);
    } else {
      FailingOnCourse(c, s, k, a);
    }
  }

  lemma AskOnCourse(s: State, k: Course, a: AskStep)
    requires OnCourse(s, k)
    ensures OnCourse(AskNext(s, a), CourseAfter(k, s, Ask(a)))
  {
  }

  lemma AnswerOnCourse(c: Config, s: State, k: Course, a: AnswerStep)
    requires OnCourse(s, k)
    ensures OnCourse(AnswerNext(c, s, a), CourseAfter(k, s, Answer(a)))
  {
  }

  lemma DeliverOnCourse(c: Config, s: State, k: Course, a: DeliveryStep)
    requires OnCourse(s, k)
    ensures OnCourse(DeliverNext(c, s, a), CourseAfter(k, s, Deliver(a)))
  {
  }

  lemma StepOnCourse(c: Config, s: State, k: Course, step: Step)
    requires OnCourse(s, k)
    ensures OnCourse(Next(c, s, step), CourseAfter(k, s, step))
  {
    match step
    case Control(a) => ControlOnCourse(c, s, k, a);
    case Lifecycle(a) => LifecycleOnCourse(c, s, k, a);
    case Ask(a) => AskOnCourse(s, k, a);
    case Answer(a) => AnswerOnCourse(c, s, k, a);
    case Deliver(a) => DeliverOnCourse(c, s, k, a);
  }

  lemma {:induction false} RunOnCourse(c: Config, s: State, k: Course, schedule: seq<Step>)
    requires OnCourse(s, k)
    ensures OnCourse(Play(c, s, schedule), CourseOf(c, k, s, schedule))
    decreases |schedule|
  {
    if schedule != [] {
      StepOnCourse(c, s, k, schedule[0]);
      RunOnCourse(c, Next(c, s, schedule[0]), CourseAfter(k, s, schedule[0]), schedule[1..]);
    }
  }

  /** In every run the engine is started, stopping, held by a teardown, active and fatal
      exactly as its course says, and owes the provider a reset exactly until one has gone
      through in this epoch. */
  lemma EnginesFollowTheirCourse(c: Config, task: Task, schedule: seq<Step>)
    ensures OnCourse(Run(c, Begin(task), schedule).s, CourseOf(c, NEW_COURSE, Initial(task), schedule))
  {
    RunPlays(c, Begin(task), schedule);
    RunOnCourse(c, Initial(task), NEW_COURSE, schedule);
  }

  // ---------------------------------------------------------------- the two threads

  /** Which threads are alive. */
  datatype Threads = Threads(working: bool, delivering: bool)

  /** A start brings them up. Each ends between two iterations once the engine is stopped or
      fatal; the worker also when it crashes. */
  function ThreadsAfter(c: Config, u: Threads, s: State, step: Step): Threads {
    var leaving := s.flags.shutdown || s.flags.fatal;
    match step
    case Lifecycle(DoStart) =>
      if s.lifecycle.LifecycleIdle? && !s.flags.started then Threads(true, u.delivering || c.scheduler) else u
    case Ask(DoWorkerExit) => if s.worker.WorkerIdle? && leaving then u.(working := false) else u
    case Ask(DoWorkerCrash) => if s.worker.Taken? then u.(working := false) else u
    case Deliver(DoDeliveryExit) => if s.delivery.DeliveryIdle? && leaving then u.(delivering := false) else u
    case _ => u
  }

  predicate Alive(s: State, u: Threads) {
    u == Threads(!s.worker.WorkerDead?, !s.delivery.DeliveryDead?)
  }

  function ThreadsOf(c: Config, u: Threads, s: State, schedule: seq<Step>): Threads
    decreases |schedule|
  {
    if schedule == [] then u else ThreadsOf(c, ThreadsAfter(c, u, s, schedule[0]), Next(c, s, schedule[0]), schedule[1..])
  }

  lemma StepKeepsAlive(c: Config, s: State, u: Threads, step: Step)
    requires Alive(s, u)
    ensures Alive(Next(c, s, step), ThreadsAfter(c, u, s, step))
  {
  }

  lemma {:induction false} RunKeepsAlive(c: Config, s: State, u: Threads, schedule: seq<Step>)
    requires Alive(s, u)
    ensures Alive(Play(c, s, schedule), ThreadsOf(c, u, s, schedule))
    decreases |schedule|
  {
    if schedule != [] {
      StepKeepsAlive(c, s, u, schedule[0]);
      RunKeepsAlive(c, Next(c, s, schedule[0]), ThreadsAfter(c, u, s, schedule[0]), schedule[1..]);
    }
  }

  /** A thread ends for no other reason: whatever fails in an iteration, it goes on. */
  lemma ThreadsLive(c: Config, task: Task, schedule: seq<Step>)
    ensures Alive(Run(c, Begin(task), schedule).s, ThreadsOf(c, Threads(false, false), Initial(task), schedule))
  {
    RunPlays(c, Begin(task), schedule);
    RunKeepsAlive(c, Initial(task), Threads(false, false), schedule);
  }

  // ---------------------------------------------------------------- decisions on responses

  function OfAll(rs: seq<Response>, status: Status): set<Notice> {
    set i | 0 <= i < |rs| :: Notice(rs[i].Id(), status)
  }

  /** A response is scheduled or rejected as its delay is chosen, delivered or rejected as
      it is merged, and rejected or cancelled as its episode ends. */
  function Decided(s: State, step: Step): set<Notice> {
    var open := !s.flags.shutdown && !s.flags.resetting && !s.flags.fatal;
    match step
    case Lifecycle(DoResetBegin) => if s.lifecycle.LifecycleIdle? then OfAll(s.ep.pending, RejectedReset) else {}
    case Lifecycle(DoStopBegin) => if s.lifecycle.LifecycleIdle? then OfAll(s.ep.pending, CancelledStop) else {}
    case Answer(DoSchedule) =>
      if s.worker.Scheduling? then
        {Notice(s.worker.response.Id(), if open && s.worker.response.epoch == s.ep.epoch then Scheduled else RejectedReset)}
      else {}
    case Deliver(DoDeliveryMerge) =>
      if s.delivery.Merging? then
        var r := s.delivery.response;
        {Notice(r.Id(), if !open || r.epoch != s.ep.epoch then RejectedReset
                        else if s.ep.latestDelivered < r.source then Delivered
                        else RejectedOutOfOrder)}
      else {}
    case _ => {}
  }

  // ---------------------------------------------------------------- only what was decided is told

  predicate AllDecided(ns: seq<Notice>, decided: set<Notice>) {
    forall i | 0 <= i < |ns| :: ns[i] in decided
  }

  predicate EachDecided(rs: seq<Response>, status: Status, decided: set<Notice>) {
    forall i | 0 <= i < |rs| :: Notice(rs[i].Id(), status) in decided
  }

  predicate TeardownDecided(l: Lifecycle, decided: set<Notice>) {
    match l
    case LifecycleIdle => true
    case Resetting(cancelled) => EachDecided(cancelled, RejectedReset, decided)
    case Stopping(cancelled) => EachDecided(cancelled, CancelledStop, decided)
    case Finishing(cancelled, status, _) => EachDecided(cancelled, status, decided)
  }

  predicate TellsDecided(s: State, decided: set<Notice>) {
    && AllDecided(s.notices.told, decided) && AllDecided(s.notices.owed, decided)
    && TeardownDecided(s.lifecycle, decided)
    && (s.worker.Informing? ==> Notice(s.worker.response.Id(), s.worker.status) in decided)
    && (s.delivery.Reporting? ==> Notice(s.delivery.response.Id(), s.delivery.status) in decided)
  }

  lemma {:induction false} NoticesAreDecided(rs: seq<Response>, status: Status, decided: set<Notice>)
    requires EachDecided(rs, status, decided)
    ensures AllDecided(NoticesFor(rs, status), decided)
  {
    if rs != [] {
      assert forall i | 0 <= i < |rs[1..]| :: rs[1..][i] == rs[i + 1];
      NoticesAreDecided(rs[1..], status, decided);
    }
  }

  lemma DecidedStays(s: State, decided: set<Notice>, more: set<Notice>)
    requires TellsDecided(s, decided)
    ensures TellsDecided(s, decided + more)
  {
  }

  lemma LifecycleTellsDecided(c: Config, s: State, decided: set<Notice>, a: LifecycleStep)
    requires TellsDecided(s, decided)
    ensures TellsDecided(LifecycleNext(c, s, a), decided + Decided(s, Lifecycle(a)))
  {
    DecidedStays(s, decided, Decided(s, Lifecycle(a)));
    if a.DoTeardownEnd? && s.lifecycle.Finishing? {
      NoticesAreDecided(s.lifecycle.cancelled, s.lifecycle.status, decided + Decided(s, Lifecycle(a)));
    }
  }

  lemma WorkTellsDecided(c: Config, s: State, decided: set<Notice>, step: Step)
    requires TellsDecided(s, decided) && (step.Ask? || step.Answer?)
    ensures TellsDecided(Next(c, s, step), decided + Decided(s, step))
  {
    DecidedStays(s, decided, Decided(s, step));
  }

  lemma OthersTellDecided(c: Config, s: State, decided: set<Notice>, step: Step)
    requires TellsDecided(s, decided) && (step.Control? || step.Deliver?)
    ensures TellsDecided(Next(c, s, step), decided + Decided(s, step))
  {
    DecidedStays(s, decided, Decided(s, step));
  }

  lemma StepTellsDecided(c: Config, s: State, decided: set<Notice>, step: Step)
    requires TellsDecided(s, decided)
    ensures TellsDecided(Next(c, s, step), decided + Decided(s, step))
  {
    if step.Lifecycle? {
      LifecycleTellsDecided(c, s, decided, step.life);
    } else if step.Ask? || step.Answer? {
      WorkTellsDecided(c, s, decided, step);
    } else {
      OthersTellDecided(c, s, decided, step);
    }
  }

  function DecidedOf(c: Config, decided: set<Notice>, s: State, schedule: seq<Step>): set<Notice>
    decreases |schedule|
  {
    if schedule == [] then decided
    else DecidedOf(c, decided + Decided(s, schedule[0]), Next(c, s, schedule[0]), schedule[1..])
  }

  lemma {:induction false} RunTellsDecided(c: Config, s: State, decided: set<Notice>, schedule: seq<Step>)
    requires TellsDecided(s, decided)
    ensures TellsDecided(Play(c, s, schedule), DecidedOf(c, decided, s, schedule))
    decreases |schedule|
  {
    if schedule != [] {
      StepTellsDecided(c, s, decided, schedule[0]);
      RunTellsDecided(c, Next(c, s, schedule[0]), decided + Decided(s, schedule[0]), schedule[1..]);
    }
  }

  /** Observers are told of a response only what was decided on it: delivered if it was
      merged in order, rejected or cancelled for the reason it was. */
  lemma OnlyDecisionsAreTold(c: Config, task: Task, schedule: seq<Step>)
    ensures var s := Run(c, Begin(task), schedule).s;
            TellsDecided(s, DecidedOf(c, {}, Initial(task), schedule))
  {
    RunPlays(c, Begin(task), schedule);
    RunTellsDecided(c, Initial(task), {}, schedule);
  }

  // ---------------------------------------------------------------- tasks

  /** The tasks that were in force, each different from the one before. */
  function TasksOf(c: Config, tasks: seq<Task>, schedule: seq<Step>): seq<Task>
    decreases |schedule|
  {
    if schedule == [] then tasks
    else
      var changes := schedule[0].Control? && schedule[0].control.DoSetTask?;
      TasksOf(c,
              if changes && tasks != [] && tasks[|tasks| - 1] != schedule[0].control.task
              then tasks + [schedule[0].control.task] else tasks,
              schedule[1..])
  }

  predicate GoalKept(g: Goal, tasks: seq<Task>) {
    |tasks| > 0 && g == Goal(tasks[|tasks| - 1], |tasks| - 1)
  }

  lemma OthersKeepGoal(c: Config, s: State, step: Step)
    requires !(step.Control? && step.control.DoSetTask?)
    ensures Next(c, s, step).goal == s.goal
  {
  }

  lemma {:induction false} RunKeepsGoal(c: Config, s: State, tasks: seq<Task>, schedule: seq<Step>)
    requires GoalKept(s.goal, tasks)
    ensures GoalKept(Play(c, s, schedule).goal, TasksOf(c, tasks, schedule))
    decreases |schedule|
  {
    if schedule != [] {
      if !(schedule[0].Control? && schedule[0].control.DoSetTask?) {
        OthersKeepGoal(c, s, schedule[0]);
        RunKeepsGoal(c, Next(c, s, schedule[0]), tasks, schedule[1..]);
      } else {
        var task := schedule[0].control.task;
        RunKeepsGoal(c, Next(c, s, schedule[0]), if tasks[|tasks| - 1] != task then tasks + [task] else tasks,
                     schedule[1..]);
      }
    }
  }

  /** The engine works on the task set last, and its revision counts the changes. */
  lemma RevisionCountsChanges(c: Config, task: Task, schedule: seq<Step>)
    ensures GoalKept(Run(c, Begin(task), schedule).s.goal, TasksOf(c, [task], schedule))
  {
    RunPlays(c, Begin(task), schedule);
    RunKeepsGoal(c, Initial(task), [task], schedule);
  }

  // ---------------------------------------------------------------- stop, start and reset go through

  function Stopping(): seq<Step> {
    [Lifecycle(DoStopBegin), Ask(DoWorkerExit), Deliver(DoDeliveryExit), Lifecycle(DoStopFinish(Joined)),
     Lifecycle(DoTeardownEnd)]
  }

  /** Both threads are between two iterations, or not there. */
  predicate AtRest(s: State) {
    s.lifecycle.LifecycleIdle? && (s.worker.WorkerIdle? || s.worker.WorkerDead?)
    && (s.delivery.DeliveryIdle? || s.delivery.DeliveryDead?)
  }

  /** A stop that finds the threads at rest joins them and leaves nothing of the episode. */
  lemma StopJoins(c: Config, s: State)
    requires AtRest(s)
    ensures var t := Play(c, s, Stopping());
            && !t.flags.started && !t.flags.resetting && t.flags.shutdown && !t.flags.active
            && t.worker.WorkerDead? && t.delivery.DeliveryDead? && t.lifecycle.LifecycleIdle?
            && t.ep == FreshEpisode(s.ep.epoch + 1) && t.out == NO_OUTPUT && t.metrics == s.metrics
  {
    var a := Stopping();
    PlayFive(c, s, a[0], a[1], a[2], a[3], a[4]);
  }

  /** A start after it opens the engine whatever had gone wrong, with its threads waiting
      and a provider reset owed. */
  lemma StartReopens(c: Config, s: State)
    requires s.lifecycle.LifecycleIdle? && !s.flags.started && !s.flags.resetting
    ensures var t := Next(c, s, Lifecycle(DoStart));
            && t.flags.started && Open(t.flags) && t.worker.WorkerIdle? && t.ep.providerResetPending
            && (c.scheduler ==> t.delivery.DeliveryIdle?)
            && (s.flags.shutdown ==> t.metrics == ZERO_METRICS) && (!s.flags.shutdown ==> t.metrics == s.metrics)
            && t.ep.epoch == s.ep.epoch && t.ep.step == s.ep.step && t.ep.mailbox == s.ep.mailbox && t.out == s.out
  {
  }

  /** A reset whose transport returns opens the next epoch, unless the engine was stopped or
      fatal before. */
  lemma ResetReopens(c: Config, s: State)
    requires s.lifecycle.LifecycleIdle? && !s.flags.resetting
    ensures var t := Next(c, Next(c, Next(c, s, Lifecycle(DoResetBegin)), Lifecycle(DoResetFinish(true))),
                          Lifecycle(DoTeardownEnd));
            && t.ep == FreshEpisode(s.ep.epoch + 1) && t.out == NO_OUTPUT && t.metrics == ZERO_METRICS
            && t.flags == s.flags && t.lifecycle.LifecycleIdle? && t.worker == s.worker && t.delivery == s.delivery
            && t.notices.owed == s.notices.owed + NoticesFor(s.ep.pending, RejectedReset)
  {
  }

  /** A teardown whose transport raised reopens admission but tells observers nothing; one
      that went through, or whose threads did not join in time, owes them a notice each. */
  lemma RaisedTeardownsTellNothing(c: Config, s: State, finish: LifecycleStep)
    requires if s.lifecycle.Resetting? then finish.DoResetFinish? else s.lifecycle.Stopping? && finish.DoStopFinish?
    requires finish == DoStopFinish(Joined) ==> s.worker.WorkerDead? && s.delivery.DeliveryDead?
    ensures var t := Next(c, Next(c, s, Lifecycle(finish)), Lifecycle(DoTeardownEnd));
            var raised := finish == DoResetFinish(false) || finish == DoStopFinish(StopOutcome.Raised);
            && t.lifecycle.LifecycleIdle? && !t.flags.resetting && t.notices.told == s.notices.told
            && t.notices.owed == (if raised then s.notices.owed
                                  else s.notices.owed
                                       + NoticesFor(s.lifecycle.cancelled,
                                                    if s.lifecycle.Resetting? then RejectedReset else CancelledStop))
  {
  }
}
