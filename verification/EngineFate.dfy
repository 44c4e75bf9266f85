/** No response is lost or reported twice: the tally of places a response can be
    is kept by every step of every thread. */
module EngineFate {
  import opened EngineState
  import opened EngineHistory
  import opened EngineInvariant

  lemma {:induction false} CopiesOfConcat(a: seq<Response>, b: seq<Response>, id: RequestId)
    ensures Copies(a + b, id) == Copies(a, id) + Copies(b, id)
  {
    if a == [] {
      assert a + b == b;
    } else {
      assert (a + b)[1..] == a[1..] + b;
      CopiesOfConcat(a[1..], b, id);
    }
  }

  lemma CopiesOfRemoval(rs: seq<Response>, k: nat, id: RequestId)
    requires k < |rs|
    ensures Copies(rs, id) == Copies(rs[..k] + rs[k + 1..], id) + (if rs[k].Id() == id then 1 else 0)
  {
    assert rs == rs[..k] + ([rs[k]] + rs[k + 1..]);
    CopiesOfConcat(rs[..k], [rs[k]] + rs[k + 1..], id);
    CopiesOfConcat([rs[k]], rs[k + 1..], id);
    CopiesOfConcat(rs[..k], rs[k + 1..], id);
  }

  lemma {:induction false} VerdictsOfConcat(a: seq<Notice>, b: seq<Notice>, id: RequestId)
    ensures Verdicts(a + b, id) == Verdicts(a, id) + Verdicts(b, id)
  {
    if a == [] {
      assert a + b == b;
    } else {
      assert (a + b)[1..] == a[1..] + b;
      VerdictsOfConcat(a[1..], b, id);
    }
  }

  lemma VerdictsOfMove(n: Notices, i: nat, id: RequestId)
    requires i < |n.owed|
    ensures Verdicts(n.told, id) + Verdicts(n.owed, id) ==
              Verdicts(n.told + [n.owed[i]], id) + Verdicts(n.owed[..i] + n.owed[i + 1..], id)
  {
    assert n.owed == n.owed[..i] + ([n.owed[i]] + n.owed[i + 1..]);
    VerdictsOfConcat(n.owed[..i], [n.owed[i]] + n.owed[i + 1..], id);
    VerdictsOfConcat([n.owed[i]], n.owed[i + 1..], id);
    VerdictsOfConcat(n.owed[..i], n.owed[i + 1..], id);
    VerdictsOfConcat(n.told, [n.owed[i]], id);
  }

  lemma {:induction false} VerdictsOfTeardown(cancelled: seq<Response>, status: Status, id: RequestId)
    requires status.Terminal()
    ensures Verdicts(NoticesFor(cancelled, status), id) == Copies(cancelled, id)
  {
    if cancelled != [] {
      VerdictsOfTeardown(cancelled[1..], status, id);
    }
  }

  lemma ControlKeepsAccounted(c: Config, s: State, h: History, a: ControlStep, id: RequestId)
    requires AccountedFor(s, h.fate, id)
    ensures AccountedFor(ControlNext(c, s, a), RecordControl(c, h, s, a).fate, id)
  {
  }

  lemma LifecycleKeepsAccounted(c: Config, s: State, h: History, a: LifecycleStep, id: RequestId)
    requires Owned(c, s) && Numbered(s, h.fate) && AccountedFor(s, h.fate, id)
    ensures AccountedFor(LifecycleNext(c, s, a), RecordLifecycle(h, s, a).fate, id)
  {
    match a
    case DoTeardownEnd =>
      if s.lifecycle.Finishing? {
        var l := s.lifecycle;
        VerdictsOfTeardown(l.cancelled, l.status, id);
        VerdictsOfConcat(s.notices.owed, NoticesFor(l.cancelled, l.status), id);
        CopiesOfConcat(h.fate.lost, l.cancelled, id);
      }
    case DoAnnounce(i, raises) =>
      if i < |s.notices.owed| {
        VerdictsOfMove(s.notices, i, id);
      }
    case _ =>
  }

  lemma AskKeepsAccounted(s: State, h: History, a: AskStep, id: RequestId)
    requires AccountedFor(s, h.fate, id)
    ensures AccountedFor(AskNext(s, a), RecordAsk(h, s, a).fate, id)
  {
  }

  lemma SchedulingKeepsAccounted(c: Config, s: State, h: History, id: RequestId)
    requires Numbered(s, h.fate) && AccountedFor(s, h.fate, id)
    ensures AccountedFor(AnswerNext(c, s, DoSchedule), RecordAnswer(c, h, s, DoSchedule).fate, id)
  {
    if s.worker.Scheduling? {
      CopiesOfConcat(s.ep.pending, [s.worker.response], id);
    }
  }

  lemma InformingKeepsAccounted(c: Config, s: State, h: History, raises: bool, id: RequestId)
    requires AccountedFor(s, h.fate, id)
    ensures var a := DoWorkerInform(raises); AccountedFor(AnswerNext(c, s, a), RecordAnswer(c, h, s, a).fate, id)
  {
    if s.worker.Informing? {
      VerdictsOfConcat(s.notices.told, [Notice(s.worker.response.Id(), s.worker.status)], id);
    }
  }

  lemma AnswerKeepsAccounted(c: Config, s: State, h: History, a: AnswerStep, id: RequestId)
    requires Numbered(s, h.fate) && AccountedFor(s, h.fate, id)
    ensures AccountedFor(AnswerNext(c, s, a), RecordAnswer(c, h, s, a).fate, id)
  {
    match a
    case DoSchedule => SchedulingKeepsAccounted(c, s, h, id);
    case DoWorkerInform(raises) => InformingKeepsAccounted(c, s, h, raises, id);
    case _ =>
  }

  lemma PoppingKeepsAccounted(c: Config, s: State, h: History, id: RequestId)
    requires Numbered(s, h.fate) && AccountedFor(s, h.fate, id)
    ensures AccountedFor(DeliverNext(c, s, DoPop), RecordDeliver(c, h, s, DoPop).fate, id)
  {
    if PopEnabled(s) {
      CopiesOfRemoval(s.ep.pending, First(s.ep.pending), id);
    }
  }

  lemma ReportingKeepsAccounted(c: Config, s: State, h: History, raises: bool, id: RequestId)
    requires Numbered(s, h.fate) && AccountedFor(s, h.fate, id)
    ensures var a := DoDeliveryReport(raises); AccountedFor(DeliverNext(c, s, a), RecordDeliver(c, h, s, a).fate, id)
  {
    if s.delivery.Reporting? {
      VerdictsOfConcat(s.notices.told, [Notice(s.delivery.response.Id(), s.delivery.status)], id);
    }
  }

  lemma DeliverKeepsAccounted(c: Config, s: State, h: History, a: DeliveryStep, id: RequestId)
    requires Numbered(s, h.fate) && AccountedFor(s, h.fate, id)
    ensures AccountedFor(DeliverNext(c, s, a), RecordDeliver(c, h, s, a).fate, id)
  {
    match a
    case DoPop => PoppingKeepsAccounted(c, s, h, id);
    case DoDeliveryReport(raises) => ReportingKeepsAccounted(c, s, h, raises, id);
    case _ =>
  }
}
