/** Episode metrics of completion claims against truth, and the intervals during which
    completion was true. */
module EpisodeMetrics {
  import opened Common

  /** A claim made, or not, at a control. */
  datatype Verdict = Verdict(control: int, complete: bool)

  datatype Metrics = Metrics(
    firstTruth: Option<int>, firstClaim: Option<int>, firstCorrect: Option<int>,
    prematureStop: bool, missedEvent: bool, noStop: bool, delay: Option<real>
  )

  // ---------------------------------------------------------------- the live metrics

  predicate Ordered(decisions: seq<Verdict>) {
    forall i | 0 < i < |decisions| :: decisions[i - 1].control < decisions[i].control
  }

  function FirstTrue(truth: seq<bool>, from: nat): Option<int>
    decreases |truth| - from
  {
    if from >= |truth| then None else if truth[from] then Some(from) else FirstTrue(truth, from + 1)
  }

  function ClaimsOf(decisions: seq<Verdict>): seq<int> {
    if decisions == [] then []
    else if decisions[0].complete then [decisions[0].control] + ClaimsOf(decisions[1..])
    else ClaimsOf(decisions[1..])
  }

  function FirstCorrect(truth: seq<bool>, claims: seq<int>): Option<int>
    requires forall i | 0 <= i < |claims| :: 0 <= claims[i] < |truth|
  {
    if claims == [] then None
    else if truth[claims[0]] then Some(claims[0])
    else FirstCorrect(truth, claims[1..])
  }

  lemma {:induction false} ClaimsInRange(decisions: seq<Verdict>, n: nat)
    requires forall i | 0 <= i < |decisions| :: 0 <= decisions[i].control < n
    ensures forall i | 0 <= i < |ClaimsOf(decisions)| :: 0 <= ClaimsOf(decisions)[i] < n
    ensures forall c :: c in ClaimsOf(decisions) <==> Verdict(c, true) in decisions
  {
    if decisions != [] {
      ClaimsInRange(decisions[1..], n);
      assert decisions == [decisions[0]] + decisions[1..];
    }
  }

  /** None stands for the errors: no truth, no frequency, decisions out of order or out
      of range. */
  function Measure(truth: seq<bool>, decisions: seq<Verdict>, hz: int): (m: Option<Metrics>)
    ensures m.Some? <==>
              && hz > 0 && truth != [] && Ordered(decisions)
              && forall i | 0 <= i < |decisions| :: 0 <= decisions[i].control < |truth|
  {
    if hz <= 0 || truth == [] || !Ordered(decisions)
       || exists i :: 0 <= i < |decisions| && !(0 <= decisions[i].control < |truth|)
    then None
    else
      ClaimsInRange(decisions, |truth|);
      var claims := ClaimsOf(decisions);
      var firstTruth, firstCorrect := FirstTrue(truth, 0), FirstCorrect(truth, claims);
      var firstClaim := if claims == [] then None else Some(claims[0]);
      var premature := firstClaim.Some? && !truth[firstClaim.value];
      Some(Metrics(
        firstTruth, firstClaim, firstCorrect, premature,
        firstTruth.Some? && firstCorrect.None?, firstClaim.None?,
        if firstTruth.Some? && firstClaim.Some? && !premature
        then Some((firstClaim.value - firstTruth.value) as real / hz as real)
        else None))
  }

  // ---------------------------------------------------------------- what each metric means

  lemma {:induction false} FirstTrueFinds(truth: seq<bool>, from: nat)
    ensures var f := FirstTrue(truth, from);
            && (f.None? ==> forall i | from <= i < |truth| :: !truth[i])
            && (f.Some? ==> from <= f.value < |truth| && truth[f.value] && forall i | from <= i < f.value :: !truth[i])
    decreases |truth| - from
  {
    if from < |truth| {
      FirstTrueFinds(truth, from + 1);
    }
  }

  /** The first claim at a true control: every claim before it was at a false one. */
  lemma {:induction false} FirstCorrectFinds(truth: seq<bool>, claims: seq<int>)
    requires forall i | 0 <= i < |claims| :: 0 <= claims[i] < |truth|
    ensures FirstCorrect(truth, claims).None? ==> forall k | 0 <= k < |claims| :: !truth[claims[k]]
    ensures FirstCorrect(truth, claims).Some? ==>
              exists k :: 0 <= k < |claims| && FirstCorrect(truth, claims) == Some(claims[k]) && truth[claims[k]]
                          && forall l | 0 <= l < k :: !truth[claims[l]]
  {
    if claims != [] {
      var rest := claims[1..];
      FirstCorrectFinds(truth, rest);
      if !truth[claims[0]] && FirstCorrect(truth, rest).Some? {
        var k :| 0 <= k < |rest| && FirstCorrect(truth, rest) == Some(rest[k]) && truth[rest[k]]
                 && forall l | 0 <= l < k :: !truth[rest[l]];
        assert claims[k + 1] == rest[k] && forall l | 0 < l < k + 1 :: claims[l] == rest[l - 1];
      }
    }
  }

  lemma {:induction false} ClaimsAscend(decisions: seq<Verdict>)
    requires Ordered(decisions)
    ensures forall i | 0 <= i < |ClaimsOf(decisions)| :: decisions[0].control <= ClaimsOf(decisions)[i]
    ensures forall i, j | 0 <= i < j < |ClaimsOf(decisions)| :: ClaimsOf(decisions)[i] < ClaimsOf(decisions)[j]
  {
    if |decisions| > 1 {
      assert decisions[0].control < decisions[1].control;
      assert forall i | 0 < i < |decisions[1..]| :: decisions[1..][i - 1] == decisions[i];
      ClaimsAscend(decisions[1..]);
    }
  }

  /** The earliest claim, or none was made. */
  ghost predicate EarliestClaim(o: Option<int>, decisions: seq<Verdict>) {
    if o.Some? then Verdict(o.value, true) in decisions && forall c | Verdict(c, true) in decisions :: o.value <= c
    else forall c :: Verdict(c, true) !in decisions
  }

  /** The earliest claim made at a true control, or none was. */
  ghost predicate EarliestCorrect(o: Option<int>, truth: seq<bool>, decisions: seq<Verdict>)
    requires forall d | d in decisions :: 0 <= d.control < |truth|
  {
    if o.Some? then
      && Verdict(o.value, true) in decisions && truth[o.value]
      && forall c | Verdict(c, true) in decisions && truth[c] :: o.value <= c
    else forall c | Verdict(c, true) in decisions :: !truth[c]
  }

  ghost predicate EarliestTruth(o: Option<int>, truth: seq<bool>) {
    if o.Some? then 0 <= o.value < |truth| && truth[o.value] && forall i | 0 <= i < o.value :: !truth[i]
    else forall i | 0 <= i < |truth| :: !truth[i]
  }

  /** What the other metrics say, given the three earliest controls. */
  predicate Derived(m: Metrics, truth: seq<bool>, hz: int)
    requires hz > 0 && (m.firstClaim.Some? ==> 0 <= m.firstClaim.value < |truth|)
  {
    && (m.prematureStop <==> m.firstClaim.Some? && !truth[m.firstClaim.value])
    && (m.missedEvent <==> m.firstTruth.Some? && m.firstCorrect.None?)
    && (m.noStop <==> m.firstClaim.None?)
    && (m.delay.Some? <==> m.firstCorrect.Some? && m.firstClaim == m.firstCorrect)
    && (m.delay.Some? ==>
          && m.firstTruth.Some? && m.firstClaim.value >= m.firstTruth.value
          && m.delay.value * hz as real == (m.firstClaim.value - m.firstTruth.value) as real)
  }

  /** Every metric says what its name promises: the earliest truth, claim and correct
      claim, and what follows from them. No delay is negative. */
  lemma MeasureMeans(truth: seq<bool>, decisions: seq<Verdict>, hz: int)
    requires Measure(truth, decisions, hz).Some?
    ensures var m := Measure(truth, decisions, hz).value;
            && EarliestTruth(m.firstTruth, truth) && EarliestClaim(m.firstClaim, decisions)
            && EarliestCorrect(m.firstCorrect, truth, decisions)
            && Derived(m, truth, hz)
  {
    var claims := ClaimsOf(decisions);
    ClaimsInRange(decisions, |truth|);
    ClaimsAscend(decisions);
    FirstTrueFinds(truth, 0);
    FirstCorrectFinds(truth, claims);
    assert claims != [] ==> claims[0] in claims;
    assert forall c :: c in claims <==> Verdict(c, true) in decisions;
  }

  // ---------------------------------------------------------------- the truth intervals

  datatype Interval = Interval(start: int, end: int, detected: bool)

  predicate Inside(i: int, r: Interval) {
    r.start <= i <= r.end
  }

  /** A maximal stretch of truth, detected exactly when some claim falls inside. */
  ghost predicate Maximal(truth: seq<bool>, claims: seq<int>, r: Interval) {
    && 0 <= r.start <= r.end < |truth|
    && (forall i | r.start <= i <= r.end :: truth[i])
    && (r.start > 0 ==> !truth[r.start - 1])
    && (r.end + 1 < |truth| ==> !truth[r.end + 1])
    && (r.detected <==> exists c :: c in claims && Inside(c, r))
  }

  ghost predicate Disjoint(runs: seq<Interval>) {
    forall i, j | 0 <= i < j < |runs| :: runs[i].end < runs[j].start
  }

  ghost predicate Covered(truth: seq<bool>, runs: seq<Interval>, n: int) {
    forall i | 0 <= i < n && i < |truth| && truth[i] :: exists k :: 0 <= k < |runs| && Inside(i, runs[k])
  }

  lemma CoverOne(truth: seq<bool>, runs: seq<Interval>, run: Interval, i: int)
    requires Covered(truth, runs, run.start) && run.end == i - 1
    requires 0 <= i < |truth| ==> !truth[i]
    ensures Covered(truth, runs + [run], i + 1)
  {
    var more := runs + [run];
    forall j | 0 <= j < i + 1 && j < |truth| && truth[j] ensures exists k :: 0 <= k < |more| && Inside(j, more[k]) {
      if j < run.start {
        var k :| 0 <= k < |runs| && Inside(j, runs[k]);
        assert more[k] == runs[k];
      } else {
        assert Inside(j, more[|runs|]);
      }
    }
  }

  /** The maximal stretches of truth in order, each once, none missing. */
  method Intervals(truth: seq<bool>, decisions: seq<Verdict>) returns (runs: seq<Interval>)
    ensures forall k | 0 <= k < |runs| :: Maximal(truth, ClaimsOf(decisions), runs[k])
    ensures Disjoint(runs) && Covered(truth, runs, |truth|)
  {
    var claims := ClaimsOf(decisions);
    var start: Option<int> := None;
    runs := [];
    for i := 0 to |truth| + 1
      invariant forall k | 0 <= k < |runs| :: Maximal(truth, claims, runs[k]) && runs[k].end < i - 1
      invariant Disjoint(runs)
      invariant start.None? ==> i == 0 || i == |truth| + 1 || !truth[i - 1]
      invariant start.None? ==> Covered(truth, runs, i)
      invariant start.Some? ==>
                  && 0 <= start.value < i <= |truth| && (forall j | start.value <= j < i :: truth[j])
                  && (start.value > 0 ==> !truth[start.value - 1])
                  && Covered(truth, runs, start.value)
                  && (forall k | 0 <= k < |runs| :: runs[k].end < start.value)
    {
      var yes := i < |truth| && truth[i];
      if yes && start.None? {
        start := Some(i);
      }
      if !yes && start.Some? {
        var detected := exists c :: c in claims && start.value <= c < i;
        var run := Interval(start.value, i - 1, detected);
        assert detected <==> exists c :: c in claims && Inside(c, run);
        CoverOne(truth, runs, run, i);
        runs := runs + [run];
        start := None;
      }
    }
  }

  // ---------------------------------------------------------------- the two agree

  /** Some interval is detected exactly when some claim is made at a true control. */
  lemma DetectedMeansCorrectClaim(truth: seq<bool>, claims: seq<int>, runs: seq<Interval>)
    requires forall c :: c in claims ==> 0 <= c < |truth|
    requires forall k | 0 <= k < |runs| :: Maximal(truth, claims, runs[k])
    requires Covered(truth, runs, |truth|)
    ensures (exists k :: 0 <= k < |runs| && runs[k].detected) <==> (exists c :: c in claims && truth[c])
  {
    if k :| 0 <= k < |runs| && runs[k].detected {
      var c :| c in claims && Inside(c, runs[k]);
      assert truth[c];
    }
    if c :| c in claims && truth[c] {
      var k :| 0 <= k < |runs| && Inside(c, runs[k]);
      assert runs[k].detected;
    }
  }

  lemma IntervalsMeanTruth(truth: seq<bool>, claims: seq<int>, runs: seq<Interval>)
    requires forall k | 0 <= k < |runs| :: Maximal(truth, claims, runs[k])
    requires Covered(truth, runs, |truth|)
    ensures runs != [] <==> FirstTrue(truth, 0).Some?
  {
    FirstTrueFinds(truth, 0);
    if runs != [] {
      assert truth[runs[0].start];
    }
  }

  /** An episode counts as missed exactly when it has truth intervals and none of them
      is detected. */
  lemma MissedMeansNoIntervalDetected(truth: seq<bool>, decisions: seq<Verdict>, hz: int, runs: seq<Interval>)
    requires Measure(truth, decisions, hz).Some?
    requires forall k | 0 <= k < |runs| :: Maximal(truth, ClaimsOf(decisions), runs[k])
    requires Covered(truth, runs, |truth|)
    ensures Measure(truth, decisions, hz).value.missedEvent <==>
              runs != [] && forall k | 0 <= k < |runs| :: !runs[k].detected
  {
    ClaimsInRange(decisions, |truth|);
    FirstCorrectFinds(truth, ClaimsOf(decisions));
    DetectedMeansCorrectClaim(truth, ClaimsOf(decisions), runs);
    IntervalsMeanTruth(truth, ClaimsOf(decisions), runs);
  }
}
