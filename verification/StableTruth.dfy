/** Stable completion truth: the streaming window, the auditor's window test over a
    whole recording, and an oracle seeded with the previous window only. */
module StableTruth {
  import opened Common

  /** A float speed; comparisons only ever see finite ones. */
  datatype Speed = Finite(value: real) | NotFinite

  datatype Facts = Facts(inside: bool, fingerContact: bool, basketContact: bool, linear: Speed, angular: Speed)

  datatype Limits = Limits(window: nat, linearMax: real, angularMax: real)

  const DEFAULT: Limits := Limits(10, 0.03, 0.3)

  predicate Within(s: Speed, max: real) {
    s.Finite? && 0.0 <= s.value <= max
  }

  predicate Instantaneous(f: Facts, limits: Limits) {
    && f.linear.Finite? && f.angular.Finite?
    && f.inside && !f.fingerContact && f.basketContact
    && Within(f.linear, limits.linearMax) && Within(f.angular, limits.angularMax)
  }

  // ---------------------------------------------------------------- what stability means

  function Values(facts: seq<Facts>, limits: Limits): seq<bool> {
    seq(|facts|, i requires 0 <= i < |facts| => Instantaneous(facts[i], limits))
  }

  /** The `window + 1` values ending at `i` all hold. */
  predicate StableAt(values: seq<bool>, i: int, window: nat)
    requires 0 <= i < |values|
  {
    window <= i && forall j | i - window <= j <= i :: values[j]
  }

  // ---------------------------------------------------------------- the streaming window

  /** A reading is taken at a physical control step. */
  datatype Reading = Reading(step: int, facts: Facts)

  datatype Truth = Truth(limits: Limits, rows: seq<bool>, last: Option<int>)

  function NewTruth(limits: Limits): Truth {
    Truth(limits, [], None)
  }

  /** Appending to a full bounded deque drops its oldest entry. */
  function Append(rows: seq<bool>, b: bool, capacity: nat): seq<bool> {
    if |rows| < capacity || rows == [] then rows + [b] else rows[1..] + [b]
  }

  function Take(t: Truth, r: Reading): Truth {
    t.(rows := Append(t.rows, Instantaneous(r.facts, t.limits), t.limits.window + 1), last := Some(r.step))
  }

  predicate Refuses(t: Truth, r: Reading) {
    t.last.Some? && r.step != t.last.value + 1
  }

  predicate Holds(t: Truth) {
    |t.rows| == t.limits.window + 1 && forall i | 0 <= i < |t.rows| :: t.rows[i]
  }

  /** The window after the first `n` readings, None once a reading is refused. */
  function Fed(t: Truth, readings: seq<Reading>, n: nat): Option<Truth>
    requires n <= |readings|
  {
    if n == 0 then Some(t)
    else
      var before := Fed(t, readings, n - 1);
      if before.None? || Refuses(before.value, readings[n - 1]) then None else Some(Take(before.value, readings[n - 1]))
  }

  class StableTruth {
    const limits: Limits
    var rows: seq<bool>
    var lastStep: Option<int>

    function View(): Truth
      reads this
    {
      Truth(limits, rows, lastStep)
    }

    constructor (limits: Limits)
      ensures View() == NewTruth(limits)
    {
      this.limits, rows, lastStep := limits, [], None;
    }

    /** None stands for the error a step that does not follow the last one raises. */
    method Update(r: Reading) returns (answer: Option<bool>)
      modifies this
      ensures answer.None? <==> Refuses(old(View()), r)
      ensures View() == if answer.None? then old(View()) else Take(old(View()), r)
      ensures answer.Some? ==> (answer.value <==> Holds(View()))
    {
      if lastStep.Some? && r.step != lastStep.value + 1 {
        return None;
      }
      lastStep := Some(r.step);
      rows := rows + [Instantaneous(r.facts, limits)];
      if |rows| > limits.window + 1 {
        rows := rows[1..];
      }
      var all := true;
      for i := 0 to |rows|
        invariant all <==> forall j | 0 <= j < i :: rows[j]
      {
        all := all && rows[i];
      }
      assert View().rows == Take(old(View()), r).rows;
      return Some(|rows| == limits.window + 1 && all);
    }
  }

  predicate Consecutive(readings: seq<Reading>, n: nat)
    requires n <= |readings|
  {
    forall i | 0 < i < n :: readings[i].step == readings[i - 1].step + 1
  }

  function FactsOf(readings: seq<Reading>): seq<Facts> {
    seq(|readings|, i requires 0 <= i < |readings| => readings[i].facts)
  }

  lemma AppendSlides(values: seq<bool>, n: nat, capacity: nat)
    requires 0 < n <= |values| && capacity > 0
    ensures Append(Latest(values, n - 1, capacity), values[n - 1], capacity) == Latest(values, n, capacity)
  {
  }

  /** The deque holds the last `window + 1` values, and a recording is refused exactly
      when a step is skipped or repeated. */
  lemma {:induction false} WindowHoldsLatest(limits: Limits, readings: seq<Reading>, n: nat)
    requires n <= |readings|
    ensures Fed(NewTruth(limits), readings, n).Some? <==> Consecutive(readings, n)
    ensures Fed(NewTruth(limits), readings, n).Some? ==>
              var t := Fed(NewTruth(limits), readings, n).value;
              && t.limits == limits
              && t.last == (if n == 0 then None else Some(readings[n - 1].step))
              && t.rows == Latest(Values(FactsOf(readings), limits), n, limits.window + 1)
  {
    if n > 0 {
      WindowHoldsLatest(limits, readings, n - 1);
      AppendSlides(Values(FactsOf(readings), limits), n, limits.window + 1);
    }
  }

  function Latest(values: seq<bool>, n: nat, capacity: nat): seq<bool>
    requires n <= |values|
  {
    values[Max(0, n - capacity)..n]
  }

  /** What the streaming window answers after the first `n` readings. */
  ghost predicate Answers(limits: Limits, readings: seq<Reading>, n: nat, yes: bool)
    requires n <= |readings|
  {
    Fed(NewTruth(limits), readings, n).Some? && (Holds(Fed(NewTruth(limits), readings, n).value) <==> yes)
  }

  /** The streaming window answers, after each reading, what the window test says. */
  lemma StreamingIsWindowTest(limits: Limits, readings: seq<Reading>, n: nat)
    requires 0 < n <= |readings| && Consecutive(readings, n)
    ensures Answers(limits, readings, n, StableAt(Values(FactsOf(readings), limits), n - 1, limits.window))
  {
    WindowHoldsLatest(limits, readings, n);
    var values := Values(FactsOf(readings), limits);
    var rows := Latest(values, n, limits.window + 1);
    if n > limits.window {
      var base := n - limits.window - 1;
      assert forall j | base <= j < n :: values[j] == rows[j - base];
    }
  }

  // ---------------------------------------------------------------- the auditor

  /** The auditor's own reading of the facts, with its own constants. */
  predicate Physical(f: Facts) {
    && f.inside && !f.fingerContact && f.basketContact
    && f.linear.Finite? && f.angular.Finite?
    && 0.0 <= f.linear.value <= 0.03
    && 0.0 <= f.angular.value <= 0.3
  }

  datatype Labelled = Labelled(facts: Facts, strictComplete: bool)

  function FactsIn(rows: seq<Labelled>): seq<Facts> {
    seq(|rows|, i requires 0 <= i < |rows| => rows[i].facts)
  }

  /** Every label is what the streaming window, fed with what came before as well,
      answers at that row. */
  ghost predicate LabelsStreamed(rows: seq<Labelled>, prior: seq<Facts>) {
    forall i | 0 <= i < |rows| ::
      rows[i].strictComplete <==> StableAt(Values(prior + FactsIn(rows), DEFAULT), |prior| + i, DEFAULT.window)
  }

  /** The auditor passes a recording exactly when each of its labels is what the
      streaming window would have answered. */
  method TruthCheck(rows: seq<Labelled>, prior: seq<Facts>) returns (ok: bool)
    ensures ok <==> LabelsStreamed(rows, prior)
  {
    var whole := prior + FactsIn(rows);
    var values := [];
    for n := 0 to |whole|
      invariant values == Values(whole, DEFAULT)[..n]
    {
      values := values + [Physical(whole[n])];
    }
    assert values == Values(whole, DEFAULT);
    for k := 0 to |rows|
      invariant forall i | 0 <= i < k ::
                  rows[i].strictComplete <==> StableAt(Values(whole, DEFAULT), |prior| + i, DEFAULT.window)
    {
      var i := |prior| + k;
      var all := true;
      if i >= 10 {
        for j := i - 10 to i + 1
          invariant all <==> forall l | i - 10 <= l < j :: values[l]
        {
          all := all && values[j];
        }
      }
      if rows[k].strictComplete != (i >= 10 && all) {
        return false;
      }
    }
    return true;
  }

  // ---------------------------------------------------------------- the seeded oracle

  /** Both recordings are accepted so far, and the windows answer the same. */
  ghost predicate AnswerAlike(limits: Limits, a: seq<Reading>, n: nat, b: seq<Reading>, m: nat)
    requires n <= |a| && m <= |b|
  {
    var t, u := Fed(NewTruth(limits), a, n), Fed(NewTruth(limits), b, m);
    t.Some? && u.Some? && (Holds(t.value) <==> Holds(u.value))
  }

  /** An oracle seeded with the last `k` readings answers like one fed all of `prior`,
      `n` readings later. */
  ghost predicate SeedAgrees(limits: Limits, prior: seq<Reading>, k: nat, later: seq<Reading>, n: nat)
    requires k <= |prior| && n <= |later|
  {
    AnswerAlike(limits, prior[|prior| - k..] + later, k + n, prior + later, |prior| + n)
  }

  /** It does so whatever is read later. */
  ghost predicate SeedSuffices(limits: Limits, prior: seq<Reading>, k: nat)
    requires k <= |prior|
  {
    forall later, n: nat | 0 < n <= |later| && Consecutive(prior + later, |prior| + n) ::
      SeedAgrees(limits, prior, k, later, n)
  }

  /** How many of the last values hold. */
  function Trailing(values: seq<bool>): (t: nat)
    ensures t <= |values|
    ensures forall j | |values| - t <= j < |values| :: values[j]
    ensures t < |values| ==> !values[|values| - t - 1]
  {
    if values == [] || !values[|values| - 1] then 0 else 1 + Trailing(values[..|values| - 1])
  }

  function TrailingTrue(limits: Limits, readings: seq<Reading>): nat {
    Trailing(Values(FactsOf(readings), limits))
  }

  /** The window tests on a history and on its suffix differ exactly when the history is
      stable and the suffix is still too short. */
  lemma SuffixTestsDiffer(few: seq<bool>, all: seq<bool>, i: nat, shift: nat, window: nat)
    requires i < |few| && shift <= |all| && few == all[shift..]
    ensures (StableAt(few, i, window) <==> StableAt(all, shift + i, window))
       <==> !(i < window && StableAt(all, shift + i, window))
  {
    assert forall j | 0 <= j < |few| :: few[j] == all[shift + j];
    if StableAt(few, i, window) {
      assert forall j | shift + i - window <= j <= shift + i :: all[j] == few[j - shift];
    }
  }

  lemma SuffixOfReadings(limits: Limits, few: seq<Reading>, all: seq<Reading>, shift: nat, n: nat)
    requires shift <= |all| && few == all[shift..] && n <= |few| && Consecutive(all, shift + n)
    ensures Consecutive(few, n)
    ensures Values(FactsOf(few), limits) == Values(FactsOf(all), limits)[shift..]
  {
    assert forall i | 0 <= i < |few| :: few[i] == all[shift + i];
  }

  lemma SuffixAgreesExactly(limits: Limits, few: seq<Reading>, all: seq<Reading>, shift: nat, n: nat)
    requires shift <= |all| && few == all[shift..] && 0 < n <= |few| && Consecutive(all, shift + n)
    ensures AnswerAlike(limits, few, n, all, shift + n)
       <==> !(n <= limits.window && StableAt(Values(FactsOf(all), limits), shift + n - 1, limits.window))
  {
    SuffixOfReadings(limits, few, all, shift, n);
    StreamingIsWindowTest(limits, few, n);
    StreamingIsWindowTest(limits, all, shift + n);
    SuffixTestsDiffer(Values(FactsOf(few), limits), Values(FactsOf(all), limits), n - 1, shift, limits.window);
  }

  lemma ValuesOfPrior(limits: Limits, prior: seq<Reading>, later: seq<Reading>)
    ensures Values(FactsOf(prior + later), limits)[..|prior|] == Values(FactsOf(prior), limits)
  {
  }

  /** A stable window that reaches back into the first values reaches only true ones. */
  lemma StableReachesTrue(before: seq<bool>, all: seq<bool>, i: nat, window: nat)
    requires |before| <= i < |all| && all[..|before|] == before && StableAt(all, i, window)
    ensures window - (i - |before|) - 1 <= Trailing(before)
  {
    var t := Trailing(before);
    assert t < |before| ==> before[|before| - t - 1] == all[|before| - t - 1];
  }

  /** Whether a late window on the whole history is stable, and too long for the seed. */
  predicate Missed(values: seq<bool>, prior: nat, k: nat, n: nat, window: nat)
    requires 0 < n && prior + n <= |values|
  {
    k + n <= window && StableAt(values, prior + n - 1, window)
  }

  lemma LongSeedMissesNothing(before: seq<bool>, all: seq<bool>, k: nat, n: nat, window: nat)
    requires 0 < n && |before| + n <= |all| && all[..|before|] == before
    requires k >= Min(window, Trailing(before))
    ensures !Missed(all, |before|, k, n, window)
  {
    if StableAt(all, |before| + n - 1, window) {
      StableReachesTrue(before, all, |before| + n - 1, window);
    }
  }

  lemma SeedAgreesExactly(limits: Limits, prior: seq<Reading>, k: nat, later: seq<Reading>, n: nat)
    requires k <= |prior| && 0 < n <= |later| && Consecutive(prior + later, |prior| + n)
    ensures SeedAgrees(limits, prior, k, later, n)
       <==> !Missed(Values(FactsOf(prior + later), limits), |prior|, k, n, limits.window)
  {
    var few, all := prior[|prior| - k..] + later, prior + later;
    assert few == all[|prior| - k..];
    SuffixAgreesExactly(limits, few, all, |prior| - k, k + n);
  }

  lemma LongSeedAgrees(limits: Limits, prior: seq<Reading>, k: nat, later: seq<Reading>, n: nat)
    requires k <= |prior| && 0 < n <= |later| && Consecutive(prior + later, |prior| + n)
    requires k >= Min(limits.window, TrailingTrue(limits, prior))
    ensures SeedAgrees(limits, prior, k, later, n)
  {
    ValuesOfPrior(limits, prior, later);
    LongSeedMissesNothing(Values(FactsOf(prior), limits), Values(FactsOf(prior + later), limits), k, n, limits.window);
    SeedAgreesExactly(limits, prior, k, later, n);
  }

  /** What a short seed gets wrong: enough readings as good as the last. */
  function MoreLikeLast(prior: seq<Reading>, n: nat): seq<Reading>
    requires prior != []
  {
    var last := prior[|prior| - 1];
    seq(n, j requires 0 <= j < n => Reading(last.step + 1 + j, last.facts))
  }

  lemma MoreLikeLastIsStable(limits: Limits, prior: seq<Reading>, k: nat, n: nat)
    requires Consecutive(prior, |prior|) && k < TrailingTrue(limits, prior) && n > 0
    ensures prior != []
    ensures var all := prior + MoreLikeLast(prior, n);
            && Consecutive(all, |all|) && |all| == |prior| + n
            && StableAt(Values(FactsOf(all), limits), |all| - 1, k + n)
  {
    var later := MoreLikeLast(prior, n);
    var values := Values(FactsOf(prior + later), limits);
    ValuesOfPrior(limits, prior, later);
    forall j | |prior| - k - 1 <= j < |prior| + n ensures values[j] {
      if j < |prior| {
        assert values[j] == values[..|prior|][j];
      } else {
        assert values[..|prior|][|prior| - 1];
      }
    }
  }

  lemma ShortSeedFails(limits: Limits, prior: seq<Reading>, k: nat)
    requires Consecutive(prior, |prior|) && k < Min(limits.window, TrailingTrue(limits, prior))
    ensures k <= |prior| && !SeedSuffices(limits, prior, k)
  {
    var n := limits.window - k;
    MoreLikeLastIsStable(limits, prior, k, n);
    SeedAgreesExactly(limits, prior, k, MoreLikeLast(prior, n), n);
    assert !SeedAgrees(limits, prior, k, MoreLikeLast(prior, n), n);
  }

  /** A seed of the last `k` readings answers like the whole history on every continuation
      exactly when it covers a window or all of the trailing run of true values. */
  lemma SeedSufficesExactly(limits: Limits, prior: seq<Reading>, k: nat)
    requires k <= |prior| && Consecutive(prior, |prior|)
    ensures SeedSuffices(limits, prior, k) <==> k >= Min(limits.window, TrailingTrue(limits, prior))
  {
    if k >= Min(limits.window, TrailingTrue(limits, prior)) {
      forall later, n: nat | 0 < n <= |later| && Consecutive(prior + later, |prior| + n)
        ensures SeedAgrees(limits, prior, k, later, n)
      {
        LongSeedAgrees(limits, prior, k, later, n);
      }
    } else {
      ShortSeedFails(limits, prior, k);
    }
  }

  /** In particular the readings of the previous window are enough. */
  lemma SeededOracleAgrees(limits: Limits, prior: seq<Reading>)
    requires Consecutive(prior, |prior|)
    ensures SeedSuffices(limits, prior, Min(limits.window, |prior|))
  {
    SeedSufficesExactly(limits, prior, Min(limits.window, |prior|));
  }
}
