/** The live completion metrics against the auditor's own, from the same recording. */
module CompletionAudit {
  import opened Common
  import C = Confirmation
  import opened EpisodeMetrics

  /** The auditor's event metrics, from truth labels and its list of claims. */
  function Events(truth: seq<bool>, indices: seq<int>): Metrics
    requires forall i | 0 <= i < |indices| :: 0 <= indices[i] < |truth|
  {
    var firstTrue, correct := FirstTrue(truth, 0), FirstCorrect(truth, indices);
    if indices == [] then Metrics(firstTrue, None, correct, false, firstTrue.Some? && correct.None?, true, None)
    else
      var first := indices[0];
      var early := !truth[first];
      Metrics(firstTrue, Some(first), correct, early, firstTrue.Some? && correct.None?, false,
              if firstTrue.Some? && !early then Some((first - firstTrue.value) as real / 20.0) else None)
  }

  /** What the gate decides at each of the first `n` rows. */
  function GateDecisions(g: C.Gate, rows: seq<C.Row>, n: nat): seq<Verdict>
    requires n <= |rows| && C.Streamed(g, rows, n).Some?
  {
    if n == 0 then []
    else
      GateDecisions(g, rows, n - 1)
      + [Verdict(rows[n - 1].control, C.Confirms(C.Streamed(g, rows, n).value, rows[n - 1]))]
  }

  lemma {:induction false} ClaimsOfAppend(a: seq<Verdict>, v: Verdict)
    ensures ClaimsOf(a + [v]) == if v.complete then ClaimsOf(a) + [v.control] else ClaimsOf(a)
  {
    var more := a + [v];
    if a == [] {
      assert more[1..] == [];
    } else {
      assert more[0] == a[0] && more[1..] == a[1..] + [v];
      ClaimsOfAppend(a[1..], v);
    }
  }

  lemma {:induction false} GateClaims(g: C.Gate, rows: seq<C.Row>, n: nat)
    requires n <= |rows| && C.Streamed(g, rows, n).Some?
    ensures ClaimsOf(GateDecisions(g, rows, n)) == C.StreamClaims(g, rows, n)
    ensures |GateDecisions(g, rows, n)| == n
    ensures forall i | 0 <= i < n :: GateDecisions(g, rows, n)[i].control == rows[i].control
  {
    if n > 0 {
      GateClaims(g, rows, n - 1);
      var last := Verdict(rows[n - 1].control, C.Confirms(C.Streamed(g, rows, n).value, rows[n - 1]));
      ClaimsOfAppend(GateDecisions(g, rows, n - 1), last);
    }
  }

  /** On decisions the live metrics accept, the two definitions agree. */
  lemma MeasureIsEvents(truth: seq<bool>, decisions: seq<Verdict>)
    requires Measure(truth, decisions, 20).Some?
    ensures forall i | 0 <= i < |ClaimsOf(decisions)| :: 0 <= ClaimsOf(decisions)[i] < |truth|
    ensures Measure(truth, decisions, 20) == Some(Events(truth, ClaimsOf(decisions)))
  {
    ClaimsInRange(decisions, |truth|);
  }

  lemma DecisionsAreMeasured(truth: seq<bool>, rows: seq<C.Row>, decisions: seq<Verdict>)
    requires truth != [] && C.Advancing(rows) && |decisions| == |rows|
    requires forall i | 0 <= i < |rows| :: 0 <= rows[i].control < |truth| && decisions[i].control == rows[i].control
    ensures Measure(truth, decisions, 20).Some?
  {
  }

  /** From one recording, the metrics scored live through the streaming gate are the
      ones the auditor recomputes from its own claims. */
  lemma LiveMetricsSurviveAudit(truth: seq<bool>, rows: seq<C.Row>)
    requires truth != [] && (forall i | 0 <= i < |rows| :: !rows[i].decision.Malformed?)
    requires C.Advancing(rows) && (forall i | 0 <= i < |rows| :: 0 <= rows[i].control < |truth|)
    ensures C.Streamed(C.NewGate(10), rows, |rows|).Some?
    ensures var kept := C.Kept(rows, |rows|, false);
            var claims := C.ClaimedControls(kept, |kept|, C.Window(true));
            && (forall i | 0 <= i < |claims| :: 0 <= claims[i] < |truth|)
            && Measure(truth, GateDecisions(C.NewGate(10), rows, |rows|), 20) == Some(Events(truth, claims))
  {
    C.StreamingEqualsAudit(rows);
    var decisions := GateDecisions(C.NewGate(10), rows, |rows|);
    GateClaims(C.NewGate(10), rows, |rows|);
    DecisionsAreMeasured(truth, rows, decisions);
    MeasureIsEvents(truth, decisions);
  }
}
