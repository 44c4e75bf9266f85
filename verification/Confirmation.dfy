/** Confirmation of a completion claim: the streaming gate, the independent auditor
    that replays a recording, and what both mean. */
module Confirmation {
  import opened Common

  /** `Malformed` is any decision string but the three known ones. */
  datatype Decision = Complete | Incomplete | Unknown | Malformed

  datatype Row = Row(control: int, decision: Decision)

  // ---------------------------------------------------------------- what a claim means

  predicate Advancing(rows: seq<Row>) {
    forall i, j | 0 <= i < j < |rows| :: rows[i].control < rows[j].control
  }

  /** The `window + 1` controls ending at row `i` are consecutive and all complete. */
  predicate ClaimedAt(rows: seq<Row>, i: int, window: int)
    requires 0 <= i < |rows|
  {
    && 0 <= window <= i
    && rows[i].control - rows[i - window].control == window
    && forall j | i - window <= j <= i :: rows[j].decision == Complete
  }

  function ClaimedControls(rows: seq<Row>, n: nat, window: int): seq<int>
    requires n <= |rows|
  {
    if n == 0 then []
    else
      ClaimedControls(rows, n - 1, window)
      + (if ClaimedAt(rows, n - 1, window) then [rows[n - 1].control] else [])
  }

  // ---------------------------------------------------------------- the streaming gate

  datatype Gate = Gate(window: int, last: Option<int>, started: Option<int>)

  function NewGate(window: int): Gate {
    Gate(window, None, None)
  }

  predicate Refuses(g: Gate, row: Row) {
    row.decision.Malformed? || row.control < 0 || (g.last.Some? && row.control <= g.last.value)
  }

  function Advance(g: Gate, row: Row): Gate {
    var kept := if g.last.Some? && row.control != g.last.value + 1 then None else g.started;
    var started :=
      if row.decision != Complete then None
      else if kept.None? then Some(row.control)
      else kept;
    g.(last := Some(row.control), started := started)
  }

  /** What the gate says once it has taken in `row`. */
  predicate Confirms(g: Gate, row: Row) {
    g.started.Some? && row.control - g.started.value >= g.window
  }

  /** The gate over the first `n` rows, None once a row is refused. */
  function Streamed(g: Gate, rows: seq<Row>, n: nat): Option<Gate>
    requires n <= |rows|
  {
    if n == 0 then Some(g)
    else
      var before := Streamed(g, rows, n - 1);
      if before.None? || Refuses(before.value, rows[n - 1]) then None else Some(Advance(before.value, rows[n - 1]))
  }

  function StreamClaims(g: Gate, rows: seq<Row>, n: nat): seq<int>
    requires n <= |rows| && Streamed(g, rows, n).Some?
  {
    if n == 0 then []
    else
      StreamClaims(g, rows, n - 1)
      + (if Confirms(Streamed(g, rows, n).value, rows[n - 1]) then [rows[n - 1].control] else [])
  }

  lemma {:induction false} RefusalIsFinal(g: Gate, rows: seq<Row>, n: nat)
    requires n <= |rows| && Streamed(g, rows, n).None?
    ensures Streamed(g, rows, |rows|).None?
    decreases |rows| - n
  {
    if n < |rows| {
      RefusalIsFinal(g, rows, n + 1);
    }
  }

  class ContinuousConfirmation {
    const window: int
    var lastControl: Option<int>
    var started: Option<int>

    function View(): Gate
      reads this
    {
      Gate(window, lastControl, started)
    }

    constructor (window: int)
      requires window >= 1
      ensures View() == NewGate(window)
    {
      this.window, lastControl, started := window, None, None;
    }

    /** None stands for the error a refused row raises; the gate is then unchanged. */
    method Update(row: Row) returns (answer: Option<bool>)
      modifies this
      ensures answer.None? <==> Refuses(old(View()), row)
      ensures View() == if answer.None? then old(View()) else Advance(old(View()), row)
      ensures answer.Some? ==> (answer.value <==> Confirms(View(), row))
    {
      if row.decision == Malformed {
        return None;
      }
      if row.control < 0 || (lastControl.Some? && row.control <= lastControl.value) {
        return None;
      }
      if lastControl.Some? && row.control != lastControl.value + 1 {
        started := None;
      }
      lastControl := Some(row.control);
      if row.decision != Complete {
        started := None;
        return Some(false);
      }
      if started.None? {
        started := Some(row.control);
      }
      return Some(row.control - started.value >= window);
    }

    /** Feeds a whole recording through the gate; None once a row is refused. */
    method Replay(rows: seq<Row>) returns (claims: Option<seq<int>>)
      modifies this
      ensures claims.Some? <==> Streamed(old(View()), rows, |rows|).Some?
      ensures claims.Some? ==> View() == Streamed(old(View()), rows, |rows|).value
      ensures claims.Some? ==> claims.value == StreamClaims(old(View()), rows, |rows|)
    {
      var result := [];
      var n := 0;
      while n < |rows|
        invariant n <= |rows|
        invariant Streamed(old(View()), rows, n) == Some(View())
        invariant result == StreamClaims(old(View()), rows, n)
      {
        var answer := Update(rows[n]);
        if answer.None? {
          RefusalIsFinal(old(View()), rows, n + 1);
          return None;
        }
        if answer.value {
          result := result + [rows[n].control];
        }
        n := n + 1;
      }
      return Some(result);
    }
  }

  // ---------------------------------------------------------------- the auditor

  /** The rows a mode looks at: every one, or those at every fifth control. */
  predicate Looked(row: Row, sparse: bool) {
    sparse ==> row.control % 5 == 0
  }

  function Kept(rows: seq<Row>, n: nat, sparse: bool): seq<Row>
    requires n <= |rows|
  {
    if n == 0 then []
    else if Looked(rows[n - 1], sparse) then Kept(rows, n - 1, sparse) + [rows[n - 1]]
    else Kept(rows, n - 1, sparse)
  }

  /** Length of the run of consecutive complete controls that ends at row `n - 1`. */
  function Run(rows: seq<Row>, n: nat): nat
    requires n <= |rows|
  {
    if n == 0 || rows[n - 1].decision != Complete then 0
    else if n > 1 && rows[n - 1].control == rows[n - 2].control + 1 then Run(rows, n - 1) + 1
    else 1
  }

  /** The window of a mode that confirms is the ten controls before the claim. */
  function Window(confirm: bool): int {
    if confirm then 10 else 0
  }

  lemma {:induction false} NeighboursDecide(rows: seq<Row>)
    ensures Advancing(rows) <==> !exists k :: 0 < k < |rows| && rows[k].control <= rows[k - 1].control
  {
    if |rows| > 1 {
      var n := |rows| - 1;
      NeighboursDecide(rows[..n]);
      assert forall k | 0 <= k < n :: rows[..n][k] == rows[k];
      if forall k | 0 < k < |rows| :: rows[k].control > rows[k - 1].control {
        assert rows[n].control > rows[n - 1].control;
      }
    }
  }

  lemma {:induction false} RunPrefix(rows: seq<Row>, row: Row, n: nat)
    requires n <= |rows|
    ensures Run(rows + [row], n) == Run(rows, n)
  {
    if n > 0 {
      RunPrefix(rows, row, n - 1);
    }
  }

  lemma RunExtends(rows: seq<Row>, row: Row)
    ensures Run(rows + [row], |rows|) == Run(rows, |rows|)
    ensures rows != [] && rows[|rows| - 1].decision != Complete ==> Run(rows, |rows|) == 0
  {
    RunPrefix(rows, row, |rows|);
  }

  lemma {:induction false} ClaimsPrefix(rows: seq<Row>, row: Row, n: nat, window: int)
    requires n <= |rows|
    ensures ClaimedControls(rows + [row], n, window) == ClaimedControls(rows, n, window)
  {
    if n > 0 {
      ClaimsPrefix(rows, row, n - 1, window);
      assert ClaimedAt(rows + [row], n - 1, window) <==> ClaimedAt(rows, n - 1, window) by {
        assert forall j | 0 <= j < n :: (rows + [row])[j] == rows[j];
      }
    }
  }

  lemma ClaimsExtend(rows: seq<Row>, row: Row, window: int)
    ensures var more := rows + [row];
            ClaimedControls(more, |more|, window) ==
            ClaimedControls(rows, |rows|, window) + (if ClaimedAt(more, |rows|, window) then [row.control] else [])
  {
    ClaimsPrefix(rows, row, |rows|, window);
  }

  /** The run is made of consecutive complete controls and cannot be made longer. */
  lemma {:induction false} RunShape(rows: seq<Row>, n: nat)
    requires n <= |rows| && Advancing(rows)
    ensures var r := Run(rows, n);
            && r <= n
            && (forall j | n - r <= j < n ::
                  rows[j].decision == Complete && rows[j].control == rows[n - 1].control - (n - 1 - j))
            && (0 < r < n ==>
                  rows[n - r - 1].decision != Complete || rows[n - r - 1].control + 1 != rows[n - r].control)
  {
    if n > 0 && rows[n - 1].decision == Complete && n > 1 && rows[n - 1].control == rows[n - 2].control + 1 {
      RunShape(rows, n - 1);
      var r := Run(rows, n - 1);
      if r == 0 {
        assert Run(rows, n) == 1;
      }
    }
  }

  /** In advancing rows a window's worth of difference means that no control is missing. */
  lemma {:induction false} SpanBound(rows: seq<Row>, i: nat, j: nat)
    requires i <= j < |rows| && Advancing(rows)
    ensures rows[j].control - rows[i].control >= j - i
  {
    if i < j {
      SpanBound(rows, i, j - 1);
    }
  }

  lemma RunIsWindow(rows: seq<Row>, n: nat, window: int)
    requires 0 < n <= |rows| && Advancing(rows) && 0 <= window
    ensures Run(rows, n) >= window + 1 <==> ClaimedAt(rows, n - 1, window)
  {
    RunShape(rows, n);
    var r := Run(rows, n);
    if ClaimedAt(rows, n - 1, window) && r <= window {
      if r > 0 {
        SpanBound(rows, n - 1 - window, n - r - 1);
      }
      assert false;
    }
  }

  /** What the auditor's loop knows of the rows it has looked at. */
  ghost predicate Audited(kept: seq<Row>, window: int, positives: seq<int>, result: seq<int>) {
    && |positives| == Run(kept, |kept|)
    && (positives != [] ==> kept != [] && positives[|positives| - 1] == kept[|kept| - 1].control)
    && result == ClaimedControls(kept, |kept|, window)
  }

  function NextPositives(positives: seq<int>, row: Row): seq<int> {
    if row.decision != Complete then []
    else if positives != [] && row.control == positives[|positives| - 1] + 1 then positives + [row.control]
    else [row.control]
  }

  /** What one more row does to the run and to the claims. */
  lemma AuditStep(rows: seq<Row>, row: Row, window: int)
    requires Advancing(rows + [row]) && 0 <= window
    ensures var more := rows + [row];
            var r := Run(rows, |rows|);
            && Run(more, |more|) ==
                 (if row.decision != Complete then 0
                  else if r > 0 && row.control == rows[|rows| - 1].control + 1 then r + 1
                  else 1)
            && ClaimedControls(more, |more|, window) ==
                 ClaimedControls(rows, |rows|, window) + (if Run(more, |more|) > window then [row.control] else [])
  {
    RunExtends(rows, row);
    RunIsWindow(rows + [row], |rows| + 1, window);
    ClaimsExtend(rows, row, window);
  }

  lemma AuditNext(kept: seq<Row>, row: Row, confirm: bool, positives: seq<int>, result: seq<int>)
    requires Audited(kept, Window(confirm), positives, result) && Advancing(kept + [row])
    ensures var next := NextPositives(positives, row);
            var claimed := if confirm then |next| >= 11 else row.decision == Complete;
            Audited(kept + [row], Window(confirm), next, if claimed then result + [row.control] else result)
  {
    AuditStep(kept, row, Window(confirm));
  }

  lemma {:induction false} KeptAdvances(rows: seq<Row>, n: nat, sparse: bool)
    requires n <= |rows| && Advancing(rows)
    ensures Advancing(Kept(rows, n, sparse))
    ensures forall i | 0 <= i < |Kept(rows, n, sparse)| ::
              exists j :: 0 <= j < n && rows[j] == Kept(rows, n, sparse)[i]
  {
    if n > 0 {
      KeptAdvances(rows, n - 1, sparse);
    }
  }

  /** A sparse mode looks at every fifth control, the others at all, in order. */
  lemma {:induction false} KeptExactly(rows: seq<Row>, n: nat, sparse: bool)
    requires n <= |rows|
    ensures forall row :: row in Kept(rows, n, sparse) <==> row in rows[..n] && (!sparse || row.control % 5 == 0)
    ensures !sparse ==> Kept(rows, n, sparse) == rows[..n]
  {
    if n > 0 {
      KeptExactly(rows, n - 1, sparse);
      assert rows[..n] == rows[..n - 1] + [rows[n - 1]];
    }
  }

  /** None stands for the failed assertion that the controls advance. */
  method Claims(rows: seq<Row>, sparse: bool, confirm: bool) returns (claims: Option<seq<int>>)
    ensures claims.Some? <==> Advancing(rows)
    ensures claims.Some? ==>
              var kept := Kept(rows, |rows|, sparse);
              claims.value == ClaimedControls(kept, |kept|, Window(confirm))
  {
    NeighboursDecide(rows);
    if exists k :: 0 < k < |rows| && rows[k].control <= rows[k - 1].control {
      return None;
    }
    var result: seq<int>, positives: seq<int> := [], [];
    for n := 0 to |rows|
      invariant Audited(Kept(rows, n, sparse), Window(confirm), positives, result)
    {
      var row := rows[n];
      if Looked(row, sparse) {
        KeptAdvances(rows, n + 1, sparse);
        AuditNext(Kept(rows, n, sparse), row, confirm, positives, result);
        positives := NextPositives(positives, row);
        if if confirm then |positives| >= 11 else row.decision == Complete {
          result := result + [row.control];
        }
      }
    }
    return Some(result);
  }

  // ---------------------------------------------------------------- streaming means the same

  /** The gate remembers exactly where the current run of complete controls began. */
  lemma {:induction false} GateTracksRun(g: Gate, rows: seq<Row>, n: nat)
    requires g == NewGate(g.window) && n <= |rows| && Advancing(rows) && Streamed(g, rows, n).Some?
    ensures var h := Streamed(g, rows, n).value;
            var r := Run(rows, n);
            && h.window == g.window
            && h.last == (if n == 0 then None else Some(rows[n - 1].control))
            && h.started == (if r == 0 then None else Some(rows[n - 1].control - (r - 1)))
  {
    if n > 0 {
      GateTracksRun(g, rows, n - 1);
    }
  }

  lemma {:induction false} StreamClaimsAreClaimed(g: Gate, rows: seq<Row>, n: nat)
    requires g == NewGate(g.window) && g.window >= 1
    requires n <= |rows| && Advancing(rows) && Streamed(g, rows, n).Some?
    ensures StreamClaims(g, rows, n) == ClaimedControls(rows, n, g.window)
  {
    if n > 0 {
      StreamClaimsAreClaimed(g, rows, n - 1);
      GateTracksRun(g, rows, n);
      RunIsWindow(rows, n, g.window);
    }
  }

  /** The gate accepts a recording exactly when its controls advance from a
      non-negative one and its decisions are known. */
  predicate WellFormed(rows: seq<Row>, n: nat)
    requires n <= |rows|
  {
    && Advancing(rows[..n])
    && (n > 0 ==> rows[0].control >= 0)
    && (forall i | 0 <= i < n :: !rows[i].decision.Malformed?)
  }

  lemma {:induction false} GateAcceptsWellFormed(g: Gate, rows: seq<Row>, n: nat)
    requires g == NewGate(g.window) && n <= |rows|
    ensures Streamed(g, rows, n).Some? <==> WellFormed(rows, n)
    ensures Streamed(g, rows, n).Some? && n > 0 ==> Streamed(g, rows, n).value.last == Some(rows[n - 1].control)
  {
    if n > 0 {
      GateAcceptsWellFormed(g, rows, n - 1);
      var all, less := rows[..n], rows[..n - 1];
      assert forall i | 0 <= i < n - 1 :: all[i] == less[i];
      if WellFormed(rows, n) {
        assert WellFormed(rows, n - 1);
        assert n > 1 ==> all[0].control <= all[n - 2].control < all[n - 1].control;
      }
      if WellFormed(rows, n - 1) && !Refuses(Streamed(g, rows, n - 1).value, rows[n - 1]) {
        forall i, j | 0 <= i < j < n ensures all[i].control < all[j].control {
          if j == n - 1 && i < n - 2 {
            assert less[i].control < less[n - 2].control;
          }
        }
      }
    }
  }

  lemma {:induction false} KeptWhole(rows: seq<Row>, n: nat)
    requires n <= |rows|
    ensures Kept(rows, n, false) == rows[..n]
  {
    if n > 0 {
      KeptWhole(rows, n - 1);
    }
  }

  /** On every recording the gate accepts, gaps included, it claims exactly the controls
      the auditor claims; it refuses only what starts below zero or does not advance. */
  lemma StreamingEqualsAudit(rows: seq<Row>)
    requires forall i | 0 <= i < |rows| :: !rows[i].decision.Malformed?
    ensures Streamed(NewGate(10), rows, |rows|).Some? <==>
              Advancing(rows) && (rows != [] ==> rows[0].control >= 0)
    ensures Streamed(NewGate(10), rows, |rows|).Some? ==>
              StreamClaims(NewGate(10), rows, |rows|) ==
              ClaimedControls(Kept(rows, |rows|, false), |Kept(rows, |rows|, false)|, Window(true))
  {
    GateAcceptsWellFormed(NewGate(10), rows, |rows|);
    assert rows[..|rows|] == rows;
    KeptWhole(rows, |rows|);
    if Streamed(NewGate(10), rows, |rows|).Some? {
      StreamClaimsAreClaimed(NewGate(10), rows, |rows|);
    }
  }
}
