/** Runs of the engine's state alone, step by step. */
module EnginePlay {
  import opened EngineState
  import opened EngineHistory

  /** The state alone under a schedule. */
  function Play(c: Config, s: State, schedule: seq<Step>): State
    decreases |schedule|
  {
    if schedule == [] then s else Play(c, Next(c, s, schedule[0]), schedule[1..])
  }

  lemma {:induction false} RunPlays(c: Config, w: World, schedule: seq<Step>)
    ensures Run(c, w, schedule).s == Play(c, w.s, schedule)
    decreases |schedule|
  {
    if schedule != [] {
      RunPlays(c, Advance(c, w, schedule[0]), schedule[1..]);
    }
  }

  lemma {:induction false} PlaySplits(c: Config, s: State, a: seq<Step>, b: seq<Step>)
    ensures Play(c, s, a + b) == Play(c, Play(c, s, a), b)
    decreases |a|
  {
    if a == [] {
      assert a + b == b;
    } else {
      assert (a + b)[0] == a[0] && (a + b)[1..] == a[1..] + b;
      PlaySplits(c, Next(c, s, a[0]), a[1..], b);
    }
  }

  lemma PlayFive(c: Config, s: State, a: Step, b: Step, d: Step, e: Step, f: Step)
    ensures Play(c, s, [a, b, d, e, f]) == Next(c, Next(c, Next(c, Next(c, Next(c, s, a), b), d), e), f)
  {
    var t := Next(c, Next(c, s, a), b);
    assert [a, b, d, e, f][1..] == [b, d, e, f] && [b, d, e, f][1..] == [d, e, f];
    assert [d, e, f][1..] == [e, f] && [e, f][1..] == [f];
    assert Play(c, Next(c, s, a), [b, d, e, f]) == Play(c, t, [d, e, f]);
    assert Play(c, Next(c, t, d), [e, f]) == Play(c, Next(c, Next(c, t, d), e), [f]);
    assert Play(c, Next(c, Next(c, t, d), e), [f]) == Play(c, Next(c, Next(c, Next(c, t, d), e), f), []);
  }
}
