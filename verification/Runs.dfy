/** Runs of a contract: finite sequences of calls, each taking the state to the next one. */
module Runs {
  import opened Chain

  function Run<S, C>(next: (S, C) -> S, s: S, calls: seq<C>): S
    decreases |calls|
  {
    if calls == [] then s else Run(next, next(s, calls[0]), calls[1..])
  }

  /** Running two sequences of calls one after the other is running their concatenation. */
  lemma {:induction false} RunAppend<S, C>(next: (S, C) -> S, s: S, a: seq<C>, b: seq<C>)
    ensures Run(next, s, a + b) == Run(next, Run(next, s, a), b)
    decreases |a|
  {
    if a == [] {
      assert a + b == b;
    } else {
      assert (a + b)[1..] == a[1..] + b;
      RunAppend(next, next(s, a[0]), a[1..], b);
    }
  }

  /** A run is the calls before call `i`, call `i`, and the calls after it. */
  lemma RunSplit<S, C>(next: (S, C) -> S, s: S, calls: seq<C>, i: nat)
    requires i < |calls|
    ensures Run(next, s, calls) == Run(next, next(Run(next, s, calls[..i]), calls[i]), calls[i + 1..])
  {
    var tail := [calls[i]] + calls[i + 1..];
    assert calls == calls[..i] + tail;
    RunAppend(next, s, calls[..i], tail);
    assert tail[1..] == calls[i + 1..];
  }

  /** What a run adds up: the measure of every call, taken in the state the call finds. */
  function Collect<S, C>(next: (S, C) -> S, measure: (S, C) -> int, s: S, calls: seq<C>): int
    decreases |calls|
  {
    if calls == [] then 0
    else measure(s, calls[0]) + Collect(next, measure, next(s, calls[0]), calls[1..])
  }

  /** What the last call of a run that sets something sets, if any does. */
  function Last<C, V>(calls: seq<C>, sets: C -> Option<V>): Option<V>
    decreases |calls|
  {
    if calls == [] then None
    else
      var later := Last(calls[1..], sets);
      if later.Some? then later else sets(calls[0])
  }
}
