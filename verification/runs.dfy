/** Runs of a machine that queues frames as it goes. */
module Runs {
  import opened Frames

  /** The state after a run and the queue with the frames of the run added. */
  function Play<S, I>(step: (S, I) -> (S, seq<Frame>), s: S, queue: seq<Frame>, trace: seq<I>): (S, seq<Frame>)
    decreases |trace|
  {
    if trace == [] then (s, queue)
    else
      var (s', queue') := Play(step, s, queue, trace[..|trace| - 1]);
      var (last, out) := step(s', trace[|trace| - 1]);
      (last, queue' + out)
  }

  lemma PlayMore<S, I>(step: (S, I) -> (S, seq<Frame>), s: S, queue: seq<Frame>, trace: seq<I>, input: I)
    ensures
      var (s1, q1) := Play(step, s, queue, trace);
      Play(step, s, queue, trace + [input]) == (step(s1, input).0, q1 + step(s1, input).1)
  {
    assert (trace + [input])[..|trace|] == trace;
  }

  lemma One<S, I>(step: (S, I) -> (S, seq<Frame>), s: S, queue: seq<Frame>, input: I)
    ensures Play(step, s, queue, [input]) == (step(s, input).0, queue + step(s, input).1)
  {
    assert [] + [input] == [input];
    PlayMore(step, s, queue, [], input);
  }

  lemma {:induction false} PlayThen<S, I>(step: (S, I) -> (S, seq<Frame>), s: S, queue: seq<Frame>, a: seq<I>, b: seq<I>)
    ensures Play(step, s, queue, a + b) == Play(step, Play(step, s, queue, a).0, Play(step, s, queue, a).1, b)
    decreases |b|
  {
    if b == [] {
      assert a + b == a;
    } else {
      var n := |b| - 1;
      assert (a + b)[..|a + b| - 1] == a + b[..n];
      PlayThen(step, s, queue, a, b[..n]);
    }
  }

  lemma Chain<S, I>(step: (S, I) -> (S, seq<Frame>), s: S, queue: seq<Frame>, a: seq<I>, b: seq<I>, s1: S, q1: seq<Frame>)
    requires Play(step, s, queue, a) == (s1, q1)
    ensures Play(step, s, queue, a + b) == Play(step, s1, q1, b)
  {
    PlayThen(step, s, queue, a, b);
  }
}
