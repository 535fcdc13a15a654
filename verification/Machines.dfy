/** Machines that turn each input into a sequence of outputs. */
module Machines {
  /** Feed all inputs in order; collect the outputs. */
  function Run<S, I, O>(step: (S, I) -> (S, seq<O>), s: S, ins: seq<I>): (S, seq<O>) {
    if ins == [] then
      (s, [])
    else
      var (s1, o1) := step(s, ins[0]);
      var (s2, o2) := Run(step, s1, ins[1..]);
      (s2, o1 + o2)
  }

  lemma {:induction false} RunConcat<S, I, O>(step: (S, I) -> (S, seq<O>), s: S, a: seq<I>, b: seq<I>)
    ensures var (s1, o1) := Run(step, s, a);
            var (s2, o2) := Run(step, s1, b);
            Run(step, s, a + b) == (s2, o1 + o2)
  {
    if a == [] {
      assert a + b == b;
      assert [] + Run(step, s, b).1 == Run(step, s, b).1;
    } else {
      var (s1, o1) := step(s, a[0]);
      RunConcat(step, s1, a[1..], b);
      assert (a + b)[1..] == a[1..] + b;
      var (s2, o2) := Run(step, s1, a[1..]);
      var (s3, o3) := Run(step, s2, b);
      assert o1 + (o2 + o3) == (o1 + o2) + o3;
    }
  }

  lemma RunOne<S, I, O>(step: (S, I) -> (S, seq<O>), s: S, i: I)
    ensures Run(step, s, [i]) == step(s, i)
  {
    var (s1, o1) := step(s, i);
    assert [i][1..] == [];
    assert o1 + [] == o1;
  }

  lemma RunTwo<S, I, O>(step: (S, I) -> (S, seq<O>), s: S, i: I, j: I)
    ensures var (s1, o1) := step(s, i);
            var (s2, o2) := step(s1, j);
            Run(step, s, [i, j]) == (s2, o1 + o2)
  {
    var (s1, o1) := step(s, i);
    RunOne(step, s1, j);
    assert [i, j][1..] == [j];
  }
}
