/**
 * Repeated calls of a step function with the same inputs: the state after k
 * calls and everything the calls produced, in order.
 */
module Runs {
  /** k calls of `f` from `s`: the final state and the outputs of the calls, concatenated. */
  function Run<S, O>(f: S -> (S, seq<O>), s: S, k: nat): (r: (S, seq<O>))
    ensures k == 0 ==> r == (s, [])
  {
    if k == 0 then (s, [])
    else
      var (t, a) := Run(f, s, k - 1);
      var (u, b) := f(t);
      (u, a + b)
  }

  /** One call is the step itself. */
  lemma RunOne<S, O>(f: S -> (S, seq<O>), s: S)
    ensures Run(f, s, 1) == f(s)
  {
    var nothing: seq<O> := [];
    assert nothing + f(s).1 == f(s).1;
  }

  /** a + b calls are a calls followed by b calls from where they left off. */
  lemma {:induction false} RunAdd<S, O>(f: S -> (S, seq<O>), s: S, a: nat, b: nat)
    ensures Run(f, s, a + b) == (Run(f, Run(f, s, a).0, b).0, Run(f, s, a).1 + Run(f, Run(f, s, a).0, b).1)
    decreases b
  {
    var ra := Run(f, s, a);
    if b == 0 {
      assert ra.1 + [] == ra.1;
    } else {
      var rb := Run(f, ra.0, b - 1);
      assert Run(f, s, a + b - 1) == (rb.0, ra.1 + rb.1) by { RunAdd(f, s, a, b - 1); }
      var st := f(rb.0);
      assert (ra.1 + rb.1) + st.1 == ra.1 + (rb.1 + st.1);
    }
  }

  /** A state the step keeps: every call from such a state leads to such a state. */
  ghost predicate Keeps<S(!new), O>(f: S -> (S, seq<O>), ok: S -> bool) {
    forall t {:trigger f(t)} :: ok(t) ==> ok(f(t).0)
  }

  /** Whatever the step keeps, any number of calls keeps. */
  lemma {:induction false} RunKeeps<S(!new), O>(f: S -> (S, seq<O>), ok: S -> bool, s: S, k: nat)
    requires Keeps(f, ok) && ok(s)
    ensures ok(Run(f, s, k).0)
  {
    if k > 0 {
      RunKeeps(f, ok, s, k - 1);
    }
  }

  /** Two runs back to back are one run of the combined length. */
  lemma RunThen<S, O>(f: S -> (S, seq<O>), s: S, a: nat, t: S, x: seq<O>, b: nat, u: S, y: seq<O>, c: nat, z: seq<O>)
    requires Run(f, s, a) == (t, x) && Run(f, t, b) == (u, y)
    requires c == a + b && z == x + y
    ensures Run(f, s, c) == (u, z)
  {
    RunAdd(f, s, a, b);
  }
}
