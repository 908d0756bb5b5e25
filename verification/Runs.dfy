/** Runs of a state machine.

    A machine is a total step function.  An action that is not enabled leaves the state as it
    is, so every sequence of actions is a run, and the states of a run are the states after its
    prefixes.  A theorem about `After(step, s, acts)` for all `acts` is therefore a theorem
    about every state of every run. */
module Runs {

  function After<S, A>(step: (S, A) -> S, s: S, acts: seq<A>): (t: S)
  {
    if acts == [] then s
    else step(After(step, s, acts[..|acts| - 1]), acts[|acts| - 1])
  }

  lemma Extend<S, A>(step: (S, A) -> S, s: S, acts: seq<A>, a: A)
    ensures After(step, s, acts + [a]) == step(After(step, s, acts), a)
  {
    assert (acts + [a])[..|acts|] == acts;
  }

  lemma TwoSteps<S, A>(step: (S, A) -> S, s: S, a: A, b: A)
    ensures After(step, s, [a]) == step(s, a)
    ensures After(step, s, [a, b]) == step(step(s, a), b)
  {
    assert [a] == [] + [a] && [a, b] == [a] + [b];
    Extend(step, s, [], a);
    Extend(step, s, [a], b);
  }

  lemma ThreeSteps<S, A>(step: (S, A) -> S, s: S, a: A, b: A, c: A)
    ensures After(step, s, [a, b, c]) == step(step(step(s, a), b), c)
  {
    assert [a, b, c] == [a, b] + [c];
    TwoSteps(step, s, a, b);
    Extend(step, s, [a, b], c);
  }

  lemma {:induction false} Concat<S, A>(step: (S, A) -> S, s: S, xs: seq<A>, ys: seq<A>)
    ensures After(step, s, xs + ys) == After(step, After(step, s, xs), ys)
    decreases |ys|
  {
    if ys == [] {
      assert xs + ys == xs;
    } else {
      var front, last := ys[..|ys| - 1], ys[|ys| - 1];
      assert xs + ys == (xs + front) + [last];
      Extend(step, s, xs + front, last);
      Concat(step, s, xs, front);
    }
  }

  /** Some run leads from `s` to `t`. */
  ghost predicate Reaches<S(!new), A(!new)>(step: (S, A) -> S, s: S, t: S) {
    exists acts: seq<A> :: After(step, s, acts) == t
  }

  lemma ReachesItself<S(!new), A(!new)>(step: (S, A) -> S, s: S)
    ensures Reaches(step, s, s)
  {
    assert After(step, s, []) == s;
  }

  lemma ReachesNext<S(!new), A(!new)>(step: (S, A) -> S, s: S, t: S, a: A) returns (u: S)
    requires Reaches(step, s, t)
    ensures u == step(t, a) && Reaches(step, s, u)
  {
    var acts :| After(step, s, acts) == t;
    Extend(step, s, acts, a);
    u := step(t, a);
  }

  lemma ReachesOn<S(!new), A(!new)>(step: (S, A) -> S, s: S, t: S, u: S)
    requires Reaches(step, s, t) && Reaches(step, t, u)
    ensures Reaches(step, s, u)
  {
    var xs :| After(step, s, xs) == t;
    var ys :| After(step, t, ys) == u;
    Concat(step, s, xs, ys);
  }

  /** What holds at first and is kept by every step holds after every run. */
  lemma {:induction false} Invariance<S(!new), A(!new)>(
      step: (S, A) -> S, inv: S -> bool, s: S, acts: seq<A>)
    requires inv(s)
    requires forall t, a :: inv(t) ==> inv(step(t, a))
    ensures inv(After(step, s, acts))
    decreases |acts|
  {
    if acts == [] {
    } else {
      Invariance(step, inv, s, acts[..|acts| - 1]);
    }
  }

  /** Every state of the run satisfies `ok`. */
  ghost predicate Throughout<S, A>(step: (S, A) -> S, ok: S -> bool, s: S, acts: seq<A>)
  {
    forall i :: 0 <= i <= |acts| ==> ok(After(step, s, acts[..i]))
  }

  lemma ThroughoutPrefix<S, A>(step: (S, A) -> S, ok: S -> bool, s: S, acts: seq<A>, n: nat)
    requires Throughout(step, ok, s, acts) && n <= |acts|
    ensures Throughout(step, ok, s, acts[..n])
  {
    forall i | 0 <= i <= n ensures ok(After(step, s, acts[..n][..i])) {
      assert acts[..n][..i] == acts[..i];
    }
  }

  /** One more good state extends a good run. */
  lemma ThroughoutExtend<S, A>(step: (S, A) -> S, ok: S -> bool, s: S, acts: seq<A>, a: A)
    requires Throughout(step, ok, s, acts) && ok(step(After(step, s, acts), a))
    ensures Throughout(step, ok, s, acts + [a])
    ensures After(step, s, acts + [a]) == step(After(step, s, acts), a)
  {
    Extend(step, s, acts, a);
    forall i | 0 <= i <= |acts| + 1 ensures ok(After(step, s, (acts + [a])[..i])) {
      if i <= |acts| {
        assert (acts + [a])[..i] == acts[..i];
      } else {
        assert (acts + [a])[..i] == acts + [a];
      }
    }
  }

  /** Some run whose states all satisfy `ok` leads from `s` to `t`. */
  ghost predicate ReachesThrough<S(!new), A(!new)>(step: (S, A) -> S, ok: S -> bool, s: S, t: S) {
    exists acts: seq<A> :: Throughout(step, ok, s, acts) && After(step, s, acts) == t
  }

  lemma ThroughItself<S(!new), A(!new)>(step: (S, A) -> S, ok: S -> bool, s: S)
    requires ok(s)
    ensures ReachesThrough(step, ok, s, s)
  {
    var acts: seq<A> := [];
    assert After(step, s, acts) == s;
    assert Throughout(step, ok, s, acts) by {
      forall i | 0 <= i <= |acts| ensures ok(After(step, s, acts[..i])) {
        assert acts[..i] == [];
      }
    }
  }

  lemma ThroughNext<S(!new), A(!new)>(step: (S, A) -> S, ok: S -> bool, s: S, t: S, a: A)
    requires ReachesThrough(step, ok, s, t) && ok(step(t, a))
    ensures ReachesThrough(step, ok, s, step(t, a))
  {
    var acts: seq<A> :| Throughout(step, ok, s, acts) && After(step, s, acts) == t;
    ThroughoutExtend(step, ok, s, acts, a);
  }

  lemma ThroughEnd<S(!new), A(!new)>(step: (S, A) -> S, ok: S -> bool, s: S, t: S)
    requires ReachesThrough(step, ok, s, t)
    ensures ok(t)
  {
    var acts: seq<A> :| Throughout(step, ok, s, acts) && After(step, s, acts) == t;
    assert acts[..|acts|] == acts;
  }

  /** Invariance along the runs whose states all satisfy `ok`. */
  lemma {:induction false} InvarianceAlong<S(!new), A(!new)>(
      step: (S, A) -> S, ok: S -> bool, inv: S -> bool, s: S, acts: seq<A>)
    requires Throughout(step, ok, s, acts)
    requires inv(s)
    requires forall t, a :: inv(t) && ok(t) && ok(step(t, a)) ==> inv(step(t, a))
    ensures inv(After(step, s, acts)) && ok(After(step, s, acts))
    decreases |acts|
  {
    assert acts[..|acts|] == acts;
    if acts == [] {
    } else {
      var n := |acts| - 1;
      ThroughoutPrefix(step, ok, s, acts, n);
      InvarianceAlong(step, ok, inv, s, acts[..n]);
    }
  }

  // ---- what a run leaves on record -----------------------------------------------------------

  /** A record that `note` keeps of a run, from `m` on. */
  function Noted<S, A, M>(step: (S, A) -> S, note: (S, A, M) -> M, s: S, m: M, acts: seq<A>): M {
    if acts == [] then m
    else
      var front := acts[..|acts| - 1];
      note(After(step, s, front), acts[|acts| - 1], Noted(step, note, s, m, front))
  }

  /** Invariance of a state together with its record. */
  lemma {:induction false} NotedInvariance<S(!new), A(!new), M(!new)>(
      step: (S, A) -> S, note: (S, A, M) -> M, inv: (S, M) -> bool, s: S, m: M, acts: seq<A>)
    requires inv(s, m)
    requires forall t, n, a :: inv(t, n) ==> inv(step(t, a), note(t, a, n))
    ensures inv(After(step, s, acts), Noted(step, note, s, m, acts))
    decreases |acts|
  {
    if acts == [] {
    } else {
      NotedInvariance(step, note, inv, s, m, acts[..|acts| - 1]);
    }
  }

  /** The items that the steps of a run contribute, in their order. */
  function Collected<S, A, X>(step: (S, A) -> S, part: (S, A) -> seq<X>, s: S, acts: seq<A>): seq<X> {
    if acts == [] then []
    else
      var front := acts[..|acts| - 1];
      Collected(step, part, s, front) + part(After(step, s, front), acts[|acts| - 1])
  }

  /** A queue: if each step adds `into` behind what is there and takes `out` from the front, then
      all that went in is all that came out and what is still there, in that order. */
  lemma {:induction false} Conserved<S(!new), A(!new), X(!new)>(
      step: (S, A) -> S, inv: S -> bool, into: (S, A) -> seq<X>, out: (S, A) -> seq<X>, there: S -> seq<X>,
      s: S, acts: seq<A>)
    requires inv(s)
    requires forall t, a :: inv(t) ==> inv(step(t, a)) && there(t) + into(t, a) == out(t, a) + there(step(t, a))
    ensures inv(After(step, s, acts))
    ensures there(s) + Collected(step, into, s, acts) == Collected(step, out, s, acts) + there(After(step, s, acts))
    decreases |acts|
  {
    if acts == [] {
      assert there(s) + [] == [] + there(s);
    } else {
      var front, a := acts[..|acts| - 1], acts[|acts| - 1];
      Conserved(step, inv, into, out, there, s, front);
      var t := After(step, s, front);
      var i, o := Collected(step, into, s, front), Collected(step, out, s, front);
      assert there(s) + (i + into(t, a)) == (there(s) + i) + into(t, a);
      assert (o + there(t)) + into(t, a) == o + (there(t) + into(t, a));
      assert o + (out(t, a) + there(step(t, a))) == (o + out(t, a)) + there(step(t, a));
    }
  }
}
