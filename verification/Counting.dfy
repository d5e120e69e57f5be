/** Counting the entries of a finite map whose value satisfies a predicate.
    The state machines of this project use it to tie a counter kept by the
    program to the threads that stand at certain program points. */
module Counting {

  /** The keys of `m` whose value satisfies `p`. */
  ghost function Where<T, P>(m: map<T, P>, p: P -> bool): set<T> {
    set t | t in m && p(m[t])
  }

  ghost function Count<T, P>(m: map<T, P>, p: P -> bool): nat {
    |Where(m, p)|
  }

  /** Moving one entry changes the count by at most one, in the obvious way. */
  lemma CountUpdate<T, P>(m: map<T, P>, t: T, x: P, p: P -> bool)
    requires t in m
    ensures Count(m[t := x], p)
         == Count(m, p) - (if p(m[t]) then 1 else 0) + (if p(x) then 1 else 0)
  {
    var rest := Where(m, p) - {t};
    assert Where(m[t := x], p) == if p(x) then rest + {t} else rest;
    assert Where(m, p) == if p(m[t]) then rest + {t} else rest;
  }

  /** The count depends only on which keys satisfy the predicate. */
  lemma CountSame<T, P>(m: map<T, P>, m': map<T, P>, p: P -> bool)
    requires m.Keys == m'.Keys
    requires forall t | t in m :: p(m[t]) == p(m'[t])
    ensures Count(m, p) == Count(m', p)
  {
    assert Where(m, p) == Where(m', p);
  }

  /** A positive count has a witness, and a witness makes the count positive. */
  lemma CountPositive<T, P>(m: map<T, P>, p: P -> bool)
    ensures Count(m, p) > 0 <==> exists t :: t in m && p(m[t])
  {
    if Count(m, p) > 0 {
      var t :| t in Where(m, p);
    }
    if exists t :: t in m && p(m[t]) {
      var t :| t in m && p(m[t]);
      assert t in Where(m, p);
    }
  }
}
