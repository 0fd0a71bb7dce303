/** Finite paths of a step relation. */
module Paths {
  ghost predicate Leads<T>(next: (T, T) -> bool, run: seq<T>, i: int) {
    0 < i < |run| && next(run[i-1], run[i])
  }

  ghost predicate IsPath<T>(next: (T, T) -> bool, run: seq<T>, w: T, x: T) {
    |run| > 0 && run[0] == w && run[|run|-1] == x && forall i :: 0 < i < |run| ==> Leads(next, run, i)
  }

  ghost predicate Connects<T(!new)>(next: (T, T) -> bool, w: T, x: T) {
    exists run :: IsPath(next, run, w, x)
  }

  lemma Single<T(!new)>(next: (T, T) -> bool, w: T, x: T)
    requires next(w, x)
    ensures Connects(next, w, x)
  {
    assert IsPath(next, [w, x], w, x);
  }

  lemma Transitive<T(!new)>(next: (T, T) -> bool, w: T, x: T, y: T)
    requires Connects(next, w, x) && Connects(next, x, y)
    ensures Connects(next, w, y)
  {
    var a :| IsPath(next, a, w, x);
    var b :| IsPath(next, b, x, y);
    var c := a + b[1..];
    forall i | 0 < i < |c| ensures Leads(next, c, i) {
      if i < |a| {
        assert Leads(next, a, i);
      } else {
        assert Leads(next, b, i - |a| + 1);
      }
    }
    assert IsPath(next, c, w, y);
  }
}
