/** Facts about sequences that loop invariants over growing sequences rely on, stated once
    for every element type. */
module SeqFacts {

  /** `if (cond) xs.push(x)`: `xs` with `x` appended when `cond` holds. */
  function Push<T>(xs: seq<T>, cond: bool, x: T): seq<T> {
    if cond then xs + [x] else xs
  }

  lemma AppendAssoc<T>(a: seq<T>, b: seq<T>, c: seq<T>)
    ensures a + b + c == a + (b + c)
  {
  }

  lemma InAppend<T>(x: T, a: seq<T>, b: seq<T>)
    ensures x in a + b <==> x in a || x in b
  {
  }

  /** Extending a prefix by the next element gives the next prefix. */
  lemma TakeStep<T>(s: seq<T>, i: nat)
    requires i < |s|
    ensures s[..i] + [s[i]] == s[..i + 1]
  {
  }

  /** `new Set(xs)`: the distinct elements of `xs`. */
  function SetOf<T>(xs: seq<T>): set<T> {
    if xs == [] then {} else SetOf(xs[..|xs| - 1]) + {xs[|xs| - 1]}
  }

  /** Some element occurs twice in `xs`. */
  predicate HasRepeat<T(==)>(xs: seq<T>) {
    exists i, j :: 0 <= i < j < |xs| && xs[i] == xs[j]
  }

  lemma {:induction false} SetOfMembers<T>(xs: seq<T>)
    ensures forall x :: x in SetOf(xs) <==> x in xs
  {
    if xs != [] {
      SetOfMembers(xs[..|xs| - 1]);
      assert xs == xs[..|xs| - 1] + [xs[|xs| - 1]];
    }
  }

  /** `new Set(xs).size` equals `xs.length` exactly when no element repeats. */
  lemma {:induction false} SetOfSize<T>(xs: seq<T>)
    ensures |SetOf(xs)| <= |xs|
    ensures |SetOf(xs)| == |xs| <==> !HasRepeat(xs)
  {
    if xs != [] {
      var n := |xs|;
      var p := xs[..n - 1];
      SetOfSize(p);
      SetOfMembers(p);
      if xs[n - 1] in SetOf(p) {
        var i :| 0 <= i < |p| && p[i] == xs[n - 1];
        assert xs[i] == xs[n - 1];
      } else {
        if HasRepeat(xs) {
          var i, j :| 0 <= i < j < n && xs[i] == xs[j];
          assert p[i] == p[j];
        }
        if HasRepeat(p) {
          var i, j :| 0 <= i < j < |p| && p[i] == p[j];
          assert xs[i] == xs[j];
        }
      }
    }
  }
}
