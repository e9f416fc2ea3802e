/**
  The exercise selector's options: the distinct exercise names of the past
  workouts, in the order JavaScript's default `sort()` puts strings
  (lexicographic by character code).
 */
module ExerciseList {

  /** `a` sorts strictly before `b`: at the first difference `a` has the smaller
      character, or `a` is a proper prefix of `b`. */
  predicate Before(a: string, b: string) {
    |b| > 0 && (|a| == 0 || a[0] < b[0] || (a[0] == b[0] && Before(a[1..], b[1..])))
  }

  lemma {:induction false} BeforeIrreflexive(a: string)
    ensures !Before(a, a)
  {
    if |a| > 0 {
      BeforeIrreflexive(a[1..]);
    }
  }

  lemma {:induction false} BeforeTransitive(a: string, b: string, c: string)
    requires Before(a, b) && Before(b, c)
    ensures Before(a, c)
  {
    if |a| > 0 && a[0] == b[0] && b[0] == c[0] {
      BeforeTransitive(a[1..], b[1..], c[1..]);
    }
  }

  lemma {:induction false} BeforeTotal(a: string, b: string)
    requires a != b
    ensures Before(a, b) || Before(b, a)
  {
    if |a| > 0 && |b| > 0 && a[0] == b[0] {
      assert a == [a[0]] + a[1..] && b == [b[0]] + b[1..];
      BeforeTotal(a[1..], b[1..]);
    }
  }

  lemma BeforeAsymmetric(a: string, b: string)
    requires Before(a, b)
    ensures !Before(b, a)
  {
    if Before(b, a) {
      BeforeTransitive(a, b, a);
      BeforeIrreflexive(a);
    }
  }

  /** Strictly ascending, hence free of duplicates. */
  predicate Ascending(s: seq<string>) {
    forall i, j :: 0 <= i < j < |s| ==> Before(s[i], s[j])
  }

  function Elems(s: seq<string>): set<string> {
    set x | x in s
  }

  /** Put `x` into its place in an ascending sequence, unless it is already there. */
  function Insert(x: string, s: seq<string>): (r: seq<string>)
    requires Ascending(s)
    ensures Ascending(r)
    ensures Elems(r) == Elems(s) + {x}
  {
    if |s| == 0 then [x]
    else if x == s[0] then s
    else if Before(x, s[0]) then
      assert forall j :: 0 <= j < |s| ==> Before(x, s[j]) by {
        forall j | 0 <= j < |s| ensures Before(x, s[j]) {
          if j > 0 { BeforeTransitive(x, s[0], s[j]); }
        }
      }
      assert Elems([x] + s) == Elems(s) + {x};
      [x] + s
    else
      var rest := Insert(x, s[1..]);
      BeforeTotal(x, s[0]);
      assert forall y :: y in rest ==> Before(s[0], y) by {
        forall y | y in rest ensures Before(s[0], y) {
          assert y in Elems(rest);
          if y != x {
            assert y in Elems(s[1..]);
            var k :| 0 <= k < |s[1..]| && s[1..][k] == y;
            assert s[k + 1] == y;
          }
        }
      }
      assert Elems([s[0]] + rest) == {s[0]} + Elems(rest);
      assert Elems(s) == {s[0]} + Elems(s[1..]) by {
        assert s == [s[0]] + s[1..];
      }
      [s[0]] + rest
  }

  /** `[...new Set(names)].sort()` */
  function UniqueSorted(names: seq<string>): (r: seq<string>)
    ensures Ascending(r)
    ensures Elems(r) == Elems(names)
  {
    if |names| == 0 then []
    else
      var init := names[..|names| - 1];
      assert Elems(names) == Elems(init) + {names[|names| - 1]} by {
        assert names == init + [names[|names| - 1]];
      }
      Insert(names[|names| - 1], UniqueSorted(init))
  }

  /** Two ascending sequences with the same elements are equal: the sorted,
      de-duplicated list is determined by the set of names alone. */
  lemma {:induction false} AscendingUnique(a: seq<string>, b: seq<string>)
    requires Ascending(a) && Ascending(b)
    requires Elems(a) == Elems(b)
    ensures a == b
    decreases |a|
  {
    if |a| > 0 {
      assert a[0] in Elems(a);
    }
    if |b| > 0 {
      assert b[0] in Elems(b);
    }
    if |a| > 0 && |b| > 0 {
      assert a[0] in Elems(b) && b[0] in Elems(a);
      if a[0] != b[0] {
        var i :| 0 <= i < |b| && b[i] == a[0];
        var j :| 0 <= j < |a| && a[j] == b[0];
        assert Before(b[0], a[0]);
        assert Before(a[0], b[0]);
        BeforeAsymmetric(a[0], b[0]);
      }
      assert Elems(a[1..]) == Elems(a) - {a[0]} by {
        assert a == [a[0]] + a[1..];
        forall k | 0 <= k < |a[1..]| ensures a[1..][k] != a[0] {
          BeforeIrreflexive(a[0]);
        }
      }
      assert Elems(b[1..]) == Elems(b) - {b[0]} by {
        assert b == [b[0]] + b[1..];
        forall k | 0 <= k < |b[1..]| ensures b[1..][k] != b[0] {
          BeforeIrreflexive(b[0]);
        }
      }
      AscendingUnique(a[1..], b[1..]);
      assert a == [a[0]] + a[1..] && b == [b[0]] + b[1..];
    }
  }

  /** The exercise list depends only on which names occur, not on their order or
      on how often each occurs. */
  lemma UniqueSortedIgnoresOrder(xs: seq<string>, ys: seq<string>)
    requires Elems(xs) == Elems(ys)
    ensures UniqueSorted(xs) == UniqueSorted(ys)
  {
    AscendingUnique(UniqueSorted(xs), UniqueSorted(ys));
  }

  /** Ascending sequences hold each element once: the list is exactly as long as the
      number of distinct names. */
  lemma {:induction false} AscendingDistinct(s: seq<string>)
    requires Ascending(s)
    ensures |Elems(s)| == |s|
    decreases |s|
  {
    if |s| > 0 {
      assert Elems(s) == {s[0]} + Elems(s[1..]) by {
        assert s == [s[0]] + s[1..];
      }
      assert s[0] !in Elems(s[1..]) by {
        if s[0] in Elems(s[1..]) {
          var k :| 0 <= k < |s[1..]| && s[1..][k] == s[0];
          assert Before(s[0], s[k + 1]);
          BeforeIrreflexive(s[0]);
        }
      }
      AscendingDistinct(s[1..]);
    }
  }

  lemma UniqueSortedLength(names: seq<string>)
    ensures |UniqueSorted(names)| == |Elems(names)|
  {
    AscendingDistinct(UniqueSorted(names));
  }
}
