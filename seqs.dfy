/**
  The array operations the relay borrows from JavaScript and lodash:
  `Array.prototype.filter`, `Array.prototype.find` and `Array.prototype.reverse`.
 */
module Seqs {
  import opened Values

  /** `s.filter(keep)`: the elements that satisfy `keep`, in their order in `s`. */
  function Filter<T>(s: seq<T>, keep: T -> bool): seq<T>
    decreases |s|
  {
    if |s| == 0 then []
    else Filter(s[..|s| - 1], keep) + (if keep(s[|s| - 1]) then [s[|s| - 1]] else [])
  }

  /** Filtering keeps exactly the elements that satisfy the test, and never adds any. */
  lemma {:induction false} FilterMembers<T>(s: seq<T>, keep: T -> bool)
    ensures |Filter(s, keep)| <= |s|
    ensures forall x :: x in Filter(s, keep) ==> x in s && keep(x)
    ensures forall x :: x in s && keep(x) ==> x in Filter(s, keep)
    decreases |s|
  {
    if |s| > 0 {
      FilterMembers(s[..|s| - 1], keep);
      assert s == s[..|s| - 1] + [s[|s| - 1]];
    }
  }

  /** Filtering commutes with concatenation, so the survivors keep their relative order. */
  lemma {:induction false} FilterAppend<T>(a: seq<T>, b: seq<T>, keep: T -> bool)
    ensures Filter(a + b, keep) == Filter(a, keep) + Filter(b, keep)
    decreases |b|
  {
    if |b| > 0 {
      var b' := b[..|b| - 1];
      assert (a + b)[..|a + b| - 1] == a + b';
      FilterAppend(a, b', keep);
    } else {
      assert a + b == a;
    }
  }

  /** A list whose every element passes the test comes through unchanged. */
  lemma {:induction false} FilterKeepsAll<T>(s: seq<T>, keep: T -> bool)
    requires forall i :: 0 <= i < |s| ==> keep(s[i])
    ensures Filter(s, keep) == s
    decreases |s|
  {
    if |s| > 0 {
      FilterKeepsAll(s[..|s| - 1], keep);
      assert s == s[..|s| - 1] + [s[|s| - 1]];
    }
  }

  /** Filtering out the one failing element between two passing runs joins the runs. */
  lemma {:induction false} FilterDropsOne<T>(a: seq<T>, x: T, b: seq<T>, keep: T -> bool)
    requires forall i :: 0 <= i < |a| ==> keep(a[i])
    requires forall i :: 0 <= i < |b| ==> keep(b[i])
    requires !keep(x)
    ensures Filter(a + [x] + b, keep) == a + b
  {
    FilterAppend(a + [x], b, keep);
    FilterAppend(a, [x], keep);
    FilterKeepsAll(a, keep);
    FilterKeepsAll(b, keep);
    assert Filter([x], keep) == [] by {
      assert [x][..0] == [];
    }
  }

  /** Filtering twice with the same test is filtering once. */
  lemma {:induction false} FilterTwice<T>(s: seq<T>, keep: T -> bool)
    ensures Filter(Filter(s, keep), keep) == Filter(s, keep)
  {
    FilterMembers(s, keep);
    var f := Filter(s, keep);
    forall i | 0 <= i < |f| ensures keep(f[i]) {
      assert f[i] in Filter(s, keep);
    }
    FilterKeepsAll(f, keep);
  }

  /** Two tests that agree on every element of the list filter it alike. */
  lemma {:induction false} FilterAgree<T>(s: seq<T>, keep: T -> bool, keep': T -> bool)
    requires forall i :: 0 <= i < |s| ==> keep(s[i]) == keep'(s[i])
    ensures Filter(s, keep) == Filter(s, keep')
    decreases |s|
  {
    if |s| > 0 {
      FilterAgree(s[..|s| - 1], keep, keep');
    }
  }

  /** `s.find(test)`: the first element that satisfies `test`, or `None` (undefined). */
  function FindFirst<T>(s: seq<T>, test: T -> bool): Option<T>
    decreases |s|
  {
    if |s| == 0 then None
    else if test(s[0]) then Some(s[0])
    else FindFirst(s[1..], test)
  }

  /** `find` answers with the element at the first index that passes the test, and with `None` when no index does. */
  lemma {:induction false} FindFirstIff<T>(s: seq<T>, test: T -> bool)
    ensures FindFirst(s, test).None? <==> forall i :: 0 <= i < |s| ==> !test(s[i])
    ensures FindFirst(s, test).Some? ==>
      exists i :: 0 <= i < |s| && s[i] == FindFirst(s, test).value && test(s[i]) &&
        forall j :: 0 <= j < i ==> !test(s[j])
    decreases |s|
  {
    if |s| > 0 && !test(s[0]) {
      FindFirstIff(s[1..], test);
      if FindFirst(s[1..], test).Some? {
        var i :| 0 <= i < |s[1..]| && s[1..][i] == FindFirst(s[1..], test).value && test(s[1..][i]) &&
          forall j :: 0 <= j < i ==> !test(s[1..][j]);
        assert s[i + 1] == s[1..][i];
        forall j | 0 <= j < i + 1 ensures !test(s[j]) {
          if j > 0 { assert s[j] == s[1..][j - 1]; }
        }
      } else {
        forall i | 0 <= i < |s| ensures !test(s[i]) {
          if i > 0 { assert s[i] == s[1..][i - 1]; }
        }
      }
    } else if |s| > 0 {
      assert s[0] == FindFirst(s, test).value;
    }
  }

  /** `s.reverse()`: the elements back to front. */
  function Reverse<T>(s: seq<T>): seq<T>
    decreases |s|
  {
    if |s| == 0 then [] else [s[|s| - 1]] + Reverse(s[..|s| - 1])
  }

  /** Position `k` of the reversed list holds the element `k` places from the end. */
  lemma {:induction false} ReverseAt<T>(s: seq<T>)
    ensures |Reverse(s)| == |s|
    ensures forall k :: 0 <= k < |s| ==> Reverse(s)[k] == s[|s| - 1 - k]
    decreases |s|
  {
    if |s| > 0 {
      var init := s[..|s| - 1];
      ReverseAt(init);
      forall k | 0 <= k < |s| ensures Reverse(s)[k] == s[|s| - 1 - k] {
        if k > 0 {
          assert Reverse(s)[k] == Reverse(init)[k - 1];
        }
      }
    }
  }
}
