/** Small wrapper datatypes and sequence helpers shared by the other modules. */
module Common {

  datatype Option<+T> = None | Some(value: T)

  /** The elements of `s` that satisfy `keep`, in their order in `s`. */
  function Filter<T(==, !new)>(s: seq<T>, keep: T -> bool): (r: seq<T>)
    ensures |r| <= |s|
  {
    if s == [] then []
    else Filter(s[..|s| - 1], keep) + (if keep(s[|s| - 1]) then [s[|s| - 1]] else [])
  }

  /** The filtered sequence holds exactly the elements of `s` that pass `keep`. */
  lemma {:induction false} FilterMembers<T(!new)>(s: seq<T>, keep: T -> bool)
    ensures forall x :: x in Filter(s, keep) <==> x in s && keep(x)
  {
    if s != [] {
      FilterMembers(s[..|s| - 1], keep);
      assert s == s[..|s| - 1] + [s[|s| - 1]];
    }
  }

  /** Filtering one more element extends the filtered prefix. */
  lemma FilterSnoc<T(!new)>(s: seq<T>, x: T, keep: T -> bool)
    ensures Filter(s + [x], keep) == Filter(s, keep) + (if keep(x) then [x] else [])
  {
    assert (s + [x])[..|s|] == s;
  }

  /** Two tests that agree on the elements of `s` keep the same elements. */
  lemma {:induction false} FilterPointwise<T(!new)>(s: seq<T>, k1: T -> bool, k2: T -> bool)
    requires forall x :: x in s ==> k1(x) == k2(x)
    ensures Filter(s, k1) == Filter(s, k2)
  {
    if s != [] {
      FilterPointwise(s[..|s| - 1], k1, k2);
      assert s[|s| - 1] in s;
    }
  }

  /** A test every element passes keeps the whole sequence. */
  lemma {:induction false} FilterKeepsAll<T(!new)>(s: seq<T>, keep: T -> bool)
    requires forall x :: x in s ==> keep(x)
    ensures Filter(s, keep) == s
  {
    if s != [] {
      var init, x := s[..|s| - 1], s[|s| - 1];
      assert s == init + [x];
      assert forall y :: y in init ==> y in s;
      FilterKeepsAll(init, keep);
      assert x in s && keep(x);
    }
  }

  /** Filtering by `k1` and then by `k2` is filtering by any test that agrees with both. */
  lemma {:induction false} FilterThenFilter<T(!new)>(s: seq<T>, k1: T -> bool, k2: T -> bool, k: T -> bool)
    requires forall x :: x in s ==> (k1(x) && k2(x)) == k(x)
    ensures Filter(Filter(s, k1), k2) == Filter(s, k)
  {
    if s != [] {
      var init, x := s[..|s| - 1], s[|s| - 1];
      assert s == init + [x];
      assert x in s;
      assert forall y :: y in init ==> y in s;
      FilterThenFilter(init, k1, k2, k);
      assert Filter(s, k) == Filter(init, k) + (if k(x) then [x] else []);
      if k1(x) {
        assert Filter(s, k1) == Filter(init, k1) + [x];
        FilterSnoc(Filter(init, k1), x, k2);
      } else {
        assert Filter(s, k1) == Filter(init, k1);
      }
    }
  }
}
