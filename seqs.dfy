/** `Array.prototype.filter` and the facts about it the model uses. */
module Seqs {

  /** The elements of `items` that `keep` accepts, in their original order. */
  function FilterBy<T>(items: seq<T>, keep: T -> bool): (r: seq<T>)
    ensures |r| <= |items|
    decreases |items|
  {
    if items == [] then []
    else (if keep(items[0]) then [items[0]] else []) + FilterBy(items[1..], keep)
  }

  /** `sub` can be obtained from `s` by deleting elements. */
  predicate IsSubsequence<T(==)>(sub: seq<T>, s: seq<T>)
    decreases |s|
  {
    if sub == [] then true
    else if s == [] then false
    else if sub[0] == s[0] then IsSubsequence(sub[1..], s[1..])
    else IsSubsequence(sub, s[1..])
  }

  /** Membership: exactly the accepted elements of `items` survive. */
  lemma {:induction false} FilterMembers<T>(items: seq<T>, keep: T -> bool, x: T)
    ensures x in FilterBy(items, keep) <==> x in items && keep(x)
    decreases |items|
  {
    if items != [] {
      FilterMembers(items[1..], keep, x);
      assert items == [items[0]] + items[1..];
    }
  }

  /** The filter keeps the order of `items`. */
  lemma {:induction false} FilterIsSubsequence<T>(items: seq<T>, keep: T -> bool)
    ensures IsSubsequence(FilterBy(items, keep), items)
    decreases |items|
  {
    if items != [] {
      var rest := FilterBy(items[1..], keep);
      FilterIsSubsequence(items[1..], keep);
      if keep(items[0]) {
        var r := [items[0]] + rest;
        assert r[0] == items[0] && r[1..] == rest;
      } else {
        assert FilterBy(items, keep) == rest;
        if rest != [] {
          // every survivor is accepted, so the rejected head cannot match it
          FilterMembers(items[1..], keep, rest[0]);
          assert rest[0] != items[0];
        }
      }
    }
  }

  /** Filtering distributes over concatenation. */
  lemma {:induction false} FilterConcat<T>(a: seq<T>, b: seq<T>, keep: T -> bool)
    ensures FilterBy(a + b, keep) == FilterBy(a, keep) + FilterBy(b, keep)
    decreases |a|
  {
    if a == [] {
      assert a + b == b;
    } else {
      var head := if keep(a[0]) then [a[0]] else [];
      assert (a + b)[0] == a[0];
      assert (a + b)[1..] == a[1..] + b;
      FilterConcat(a[1..], b, keep);
      calc {
        FilterBy(a + b, keep);
        head + FilterBy(a[1..] + b, keep);
        head + (FilterBy(a[1..], keep) + FilterBy(b, keep));
        (head + FilterBy(a[1..], keep)) + FilterBy(b, keep);
        FilterBy(a, keep) + FilterBy(b, keep);
      }
    }
  }

  /** A filter that accepts every element of `items` returns `items`. */
  lemma {:induction false} FilterKeepsAccepted<T>(items: seq<T>, keep: T -> bool)
    requires forall i :: 0 <= i < |items| ==> keep(items[i])
    ensures FilterBy(items, keep) == items
    decreases |items|
  {
    if items != [] {
      assert keep(items[0]);
      FilterKeepsAccepted(items[1..], keep);
      assert items == [items[0]] + items[1..];
    }
  }
}
