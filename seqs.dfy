/** Generic sequence helpers shared by the list-shaping code of the dashboard. */
module Seqs {

  /** `a` can be obtained from `b` by deleting elements (order is kept). */
  predicate IsSubsequence<T(==)>(a: seq<T>, b: seq<T>)
    decreases |a| + |b|
  {
    if a == [] then true
    else if b == [] then false
    else if a[0] == b[0] then IsSubsequence(a[1..], b[1..])
    else IsSubsequence(a, b[1..])
  }

  lemma {:induction false} SubsequenceElements<T>(a: seq<T>, b: seq<T>)
    requires IsSubsequence(a, b)
    ensures |a| <= |b|
    ensures multiset(a) <= multiset(b)
    ensures forall x :: x in a ==> x in b
    decreases |a| + |b|
  {
    if a != [] && b != [] {
      if a[0] == b[0] {
        SubsequenceElements(a[1..], b[1..]);
        assert a == [a[0]] + a[1..];
        assert b == [b[0]] + b[1..];
      } else {
        SubsequenceElements(a, b[1..]);
        assert b == [b[0]] + b[1..];
      }
    }
  }

  lemma {:induction false} SubsequenceOfConsTail<T>(x: T, a: seq<T>, b: seq<T>)
    requires IsSubsequence(a, b)
    ensures IsSubsequence([x] + a, [x] + b)
  {
    assert ([x] + a)[1..] == a;
    assert ([x] + b)[1..] == b;
  }

  lemma {:induction false} SubsequenceSkip<T>(a: seq<T>, x: T, b: seq<T>)
    requires IsSubsequence(a, b)
    ensures IsSubsequence(a, [x] + b)
    decreases |a| + |b| + 1
  {
    assert ([x] + b)[1..] == b;
    if a != [] && x == a[0] {
      SubsequenceDropHead(a, b);
    }
  }

  lemma {:induction false} SubsequenceDropHead<T>(a: seq<T>, b: seq<T>)
    requires a != [] && IsSubsequence(a, b)
    ensures IsSubsequence(a[1..], b)
    decreases |a| + |b|
  {
    assert [b[0]] + b[1..] == b;
    if a[0] == b[0] {
      SubsequenceSkip(a[1..], b[0], b[1..]);
    } else {
      SubsequenceDropHead(a, b[1..]);
      SubsequenceSkip(a[1..], b[0], b[1..]);
    }
  }

  lemma {:induction false} SubsequenceReflexive<T>(a: seq<T>)
    ensures IsSubsequence(a, a)
  {
    if a != [] {
      SubsequenceReflexive(a[1..]);
    }
  }

  lemma {:induction false} SubsequenceTransitive<T>(a: seq<T>, b: seq<T>, c: seq<T>)
    requires IsSubsequence(a, b) && IsSubsequence(b, c)
    ensures IsSubsequence(a, c)
    decreases |a| + |b| + |c|
  {
    if a != [] {
      assert b != [] && c != [];
      assert [c[0]] + c[1..] == c;
      if b[0] == c[0] && a[0] == b[0] {
        SubsequenceTransitive(a[1..], b[1..], c[1..]);
      } else {
        if b[0] == c[0] {
          SubsequenceTransitive(a, b[1..], c[1..]);
        } else {
          SubsequenceTransitive(a, b, c[1..]);
        }
        SubsequenceSkip(a, c[0], c[1..]);
      }
    }
  }

  /** Every element that is not `x`, in order (JavaScript `s.filter(e => e !== x)`). */
  function RemoveAll<T(==)>(s: seq<T>, x: T): (r: seq<T>)
    ensures x !in r
    ensures multiset(r) == multiset(s)[x := 0]
    ensures IsSubsequence(r, s)
    ensures x !in s ==> r == s
  {
    if s == [] then []
    else
      var rest := RemoveAll(s[1..], x);
      assert s == [s[0]] + s[1..];
      if s[0] == x then
        SubsequenceSkip(rest, s[0], s[1..]);
        rest
      else
        SubsequenceOfConsTail(s[0], rest, s[1..]);
        [s[0]] + rest
  }

  /** No element occurs twice. */
  predicate NoDuplicates<T(==)>(s: seq<T>) {
    forall i, j | 0 <= i < j < |s| :: s[i] != s[j]
  }

  /** JavaScript `s.slice(0, n)` for a number `n`: a negative `n` counts from the end. */
  function SliceTo<T>(s: seq<T>, n: int): (r: seq<T>)
    ensures 0 <= n ==> |r| == if n < |s| then n else |s|
    ensures n < 0 ==> |r| == if -n < |s| then |s| + n else 0
    ensures r == s[..|r|]
  {
    if n >= |s| then s
    else if n >= 0 then s[..n]
    else if -n < |s| then s[..|s| + n]
    else []
  }

  /** How many elements satisfy `p`. */
  function CountWhere<T>(s: seq<T>, p: T -> bool): (n: nat)
    ensures n <= |s|
    ensures n == |s| <==> forall i | 0 <= i < |s| :: p(s[i])
    ensures n == 0 <==> forall i | 0 <= i < |s| :: !p(s[i])
  {
    if s == [] then 0
    else
      var rest := CountWhere(s[1..], p);
      assert forall i | 1 <= i < |s| :: s[i] == s[1..][i - 1];
      (if p(s[0]) then 1 else 0) + rest
  }

  lemma {:induction false} CountWhereAppend<T>(a: seq<T>, b: seq<T>, p: T -> bool)
    ensures CountWhere(a + b, p) == CountWhere(a, p) + CountWhere(b, p)
  {
    if a != [] {
      assert (a + b)[1..] == a[1..] + b;
      CountWhereAppend(a[1..], b, p);
    } else {
      assert a + b == b;
    }
  }

  /** Counting three pairwise exclusive properties never exceeds the length. */
  lemma {:induction false} ExclusiveCountsBounded<T>(s: seq<T>, p: T -> bool, q: T -> bool, r: T -> bool)
    requires forall x :: !(p(x) && q(x)) && !(p(x) && r(x)) && !(q(x) && r(x))
    ensures CountWhere(s, p) + CountWhere(s, q) + CountWhere(s, r) <= |s|
  {
    if s != [] {
      ExclusiveCountsBounded(s[1..], p, q, r);
    }
  }

  /** The elements satisfying `p`, in order (JavaScript `filter`). */
  function Filter<T(==)>(s: seq<T>, p: T -> bool): (r: seq<T>)
    ensures |r| == CountWhere(s, p)
    ensures forall x | x in r :: p(x)
    ensures forall i | 0 <= i < |s| && p(s[i]) :: s[i] in r
    ensures multiset(r) <= multiset(s)
    ensures IsSubsequence(r, s)
  {
    if s == [] then []
    else
      var rest := Filter(s[1..], p);
      assert forall i | 1 <= i < |s| :: s[i] == s[1..][i - 1];
      SubsequenceElements(rest, s[1..]);
      assert s == [s[0]] + s[1..];
      if p(s[0]) then
        SubsequenceOfConsTail(s[0], rest, s[1..]);
        [s[0]] + rest
      else
        SubsequenceSkip(rest, s[0], s[1..]);
        rest
  }

  /** An element is in the filtered sequence exactly when it is in the input and passes. */
  lemma FilterMembership<T>(s: seq<T>, p: T -> bool)
    ensures forall x :: x in Filter(s, p) <==> x in s && p(x)
  {
    var r := Filter(s, p);
    forall x | x in r ensures x in s {
      assert x in multiset(r);
    }
  }

  /** Filtering keeps a sequence whose elements all pass. */
  lemma {:induction false} FilterKeepsAll<T>(s: seq<T>, p: T -> bool)
    requires forall x | x in s :: p(x)
    ensures Filter(s, p) == s
  {
    if s != [] {
      FilterKeepsAll(s[1..], p);
    }
  }

  /** Filter distributes over concatenation. */
  lemma {:induction false} FilterAppend<T>(a: seq<T>, b: seq<T>, p: T -> bool)
    ensures Filter(a + b, p) == Filter(a, p) + Filter(b, p)
  {
    if a == [] {
      assert a + b == b;
    } else {
      assert (a + b)[1..] == a[1..] + b;
      FilterAppend(a[1..], b, p);
    }
  }

  /** Counting `p` after filtering by `q` counts the elements satisfying both. */
  lemma {:induction false} CountAfterFilter<T>(s: seq<T>, q: T -> bool, p: T -> bool, both: T -> bool)
    requires forall x :: both(x) == (q(x) && p(x))
    ensures CountWhere(Filter(s, q), p) == CountWhere(s, both)
  {
    if s != [] {
      CountAfterFilter(s[1..], q, p, both);
    }
  }

  /** Two positions holding the same element make it occur at least twice. */
  lemma TwoOccurrences<T>(s: seq<T>, i: nat, j: nat)
    requires i < j < |s| && s[i] == s[j]
    ensures multiset(s)[s[i]] >= 2
  {
    assert s == s[..i] + [s[i]] + s[i + 1..j] + [s[j]] + s[j + 1..];
  }

  /** Toggling membership in a selection: remove every occurrence of a present item, append an absent one. */
  function Toggle<T(==)>(selected: seq<T>, id: T): seq<T>
  {
    if id in selected then RemoveAll(selected, id) else selected + [id]
  }

  lemma {:induction false} RemoveAllAppendAbsent<T>(s: seq<T>, x: T)
    requires x !in s
    ensures RemoveAll(s + [x], x) == s
  {
    if s == [] {
      assert s + [x] == [x];
    } else {
      assert (s + [x])[1..] == s[1..] + [x];
      RemoveAllAppendAbsent(s[1..], x);
    }
  }

  lemma {:induction false} NoDuplicatesCount<T>(s: seq<T>, x: T)
    requires NoDuplicates(s)
    ensures multiset(s)[x] <= 1
  {
    if s != [] {
      assert NoDuplicates(s[1..]) by {
        forall i, j | 0 <= i < j < |s[1..]| ensures s[1..][i] != s[1..][j] {
          assert s[1..][i] == s[i + 1] && s[1..][j] == s[j + 1];
        }
      }
      NoDuplicatesCount(s[1..], x);
      assert s == [s[0]] + s[1..];
      if s[0] == x {
        assert x !in s[1..] by {
          forall k | 0 <= k < |s[1..]| ensures s[1..][k] != x {
            assert s[1..][k] == s[k + 1];
          }
        }
      }
    }
  }

  lemma CountNoDuplicates<T>(s: seq<T>)
    requires forall x :: multiset(s)[x] <= 1
    ensures NoDuplicates(s)
  {
    forall i, j | 0 <= i < j < |s|
      ensures s[i] != s[j]
    {
      if s[i] == s[j] {
        TwoOccurrences(s, i, j);
      }
    }
  }

  /**
   * Toggling keeps a selection duplicate-free, and toggling the same item twice restores
   * the selection: exactly when the item was absent, and up to order when present.
   */
  lemma ToggleTwice<T>(selected: seq<T>, id: T)
    requires NoDuplicates(selected)
    ensures NoDuplicates(Toggle(selected, id))
    ensures id !in selected ==> Toggle(Toggle(selected, id), id) == selected
    ensures id in selected ==>
      multiset(Toggle(Toggle(selected, id), id)) == multiset(selected)
  {
    if id !in selected {
      RemoveAllAppendAbsent(selected, id);
      forall x ensures multiset(selected + [id])[x] <= 1 {
        NoDuplicatesCount(selected, x);
      }
      CountNoDuplicates(selected + [id]);
    } else {
      var removed := RemoveAll(selected, id);
      NoDuplicatesCount(selected, id);
      forall x ensures multiset(removed)[x] <= 1 {
        NoDuplicatesCount(selected, x);
      }
      CountNoDuplicates(removed);
      assert multiset(removed + [id]) == multiset(removed) + multiset{id};
      assert multiset(selected)[id] == 1;
      assert multiset(removed + [id]) == multiset(selected);
    }
  }

  /** Filtering by two tests that agree everywhere gives the same sequence. */
  lemma {:induction false} FilterSameTest<T>(s: seq<T>, p: T -> bool, q: T -> bool)
    requires forall x :: p(x) == q(x)
    ensures Filter(s, p) == Filter(s, q)
  {
    if s != [] {
      FilterSameTest(s[1..], p, q);
    }
  }

  /** Filtering by `p`, then by `q`, is filtering once by their conjunction `both`. */
  lemma {:induction false} FilterTwice<T>(s: seq<T>, p: T -> bool, q: T -> bool, both: T -> bool)
    requires forall x :: both(x) == (p(x) && q(x))
    ensures Filter(Filter(s, p), q) == Filter(s, both)
  {
    if s != [] {
      FilterTwice(s[1..], p, q, both);
    }
  }

  /** Two filters can be applied in either order. */
  lemma {:induction false} FilterCommute<T>(s: seq<T>, p: T -> bool, q: T -> bool)
    ensures Filter(Filter(s, p), q) == Filter(Filter(s, q), p)
  {
    if s != [] {
      FilterCommute(s[1..], p, q);
    }
  }
}
