/** Sequence utilities standing for the Python list and query-set operations
    the core relies on: filtering (a Django `filter`), `list.remove`,
    and the string tests used to state the message templates. */
module Collections {

  /** The elements of `s` that satisfy `p`, in their original order. */
  function Filter<T>(s: seq<T>, p: T -> bool): (r: seq<T>)
    ensures |r| <= |s|
    ensures forall i :: 0 <= i < |r| ==> p(r[i])
  {
    if s == [] then []
    else if p(s[0]) then [s[0]] + Filter(s[1..], p)
    else Filter(s[1..], p)
  }

  /** An element is selected exactly when it is stored and satisfies the predicate. */
  lemma {:induction false} FilterMembership<T>(s: seq<T>, p: T -> bool, x: T)
    ensures x in Filter(s, p) <==> x in s && p(x)
  {
    if s != [] {
      FilterMembership(s[1..], p, x);
      assert s == [s[0]] + s[1..];
    }
  }

  /** `FilterMembership` for every element at once. */
  lemma FilterSpec<T>(s: seq<T>, p: T -> bool)
    ensures forall x :: x in Filter(s, p) <==> x in s && p(x)
  {
    forall x ensures x in Filter(s, p) <==> x in s && p(x) {
      FilterMembership(s, p, x);
    }
  }

  /** Nothing is selected exactly when no stored element satisfies the predicate. */
  lemma {:induction false} FilterEmpty<T>(s: seq<T>, p: T -> bool)
    ensures Filter(s, p) == [] <==> forall i :: 0 <= i < |s| ==> !p(s[i])
  {
    if s != [] {
      FilterEmpty(s[1..], p);
      assert forall i :: 1 <= i < |s| ==> s[i] == s[1..][i - 1];
    }
  }

  /** Filtering a sequence without repetitions yields one without repetitions. */
  lemma {:induction false} FilterDistinct<T>(s: seq<T>, p: T -> bool)
    requires Distinct(s)
    ensures Distinct(Filter(s, p))
  {
    if s != [] {
      assert Distinct(s[1..]) by {
        forall i, j | 0 <= i < j < |s[1..]| ensures s[1..][i] != s[1..][j] {
          assert s[1..][i] == s[i + 1] && s[1..][j] == s[j + 1];
        }
      }
      FilterDistinct(s[1..], p);
      if p(s[0]) {
        FilterMembership(s[1..], p, s[0]);
        assert s[0] !in s[1..];
        var r := Filter(s[1..], p);
        forall i, j | 0 <= i < j < |[s[0]] + r| ensures ([s[0]] + r)[i] != ([s[0]] + r)[j] {
          if i == 0 {
            assert ([s[0]] + r)[j] == r[j - 1];
            assert r[j - 1] in r;
          } else {
            assert ([s[0]] + r)[i] == r[i - 1] && ([s[0]] + r)[j] == r[j - 1];
          }
        }
      }
    }
  }

  /** No value occurs twice. */
  ghost predicate Distinct<T>(s: seq<T>) {
    forall i, j :: 0 <= i < j < |s| ==> s[i] != s[j]
  }

  /** Position of the first occurrence of `x` in `s`. */
  function FirstIndex<T(==)>(s: seq<T>, x: T): (i: nat)
    requires x in s
    ensures i < |s| && s[i] == x && x !in s[..i]
  {
    if s[0] == x then 0 else 1 + FirstIndex(s[1..], x)
  }

  /** Python's `list.remove(x)`: the first occurrence of `x` is taken out. */
  function RemoveFirst<T(==)>(s: seq<T>, x: T): (r: seq<T>)
    requires x in s
    ensures |r| == |s| - 1
  {
    var i := FirstIndex(s, x);
    s[..i] + s[i + 1..]
  }

  /** Removing from a sequence without repetitions removes every occurrence
      and keeps all other elements, in order. */
  lemma RemoveFirstDistinct<T>(s: seq<T>, x: T)
    requires x in s && Distinct(s)
    ensures x !in RemoveFirst(s, x)
    ensures forall y :: y in RemoveFirst(s, x) <==> y in s && y != x
    ensures Distinct(RemoveFirst(s, x))
  {
    var r := RemoveFirst(s, x);
    var i := FirstIndex(s, x);
    assert forall k :: 0 <= k < i ==> r[k] == s[k];
    assert forall k :: i <= k < |r| ==> r[k] == s[k + 1];
    forall y ensures y in r <==> y in s && y != x {
      if y in r {
        var k :| 0 <= k < |r| && r[k] == y;
        if k < i { assert r[k] == s[k]; } else { assert r[k] == s[k + 1]; }
      }
      if y in s && y != x {
        var k :| 0 <= k < |s| && s[k] == y;
        if k < i { assert r[k] == y; } else { assert r[k - 1] == y; }
      }
    }
    forall a, b | 0 <= a < b < |r| ensures r[a] != r[b] {
      var a' := if a < i then a else a + 1;
      var b' := if b < i then b else b + 1;
      assert r[a] == s[a'] && r[b] == s[b'];
    }
  }

  /** `t` occurs in `s` from position `i` on. */
  predicate OccursAt(s: string, t: string, i: nat) {
    i + |t| <= |s| && forall k :: 0 <= k < |t| ==> s[i + k] == t[k]
  }

  /** `t` occurs somewhere in `s`. */
  ghost predicate Contains(s: string, t: string) {
    exists i: nat :: OccursAt(s, t, i)
  }

  predicate StartsWith(s: string, t: string) {
    OccursAt(s, t, 0)
  }

  predicate EndsWith(s: string, t: string) {
    |t| <= |s| && OccursAt(s, t, |s| - |t|)
  }

  /** Where the parts of a concatenation occur in it. */
  lemma ConcatParts(a: string, b: string, c: string)
    ensures StartsWith(a + b + c, a)
    ensures OccursAt(a + b + c, b, |a|)
    ensures EndsWith(a + b + c, c)
  {
    var s := a + b + c;
    assert s[..|a|] == a;
    assert s[|a|..|a| + |b|] == b;
    assert s[|s| - |c|..] == c;
  }

  /** A prefix of a prefix of `s` is a prefix of `s`. */
  lemma StartsWithTrans(s: string, p: string, t: string)
    requires StartsWith(s, p) && StartsWith(p, t)
    ensures StartsWith(s, t)
  {
    assert s[..|t|] == p[..|t|];
  }

  /** A two-part concatenation starts with its first part and ends with its second. */
  lemma Halves(a: string, b: string)
    ensures StartsWith(a + b, a) && EndsWith(a + b, b)
  {
    var s := a + b;
    assert s[..|a|] == a;
    assert s[|a|..] == b;
  }

  /** An occurrence inside a prefix of `s` is an occurrence inside `s`. */
  lemma OccursInPrefix(s: string, p: string, t: string, i: nat)
    requires StartsWith(s, p) && OccursAt(p, t, i)
    ensures OccursAt(s, t, i)
  {
    assert s[i..i + |t|] == p[i..i + |t|];
  }

  /** A suffix of a suffix of `s` is a suffix of `s`. */
  lemma EndsWithTrans(s: string, q: string, t: string)
    requires EndsWith(s, q) && EndsWith(q, t)
    ensures EndsWith(s, t)
  {
    assert s[|s| - |t|..] == q[|q| - |t|..];
  }

  /** Whatever ends a prefix of `s` occurs in `s`. */
  lemma ContainsPrefixEnd(s: string, p: string, t: string)
    requires StartsWith(s, p) && EndsWith(p, t)
    ensures Contains(s, t)
  {
    OccursInPrefix(s, p, t, |p| - |t|);
  }
}
