/** Options, lists without duplicates, and the library list operations the workflows call. */
module Collections {

  datatype Option<+T> = None | Some(value: T)

  function Max(a: int, b: int): int {
    if a >= b then a else b
  }

  function Min(a: int, b: int): int {
    if a <= b then a else b
  }

  function Elements<T>(s: seq<T>): set<T> {
    set x | x in s
  }

  /** No value occurs twice; DistinctIndices gives the index form. */
  ghost predicate Distinct<T>(s: seq<T>) {
    s == [] || (s[|s| - 1] !in s[..|s| - 1] && Distinct(s[..|s| - 1]))
  }

  lemma {:induction false} DistinctIndices<T>(s: seq<T>)
    ensures Distinct(s) <==> forall i, j :: 0 <= i < j < |s| ==> s[i] != s[j]
  {
    if s != [] {
      var n := |s| - 1;
      DistinctIndices(s[..n]);
      if Distinct(s) {
        forall i, j | 0 <= i < j < |s| ensures s[i] != s[j] {
          assert s[..n][i] == s[i] && (j < n ==> s[..n][j] == s[j]);
        }
      } else if s[n] in s[..n] {
        var i :| 0 <= i < n && s[..n][i] == s[n];
        assert s[i] == s[n];
      } else {
        var i, j :| 0 <= i < j < n && s[..n][i] == s[..n][j];
        assert s[i] == s[j];
      }
    }
  }

  /** `s` names every member of `xs` exactly once and nothing else. */
  ghost predicate Lists<T(!new)>(s: seq<T>, xs: set<T>) {
    Distinct(s) && forall x :: x in s <==> x in xs
  }

  lemma SingletonLists<T(!new)>(x: T)
    ensures Lists([x], {x})
  {
    assert [x][..0] == [];
  }

  lemma DistinctAppend<T>(s: seq<T>, x: T)
    requires Distinct(s) && x !in s
    ensures Distinct(s + [x])
  {
    assert (s + [x])[..|s|] == s;
  }

  lemma DistinctConcatenation<T>(s: seq<T>, t: seq<T>)
    requires Distinct(s) && Distinct(t)
    requires forall x :: x in s ==> x !in t
    ensures Distinct(s + t)
  {
    DistinctIndices(s);
    DistinctIndices(t);
    DistinctIndices(s + t);
    forall i, j | 0 <= i < j < |s + t| ensures (s + t)[i] != (s + t)[j] {
      if i < |s| <= j {
        assert s[i] in s && t[j - |s|] in t;
      }
    }
  }

  lemma DistinctFromBag<T>(s: seq<T>, t: seq<T>)
    requires Distinct(t) && multiset(s) <= multiset(t)
    ensures Distinct(s)
  {
    DistinctBag(s);
    DistinctBag(t);
    hide Distinct;
    forall x | x in s ensures multiset(s)[x] <= 1 {
      assert multiset(s)[x] <= multiset(t)[x];
      assert x in multiset(t);
    }
  }

  lemma {:induction false} DistinctBag<T>(s: seq<T>)
    ensures Distinct(s) <==> forall x :: x in s ==> multiset(s)[x] <= 1
  {
    if s != [] {
      var n := |s| - 1;
      DistinctBag(s[..n]);
      assert s == s[..n] + [s[n]];
      assert multiset(s) == multiset(s[..n]) + multiset{s[n]};
      if s[n] in s[..n] {
        assert s[n] in s && multiset(s)[s[n]] > 1;
      } else {
        forall x | x in s ensures multiset(s)[x] <= 1 <==> x == s[n] || multiset(s[..n])[x] <= 1 {
        }
      }
    }
  }

  lemma DistinctParts<T>(s: seq<T>, k: nat)
    requires Distinct(s) && k <= |s|
    ensures Distinct(s[..k]) && Distinct(s[k..])
    ensures forall x :: x in s[..k] ==> x !in s[k..]
    ensures forall x :: x in s <==> x in s[..k] || x in s[k..]
  {
    assert s == s[..k] + s[k..];
    DistinctIndices(s);
    DistinctIndices(s[..k]);
    DistinctIndices(s[k..]);
  }

  lemma {:induction false} ListsSize<T(!new)>(s: seq<T>, xs: set<T>)
    requires Lists(s, xs)
    ensures |s| == |xs|
  {
    if s == [] {
      assert xs == {};
    } else {
      var n := |s| - 1;
      assert s[n] in s && s == s[..n] + [s[n]];
      ListsSize(s[..n], xs - {s[n]});
    }
  }

  lemma {:induction false} SubsetSize<T>(a: set<T>, b: set<T>)
    requires a <= b
    ensures |a| <= |b|
  {
    if a != {} {
      var x :| x in a;
      SubsetSize(a - {x}, b - {x});
    }
  }

  /** The list comprehension `[x for x in s if x in xs]`. */
  function Keep<T(==)>(s: seq<T>, xs: set<T>): seq<T> {
    if s == [] then []
    else Keep(s[..|s| - 1], xs) + (if s[|s| - 1] in xs then [s[|s| - 1]] else [])
  }

  /** The list comprehension `[x for x in s if x not in xs]`. */
  function Without<T(==)>(s: seq<T>, xs: set<T>): seq<T> {
    if s == [] then []
    else Without(s[..|s| - 1], xs) + (if s[|s| - 1] in xs then [] else [s[|s| - 1]])
  }

  lemma {:induction false} KeepElements<T>(s: seq<T>, xs: set<T>)
    ensures forall x :: x in Keep(s, xs) <==> x in s && x in xs
    ensures Distinct(s) ==> Distinct(Keep(s, xs))
    ensures |Keep(s, xs)| <= |s|
  {
    if s != [] {
      var n := |s| - 1;
      KeepElements(s[..n], xs);
      assert s == s[..n] + [s[n]];
      if Distinct(s) && s[n] in xs {
        assert Keep(s, xs) == Keep(s[..n], xs) + [s[n]];
        DistinctAppend(Keep(s[..n], xs), s[n]);
      } else if s[n] !in xs {
        assert Keep(s, xs) == Keep(s[..n], xs);
      }
    }
  }

  /** Filtering out is keeping what is listed and not filtered. */
  lemma {:induction false} WithoutIsKeep<T>(s: seq<T>, xs: set<T>, gone: set<T>)
    requires forall x :: x in s ==> (x in xs <==> x !in gone)
    ensures Without(s, gone) == Keep(s, xs)
  {
    if s != [] {
      WithoutIsKeep(s[..|s| - 1], xs, gone);
    }
  }

  lemma {:induction false} KeepAll<T>(s: seq<T>, xs: set<T>)
    requires forall x :: x in s ==> x in xs
    ensures Keep(s, xs) == s
  {
    if s != [] {
      KeepAll(s[..|s| - 1], xs);
    }
  }

  lemma {:induction false} KeepNone<T>(s: seq<T>, xs: set<T>)
    requires forall x :: x in s ==> x !in xs
    ensures Keep(s, xs) == []
  {
    if s != [] {
      KeepNone(s[..|s| - 1], xs);
    }
  }

  lemma {:induction false} KeepAppend<T>(s: seq<T>, t: seq<T>, xs: set<T>)
    ensures Keep(s + t, xs) == Keep(s, xs) + Keep(t, xs)
  {
    if t == [] {
      assert s + t == s;
    } else {
      var n := |t| - 1;
      assert (s + t)[..|s + t| - 1] == s + t[..n];
      KeepAppend(s, t[..n], xs);
    }
  }

  /** Dropping a prefix of a duplicate-free list is filtering it by what remains. */
  lemma KeepSuffix<T>(s: seq<T>, k: nat, xs: set<T>)
    requires k <= |s| && Distinct(s)
    requires forall x :: x in s ==> (x in xs <==> x in s[k..])
    ensures Keep(s, xs) == s[k..]
  {
    DistinctParts(s, k);
    assert s == s[..k] + s[k..];
    KeepAppend(s[..k], s[k..], xs);
    KeepAll(s[k..], xs);
    KeepNone(s[..k], xs);
  }

  /** `s.remove(x)` guarded by `if x in s`: drop the first occurrence only. */
  function RemoveFirst<T(==)>(s: seq<T>, x: T): seq<T> {
    if s == [] then [] else if s[0] == x then s[1..] else [s[0]] + RemoveFirst(s[1..], x)
  }

  function RemoveEach<T(==)>(s: seq<T>, xs: seq<T>): seq<T>
    decreases |xs|
  {
    if xs == [] then s else RemoveEach(RemoveFirst(s, xs[0]), xs[1..])
  }

  lemma {:induction false} RemoveEachPrefix<T>(s: seq<T>, k: nat)
    requires k <= |s|
    ensures RemoveEach(s, s[..k]) == s[k..]
  {
    if k > 0 {
      assert RemoveFirst(s, s[0]) == s[1..];
      assert s[..k][1..] == s[1..][..k - 1];
      RemoveEachPrefix(s[1..], k - 1);
    }
  }

  lemma {:induction false} RemoveFirstElements<T>(s: seq<T>, x: T)
    requires Distinct(s)
    ensures Distinct(RemoveFirst(s, x))
    ensures forall y :: y in RemoveFirst(s, x) <==> y in s && y != x
  {
    if s != [] {
      DistinctParts(s, 1);
      assert s[0] in s[..1];
      assert s == [s[0]] + s[1..];
      RemoveFirstElements(s[1..], x);
      if s[0] != x {
        DistinctConcatenation([s[0]], RemoveFirst(s[1..], x));
      }
    }
  }

  lemma {:induction false} RemoveEachElements<T>(s: seq<T>, xs: seq<T>)
    requires Distinct(s)
    ensures Distinct(RemoveEach(s, xs))
    ensures forall y :: y in RemoveEach(s, xs) <==> y in s && y !in xs
    decreases |xs|
  {
    if xs != [] {
      RemoveFirstElements(s, xs[0]);
      RemoveEachElements(RemoveFirst(s, xs[0]), xs[1..]);
      assert xs == [xs[0]] + xs[1..];
    }
  }

  /** The loop `for x in s: if x in xs and x not in seen: ...`: first occurrences, in order. */
  function FirstOccurrences<T(==)>(s: seq<T>, xs: set<T>): seq<T> {
    if s == [] then []
    else
      var n := |s| - 1;
      FirstOccurrences(s[..n], xs) + (if s[n] in xs && s[n] !in s[..n] then [s[n]] else [])
  }

  lemma {:induction false} FirstOccurrencesElements<T>(s: seq<T>, xs: set<T>)
    ensures Distinct(FirstOccurrences(s, xs))
    ensures forall x :: x in FirstOccurrences(s, xs) <==> x in s && x in xs
  {
    if s != [] {
      var n := |s| - 1;
      FirstOccurrencesElements(s[..n], xs);
      assert s == s[..n] + [s[n]];
      if s[n] in xs && s[n] !in s[..n] {
        assert FirstOccurrences(s, xs) == FirstOccurrences(s[..n], xs) + [s[n]];
        DistinctAppend(FirstOccurrences(s[..n], xs), s[n]);
      } else {
        assert FirstOccurrences(s, xs) == FirstOccurrences(s[..n], xs);
      }
    }
  }

  lemma {:induction false} FirstOccurrencesOfListing<T>(s: seq<T>, xs: set<T>)
    requires Distinct(s) && forall x :: x in s ==> x in xs
    ensures FirstOccurrences(s, xs) == s
  {
    if s != [] {
      FirstOccurrencesOfListing(s[..|s| - 1], xs);
    }
  }

  /** Position of the first occurrence. */
  function IndexOf<T(==)>(s: seq<T>, x: T): (i: nat)
    requires x in s
    ensures i < |s| && s[i] == x && x !in s[..i]
  {
    var n := |s| - 1;
    if x in s[..n] then
      var i := IndexOf(s[..n], x);
      assert s[..n][..i] == s[..i];
      i
    else n
  }

  lemma FirstOccurrenceMember<T>(s: seq<T>, xs: set<T>, i: nat)
    requires i < |FirstOccurrences(s, xs)|
    ensures FirstOccurrences(s, xs)[i] in s && FirstOccurrences(s, xs)[i] in xs
  {
    FirstOccurrencesElements(s, xs);
    var r := FirstOccurrences(s, xs);
    assert r[i] in r;
  }

  lemma {:induction false} FirstOccurrencesKeepOrder<T>(s: seq<T>, xs: set<T>, i: nat, j: nat)
    requires i < j < |FirstOccurrences(s, xs)|
    requires FirstOccurrences(s, xs)[i] in s && FirstOccurrences(s, xs)[j] in s
    ensures IndexOf(s, FirstOccurrences(s, xs)[i]) < IndexOf(s, FirstOccurrences(s, xs)[j])
  {
    var n := |s| - 1;
    var r := FirstOccurrences(s[..n], xs);
    FirstOccurrenceMember(s[..n], xs, i);
    if j < |r| {
      FirstOccurrenceMember(s[..n], xs, j);
      FirstOccurrencesKeepOrder(s[..n], xs, i, j);
    }
  }

  /** The newest `n` entries. */
  function Newest<T>(s: seq<T>, n: nat): seq<T> {
    if |s| <= n then s else s[|s| - n..]
  }

  lemma NewestConcatenation<T>(s: seq<T>, t: seq<T>, n: nat)
    ensures Newest(Newest(s, n) + t, n) == Newest(s + t, n)
  {
  }

  /**
   An opaque identifier: a hashed ID, a workflow ID, a user or store key.  Keys are ordered as the
   strings they stand for, and NO_KEY is the empty string, the least of them.  A run mentions
   finitely many strings, so naming them by numbers in string order loses nothing.
   */
  type Key = nat

  const NO_KEY: Key := 0

  predicate IsLeast(x: Key, s: set<Key>) {
    x in s && forall y :: y in s ==> x <= y
  }

  lemma {:induction false} LeastExists(s: set<Key>)
    requires s != {}
    ensures exists x :: IsLeast(x, s)
  {
    var a :| a in s;
    if s == {a} {
      assert IsLeast(a, s);
    } else {
      LeastExists(s - {a});
      var b :| IsLeast(b, s - {a});
      var c := if a <= b then a else b;
      forall y | y in s ensures c <= y {
        assert y == a || y in s - {a};
      }
      assert IsLeast(c, s);
    }
  }

  /** `sorted(s)`. */
  function SortedKeys(s: set<Key>): (r: seq<Key>)
    ensures Lists(r, s)
    ensures forall i, j :: 0 <= i < j < |r| ==> r[i] < r[j]
  {
    if s == {} then []
    else
      LeastExists(s);
      var x :| IsLeast(x, s);
      var rest := SortedKeys(s - {x});
      DistinctConcatenation([x], rest);
      [x] + rest
  }
}
