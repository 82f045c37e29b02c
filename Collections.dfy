/**
 * The two array operations the feed relies on: `Array.prototype.filter` and
 * the stable `Array.prototype.sort` (stable since ECMAScript 2019) driven by
 * a comparator of the form `(a, b) => key(b) - key(a)`, i.e. descending by
 * a numeric key; and the early-exit search a `for...of` loop with a
 * `return` inside performs.
 */
module Collections {
  import opened Wrappers

  /** `a` is `s` with some elements removed, order kept. */
  predicate IsSubsequence<T(==)>(a: seq<T>, s: seq<T>)
    decreases |s|
  {
    if a == [] then true
    else if s == [] then false
    else if a[0] == s[0] then IsSubsequence(a[1..], s[1..])
    else IsSubsequence(a, s[1..])
  }

  /** `s.filter(p)`. */
  function Keep<T(!new)>(s: seq<T>, p: T -> bool): (r: seq<T>)
    ensures |r| <= |s|
    ensures forall i :: 0 <= i < |r| ==> p(r[i])
  {
    if s == [] then []
    else if p(s[0]) then [s[0]] + Keep(s[1..], p)
    else Keep(s[1..], p)
  }

  /** `filter` keeps the order: its result is a subsequence. */
  lemma {:induction false} KeepSubsequence<T(!new)>(s: seq<T>, p: T -> bool)
    ensures IsSubsequence(Keep(s, p), s)
  {
    if s != [] {
      KeepSubsequence(s[1..], p);
      if p(s[0]) {
        var r := Keep(s, p);
        assert r[0] == s[0] && r[1..] == Keep(s[1..], p);
      }
    }
  }

  /** `filter` keeps every passing element as often as it occurs, and adds nothing. */
  lemma {:induction false} KeepMultiset<T(!new)>(s: seq<T>, p: T -> bool)
    ensures forall x :: p(x) ==> multiset(Keep(s, p))[x] == multiset(s)[x]
    ensures multiset(Keep(s, p)) <= multiset(s)
  {
    if s != [] {
      KeepMultiset(s[1..], p);
      assert s == [s[0]] + s[1..];
    }
  }

  /** Keeping every element of a sequence in which all satisfy `p` changes nothing. */
  lemma {:induction false} KeepAll<T(!new)>(s: seq<T>, p: T -> bool)
    requires forall i :: 0 <= i < |s| ==> p(s[i])
    ensures Keep(s, p) == s
  {
    if s != [] {
      KeepAll(s[1..], p);
    }
  }

  /** `filter` keeps every element exactly when every element passes. */
  lemma {:induction false} KeepSizeAll<T(!new)>(s: seq<T>, p: T -> bool)
    ensures |Keep(s, p)| <= |s|
    ensures |Keep(s, p)| == |s| <==> forall i :: 0 <= i < |s| ==> p(s[i])
  {
    if s != [] {
      var t := s[1..];
      KeepSizeAll(t, p);
      assert forall i :: 1 <= i < |s| ==> s[i] == t[i - 1];
      if p(s[0]) {
        assert Keep(s, p) == [s[0]] + Keep(t, p);
      } else {
        assert Keep(s, p) == Keep(t, p);
      }
    }
  }

  /** `filter` keeps nothing exactly when no element passes. */
  lemma {:induction false} KeepSizeNone<T(!new)>(s: seq<T>, p: T -> bool)
    ensures |Keep(s, p)| == 0 <==> forall i :: 0 <= i < |s| ==> !p(s[i])
  {
    if s != [] {
      var t := s[1..];
      KeepSizeNone(t, p);
      assert forall i :: 1 <= i < |s| ==> s[i] == t[i - 1];
      if p(s[0]) {
        assert Keep(s, p) == [s[0]] + Keep(t, p);
      } else {
        assert Keep(s, p) == Keep(t, p);
      }
    }
  }

  /** A property every element of `b` has, every element of a permutation of `b` has too. */
  lemma PermutationKeeps<T>(a: seq<T>, b: seq<T>, p: T -> bool)
    requires multiset(a) == multiset(b)
    requires forall i :: 0 <= i < |b| ==> p(b[i])
    ensures forall i :: 0 <= i < |a| ==> p(a[i])
  {
    forall i | 0 <= i < |a| ensures p(a[i]) {
      assert a[i] in multiset(b);
    }
  }

  /** Two filters in a row are one filter by the conjunction. */
  lemma {:induction false} KeepKeep<T(!new)>(s: seq<T>, p: T -> bool, q: T -> bool, pq: T -> bool)
    requires forall x :: pq(x) == (p(x) && q(x))
    ensures Keep(Keep(s, p), q) == Keep(s, pq)
  {
    if s != [] {
      KeepKeep(s[1..], p, q, pq);
      if p(s[0]) {
        assert Keep(s, p) == [s[0]] + Keep(s[1..], p);
        assert Keep(s, p)[1..] == Keep(s[1..], p);
      }
    }
  }

  /** One step of `filter`: the head is kept exactly when it passes. */
  lemma KeepCons<T(!new)>(x: T, s: seq<T>, p: T -> bool)
    ensures Keep([x] + s, p) == if p(x) then [x] + Keep(s, p) else Keep(s, p)
  {
    var xs := [x] + s;
    assert xs[0] == x && xs[1..] == s;
  }

  /** Filtering distributes over concatenation. */
  lemma {:induction false} KeepConcat<T(!new)>(a: seq<T>, b: seq<T>, p: T -> bool)
    ensures Keep(a + b, p) == Keep(a, p) + Keep(b, p)
  {
    if a == [] {
      assert a + b == b;
    } else {
      var x, t := a[0], a[1..];
      assert a == [x] + t && a + b == [x] + (t + b);
      KeepConcat(t, b, p);
      KeepCons(x, t + b, p);
      KeepCons(x, t, p);
    }
  }

  /**
   * The first element that passes `p` heads the filtered sequence (so
   * `s.filter(p)[0]` is the first such element of `s`).
   */
  lemma {:induction false} KeepFirst<T(!new)>(s: seq<T>, p: T -> bool, i: nat)
    requires i < |s| && p(s[i])
    requires forall j :: 0 <= j < i ==> !p(s[j])
    ensures |Keep(s, p)| > 0 && Keep(s, p)[0] == s[i]
  {
    if i > 0 {
      KeepFirst(s[1..], p, i - 1);
    }
  }

  /** `s.some(p)`: some element passes `p`. */
  function Any<T>(s: seq<T>, p: T -> bool): (r: bool)
    ensures r <==> exists i :: 0 <= i < |s| && p(s[i])
  {
    if s == [] then false
    else if p(s[0]) then true
    else
      var rest := Any(s[1..], p);
      assert rest ==> exists i :: 0 <= i < |s| && p(s[i]) by {
        if rest {
          var k :| 0 <= k < |s[1..]| && p(s[1..][k]);
          assert s[k + 1] == s[1..][k];
        }
      }
      assert (exists i :: 0 <= i < |s| && p(s[i])) ==> rest by {
        if exists i :: 0 <= i < |s| && p(s[i]) {
          var k :| 0 <= k < |s| && p(s[k]);
          assert k > 0 && s[1..][k - 1] == s[k];
        }
      }
      rest
  }

  /** The position of the first element of `s` satisfying `p`, if there is one. */
  function FirstIndex<T>(s: seq<T>, p: T -> bool): (r: Option<nat>)
    ensures r.Some? ==> r.value < |s| && p(s[r.value])
    ensures r.Some? ==> forall j :: 0 <= j < r.value ==> !p(s[j])
    ensures r.None? <==> forall j :: 0 <= j < |s| ==> !p(s[j])
  {
    if s == [] then None
    else if p(s[0]) then Some(0)
    else
      match FirstIndex(s[1..], p)
      case None => None
      case Some(i) => Some(i + 1)
  }

  /** The search finds exactly the first satisfying position. */
  lemma FirstIndexOf<T>(s: seq<T>, p: T -> bool, i: nat)
    requires i < |s| && p(s[i])
    requires forall j :: 0 <= j < i ==> !p(s[j])
    ensures FirstIndex(s, p) == Some(i)
  {
  }

  /** Non-increasing by `key`: what the descending comparator produces. */
  ghost predicate SortedDesc<T>(s: seq<T>, key: T -> real) {
    forall i, j :: 0 <= i < j < |s| ==> key(s[i]) >= key(s[j])
  }

  /**
   * Places `x` in front of the first element whose key does not exceed its own,
   * so that `x` precedes the elements of equal key already in `s`.
   */
  function Insert<T(!new)>(x: T, s: seq<T>, key: T -> real): (r: seq<T>)
    ensures |r| == |s| + 1
    ensures multiset(r) == multiset(s) + multiset{x}
    ensures forall y :: y in r <==> y == x || y in s
    ensures SortedDesc(s, key) ==> SortedDesc(r, key)
  {
    if s == [] || key(s[0]) <= key(x) then
      [x] + s
    else
      var rest := Insert(x, s[1..], key);
      assert s == [s[0]] + s[1..];
      InsertSortedStep(x, s, key, rest);
      [s[0]] + rest
  }

  lemma InsertSortedStep<T>(x: T, s: seq<T>, key: T -> real, rest: seq<T>)
    requires s != [] && key(s[0]) > key(x)
    requires forall y :: y in rest ==> y == x || y in s[1..]
    requires SortedDesc(s, key) ==> SortedDesc(rest, key)
    ensures SortedDesc(s, key) ==> SortedDesc([s[0]] + rest, key)
  {
    if SortedDesc(s, key) {
      var r := [s[0]] + rest;
      forall i, j | 0 <= i < j < |r|
        ensures key(r[i]) >= key(r[j])
      {
        if i == 0 {
          assert r[j] in rest;
          if r[j] != x {
            var m :| 0 <= m < |s[1..]| && s[1..][m] == r[j];
            assert s[m + 1] == r[j];
          }
        } else {
          assert r[i] == rest[i - 1] && r[j] == rest[j - 1];
        }
      }
    }
  }

  /** The stable descending sort, as an insertion sort. */
  function SortDesc<T(!new)>(s: seq<T>, key: T -> real): (r: seq<T>)
    ensures |r| == |s|
    ensures multiset(r) == multiset(s)
    ensures SortedDesc(r, key)
  {
    if s == [] then []
    else
      assert s == [s[0]] + s[1..];
      Insert(s[0], SortDesc(s[1..], key), key)
  }

  /** The elements of `s` whose key is exactly `k`, in their order in `s`. */
  function KeyClass<T>(s: seq<T>, key: T -> real, k: real): seq<T> {
    if s == [] then []
    else (if key(s[0]) == k then [s[0]] else []) + KeyClass(s[1..], key, k)
  }

  /** One step of the key class: the head belongs to it exactly when its key is `k`. */
  lemma KeyClassCons<T>(x: T, s: seq<T>, key: T -> real, k: real)
    ensures KeyClass([x] + s, key, k) == (if key(x) == k then [x] else []) + KeyClass(s, key, k)
  {
    var xs := [x] + s;
    assert xs[0] == x && xs[1..] == s;
  }

  /** `x` lands before every element of its own key class, whatever the order of `s`. */
  lemma {:induction false} InsertKeyClass<T(!new)>(x: T, s: seq<T>, key: T -> real, k: real)
    ensures KeyClass(Insert(x, s, key), key, k)
         == (if key(x) == k then [x] else []) + KeyClass(s, key, k)
  {
    if s == [] || key(s[0]) <= key(x) {
      assert Insert(x, s, key) == [x] + s;
      KeyClassCons(x, s, key, k);
    } else {
      var y, t := s[0], s[1..];
      var rest := Insert(x, t, key);
      assert Insert(x, s, key) == [y] + rest;
      KeyClassCons(y, rest, key, k);
      InsertKeyClass(x, t, key, k);
      var head := if key(y) == k then [y] else [];
      var mid := if key(x) == k then [x] else [];
      assert KeyClass(s, key, k) == head + KeyClass(t, key, k);
      if key(x) == k {
        assert head == [];
        assert KeyClass(s, key, k) == KeyClass(t, key, k);
        assert KeyClass(Insert(x, s, key), key, k) == KeyClass(rest, key, k);
      } else {
        assert mid == [];
        assert KeyClass(rest, key, k) == KeyClass(t, key, k);
      }
    }
  }

  /**
   * Stability: for every key value, the elements with that key keep their
   * input order. In particular two posts with equal score keep their order.
   */
  lemma {:induction false} SortDescStable<T(!new)>(s: seq<T>, key: T -> real, k: real)
    ensures KeyClass(SortDesc(s, key), key, k) == KeyClass(s, key, k)
  {
    if s != [] {
      SortDescStable(s[1..], key, k);
      InsertKeyClass(s[0], SortDesc(s[1..], key), key, k);
    }
  }

  lemma {:induction false} KeyClassMember<T>(s: seq<T>, key: T -> real, k: real, i: nat)
    requires i < |s| && key(s[i]) == k
    ensures KeyClass(s, key, k) != []
  {
    if i > 0 {
      KeyClassMember(s[1..], key, k, i - 1);
    }
  }

  lemma {:induction false} KeyClassElements<T>(s: seq<T>, key: T -> real, k: real)
    ensures forall y :: y in KeyClass(s, key, k) ==> y in s && key(y) == k
  {
    if s != [] {
      KeyClassElements(s[1..], key, k);
    }
  }

  /**
   * Any stable descending sort of `s` yields exactly `SortDesc(s, key)`: two
   * sequences sorted by `key` whose key classes coincide are equal. So the
   * model does not depend on which stable algorithm the engine uses.
   */
  lemma {:induction false} StableSortUnique<T>(r: seq<T>, t: seq<T>, key: T -> real)
    requires SortedDesc(r, key) && SortedDesc(t, key)
    requires forall k :: KeyClass(r, key, k) == KeyClass(t, key, k)
    ensures r == t
    decreases |r|
  {
    if r == [] || t == [] {
      assert r == [] && t == [] by {
        if r != [] {
          KeyClassMember(r, key, key(r[0]), 0);
        }
        if t != [] {
          KeyClassMember(t, key, key(t[0]), 0);
        }
      }
    } else {
      var m1, m2 := key(r[0]), key(t[0]);
      KeyClassMember(r, key, m1, 0);
      KeyClassElements(t, key, m1);
      var c := KeyClass(t, key, m1);
      assert c[0] in t;
      KeyClassMember(t, key, m2, 0);
      KeyClassElements(r, key, m2);
      assert KeyClass(r, key, m2)[0] in r;
      assert m1 == m2;
      assert r[0] == t[0];
      forall k
        ensures KeyClass(r[1..], key, k) == KeyClass(t[1..], key, k)
      {
        var pre := if key(r[0]) == k then [r[0]] else [];
        assert KeyClass(r, key, k) == pre + KeyClass(r[1..], key, k);
        assert KeyClass(t, key, k) == pre + KeyClass(t[1..], key, k);
        assert KeyClass(r[1..], key, k) == (pre + KeyClass(r[1..], key, k))[|pre|..];
      }
      assert SortedDesc(r[1..], key) && SortedDesc(t[1..], key);
      StableSortUnique(r[1..], t[1..], key);
      assert r == [r[0]] + r[1..] && t == [t[0]] + t[1..];
    }
  }
}
