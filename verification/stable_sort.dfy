/** Python's `sorted(xs, key=key, reverse=True)` / `xs.sort(key=key,
    reverse=True)`: a stable sort into non-increasing key order. Python
    keeps elements with equal keys in their original order even with
    `reverse=True`; the model is an insertion sort that places each element
    after every element whose key is at least its own. */
module StableSort {

  /** Keys never increase from left to right. */
  ghost predicate SortedDesc<T>(s: seq<T>, key: T -> real) {
    forall i, j :: 0 <= i < j < |s| ==> key(s[i]) >= key(s[j])
  }

  /** The elements of `s` whose key is `v`, in their order in `s`. A sort is
      stable exactly when it leaves every such subsequence unchanged. */
  function Only<T>(s: seq<T>, key: T -> real, v: real): seq<T>
  {
    if s == [] then []
    else (if key(s[0]) == v then [s[0]] else []) + Only(s[1..], key, v)
  }

  /** Inserts `x` into `s` after the longest prefix whose keys are >= key(x). */
  function Insert<T>(x: T, s: seq<T>, key: T -> real): (r: seq<T>)
    ensures multiset(r) == multiset(s) + multiset{x}
    ensures |r| == |s| + 1
  {
    if s == [] then [x]
    else if key(s[0]) >= key(x) then
      assert s == [s[0]] + s[1..];
      [s[0]] + Insert(x, s[1..], key)
    else [x] + s
  }

  lemma {:induction false} InsertSorted<T>(x: T, s: seq<T>, key: T -> real)
    requires SortedDesc(s, key)
    ensures SortedDesc(Insert(x, s, key), key)
    decreases |s|
  {
    if s != [] && key(s[0]) >= key(x) {
      var tail := Insert(x, s[1..], key);
      InsertSorted(x, s[1..], key);
      forall j | 0 <= j < |tail|
        ensures key(s[0]) >= key(tail[j])
      {
        assert tail[j] in multiset(tail);
        if tail[j] != x {
          assert tail[j] in multiset(s[1..]);
          var m :| 0 <= m < |s[1..]| && s[1..][m] == tail[j];
          assert s[m + 1] == tail[j];
        }
      }
    }
  }

  /** Sorts `s` by non-increasing key, keeping equal keys in input order. */
  function Sort<T>(s: seq<T>, key: T -> real): (r: seq<T>)
    ensures multiset(r) == multiset(s)
    ensures |r| == |s|
    ensures SortedDesc(r, key)
  {
    if s == [] then []
    else
      var init, last := s[..|s| - 1], s[|s| - 1];
      assert s == init + [last];
      var sortedInit := Sort(init, key);
      InsertSorted(last, sortedInit, key);
      Insert(last, sortedInit, key)
  }

  lemma {:induction false} OnlyAppend<T>(a: seq<T>, b: seq<T>, key: T -> real, v: real)
    ensures Only(a + b, key, v) == Only(a, key, v) + Only(b, key, v)
    decreases |a|
  {
    if a != [] {
      assert (a + b)[0] == a[0];
      assert (a + b)[1..] == a[1..] + b;
      OnlyAppend(a[1..], b, key, v);
    } else {
      assert a + b == b;
    }
  }

  lemma {:induction false} OnlyNone<T>(s: seq<T>, key: T -> real, v: real)
    requires forall i :: 0 <= i < |s| ==> key(s[i]) != v
    ensures Only(s, key, v) == []
    decreases |s|
  {
    if s != [] {
      OnlyNone(s[1..], key, v);
    }
  }

  /** The tail of a non-increasing sequence is non-increasing. */
  lemma SortedTail<T>(s: seq<T>, key: T -> real)
    requires s != [] && SortedDesc(s, key)
    ensures SortedDesc(s[1..], key)
  {
    var rest := s[1..];
    forall i, j | 0 <= i < j < |rest|
      ensures key(rest[i]) >= key(rest[j])
    {
      assert rest[i] == s[i + 1] && rest[j] == s[j + 1];
    }
  }

  /** Inserting `x` in front of a sequence whose keys are all below its own. */
  lemma InsertOnlyFront<T>(x: T, s: seq<T>, key: T -> real, v: real)
    requires SortedDesc(s, key) && s != [] && key(s[0]) < key(x)
    ensures Only(Insert(x, s, key), key, v)
         == Only(s, key, v) + (if key(x) == v then [x] else [])
  {
    assert Insert(x, s, key) == [x] + s;
    OnlyAppend([x], s, key, v);
    assert Only([x], key, v) == (if key(x) == v then [x] else []) by {
      assert [x][1..] == [];
    }
    if key(x) == v {
      forall i | 0 <= i < |s|
        ensures key(s[i]) != v
      {
        assert key(s[i]) <= key(s[0]);
      }
      OnlyNone(s, key, v);
    }
  }

  /** Putting the same element in front of two sequences keeps a relation
      between their key-`v` subsequences. */
  lemma OnlyCons<T>(h: T, rest: seq<T>, other: seq<T>, key: T -> real, v: real, added: seq<T>)
    requires Only(other, key, v) == Only(rest, key, v) + added
    ensures Only([h] + other, key, v) == Only([h] + rest, key, v) + added
  {
    var a := if key(h) == v then [h] else [];
    assert Only([h] + other, key, v) == a + Only(other, key, v) by {
      assert ([h] + other)[0] == h && ([h] + other)[1..] == other;
    }
    assert Only([h] + rest, key, v) == a + Only(rest, key, v) by {
      assert ([h] + rest)[0] == h && ([h] + rest)[1..] == rest;
    }
    assert a + (Only(rest, key, v) + added) == (a + Only(rest, key, v)) + added;
  }

  /** Inserting `x` adds it to the end of its own key's subsequence and
      changes no other. */
  lemma {:induction false} InsertOnly<T>(x: T, s: seq<T>, key: T -> real, v: real)
    requires SortedDesc(s, key)
    ensures Only(Insert(x, s, key), key, v)
         == Only(s, key, v) + (if key(x) == v then [x] else [])
    decreases |s|
  {
    var added := if key(x) == v then [x] else [];
    if s == [] {
      assert Only([x], key, v) == added by {
        assert [x][1..] == [];
      }
    } else if key(s[0]) >= key(x) {
      SortedTail(s, key);
      InsertOnly(x, s[1..], key, v);
      assert s == [s[0]] + s[1..];
      assert Insert(x, s, key) == [s[0]] + Insert(x, s[1..], key);
      OnlyCons(s[0], s[1..], Insert(x, s[1..], key), key, v, added);
    } else {
      InsertOnlyFront(x, s, key, v);
    }
  }

  /** The sort is stable: for every key value, the elements carrying it
      appear in the output in the same order as in the input. */
  lemma {:induction false} SortStable<T>(s: seq<T>, key: T -> real, v: real)
    ensures Only(Sort(s, key), key, v) == Only(s, key, v)
    decreases |s|
  {
    if s != [] {
      var init, last := s[..|s| - 1], s[|s| - 1];
      var added := if key(last) == v then [last] else [];
      var sortedInit := Sort(init, key);
      assert Only(Sort(s, key), key, v) == Only(sortedInit, key, v) + added by {
        assert s == init + [last];
        assert Sort(s, key) == Insert(last, sortedInit, key);
        InsertOnly(last, sortedInit, key, v);
      }
      assert Only(s, key, v) == Only(init, key, v) + added by {
        assert s == init + [last];
        OnlyAppend(init, [last], key, v);
        assert Only([last], key, v) == added by {
          assert [last][1..] == [];
        }
      }
      SortStable(init, key, v);
    }
  }

  /** The first element of a sequence whose key is `v` heads `Only(s, key, v)`. */
  lemma OnlyHead<T>(s: seq<T>, key: T -> real, k: nat)
    requires k < |s|
    requires forall j :: 0 <= j < k ==> key(s[j]) != key(s[k])
    ensures |Only(s, key, key(s[k]))| > 0 && Only(s, key, key(s[k]))[0] == s[k]
  {
    var v := key(s[k]);
    assert s == s[..k] + s[k..];
    OnlyNone(s[..k], key, v);
    OnlyAppend(s[..k], s[k..], key, v);
    assert s[k..][0] == s[k];
  }

  /** The sorted sequence starts with an element of maximal key. */
  lemma SortHeadKey<T>(s: seq<T>, key: T -> real, k: nat)
    requires k < |s|
    requires forall j :: 0 <= j < |s| ==> key(s[j]) <= key(s[k])
    ensures key(Sort(s, key)[0]) == key(s[k])
  {
    var r := Sort(s, key);
    assert r[0] in multiset(s);
    var i :| 0 <= i < |s| && s[i] == r[0];
    assert s[k] in multiset(r);
    var m :| 0 <= m < |r| && r[m] == s[k];
    assert m == 0 || key(r[0]) >= key(r[m]);
  }

  /** The head of the sorted sequence is the EARLIEST element of maximal key. */
  lemma SortHeadIsEarliestMax<T>(s: seq<T>, key: T -> real, k: nat)
    requires k < |s|
    requires forall j :: 0 <= j < |s| ==> key(s[j]) <= key(s[k])
    requires forall j :: 0 <= j < k ==> key(s[j]) < key(s[k])
    ensures Sort(s, key)[0] == s[k]
  {
    var r := Sort(s, key);
    SortHeadKey(s, key, k);
    OnlyHead(r, key, 0);
    OnlyHead(s, key, k);
    SortStable(s, key, key(s[k]));
  }

  /** Three parts of at most one element each, the first part's element of
      rank 0, the second's of rank 1 and the third's of rank 2, concatenate
      to a sequence of strictly increasing rank. */
  lemma RanksIncrease<T>(a: seq<T>, b: seq<T>, c: seq<T>, rank: T -> nat)
    requires |a| <= 1 && |b| <= 1 && |c| <= 1
    requires forall x :: x in a ==> rank(x) == 0
    requires forall x :: x in b ==> rank(x) == 1
    requires forall x :: x in c ==> rank(x) == 2
    ensures forall i, j :: 0 <= i < j < |a + b + c| ==>
              rank((a + b + c)[i]) < rank((a + b + c)[j])
  {
    var s := a + b + c;
    forall i, j | 0 <= i < j < |s|
      ensures rank(s[i]) < rank(s[j])
    {
      if i < |a| {
        assert s[i] in a;
        if j < |a| + |b| { assert s[j] == b[j - |a|]; } else { assert s[j] == c[j - |a| - |b|]; }
      } else {
        assert s[i] == b[i - |a|] && s[j] == c[j - |a| - |b|];
      }
    }
  }
}
