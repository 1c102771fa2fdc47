/**
 * Go leaves the iteration order of a map unspecified. A loop `for k, v := range m` is
 * modelled by a duplicate-free enumeration `order` of the keys of `m`; what the loop builds
 * is the image of `m` along `order`, and the facts that do not depend on the order are
 * stated as multiset (permutation) facts.
 */
module KeyOrder {

  ghost predicate Distinct<K>(s: seq<K>)
  {
    forall i, j :: 0 <= i < j < |s| ==> s[i] != s[j]
  }

  /** `order` visits every key of `m` exactly once. */
  ghost predicate IsKeyOrder<V>(m: map<string, V>, order: seq<string>)
  {
    && Distinct(order)
    && (forall i :: 0 <= i < |order| ==> order[i] in m)
    && (forall k :: k in m ==> k in order)
  }

  /** What a loop over `m` in the order `order` collects when it emits `f(k, v)` per entry. */
  function Image<V, R>(m: map<string, V>, order: seq<string>, f: (string, V) -> R): (r: seq<R>)
    requires forall i :: 0 <= i < |order| ==> order[i] in m
  {
    seq(|order|, i requires 0 <= i < |order| => f(order[i], m[order[i]]))
  }

  /** Appending one key to the order appends that entry's image. */
  lemma {:induction false} ImageSnoc<V, R>(m: map<string, V>, order: seq<string>, k: string, f: (string, V) -> R)
    requires forall i :: 0 <= i < |order| ==> order[i] in m
    requires k in m
    ensures Image(m, order + [k], f) == Image(m, order, f) + [f(k, m[k])]
  {
  }

  lemma {:induction false} ImageAppend<V, R>(m: map<string, V>, a: seq<string>, b: seq<string>, f: (string, V) -> R)
    requires forall i :: 0 <= i < |a| ==> a[i] in m
    requires forall i :: 0 <= i < |b| ==> b[i] in m
    ensures Image(m, a + b, f) == Image(m, a, f) + Image(m, b, f)
  {
  }

  /** A key order lists exactly as many keys as the map has. */
  lemma {:induction false} KeyOrderLength<V>(m: map<string, V>, order: seq<string>)
    requires IsKeyOrder(m, order)
    ensures |order| == |m|
    decreases |order|
  {
    if order != [] {
      var n := |order| - 1;
      var last := order[n];
      var rest := m - {last};
      assert rest.Keys == m.Keys - {last};
      forall k | k in rest ensures k in order[..n] {
        assert k in order;
        var i :| 0 <= i < |order| && order[i] == k;
        assert i != n;
      }
      assert IsKeyOrder(rest, order[..n]);
      KeyOrderLength(rest, order[..n]);
    }
  }

  /** In a duplicate-free sequence every element occurs once. */
  lemma {:induction false} DistinctCount(s: seq<string>, x: string)
    requires Distinct(s)
    ensures multiset(s)[x] == if x in s then 1 else 0
    decreases |s|
  {
    if s != [] {
      var n := |s| - 1;
      assert s == s[..n] + [s[n]];
      assert Distinct(s[..n]);
      DistinctCount(s[..n], x);
      assert s[n] !in s[..n];
      assert x in s <==> x in s[..n] || x == s[n];
    }
  }

  /** Two key orders of one map are permutations of each other. */
  lemma {:induction false} KeyOrdersPermutation<V>(m: map<string, V>, o1: seq<string>, o2: seq<string>)
    requires IsKeyOrder(m, o1) && IsKeyOrder(m, o2)
    ensures multiset(o1) == multiset(o2)
  {
    forall x ensures multiset(o1)[x] == multiset(o2)[x] {
      DistinctCount(o1, x);
      DistinctCount(o2, x);
      assert x in o1 <==> x in m;
      assert x in o2 <==> x in m;
    }
  }

  /** Cancelling one occurrence of `k` on both sides keeps two sequences permutations. */
  lemma {:induction false} CancelOne<T>(a: seq<T>, k: T, pre: seq<T>, post: seq<T>)
    requires multiset(a + [k]) == multiset(pre + [k] + post)
    ensures multiset(a) == multiset(pre + post)
  {
    assert multiset(a + [k]) == multiset(a) + multiset{k};
    assert multiset(pre + [k] + post) == multiset(pre + post) + multiset{k};
    assert multiset(a) == multiset(a + [k]) - multiset{k};
    assert multiset(pre + post) == multiset(pre + [k] + post) - multiset{k};
  }

  /** Taking one entry out of the middle of an order takes its value out of the image. */
  lemma {:induction false} ImageWithout<V, R>(m: map<string, V>, s: seq<string>, j: int, f: (string, V) -> R)
    requires 0 <= j < |s|
    requires forall i :: 0 <= i < |s| ==> s[i] in m
    ensures multiset(Image(m, s, f)) == multiset(Image(m, s[..j] + s[j + 1..], f)) + multiset{f(s[j], m[s[j]])}
  {
    var pre, k, post := s[..j], s[j], s[j + 1..];
    assert s == pre + [k] + post;
    ImageAppend(m, pre + [k], post, f);
    ImageSnoc(m, pre, k, f);
    ImageAppend(m, pre, post, f);
  }

  /** Dropping one element of a sequence of keys of `m` leaves keys of `m`. */
  lemma {:induction false} WithoutIndexStaysInMap<V>(m: map<string, V>, s: seq<string>, j: int)
    returns (t: seq<string>)
    requires 0 <= j < |s|
    requires forall i :: 0 <= i < |s| ==> s[i] in m
    ensures t == s[..j] + s[j + 1..]
    ensures forall i :: 0 <= i < |t| ==> t[i] in m
  {
    t := s[..j] + s[j + 1..];
    forall i | 0 <= i < |t| ensures t[i] in m {
      if i < j {
        assert t[i] == s[i];
      } else {
        assert t[i] == s[i + 1];
      }
    }
  }

  /** Images along permuted orders are permutations of each other. */
  lemma {:induction false} ImageMultiset<V, R>(m: map<string, V>, o1: seq<string>, o2: seq<string>, f: (string, V) -> R)
    requires forall i :: 0 <= i < |o1| ==> o1[i] in m
    requires forall i :: 0 <= i < |o2| ==> o2[i] in m
    requires multiset(o1) == multiset(o2)
    ensures multiset(Image(m, o1, f)) == multiset(Image(m, o2, f))
    decreases |o1|
  {
    if o1 == [] {
      assert |o2| == |multiset(o2)| == 0;
    } else {
      var n := |o1| - 1;
      var k := o1[n];
      var rest := o1[..n];
      assert o1 == rest + [k];
      assert k in multiset(o2);
      var j :| 0 <= j < |o2| && o2[j] == k;
      var pre, post := o2[..j], o2[j + 1..];
      assert o2 == pre + [k] + post;
      CancelOne(rest, k, pre, post);
      var others := WithoutIndexStaysInMap(m, o2, j);
      ImageMultiset(m, rest, others, f);
      ImageSnoc(m, rest, k, f);
      ImageWithout(m, o2, j, f);
    }
  }

  /** Whatever order a map loop takes, it collects the same multiset of values. */
  lemma {:induction false} ImageOrderIndependent<V, R>(m: map<string, V>, o1: seq<string>, o2: seq<string>, f: (string, V) -> R)
    requires IsKeyOrder(m, o1) && IsKeyOrder(m, o2)
    ensures multiset(Image(m, o1, f)) == multiset(Image(m, o2, f))
  {
    KeyOrdersPermutation(m, o1, o2);
    ImageMultiset(m, o1, o2, f);
  }
}
