/**
 * Counting and grouping with insertion-ordered dictionaries, as the scripts do
 * with Python dicts, collections.Counter and JavaScript's Set: keys come out
 * in the order of their first appearance, and a ranking by count keeps that
 * order among equal counts.
 */
module Tally {
  import opened Base

  /** The distinct elements of `xs` in the order in which they first appear. */
  function FirstOccurrences<K(==)>(xs: seq<K>): (r: seq<K>)
    ensures forall i, j :: 0 <= i < j < |r| ==> r[i] != r[j]
  {
    if xs == [] then []
    else
      var r := FirstOccurrences(xs[..|xs| - 1]);
      var x := xs[|xs| - 1];
      if x in r then r else r + [x]
  }

  /** FirstOccurrences keeps every element of the input and adds none. */
  lemma {:induction false} FirstOccurrencesMember<K>(xs: seq<K>, x: K)
    ensures x in FirstOccurrences(xs) <==> x in xs
  {
    if xs != [] {
      var p := xs[..|xs| - 1];
      FirstOccurrencesMember(p, x);
      assert xs == p + [xs[|xs| - 1]];
    }
  }

  lemma FirstOccurrencesSnoc<K>(xs: seq<K>, x: K)
    ensures FirstOccurrences(xs + [x]) == if x in xs then FirstOccurrences(xs) else FirstOccurrences(xs) + [x]
  {
    assert (xs + [x])[..|xs|] == xs;
    FirstOccurrencesMember(xs, x);
  }

  /** The position of the first `x` in `xs`. */
  function FirstIndex<K(==)>(xs: seq<K>, x: K): (i: nat)
    requires x in xs
    ensures i < |xs| && xs[i] == x && x !in xs[..i]
  {
    if xs[0] == x then 0
    else
      var j := FirstIndex(xs[1..], x);
      assert xs[..j + 1] == [xs[0]] + xs[1..][..j];
      j + 1
  }

  lemma FirstIndexPrefix<K>(xs: seq<K>, x: K, n: nat)
    requires n <= |xs| && x in xs[..n]
    ensures x in xs && FirstIndex(xs[..n], x) == FirstIndex(xs, x)
  {
    var i := FirstIndex(xs[..n], x);
    assert xs[..n][..i] == xs[..i];
    assert xs[i] == x;
    var j := FirstIndex(xs, x);
    assert forall m :: 0 <= m < i ==> xs[..i][m] == xs[m];
    assert forall m :: 0 <= m < j ==> xs[..j][m] == xs[m];
  }

  /** The order of FirstOccurrences is the order of first appearance in the input. */
  lemma {:induction false} FirstOccurrencesOrdered<K>(xs: seq<K>)
    ensures forall i, j :: 0 <= i < j < |FirstOccurrences(xs)| ==>
              FirstOccurrences(xs)[i] in xs && FirstOccurrences(xs)[j] in xs &&
              FirstIndex(xs, FirstOccurrences(xs)[i]) < FirstIndex(xs, FirstOccurrences(xs)[j])
  {
    forall i | 0 <= i < |FirstOccurrences(xs)| ensures FirstOccurrences(xs)[i] in xs {
      FirstOccurrencesMember(xs, FirstOccurrences(xs)[i]);
    }
    if xs != [] {
      var p := xs[..|xs| - 1];
      var r := FirstOccurrences(p);
      var x := xs[|xs| - 1];
      FirstOccurrencesOrdered(p);
      forall k | 0 <= k < |r| ensures r[k] in p && FirstIndex(xs, r[k]) == FirstIndex(p, r[k]) {
        FirstOccurrencesMember(p, r[k]);
        FirstIndexPrefix(xs, r[k], |xs| - 1);
      }
      FirstOccurrencesMember(p, x);
      if x !in r {
        assert x !in p;
        assert FirstIndex(xs, x) == |xs| - 1 by {
          assert xs[..|xs| - 1] == p;
        }
      }
    }
  }

  /** How many times `k` occurs in `xs`. */
  function Occurrences<K(==)>(xs: seq<K>, k: K): nat
  {
    multiset(xs)[k]
  }

  /** The sum, over distinct keys `order`, of their multiplicities in `m`. */
  function CountSum<K(==)>(order: seq<K>, m: multiset<K>): nat
  {
    if order == [] then 0 else m[order[0]] + CountSum(order[1..], m)
  }

  lemma {:induction false} CountSumAppend<K>(order: seq<K>, x: K, m: multiset<K>)
    ensures CountSum(order + [x], m) == CountSum(order, m) + m[x]
  {
    if order != [] {
      assert (order + [x])[1..] == order[1..] + [x];
      CountSumAppend(order[1..], x, m);
    }
  }

  lemma {:induction false} CountSumAddOne<K>(order: seq<K>, x: K, m: multiset<K>)
    requires forall i, j :: 0 <= i < j < |order| ==> order[i] != order[j]
    ensures CountSum(order, m + multiset{x}) == CountSum(order, m) + (if x in order then 1 else 0)
  {
    if order != [] {
      CountSumAddOne(order[1..], x, m);
      if order[0] == x {
        assert x !in order[1..] by {
          forall i | 0 <= i < |order[1..]| ensures order[1..][i] != x {
            assert order[1..][i] == order[i + 1];
          }
        }
      }
    }
  }

  /** Every occurrence is counted once: the per-key counts add up to the length of the input. */
  lemma {:induction false} CountsSumToLength<K>(xs: seq<K>)
    ensures CountSum(FirstOccurrences(xs), multiset(xs)) == |xs|
  {
    if xs != [] {
      var p := xs[..|xs| - 1];
      var x := xs[|xs| - 1];
      var r := FirstOccurrences(p);
      CountsSumToLength(p);
      assert xs == p + [x];
      assert multiset(xs) == multiset(p) + multiset{x};
      CountSumAddOne(r, x, multiset(p));
      FirstOccurrencesMember(p, x);
      if x !in r {
        CountSumAppend(r, x, multiset(xs));
        assert x !in p;
      }
    }
  }

  /** One step of the counting loop keeps the dictionary equal to the multiset of the keys seen. */
  lemma CountStep<K>(xs: seq<K>, k: K, counts: map<K, nat>)
    requires forall x :: x in counts <==> x in multiset(xs)
    requires forall x :: x in counts ==> counts[x] == multiset(xs)[x]
    ensures k in counts <==> k in xs
    ensures var next := counts[k := (if k in counts then counts[k] else 0) + 1];
      (forall x :: x in next <==> x in multiset(xs + [k])) &&
      (forall x :: x in next ==> next[x] == multiset(xs + [k])[x])
  {
    assert multiset(xs + [k]) == multiset(xs) + multiset{k};
  }

  /**
   * The `d[k] = d.get(k, 0) + 1` loop over `keys`: `order` is the dictionary's
   * key order and `counts` its contents.
   */
  method CountBy<K(==)>(keys: seq<K>) returns (order: seq<K>, counts: map<K, nat>)
    ensures order == FirstOccurrences(keys)
    ensures forall k :: k in counts <==> k in keys
    ensures forall k :: k in counts ==> counts[k] == Occurrences(keys, k)
  {
    order, counts := [], map[];
    for i := 0 to |keys|
      invariant order == FirstOccurrences(keys[..i])
      invariant forall k :: k in counts <==> k in multiset(keys[..i])
      invariant forall k :: k in counts ==> counts[k] == multiset(keys[..i])[k]
    {
      var k := keys[i];
      assert keys[..i + 1] == keys[..i] + [k];
      FirstOccurrencesSnoc(keys[..i], k);
      CountStep(keys[..i], k, counts);
      if k !in counts {
        order := order + [k];
      }
      counts := counts[k := (if k in counts then counts[k] else 0) + 1];
    }
    assert keys[..|keys|] == keys;
    forall k ensures k in counts <==> k in keys {
      assert k in multiset(keys) <==> k in keys;
    }
  }

  /** The items whose key is `k`, in input order. */
  function WithKey<T, K(==)>(items: seq<T>, key: T -> K, k: K): (r: seq<T>)
    ensures |r| == Occurrences(Map(items, key), k)
    ensures forall i :: 0 <= i < |r| ==> key(r[i]) == k
  {
    if items == [] then []
    else
      var p := items[..|items| - 1];
      var x := items[|items| - 1];
      assert Map(items, key) == Map(p, key) + [key(x)];
      WithKey(p, key, k) + (if key(x) == k then [x] else [])
  }

  lemma WithKeySnoc<T, K>(items: seq<T>, x: T, key: T -> K, k: K)
    ensures WithKey(items + [x], key, k) == WithKey(items, key, k) + (if key(x) == k then [x] else [])
  {
    assert (items + [x])[..|items|] == items;
  }

  /** `groups` maps exactly the keys of `seen` to their items, in order. */
  ghost predicate Grouped<T, K(!new)>(groups: map<K, seq<T>>, seen: seq<T>, key: T -> K) {
    (forall k :: k in groups <==> k in multiset(Map(seen, key))) &&
    (forall k :: k in groups ==> groups[k] == WithKey(seen, key, k))
  }

  /** A key not seen yet has no items. */
  lemma WithKeyAbsent<T, K>(items: seq<T>, key: T -> K, k: K)
    requires k !in Map(items, key)
    ensures WithKey(items, key, k) == []
  {
    assert multiset(Map(items, key))[k] == 0;
  }

  /** Appending one item to its key's group keeps the groups in step with the items seen. */
  lemma GroupStep<T, K(!new)>(seen: seq<T>, x: T, k: K, key: T -> K, groups: map<K, seq<T>>)
    requires k == key(x) && Grouped(groups, seen, key)
    ensures k in groups <==> k in Map(seen, key)
    ensures Grouped(groups[k := (if k in groups then groups[k] else []) + [x]], seen + [x], key)
  {
    GroupKeysStep(seen, x, k, key, groups);
    if k !in groups {
      WithKeyAbsent(seen, key, k);
    }
    GroupContentsStep(seen, x, k, key, groups);
  }

  lemma GroupKeysStep<T, K>(seen: seq<T>, x: T, k: K, key: T -> K, groups: map<K, seq<T>>)
    requires k == key(x)
    requires forall j :: j in groups <==> j in multiset(Map(seen, key))
    ensures k in groups <==> k in Map(seen, key)
    ensures forall j :: j in groups[k := (if k in groups then groups[k] else []) + [x]] <==> j in multiset(Map(seen + [x], key))
  {
    MapAppend(seen, [x], key);
    assert multiset(Map(seen + [x], key)) == multiset(Map(seen, key)) + multiset{k};
  }

  lemma GroupContentsStep<T, K>(seen: seq<T>, x: T, k: K, key: T -> K, groups: map<K, seq<T>>)
    requires k == key(x)
    requires forall j :: j in groups ==> groups[j] == WithKey(seen, key, j)
    requires k !in groups ==> WithKey(seen, key, k) == []
    ensures var next := groups[k := (if k in groups then groups[k] else []) + [x]];
      forall j :: j in next ==> next[j] == WithKey(seen + [x], key, j)
  {
    forall j ensures WithKey(seen + [x], key, j) == WithKey(seen, key, j) + (if k == j then [x] else []) {
      WithKeySnoc(seen, x, key, j);
    }
  }

  /** The key order after one more item: the item's key is appended when it is new. */
  lemma GroupOrderStep<T, K>(items: seq<T>, x: T, k: K, key: T -> K)
    requires k == key(x)
    ensures FirstOccurrences(Map(items + [x], key)) ==
      if k in Map(items, key) then FirstOccurrences(Map(items, key)) else FirstOccurrences(Map(items, key)) + [k]
  {
    MapAppend(items, [x], key);
    FirstOccurrencesSnoc(Map(items, key), k);
  }

  /** The state of the grouping loop after the items `seen`. */
  ghost predicate GroupState<T, K(!new)>(order: seq<K>, groups: map<K, seq<T>>, seen: seq<T>, key: T -> K) {
    order == FirstOccurrences(Map(seen, key)) && Grouped(groups, seen, key)
  }

  /** One pass of the grouping loop keeps its state in step with the items seen. */
  lemma GroupLoopStep<T, K(!new)>(order: seq<K>, groups: map<K, seq<T>>, seen: seq<T>, x: T, k: K, key: T -> K)
    requires k == key(x) && GroupState(order, groups, seen, key)
    ensures GroupState(if k in groups then order else order + [k],
                       groups[k := (if k in groups then groups[k] else []) + [x]], seen + [x], key)
  {
    GroupStep(seen, x, k, key, groups);
    GroupOrderStep(seen, x, k, key);
  }

  /** After the last item the loop state is the grouping of all items. */
  lemma GroupStateFinal<T, K(!new)>(order: seq<K>, groups: map<K, seq<T>>, items: seq<T>, key: T -> K)
    requires GroupState(order, groups, items, key)
    ensures order == FirstOccurrences(Map(items, key))
    ensures forall k :: k in groups <==> k in Map(items, key)
    ensures forall k :: k in groups ==> groups[k] == WithKey(items, key, k)
  {
    forall k ensures k in groups <==> k in Map(items, key) {
      assert k in multiset(Map(items, key)) <==> k in Map(items, key);
    }
  }

  /**
   * The grouping loop `if k not in groups: groups[k] = []` / `groups[k].append(item)`:
   * `order` is the dictionary's key order and `groups` its contents.
   */
  method GroupBy<T, K(==, !new)>(items: seq<T>, key: T -> K) returns (order: seq<K>, groups: map<K, seq<T>>)
    ensures order == FirstOccurrences(Map(items, key))
    ensures forall k :: k in groups <==> k in Map(items, key)
    ensures forall k :: k in groups ==> groups[k] == WithKey(items, key, k)
  {
    order, groups := [], map[];
    for i := 0 to |items|
      invariant GroupState(order, groups, items[..i], key)
    {
      var x := items[i];
      var k := key(x);
      assert items[..i + 1] == items[..i] + [x];
      GroupLoopStep(order, groups, items[..i], x, k, key);
      if k !in groups {
        order := order + [k];
      }
      groups := groups[k := (if k in groups then groups[k] else []) + [x]];
    }
    assert items[..|items|] == items;
    GroupStateFinal(order, groups, items, key);
  }

  /** Every item lands in exactly one group, so the group sizes add up to the number of items. */
  lemma GroupSizesSumToLength<T, K>(items: seq<T>, key: T -> K)
    ensures CountSum(FirstOccurrences(Map(items, key)), multiset(Map(items, key))) == |items|
  {
    CountsSumToLength(Map(items, key));
  }

  /** The size of each group, in key order: grouping and then measuring the groups counts the keys. */
  method GroupSizes<T, K(==, !new)>(items: seq<T>, key: T -> K) returns (sizes: seq<(K, nat)>)
    ensures sizes == Counts(Map(items, key))
  {
    var order, groups := GroupBy(items, key);
    sizes := [];
    for i := 0 to |order|
      invariant |sizes| == i
      invariant forall t :: 0 <= t < i ==> sizes[t] == (order[t], Occurrences(Map(items, key), order[t]))
    {
      var k := order[i];
      FirstOccurrencesMember(Map(items, key), k);
      assert groups[k] == WithKey(items, key, k);
      sizes := sizes + [(k, |groups[k]|)];
    }
    CountsPointwise(Map(items, key), sizes);
  }

  // ---------------------------------------------------------------------------
  // Ranking by count: Python's sorted(d.items(), key=count, reverse=True) and
  // Counter.most_common(n), both stable.

  /** The (key, count) pairs of a Counter over `xs`, in key insertion order. */
  function Counts<K(==)>(xs: seq<K>): (r: seq<(K, nat)>)
    ensures |r| == |FirstOccurrences(xs)|
    ensures forall i :: 0 <= i < |r| ==>
              r[i].0 == FirstOccurrences(xs)[i] && r[i].1 == Occurrences(xs, r[i].0)
  {
    Map(FirstOccurrences(xs), (k: K) => (k, Occurrences(xs, k)))
  }

  /** Pairs that list the distinct keys in first-appearance order with their counts are the counts. */
  lemma CountsPointwise<K>(xs: seq<K>, ps: seq<(K, nat)>)
    requires |ps| == |FirstOccurrences(xs)|
    requires forall t :: 0 <= t < |ps| ==> ps[t] == (FirstOccurrences(xs)[t], Occurrences(xs, FirstOccurrences(xs)[t]))
    ensures ps == Counts(xs)
  {
  }

  /** The `dict.items()` of the counting loop: each key once, in first-appearance order, with its count. */
  method CountItems<K(==)>(keys: seq<K>) returns (items: seq<(K, nat)>)
    ensures items == Counts(keys)
  {
    var order, counts := CountBy(keys);
    items := [];
    for j := 0 to |order|
      invariant |items| == j
      invariant forall t :: 0 <= t < j ==> items[t] == (order[t], Occurrences(keys, order[t]))
    {
      FirstOccurrencesMember(keys, order[j]);
      items := items + [(order[j], counts[order[j]])];
    }
  }

  /** Put `p` in front of the first pair whose count is not larger than its own. */
  function InsertByCount<K(==)>(p: (K, nat), s: seq<(K, nat)>): (r: seq<(K, nat)>)
    ensures multiset(r) == multiset(s) + multiset{p}
  {
    if s == [] || s[0].1 <= p.1 then [p] + s
    else
      assert s == [s[0]] + s[1..];
      [s[0]] + InsertByCount(p, s[1..])
  }

  predicate NonIncreasing<K(==)>(s: seq<(K, nat)>) {
    forall i, j :: 0 <= i < j < |s| ==> s[i].1 >= s[j].1
  }

  /** The pairs of `s` whose count is `c`, in order. */
  function WithCount<K(==)>(s: seq<(K, nat)>, c: nat): seq<(K, nat)>
  {
    if s == [] then [] else (if s[0].1 == c then [s[0]] else []) + WithCount(s[1..], c)
  }

  /** A stable sort of `ps` by decreasing count. */
  function RankByCount<K(==)>(ps: seq<(K, nat)>): seq<(K, nat)>
  {
    if ps == [] then [] else InsertByCount(ps[0], RankByCount(ps[1..]))
  }

  lemma {:induction false} InsertByCountSorted<K>(p: (K, nat), s: seq<(K, nat)>)
    requires NonIncreasing(s)
    ensures NonIncreasing(InsertByCount(p, s))
    ensures |InsertByCount(p, s)| == |s| + 1
    ensures InsertByCount(p, s)[0] == p || (s != [] && InsertByCount(p, s)[0] == s[0])
  {
    if s != [] && s[0].1 > p.1 {
      InsertByCountSorted(p, s[1..]);
    }
  }

  lemma {:induction false} InsertByCountStable<K>(p: (K, nat), s: seq<(K, nat)>, c: nat)
    ensures WithCount(InsertByCount(p, s), c) == (if p.1 == c then [p] else []) + WithCount(s, c)
  {
    if s == [] || s[0].1 <= p.1 {
      assert ([p] + s)[1..] == s;
    } else {
      var r := InsertByCount(p, s[1..]);
      InsertByCountStable(p, s[1..], c);
      assert ([s[0]] + r)[1..] == r;
    }
  }

  lemma {:induction false} RankByCountSorted<K>(ps: seq<(K, nat)>)
    ensures NonIncreasing(RankByCount(ps)) && |RankByCount(ps)| == |ps|
  {
    if ps != [] {
      RankByCountSorted(ps[1..]);
      InsertByCountSorted(ps[0], RankByCount(ps[1..]));
    }
  }

  lemma {:induction false} RankByCountPermutes<K>(ps: seq<(K, nat)>)
    ensures multiset(RankByCount(ps)) == multiset(ps)
  {
    if ps != [] {
      RankByCountPermutes(ps[1..]);
      assert ps == [ps[0]] + ps[1..];
    }
  }

  lemma {:induction false} RankByCountStable<K>(ps: seq<(K, nat)>, c: nat)
    ensures WithCount(RankByCount(ps), c) == WithCount(ps, c)
  {
    if ps != [] {
      RankByCountStable(ps[1..], c);
      InsertByCountStable(ps[0], RankByCount(ps[1..]), c);
    }
  }

  /** The ranking is sorted by decreasing count, is a permutation, and keeps input order among equal counts. */
  lemma RankByCountCorrect<K>(ps: seq<(K, nat)>)
    ensures NonIncreasing(RankByCount(ps))
    ensures multiset(RankByCount(ps)) == multiset(ps)
    ensures |RankByCount(ps)| == |ps|
    ensures forall c :: WithCount(RankByCount(ps), c) == WithCount(ps, c)
  {
    RankByCountSorted(ps);
    RankByCountPermutes(ps);
    forall c ensures WithCount(RankByCount(ps), c) == WithCount(ps, c) {
      RankByCountStable(ps, c);
    }
  }

  /** The sum of the counts of `ps`. */
  function PairSum<K>(ps: seq<(K, nat)>): nat
  {
    if ps == [] then 0 else ps[0].1 + PairSum(ps[1..])
  }

  lemma {:induction false} PairSumInsert<K>(p: (K, nat), s: seq<(K, nat)>)
    ensures PairSum(InsertByCount(p, s)) == p.1 + PairSum(s)
  {
    if s == [] || s[0].1 <= p.1 {
      assert ([p] + s)[1..] == s;
    } else {
      var r := InsertByCount(p, s[1..]);
      PairSumInsert(p, s[1..]);
      assert ([s[0]] + r)[1..] == r;
    }
  }

  /** Ranking moves pairs around but keeps the total of their counts. */
  lemma {:induction false} PairSumRank<K>(ps: seq<(K, nat)>)
    ensures PairSum(RankByCount(ps)) == PairSum(ps)
  {
    if ps != [] {
      PairSumRank(ps[1..]);
      PairSumInsert(ps[0], RankByCount(ps[1..]));
    }
  }

  lemma {:induction false} PairSumPointwise<K>(ps: seq<(K, nat)>, order: seq<K>, m: multiset<K>)
    requires |ps| == |order|
    requires forall i :: 0 <= i < |ps| ==> ps[i] == (order[i], m[order[i]])
    ensures PairSum(ps) == CountSum(order, m)
  {
    if ps != [] {
      PairSumPointwise(ps[1..], order[1..], m);
    }
  }

  /** The counts of a Counter add up to the number of counted elements. */
  lemma CountsPairSum<K>(xs: seq<K>)
    ensures PairSum(Counts(xs)) == |xs|
  {
    PairSumPointwise(Counts(xs), FirstOccurrences(xs), multiset(xs));
    CountsSumToLength(xs);
  }

  /** The counts of a ranked Counter add up to the number of counted elements. */
  lemma RankedCountsSumToLength<K>(xs: seq<K>)
    ensures PairSum(RankByCount(Counts(xs))) == |xs|
  {
    PairSumRank(Counts(xs));
    CountsPairSum(xs);
  }

  /** Every pair of the ranking carries its key's true count. */
  lemma RankedCountsExact<K>(xs: seq<K>, i: nat)
    requires i < |RankByCount(Counts(xs))|
    ensures RankByCount(Counts(xs))[i].1 == Occurrences(xs, RankByCount(Counts(xs))[i].0)
    ensures RankByCount(Counts(xs))[i].0 in xs
  {
    var ranked := RankByCount(Counts(xs));
    RankByCountCorrect(Counts(xs));
    var p := ranked[i];
    assert p in multiset(ranked);
    assert p in Counts(xs);
    var j :| 0 <= j < |Counts(xs)| && Counts(xs)[j] == p;
    FirstOccurrencesMember(xs, p.0);
  }

  /** `Counter(xs).most_common(n)`: at most `n` (key, count) pairs, largest counts first. */
  function MostCommon<K(==)>(xs: seq<K>, n: int): seq<(K, nat)>
  {
    var ranked := RankByCount(Counts(xs));
    if n <= 0 then [] else ranked[..if n < |ranked| then n else |ranked|]
  }

  /** Each pair of `most_common(n)` is an element of the input with its true count. */
  lemma MostCommonMember<K>(xs: seq<K>, n: int, i: nat)
    requires i < |MostCommon(xs, n)|
    ensures MostCommon(xs, n)[i].0 in xs
    ensures MostCommon(xs, n)[i].1 == Occurrences(xs, MostCommon(xs, n)[i].0)
  {
    RankedCountsExact(xs, i);
  }

  /** A non-empty input and a positive `n` give at least one pair. */
  lemma MostCommonNonEmpty<K>(xs: seq<K>, n: int)
    requires xs != [] && n > 0
    ensures MostCommon(xs, n) != []
  {
    RankByCountPermutes(Counts(xs));
    assert |RankByCount(Counts(xs))| == |Counts(xs)| by {
      assert |multiset(RankByCount(Counts(xs)))| == |multiset(Counts(xs))|;
    }
    FirstOccurrencesMember(xs, xs[0]);
  }

  /**
   * `most_common(n)` keeps at most `n` pairs, largest counts first, each with
   * its key's true count, and among equal counts the keys that came first.
   */
  lemma MostCommonCorrect<K>(xs: seq<K>, n: int)
    ensures |MostCommon(xs, n)| <= (if n < 0 then 0 else n)
    ensures |MostCommon(xs, n)| == (if n < 0 then 0 else if n < |FirstOccurrences(xs)| then n else |FirstOccurrences(xs)|)
    ensures NonIncreasing(MostCommon(xs, n))
    ensures MostCommon(xs, n) == RankByCount(Counts(xs))[..|MostCommon(xs, n)|]
    ensures forall i :: 0 <= i < |MostCommon(xs, n)| ==>
              MostCommon(xs, n)[i].0 in xs && MostCommon(xs, n)[i].1 == Occurrences(xs, MostCommon(xs, n)[i].0)
  {
    RankByCountCorrect(Counts(xs));
    var r := MostCommon(xs, n);
    forall i | 0 <= i < |r| ensures r[i].0 in xs && r[i].1 == Occurrences(xs, r[i].0) {
      RankedCountsExact(xs, i);
    }
  }
}
