/** Python's `collections.Counter` as the profiler uses it: a dictionary from
    keys to counts that remembers the order in which keys were first inserted
    (the order `most_common` falls back on between equal counts). */
module Counters {
  import opened Wrappers

  /** The keys in insertion order, and the count of each. */
  datatype Counter = Counter(keys: seq<string>, counts: map<string, nat>)

  /** `Counter()`. */
  const Empty := Counter([], map[])

  /** Each key is listed once, and exactly the listed keys have a count. */
  ghost predicate Valid(c: Counter)
  {
    (forall i, j :: 0 <= i < j < |c.keys| ==> c.keys[i] != c.keys[j]) &&
    (forall k :: k in c.counts <==> k in c.keys)
  }

  /** `c[k]`: the count of `k`, zero when `k` was never inserted. */
  function Get(c: Counter, k: string): nat
  {
    if k in c.counts then c.counts[k] else 0
  }

  /** `c[k] += n`: an existing key keeps its place, a new key goes last. */
  function Add(c: Counter, k: string, n: nat): Counter
  {
    if k in c.counts then Counter(c.keys, c.counts[k := c.counts[k] + n])
    else Counter(c.keys + [k], c.counts[k := n])
  }

  /** Adding to a key changes that key's count only, and a new key is
      inserted last. */
  lemma AddSpec(c: Counter, k: string, n: nat)
    requires Valid(c)
    ensures Valid(Add(c, k, n))
    ensures Get(Add(c, k, n), k) == Get(c, k) + n
    ensures forall j :: j != k ==> Get(Add(c, k, n), j) == Get(c, j)
    ensures Add(c, k, n).keys == if k in c.keys then c.keys else c.keys + [k]
  {
  }

  /** The counter obtained by counting the first `n` elements of `s`, in
      order. */
  function Tally(s: seq<string>, n: nat := |s|): Counter
    requires n <= |s|
  {
    if n == 0 then Empty else Add(Tally(s, n - 1), s[n - 1], 1)
  }

  /** Each count is the number of occurrences among the first `n` elements,
      and the keys are those elements. */
  lemma {:induction false} TallyCounts(s: seq<string>, n: nat := |s|)
    requires n <= |s|
    ensures Valid(Tally(s, n))
    ensures forall k :: Get(Tally(s, n), k) == multiset(s[..n])[k]
    ensures forall k :: k in Tally(s, n).keys <==> k in s[..n]
  {
    if n == 0 {
    } else {
      assert s[..n] == s[..n - 1] + [s[n - 1]];
      TallyCounts(s, n - 1);
      AddSpec(Tally(s, n - 1), s[n - 1], 1);
    }
  }

  /** Counting only looks at the elements it is asked to count. */
  lemma {:induction false} TallyPrefix(a: seq<string>, b: seq<string>, n: nat)
    requires n <= |a|
    ensures Tally(a + b, n) == Tally(a, n)
  {
    if n > 0 {
      TallyPrefix(a, b, n - 1);
    }
  }

  /** Counting one more element is one more `Add`. */
  lemma TallySnoc(s: seq<string>, x: string)
    ensures Tally(s + [x]) == Add(Tally(s), x, 1)
  {
    TallyPrefix(s, [x], |s|);
  }

  /** The keys met in the first `p` elements come first among the keys met
      in the first `n`, in the same order: insertion order is order of first
      appearance. */
  lemma {:induction false} TallyKeysPrefix(s: seq<string>, p: nat, n: nat)
    requires p <= n <= |s|
    ensures Tally(s, p).keys <= Tally(s, n).keys
  {
    if p < n {
      TallyKeysPrefix(s, p, n - 1);
    }
  }

  /** The position, among the first `m` keys, of the first key with the
      largest count: the entry that `most_common(1)` returns, since it keeps
      the first maximum it meets. */
  function FirstMax(c: Counter, m: nat): (i: nat)
    requires 0 < m <= |c.keys|
    ensures i < m
  {
    if m == 1 then 0
    else
      var i := FirstMax(c, m - 1);
      if Get(c, c.keys[m - 1]) > Get(c, c.keys[i]) then m - 1 else i
  }

  /** No key among the first `m` has a larger count than the first maximum,
      and every key before it has a smaller one. */
  lemma {:induction false} FirstMaxSpec(c: Counter, m: nat)
    requires 0 < m <= |c.keys|
    ensures forall j :: 0 <= j < m ==> Get(c, c.keys[j]) <= Get(c, c.keys[FirstMax(c, m)])
    ensures forall j :: 0 <= j < FirstMax(c, m) ==> Get(c, c.keys[j]) < Get(c, c.keys[FirstMax(c, m)])
  {
    if m > 1 {
      FirstMaxSpec(c, m - 1);
    }
  }

  /** `c.most_common(1)[0][0] if c else None`. */
  function MostCommon(c: Counter): Option<string>
  {
    if c.keys == [] then None else Some(c.keys[FirstMax(c, |c.keys|)])
  }

  /** The most common key of a counter: none exactly when it is empty,
      otherwise one of its keys whose count no other key exceeds. */
  lemma MostCommonSpec(c: Counter)
    requires Valid(c)
    ensures MostCommon(c).None? <==> c.keys == []
    ensures MostCommon(c).Some? ==> MostCommon(c).value in c.keys && forall k :: Get(c, k) <= Get(c, MostCommon(c).value)
  {
    if c.keys != [] {
      var a := c.keys[FirstMax(c, |c.keys|)];
      FirstMaxSpec(c, |c.keys|);
      forall k ensures Get(c, k) <= Get(c, a) {
        if k in c.keys {
          var j :| 0 <= j < |c.keys| && c.keys[j] == k;
        }
      }
    }
  }

  /** A key tied with the first maximum of `c` that lies in a prefix of
      `c`'s keys drags the first maximum into that prefix. */
  lemma FirstMaxInPrefix(c: Counter, kp: seq<string>, b: string)
    requires Valid(c) && |c.keys| > 0
    requires kp <= c.keys && b in kp
    requires Get(c, b) == Get(c, c.keys[FirstMax(c, |c.keys|)])
    ensures c.keys[FirstMax(c, |c.keys|)] in kp
  {
    var i := FirstMax(c, |c.keys|);
    FirstMaxSpec(c, |c.keys|);
    var m :| 0 <= m < |kp| && kp[m] == b;
    assert c.keys[m] == b;
    assert i <= m;
    assert kp[i] == c.keys[i];
  }

  /** The count of `k` in the tally of all of `s`. */
  lemma TallyGet(s: seq<string>, k: string)
    ensures Get(Tally(s), k) == multiset(s)[k]
  {
    TallyCounts(s);
    assert s[..|s|] == s;
  }

  /** The keys of the tally of `s[..n]` are the elements met before
      position `n`, the last of which is `s[n - 1]`. */
  lemma PrefixKeys(s: seq<string>, n: nat)
    requires 0 < n <= |s|
    ensures s[n - 1] in Tally(s, n).keys
    ensures forall k :: k in Tally(s, n).keys ==> k in s[..n]
    ensures Tally(s, n).keys <= Tally(s).keys
  {
    TallyCounts(s, n);
    assert s[n - 1] in s[..n];
    TallyKeysPrefix(s, n, |s|);
  }

  lemma TallyValid(s: seq<string>)
    ensures Valid(Tally(s))
  {
    TallyCounts(s);
  }

  /** An element of `s` as frequent as the most common one drags the most
      common one into the prefix ending at that element. */
  lemma TiedSeenFirst(s: seq<string>, p: nat)
    requires p < |s| && MostCommon(Tally(s)).Some?
    requires Get(Tally(s), s[p]) == Get(Tally(s), MostCommon(Tally(s)).value)
    ensures MostCommon(Tally(s)).value in s[..p + 1]
  {
    var c := Tally(s);
    TallyValid(s);
    var a := MostCommon(c).value;
    assert a == c.keys[FirstMax(c, |c.keys|)];
    var kp := Tally(s, p + 1).keys;
    PrefixKeys(s, p + 1);
    FirstMaxInPrefix(c, kp, s[p]);
    assert a in kp;
  }

  /** The most common element of `s`: none exactly when `s` is empty;
      otherwise an element of `s` that occurs at least as often as any other,
      and among the elements that occur as often, the one seen first (it has
      already appeared at every position where an equally frequent one does). */
  lemma {:induction false} MostCommonOfTally(s: seq<string>)
    ensures Valid(Tally(s))
    ensures MostCommon(Tally(s)).None? <==> s == []
    ensures MostCommon(Tally(s)).Some? ==>
      var a := MostCommon(Tally(s)).value;
      a in s &&
      (forall k :: multiset(s)[k] <= multiset(s)[a]) &&
      (forall p :: 0 <= p < |s| && multiset(s)[s[p]] == multiset(s)[a] ==> a in s[..p + 1])
  {
    var c := Tally(s);
    TallyCounts(s);
    assert s[..|s|] == s;
    MostCommonSpec(c);
    if s != [] {
      assert s[0] in c.keys;
      forall p | 0 <= p < |s| && multiset(s)[s[p]] == multiset(s)[MostCommon(c).value]
        ensures MostCommon(c).value in s[..p + 1]
      {
        TallyGet(s, s[p]);
        TallyGet(s, MostCommon(c).value);
        TiedSeenFirst(s, p);
      }
    }
  }

  /** `acc` after adding the counts of the first `n` keys of `c`, in
      `c`'s order. */
  function Merge(acc: Counter, c: Counter, n: nat := |c.keys|): Counter
    requires n <= |c.keys|
  {
    if n == 0 then acc else Add(Merge(acc, c, n - 1), c.keys[n - 1], Get(c, c.keys[n - 1]))
  }

  /** The merge of the first `n` keys of `c` is well formed and holds the
      keys of `acc` and those `n` keys. */
  lemma {:induction false} MergeShape(acc: Counter, c: Counter, n: nat)
    requires n <= |c.keys| && Valid(acc) && Valid(c)
    ensures Valid(Merge(acc, c, n))
    ensures forall k :: k in Merge(acc, c, n).keys <==> k in acc.keys || k in c.keys[..n]
  {
    if n > 0 {
      var k := c.keys[n - 1];
      MergeShape(acc, c, n - 1);
      assert c.keys[..n] == c.keys[..n - 1] + [k];
      AddSpec(Merge(acc, c, n - 1), k, Get(c, k));
    }
  }

  /** The merge of the first `n` keys of `c` adds the count of each of
      them. */
  lemma {:induction false} MergeCountAt(acc: Counter, c: Counter, n: nat, x: string)
    requires n <= |c.keys| && Valid(c)
    ensures Get(Merge(acc, c, n), x) == Get(acc, x) + if x in c.keys[..n] then Get(c, x) else 0
  {
    if n > 0 {
      var k := c.keys[n - 1];
      MergeCountAt(acc, c, n - 1, x);
      AddGet(Merge(acc, c, n - 1), k, Get(c, k), x);
      assert c.keys[..n] == c.keys[..n - 1] + [k];
      if x == k {
        assert k !in c.keys[..n - 1];
      }
    }
  }

  /** Adding to a key changes the count of that key only. */
  lemma AddGet(c: Counter, k: string, n: nat, x: string)
    ensures Get(Add(c, k, n), x) == Get(c, x) + if x == k then n else 0
  {
  }

  lemma MergePartial(acc: Counter, c: Counter, n: nat)
    requires n <= |c.keys| && Valid(acc) && Valid(c)
    ensures Valid(Merge(acc, c, n))
    ensures forall k :: Get(Merge(acc, c, n), k) == Get(acc, k) + if k in c.keys[..n] then Get(c, k) else 0
    ensures forall k :: k in Merge(acc, c, n).keys <==> k in acc.keys || k in c.keys[..n]
  {
    MergeShape(acc, c, n);
    forall x ensures Get(Merge(acc, c, n), x) == Get(acc, x) + if x in c.keys[..n] then Get(c, x) else 0 {
      MergeCountAt(acc, c, n, x);
    }
  }

  /** Merging adds the counts key by key, and the merged keys are those of
      either counter: the keys of `acc` keep their places and the new keys
      follow in `c`'s order. */
  lemma MergeSpec(acc: Counter, c: Counter)
    requires Valid(acc) && Valid(c)
    ensures Valid(Merge(acc, c))
    ensures forall k :: Get(Merge(acc, c), k) == Get(acc, k) + Get(c, k)
    ensures forall k :: k in Merge(acc, c).keys <==> k in acc.keys || k in c.keys
    ensures acc.keys <= Merge(acc, c).keys
  {
    MergePartial(acc, c, |c.keys|);
    assert c.keys[..|c.keys|] == c.keys;
    MergeKeysGrow(acc, c, |c.keys|);
  }

  lemma {:induction false} MergeKeysGrow(acc: Counter, c: Counter, n: nat)
    requires n <= |c.keys|
    ensures acc.keys <= Merge(acc, c, n).keys
  {
    if n > 0 {
      MergeKeysGrow(acc, c, n - 1);
    }
  }

  /** `for addr, c in chunk[...]: acc[addr] += c`, over the pairs of a
      chunk's counter in its key order. */
  method AddAll(acc: Counter, c: Counter) returns (r: Counter)
    ensures r == Merge(acc, c)
  {
    r := acc;
    for i := 0 to |c.keys|
      invariant r == Merge(acc, c, i)
    {
      r := Add(r, c.keys[i], Get(c, c.keys[i]));
    }
  }

  /** Adding to the same key twice is adding the sum once. */
  lemma AddTwice(c: Counter, k: string, a: nat, b: nat)
    ensures Add(Add(c, k, a), k, b) == Add(c, k, a + b)
  {
    assert c.counts[k := Get(c, k) + a][k := Get(c, k) + a + b] == c.counts[k := Get(c, k) + a + b];
  }

  /** Adding to a key already present and adding to another key commute:
      neither changes where the other one sits. */
  lemma AddCommute(c: Counter, k: string, y: string, a: nat, b: nat)
    requires k in c.counts && y != k
    ensures Add(Add(c, k, a), y, b) == Add(Add(c, y, b), k, a)
  {
    assert c.counts[k := c.counts[k] + a][y := Get(c, y) + b] == c.counts[y := Get(c, y) + b][k := c.counts[k] + a];
  }

  /** Merging only looks at the keys it merges and their counts. */
  lemma {:induction false} MergeSame(acc: Counter, c: Counter, d: Counter, n: nat)
    requires n <= |c.keys| && n <= |d.keys|
    requires forall i :: 0 <= i < n ==> c.keys[i] == d.keys[i] && Get(c, c.keys[i]) == Get(d, d.keys[i])
    ensures Merge(acc, c, n) == Merge(acc, d, n)
  {
    if n > 0 {
      MergeSame(acc, c, d, n - 1);
    }
  }

  /** Each merged key has a count in the merge. */
  lemma {:induction false} MergeHas(acc: Counter, c: Counter, n: nat, j: nat)
    requires j < n <= |c.keys|
    ensures c.keys[j] in Merge(acc, c, n).counts
  {
    if j < n - 1 {
      MergeHas(acc, c, n - 1, j);
    }
  }

  /** Bumping the key at position `j` of `c` by one: up to and including
      position `j`, the merge sees the bump as one more at `j`. */
  lemma MergeBumpedFirst(acc: Counter, c: Counter, j: nat)
    requires Valid(c) && j < |c.keys|
    ensures Merge(acc, Add(c, c.keys[j], 1), j + 1) == Add(Merge(acc, c, j + 1), c.keys[j], 1)
  {
    var k := c.keys[j];
    var d := Add(c, k, 1);
    assert d.keys == c.keys;
    forall i | 0 <= i < j
      ensures c.keys[i] == d.keys[i] && Get(c, c.keys[i]) == Get(d, d.keys[i])
    {
      AddGet(c, k, 1, c.keys[i]);
    }
    MergeSame(acc, c, d, j);
    AddGet(c, k, 1, k);
    AddTwice(Merge(acc, c, j), k, Get(c, k), 1);
  }

  /** Past position `j`, the bump of key `k` commutes with each further
      merged key. */
  lemma MergeBumpedStep(acc: Counter, c: Counter, j: nat, n: nat)
    requires Valid(c) && j + 1 < n <= |c.keys|
    requires Merge(acc, Add(c, c.keys[j], 1), n - 1) == Add(Merge(acc, c, n - 1), c.keys[j], 1)
    ensures Merge(acc, Add(c, c.keys[j], 1), n) == Add(Merge(acc, c, n), c.keys[j], 1)
  {
    var k := c.keys[j];
    var d := Add(c, k, 1);
    var y := c.keys[n - 1];
    assert d.keys == c.keys && y != k;
    AddGet(c, k, 1, y);
    MergeHas(acc, c, n - 1, j);
    AddCommute(Merge(acc, c, n - 1), k, y, 1, Get(c, y));
  }

  /** Merging a counter whose key at position `j` was bumped by one is
      bumping that key once the merge has passed position `j`. */
  lemma {:induction false} MergeBumped(acc: Counter, c: Counter, j: nat, n: nat)
    requires Valid(c) && j < n <= |c.keys|
    ensures Merge(acc, Add(c, c.keys[j], 1), n) == Add(Merge(acc, c, n), c.keys[j], 1)
  {
    if n == j + 1 {
      MergeBumpedFirst(acc, c, j);
    } else {
      MergeBumped(acc, c, j, n - 1);
      MergeBumpedStep(acc, c, j, n);
    }
  }

  /** Merging a counter with one more occurrence of `k` is merging the
      counter and then counting `k` once more. */
  lemma MergeAddOne(acc: Counter, c: Counter, k: string)
    requires Valid(c)
    ensures Merge(acc, Add(c, k, 1)) == Add(Merge(acc, c), k, 1)
  {
    var d := Add(c, k, 1);
    if k in c.counts {
      var j :| 0 <= j < |c.keys| && c.keys[j] == k;
      MergeBumped(acc, c, j, |c.keys|);
    } else {
      forall i | 0 <= i < |c.keys|
        ensures d.keys[i] == c.keys[i] && Get(d, d.keys[i]) == Get(c, c.keys[i])
      {
        AddGet(c, k, 1, c.keys[i]);
      }
      MergeSame(acc, d, c, |c.keys|);
    }
  }
}
