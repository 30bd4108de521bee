/** Sequence operations the source builds from arrays, `Set` and `Map`: deduplication that keeps
    the first occurrence, batching into fixed-size chunks, and an insertion-ordered map. */
module Seqs {
  import opened Text

  /** The keys of the elements of `s`. */
  function Keys<T, K(==)>(s: seq<T>, key: T -> K): (ks: set<K>)
    ensures forall i :: 0 <= i < |s| ==> key(s[i]) in ks
  {
    if s == [] then {} else Keys(s[..|s| - 1], key) + {key(s[|s| - 1])}
  }

  /** Keep each element whose key was not seen earlier: `[...new Set(s)]` for the identity key,
      `s.filter((x, i) => i === s.findIndex(y => key(y) === key(x)))` in general. */
  function DedupBy<T, K(==)>(s: seq<T>, key: T -> K): (r: seq<T>)
    decreases |s|
  {
    if s == [] then []
    else
      var prev := DedupBy(s[..|s| - 1], key);
      if key(s[|s| - 1]) in Keys(prev, key) then prev else prev + [s[|s| - 1]]
  }

  lemma {:induction false} KeysMember<T, K>(s: seq<T>, key: T -> K, k: K)
    requires k in Keys(s, key)
    ensures exists i :: 0 <= i < |s| && key(s[i]) == k
  {
    if key(s[|s| - 1]) != k {
      KeysMember(s[..|s| - 1], key, k);
    }
  }

  lemma {:induction false} KeysAppend<T, K>(a: seq<T>, b: seq<T>, key: T -> K)
    ensures Keys(a + b, key) == Keys(a, key) + Keys(b, key)
    decreases |b|
  {
    if b == [] {
      assert a + b == a;
    } else {
      assert (a + b)[..|a + b| - 1] == a + b[..|b| - 1];
      KeysAppend(a, b[..|b| - 1], key);
    }
  }

  /** Deduplication keeps exactly the keys of the input, each once, each element taken
      from the input, each the first element of the input with its key, and in the order in
      which the keys first occur. */
  lemma DedupByProperties<T, K>(s: seq<T>, key: T -> K)
    ensures Keys(DedupBy(s, key), key) == Keys(s, key)
    ensures forall i, j :: 0 <= i < j < |DedupBy(s, key)| ==> key(DedupBy(s, key)[i]) != key(DedupBy(s, key)[j])
    ensures forall x :: x in DedupBy(s, key) ==> x in s
    ensures forall i :: 0 <= i < |DedupBy(s, key)| ==> FirstWithKey(s, key, key(DedupBy(s, key)[i])) == Some(DedupBy(s, key)[i])
    ensures forall i, j :: 0 <= i < j < |DedupBy(s, key)| ==>
      FirstKeyIndex(s, key, key(DedupBy(s, key)[i])) < FirstKeyIndex(s, key, key(DedupBy(s, key)[j]))
  {
    DedupByOrder(s, key);
    DedupByKeys(s, key);
    DedupByDistinct(s, key);
    DedupBySubset(s, key);
    DedupByFirst(s, key);
  }

  lemma {:induction false} DedupByKeys<T, K>(s: seq<T>, key: T -> K)
    ensures Keys(DedupBy(s, key), key) == Keys(s, key)
    decreases |s|
  {
    if s != [] {
      var init := s[..|s| - 1];
      var x := s[|s| - 1];
      DedupByKeys(init, key);
      var prev := DedupBy(init, key);
      assert s == init + [x];
      KeysAppend(init, [x], key);
      if key(x) !in Keys(prev, key) {
        KeysAppend(prev, [x], key);
      }
    }
  }

  lemma {:induction false} DedupByDistinct<T, K>(s: seq<T>, key: T -> K)
    ensures forall i, j :: 0 <= i < j < |DedupBy(s, key)| ==> key(DedupBy(s, key)[i]) != key(DedupBy(s, key)[j])
    decreases |s|
  {
    if s != [] {
      var x := s[|s| - 1];
      DedupByDistinct(s[..|s| - 1], key);
      var prev := DedupBy(s[..|s| - 1], key);
      if key(x) !in Keys(prev, key) {
        var r := prev + [x];
        forall i, j | 0 <= i < j < |r| ensures key(r[i]) != key(r[j]) {
          if j == |r| - 1 {
            assert key(r[i]) in Keys(prev, key);
          }
        }
      }
    }
  }

  lemma {:induction false} DedupBySubset<T, K>(s: seq<T>, key: T -> K)
    ensures forall x :: x in DedupBy(s, key) ==> x in s
    decreases |s|
  {
    if s != [] {
      var init := s[..|s| - 1];
      DedupBySubset(init, key);
      assert forall x :: x in init ==> x in s;
    }
  }

  lemma {:induction false} DedupByFirst<T, K>(s: seq<T>, key: T -> K)
    ensures forall i :: 0 <= i < |DedupBy(s, key)| ==> FirstWithKey(s, key, key(DedupBy(s, key)[i])) == Some(DedupBy(s, key)[i])
    decreases |s|
  {
    if s != [] {
      var init := s[..|s| - 1];
      var x := s[|s| - 1];
      DedupByFirst(init, key);
      DedupByKeys(init, key);
      var prev := DedupBy(init, key);
      var r := DedupBy(s, key);
      assert r == if key(x) in Keys(prev, key) then prev else prev + [x];
      forall i | 0 <= i < |r| ensures FirstWithKey(s, key, key(r[i])) == Some(r[i]) {
        if i < |prev| {
          assert r[i] == prev[i];
          FirstKeptSnoc(s, key, prev[i]);
        } else {
          FirstNewSnoc(s, key);
        }
      }
    }
  }

  lemma FirstKeptSnoc<T, K>(s: seq<T>, key: T -> K, y: T)
    requires s != [] && FirstWithKey(s[..|s| - 1], key, key(y)) == Some(y)
    ensures FirstWithKey(s, key, key(y)) == Some(y)
  {
    assert s == s[..|s| - 1] + [s[|s| - 1]];
    FirstWithKeyAppend(s[..|s| - 1], s[|s| - 1], key, key(y));
  }

  lemma FirstNewSnoc<T, K>(s: seq<T>, key: T -> K)
    requires s != [] && key(s[|s| - 1]) !in Keys(s[..|s| - 1], key)
    ensures FirstWithKey(s, key, key(s[|s| - 1])) == Some(s[|s| - 1])
  {
    assert s == s[..|s| - 1] + [s[|s| - 1]];
    FirstWithKeyAppend(s[..|s| - 1], s[|s| - 1], key, key(s[|s| - 1]));
    FirstWithKeyNone(s[..|s| - 1], key, key(s[|s| - 1]));
  }

  /** The first element of `s` whose key is `k`. */
  function FirstWithKey<T, K(==)>(s: seq<T>, key: T -> K, k: K): Option<T>
  {
    if s == [] then None else if key(s[0]) == k then Some(s[0]) else FirstWithKey(s[1..], key, k)
  }

  lemma {:induction false} FirstWithKeyAppend<T, K>(s: seq<T>, x: T, key: T -> K, k: K)
    ensures FirstWithKey(s + [x], key, k) == if FirstWithKey(s, key, k).Some? then FirstWithKey(s, key, k)
                                             else if key(x) == k then Some(x) else None
    decreases |s|
  {
    if s != [] {
      assert (s + [x])[1..] == s[1..] + [x];
      FirstWithKeyAppend(s[1..], x, key, k);
    }
  }

  lemma {:induction false} FirstWithKeyNone<T, K>(s: seq<T>, key: T -> K, k: K)
    requires k !in Keys(s, key)
    ensures FirstWithKey(s, key, k) == None
    decreases |s|
  {
    if s != [] {
      KeysAppend([s[0]], s[1..], key);
      assert [s[0]] + s[1..] == s;
      FirstWithKeyNone(s[1..], key, k);
    }
  }

  /** The position of the first element of `s` with key `k`, `|s|` when there is none
      (`s.findIndex(y => key(y) === k)`, with `-1` read as `|s|`). */
  function FirstKeyIndex<T, K(==)>(s: seq<T>, key: T -> K, k: K): (r: nat)
    ensures r <= |s|
    ensures r < |s| ==> key(s[r]) == k
    ensures forall j :: 0 <= j < r ==> key(s[j]) != k
  {
    if s == [] then 0
    else if key(s[0]) == k then 0
    else
      var r := FirstKeyIndex(s[1..], key, k);
      assert forall j :: 1 <= j < r + 1 ==> s[j] == s[1..][j - 1];
      r + 1
  }

  /** A position holding the key, with no earlier one, is the first index of the key. */
  lemma FirstKeyIndexIs<T, K>(s: seq<T>, key: T -> K, k: K, m: nat)
    requires m < |s| && key(s[m]) == k
    requires forall j :: 0 <= j < m ==> key(s[j]) != k
    ensures FirstKeyIndex(s, key, k) == m
  {
  }

  /** Deduplication keeps first-seen order: the kept elements appear in the order in which
      their keys first occur in the input, and each key occurs in the input. */
  lemma {:induction false} DedupByOrder<T, K>(s: seq<T>, key: T -> K)
    ensures forall i :: 0 <= i < |DedupBy(s, key)| ==> FirstKeyIndex(s, key, key(DedupBy(s, key)[i])) < |s|
    ensures forall i, j :: 0 <= i < j < |DedupBy(s, key)| ==>
      FirstKeyIndex(s, key, key(DedupBy(s, key)[i])) < FirstKeyIndex(s, key, key(DedupBy(s, key)[j]))
  {
    if s != [] {
      var init, x := s[..|s| - 1], s[|s| - 1];
      DedupByOrder(init, key);
      DedupByOrderSnoc(init, x, key);
      assert init + [x] == s;
    }
  }

  lemma DedupByOrderSnoc<T, K>(init: seq<T>, x: T, key: T -> K)
    requires forall i :: 0 <= i < |DedupBy(init, key)| ==> FirstKeyIndex(init, key, key(DedupBy(init, key)[i])) < |init|
    requires forall i, j :: 0 <= i < j < |DedupBy(init, key)| ==>
      FirstKeyIndex(init, key, key(DedupBy(init, key)[i])) < FirstKeyIndex(init, key, key(DedupBy(init, key)[j]))
    ensures forall i :: 0 <= i < |DedupBy(init + [x], key)| ==> FirstKeyIndex(init + [x], key, key(DedupBy(init + [x], key)[i])) < |init| + 1
    ensures forall i, j :: 0 <= i < j < |DedupBy(init + [x], key)| ==>
      FirstKeyIndex(init + [x], key, key(DedupBy(init + [x], key)[i])) < FirstKeyIndex(init + [x], key, key(DedupBy(init + [x], key)[j]))
  {
    var s := init + [x];
    assert s[..|s| - 1] == init;
    var prev := DedupBy(init, key);
    var r := DedupBy(s, key);
    forall i | 0 <= i < |prev|
      ensures FirstKeyIndex(s, key, key(prev[i])) == FirstKeyIndex(init, key, key(prev[i]))
    {
      FirstKeyIndexSnocKept(init, x, key, key(prev[i]));
    }
    if r == prev {
    } else {
      assert r == prev + [x];
      DedupByKeys(init, key);
      FirstKeyIndexSnocNew(init, x, key);
      forall i, j | 0 <= i < j < |r|
        ensures FirstKeyIndex(s, key, key(r[i])) < FirstKeyIndex(s, key, key(r[j]))
      {
        assert r[i] == prev[i];
        if j < |prev| {
          assert r[j] == prev[j];
        }
      }
    }
  }

  /** Appending leaves the first index of a key already present alone. */
  lemma FirstKeyIndexSnocKept<T, K>(init: seq<T>, x: T, key: T -> K, k: K)
    requires FirstKeyIndex(init, key, k) < |init|
    ensures FirstKeyIndex(init + [x], key, k) == FirstKeyIndex(init, key, k)
  {
    var m := FirstKeyIndex(init, key, k);
    assert forall j :: 0 <= j <= m ==> (init + [x])[j] == init[j];
    FirstKeyIndexIs(init + [x], key, k, m);
  }

  /** An appended element with a new key is that key's first occurrence. */
  lemma FirstKeyIndexSnocNew<T, K>(init: seq<T>, x: T, key: T -> K)
    requires key(x) !in Keys(init, key)
    ensures FirstKeyIndex(init + [x], key, key(x)) == |init|
  {
    assert forall j :: 0 <= j < |init| ==> (init + [x])[j] == init[j];
    FirstKeyIndexIs(init + [x], key, key(x), |init|);
  }

  /** Deduplicating a longer sequence only adds at the end: first-seen order is stable,
      so whatever comes first in the input keeps its place ahead of later additions. */
  lemma {:induction false} DedupByPrefix<T, K>(a: seq<T>, b: seq<T>, key: T -> K)
    ensures DedupBy(a, key) <= DedupBy(a + b, key)
    decreases |b|
  {
    if b == [] {
      assert a + b == a;
    } else {
      assert (a + b)[..|a + b| - 1] == a + b[..|b| - 1];
      DedupByPrefix(a, b[..|b| - 1], key);
    }
  }

  /** `[...new Set(s)]`. */
  function Dedup<T(==)>(s: seq<T>): seq<T> {
    DedupBy(s, x => x)
  }

  /** Deduplicating a list starts with the deduplicated prefix: appending can only add names. */
  lemma DedupPrefix<T>(a: seq<T>, b: seq<T>)
    ensures Dedup(a) <= Dedup(a + b)
  {
    DedupByPrefix(a, b, x => x);
  }

  /** Deduplicating two values keeps the first, and the second only when it differs. */
  lemma DedupPair<T>(a: T, b: T)
    ensures Dedup([a, b]) == if a == b then [a] else [a, b]
  {
    assert [a, b][..1] == [a];
    assert [a][..0] == [];
    assert DedupBy([a], x => x) == [a];
    assert Keys([a], x => x) == {a};
  }

  /** The position of the first occurrence of `v` in `s` (`s.indexOf(v)`, with `-1` read as `|s|`). */
  function FirstIndex<T(==)>(s: seq<T>, v: T): nat {
    FirstKeyIndex(s, x => x, v)
  }

  /** `[...new Set(s)]` has exactly the elements of `s`, each once, in the order of their first
      occurrence in `s`. */
  lemma DedupProperties<T>(s: seq<T>)
    ensures forall x :: x in Dedup(s) <==> x in s
    ensures forall i, j :: 0 <= i < j < |Dedup(s)| ==> Dedup(s)[i] != Dedup(s)[j]
    ensures forall i, j :: 0 <= i < j < |Dedup(s)| ==> FirstIndex(s, Dedup(s)[i]) < FirstIndex(s, Dedup(s)[j])
  {
    DedupByOrder(s, x => x);
    DedupByProperties(s, x => x);
    forall x | x in s ensures x in Dedup(s) {
      var i :| 0 <= i < |s| && s[i] == x;
      assert (x => x)(s[i]) in Keys(s, x => x);
      KeysMember(Dedup(s), x => x, x);
    }
  }

  /** Concatenation of a sequence of sequences. */
  function Flatten<T>(ss: seq<seq<T>>): seq<T> {
    if ss == [] then [] else Flatten(ss[..|ss| - 1]) + ss[|ss| - 1]
  }

  lemma {:induction false} FlattenAppend<T>(a: seq<seq<T>>, b: seq<seq<T>>)
    ensures Flatten(a + b) == Flatten(a) + Flatten(b)
    decreases |b|
  {
    if b != [] {
      assert (a + b)[..|a + b| - 1] == a + b[..|b| - 1];
      FlattenAppend(a, b[..|b| - 1]);
    } else {
      assert a + b == a;
    }
  }

  /** `for (i = 0; i < s.length; i += n) s.slice(i, i + n)`: consecutive batches of `n`. */
  function Chunks<T>(s: seq<T>, n: nat): (cs: seq<seq<T>>)
    requires n > 0
    ensures forall c :: c in cs ==> 0 < |c| <= n
    decreases |s|
  {
    if s == [] then [] else if |s| <= n then [s] else [s[..n]] + Chunks(s[n..], n)
  }

  /** Batching loses and reorders nothing, and every batch but the last is full. */
  lemma ChunksProperties<T>(s: seq<T>, n: nat)
    requires n > 0
    ensures Flatten(Chunks(s, n)) == s
    ensures forall i :: 0 <= i < |Chunks(s, n)| - 1 ==> |Chunks(s, n)[i]| == n
  {
    ChunksFlatten(s, n);
    ChunksFull(s, n);
  }

  lemma {:induction false} ChunksFlatten<T>(s: seq<T>, n: nat)
    requires n > 0
    ensures Flatten(Chunks(s, n)) == s
    decreases |s|
  {
    if |s| > n {
      ChunksFlatten(s[n..], n);
      FlattenAppend([s[..n]], Chunks(s[n..], n));
      assert Flatten([s[..n]]) == s[..n] by { assert [s[..n]][..0] == []; }
      assert s == s[..n] + s[n..];
    } else if s != [] {
      assert Flatten([s]) == s by { assert [s][..0] == []; }
    }
  }

  lemma {:induction false} ChunksFull<T>(s: seq<T>, n: nat)
    requires n > 0
    ensures forall i :: 0 <= i < |Chunks(s, n)| - 1 ==> |Chunks(s, n)[i]| == n
    decreases |s|
  {
    if |s| > n {
      ChunksFull(s[n..], n);
      var cs := Chunks(s, n);
      assert cs == [s[..n]] + Chunks(s[n..], n);
      forall i | 0 < i < |cs| - 1 ensures |cs[i]| == n {
        assert cs[i] == Chunks(s[n..], n)[i - 1];
      }
    }
  }

  /** The converse: full batches followed by a non-empty final batch are the chunking of their
      concatenation. A loop that flushes whenever its buffer fills produces exactly `Chunks`. */
  lemma {:induction false} ChunksOfFullBatches<T>(cs: seq<seq<T>>, n: nat)
    requires n > 0
    requires forall i :: 0 <= i < |cs| - 1 ==> |cs[i]| == n
    requires forall i :: 0 <= i < |cs| ==> 0 < |cs[i]| <= n
    ensures Chunks(Flatten(cs), n) == cs
    decreases |cs|
  {
    if |cs| == 1 {
      assert Flatten(cs) == cs[0] by { assert cs[..0] == []; }
    } else if |cs| > 1 {
      var rest := cs[1..];
      ChunksOfFullBatches(rest, n);
      assert cs == [cs[0]] + rest;
      FlattenAppend([cs[0]], rest);
      assert Flatten([cs[0]]) == cs[0] by { assert [cs[0]][..0] == []; }
      var s := Flatten(cs);
      assert s[..n] == cs[0];
      assert s[n..] == Flatten(rest);
      FlattenNonEmpty(rest);
    }
  }

  lemma {:induction false} FlattenNonEmpty<T>(cs: seq<seq<T>>)
    requires |cs| > 0 && forall i :: 0 <= i < |cs| ==> |cs[i]| > 0
    ensures |Flatten(cs)| > 0
  {
    if |cs| > 1 {
      FlattenNonEmpty(cs[..|cs| - 1]);
    }
  }

  /** The state of a loop that buffers elements and flushes every `n` of them, after reading
      `all`: the flushed batches are full, the buffer is not, and together they hold `all` in
      order. */
  ghost predicate Batched<T>(batches: seq<seq<T>>, buffer: seq<T>, all: seq<T>, n: nat) {
    && Flatten(batches) + buffer == all
    && |buffer| < n
    && forall b :: b in batches ==> |b| == n
  }

  lemma FlattenSnoc<T>(batches: seq<seq<T>>, b: seq<T>)
    ensures Flatten(batches + [b]) == Flatten(batches) + b
  {
    assert (batches + [b])[..|batches|] == batches;
  }

  /** Pushing one element, and flushing the buffer once it holds `n`, keeps the loop batched. */
  lemma BatchedPush<T>(batches: seq<seq<T>>, buffer: seq<T>, all: seq<T>, x: T, n: nat)
    requires Batched(batches, buffer, all, n)
    ensures |buffer + [x]| >= n ==> Batched(batches + [buffer + [x]], [], all + [x], n)
    ensures |buffer + [x]| < n ==> Batched(batches, buffer + [x], all + [x], n)
  {
    FlattenSnoc(batches, buffer + [x]);
    assert Flatten(batches) + (buffer + [x]) == all + [x];
  }

  /** At the end of input, the full batches and a non-empty remainder are exactly the slices of
      `n` of everything read: a loop that flushes whenever its buffer fills computes `Chunks`. */
  lemma BatchedEnd<T>(batches: seq<seq<T>>, buffer: seq<T>, all: seq<T>, n: nat)
    requires n > 0 && Batched(batches, buffer, all, n)
    ensures Chunks(all, n) == batches + if buffer == [] then [] else [buffer]
  {
    var cs := batches + if buffer == [] then [] else [buffer];
    if buffer == [] {
      assert cs == batches;
      assert Flatten(cs) == all;
    } else {
      FlattenSnoc(batches, buffer);
    }
    forall i | 0 <= i < |cs|
      ensures 0 < |cs[i]| <= n && (i < |cs| - 1 ==> |cs[i]| == n)
    {
      if i < |batches| {
        assert cs[i] == batches[i] && batches[i] in batches;
      }
    }
    ChunksOfFullBatches(cs, n);
  }

  /** `s.filter(keep).map(f)`. */
  function FilterMap<A, B>(s: seq<A>, keep: A -> bool, f: A -> B): seq<B> {
    if s == [] then []
    else FilterMap(s[..|s| - 1], keep, f) + if keep(s[|s| - 1]) then [f(s[|s| - 1])] else []
  }

  /** The result holds exactly the images of the kept elements. */
  lemma {:induction false} FilterMapMember<A, B>(s: seq<A>, keep: A -> bool, f: A -> B, y: B)
    ensures y in FilterMap(s, keep, f) <==> exists i :: 0 <= i < |s| && keep(s[i]) && y == f(s[i])
  {
    if s != [] {
      var init := s[..|s| - 1];
      FilterMapMember(init, keep, f, y);
      if i :| 0 <= i < |s| && keep(s[i]) && y == f(s[i]) {
        if i < |init| {
          assert init[i] == s[i];
        }
      }
    }
  }

  /** An insertion-ordered map (a JavaScript `Map`) as its entry list. */
  type Entries<K, V> = seq<(K, V)>

  predicate UniqueKeys<K(==), V>(m: Entries<K, V>) {
    forall i, j :: 0 <= i < j < |m| ==> m[i].0 != m[j].0
  }

  function Lookup<K(==), V>(m: Entries<K, V>, k: K): Option<V> {
    if m == [] then None else if m[0].0 == k then Some(m[0].1) else Lookup(m[1..], k)
  }

  function KeyIndex<K(==), V>(m: Entries<K, V>, k: K): (r: Option<nat>)
    ensures r.Some? ==> r.value < |m| && m[r.value].0 == k
    ensures r.None? ==> forall i :: 0 <= i < |m| ==> m[i].0 != k
  {
    if m == [] then None
    else if m[0].0 == k then Some(0)
    else match KeyIndex(m[1..], k)
      case None => None
      case Some(i) => Some(i + 1)
  }

  /** `map.set(k, v)`: replaces the value of an existing key in place, otherwise appends. */
  function Upsert<K(==), V>(m: Entries<K, V>, k: K, v: V): Entries<K, V> {
    match KeyIndex(m, k)
    case Some(i) => m[i := (k, v)]
    case None => m + [(k, v)]
  }

  lemma {:induction false} LookupAt<K, V>(m: Entries<K, V>, i: nat)
    requires UniqueKeys(m) && i < |m|
    ensures Lookup(m, m[i].0) == Some(m[i].1)
  {
    if i > 0 {
      LookupAt(m[1..], i - 1);
    }
  }

  lemma {:induction false} LookupAbsent<K, V>(m: Entries<K, V>, k: K)
    requires forall i :: 0 <= i < |m| ==> m[i].0 != k
    ensures Lookup(m, k) == None
  {
    if m != [] {
      LookupAbsent(m[1..], k);
    }
  }

  /** Setting a key keeps keys unique, makes the key map to the new value, leaves every other
      key's value alone, and never moves an existing entry. */
  lemma UpsertProperties<K, V>(m: Entries<K, V>, k: K, v: V, other: K)
    requires UniqueKeys(m)
    ensures UniqueKeys(Upsert(m, k, v))
    ensures Lookup(Upsert(m, k, v), k) == Some(v)
    ensures other != k ==> Lookup(Upsert(m, k, v), other) == Lookup(m, other)
    ensures forall i :: 0 <= i < |m| ==> Upsert(m, k, v)[i].0 == m[i].0
  {
    var u := Upsert(m, k, v);
    match KeyIndex(m, k)
    case Some(i) =>
      LookupAt(u, i);
      if other != k {
        match KeyIndex(m, other)
        case Some(j) => LookupAt(m, j); LookupAt(u, j);
        case None => LookupAbsent(m, other); LookupAbsent(u, other);
      }
    case None =>
      LookupAt(u, |m|);
      if other != k {
        match KeyIndex(m, other)
        case Some(j) => LookupAt(m, j); LookupAt(u, j);
        case None => LookupAbsent(m, other); LookupAbsent(u, other);
      }
  }

  /** `m.set(k, v)` for each element that yields an entry, in order. */
  function SetAll<T, K(==), V>(xs: seq<T>, f: T -> Option<(K, V)>): Entries<K, V> {
    if xs == [] then []
    else
      var prev := SetAll(xs[..|xs| - 1], f);
      match f(xs[|xs| - 1])
      case None => prev
      case Some((k, v)) => Upsert(prev, k, v)
  }

  /** The value of the last element that yields an entry under `k`. */
  function LastSet<T, K(==), V>(xs: seq<T>, f: T -> Option<(K, V)>, k: K): Option<V> {
    if xs == [] then None
    else match f(xs[|xs| - 1])
      case Some((k', v)) => if k' == k then Some(v) else LastSet(xs[..|xs| - 1], f, k)
      case None => LastSet(xs[..|xs| - 1], f, k)
  }

  /** The number of elements that yield an entry. */
  function CountSome<T, K, V>(xs: seq<T>, f: T -> Option<(K, V)>): (n: nat)
    ensures n <= |xs|
  {
    if xs == [] then 0 else CountSome(xs[..|xs| - 1], f) + if f(xs[|xs| - 1]).Some? then 1 else 0
  }

  /** Keys stay unique and the last `set` of a key wins. */
  lemma {:induction false} SetAllLastWins<T, K, V>(xs: seq<T>, f: T -> Option<(K, V)>, k: K)
    ensures UniqueKeys(SetAll(xs, f))
    ensures Lookup(SetAll(xs, f), k) == LastSet(xs, f, k)
  {
    if xs != [] {
      var init := xs[..|xs| - 1];
      SetAllLastWins(init, f, k);
      match f(xs[|xs| - 1])
      case None =>
      case Some((k', v)) =>
        UpsertProperties(SetAll(init, f), k', v, k);
    }
  }

  /** Every key of the map was yielded by some element. */
  lemma {:induction false} SetAllKeys<T, K, V>(xs: seq<T>, f: T -> Option<(K, V)>, i: nat)
    requires i < |SetAll(xs, f)|
    ensures exists j :: 0 <= j < |xs| && f(xs[j]).Some? && f(xs[j]).value.0 == SetAll(xs, f)[i].0
  {
    var init := xs[..|xs| - 1];
    var prev := SetAll(init, f);
    match f(xs[|xs| - 1])
    case None =>
      SetAllKeys(init, f, i);
      var j :| 0 <= j < |init| && f(init[j]).Some? && f(init[j]).value.0 == prev[i].0;
      assert init[j] == xs[j];
    case Some((k', v)) =>
      UpsertKeys(prev, k', v, i);
      if i < |prev| && SetAll(xs, f)[i].0 == prev[i].0 {
        SetAllKeys(init, f, i);
        var j :| 0 <= j < |init| && f(init[j]).Some? && f(init[j]).value.0 == prev[i].0;
        assert init[j] == xs[j];
      } else {
        assert f(xs[|xs| - 1]).value.0 == SetAll(xs, f)[i].0;
      }
  }

  lemma UpsertKeys<K, V>(m: Entries<K, V>, k: K, v: V, i: nat)
    requires i < |Upsert(m, k, v)|
    ensures Upsert(m, k, v)[i].0 == k || (i < |m| && Upsert(m, k, v)[i].0 == m[i].0)
  {
  }
}
