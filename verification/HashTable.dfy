/** What the buckets of the open-addressing hash map mean: the map they stand
    for, and where along its probe path an entry may lie. */
module HashTable {
  import opened Basics
  import opened Masks
  import opened ProbeArithmetic

  /** A bucket: NULL, the mark of a removed entry, or an entry. */
  datatype Slot<K, V> = Empty | Deleted | Entry(key: K, value: V)

  /** The slots that a search for a key with hash `h` visits in a table of `n`
      slots, up to the first `m` different probes. */
  function ProbesUpTo(n: nat, h: nat, m: nat): (p: seq<nat>)
    requires n > 0
    ensures |p| == m
  {
    if m == 0 then [] else ProbesUpTo(n, h, m - 1) + [(h + Offset(m - 1)) % n]
  }

  /** The loop of search makes n iterations; its first two visit the same slot. */
  function Probes(n: nat, h: nat): (p: seq<nat>)
    requires n > 0
    ensures |p| == n - 1
  {
    ProbesUpTo(n, h, n - 1)
  }

  lemma {:induction false} ProbeAt(n: nat, h: nat, m: nat, j: nat)
    requires n > 0 && j < m
    ensures ProbesUpTo(n, h, m)[j] == (h + Offset(j)) % n < n
  {
    if j < m - 1 { ProbeAt(n, h, m - 1, j); }
  }

  /** The probe path of every key visits n - 1 different slots of the table. */
  lemma ProbesDistinct(n: nat, h: nat)
    requires IsPow2(n)
    ensures forall j :: 0 <= j < n - 1 ==> Probes(n, h)[j] < n
    ensures forall i, j :: 0 <= i < j < n - 1 ==> Probes(n, h)[i] != Probes(n, h)[j]
  {
    var k: nat :| n == Pow2(k);
    forall j | 0 <= j < n - 1 ensures Probes(n, h)[j] < n { ProbeAt(n, h, n - 1, j); }
    forall i, j | 0 <= i < j < n - 1 ensures Probes(n, h)[i] != Probes(n, h)[j] {
      ProbeAt(n, h, n - 1, i);
      ProbeAt(n, h, n - 1, j);
      DistinctProbes(k, h, i, j);
    }
  }

  /** A path of different slots of the table. */
  predicate IsPath(p: seq<nat>, n: nat) {
    && |p| + 1 == n
    && (forall j :: 0 <= j < |p| ==> p[j] < n)
    && (forall i, j :: 0 <= i < j < |p| ==> p[i] != p[j])
  }

  /** No bucket before place `j` of the path is empty. */
  predicate NoGap<K, V>(b: seq<Slot<K, V>>, p: seq<nat>, j: nat) {
    forall m :: 0 <= m < j && m < |p| && p[m] < |b| ==> !b[p[m]].Empty?
  }

  /** Slot `i` is on the path, with no gap before it. */
  ghost predicate OnPath<K(!new), V(!new)>(b: seq<Slot<K, V>>, p: seq<nat>, i: nat) {
    exists j: nat :: j < |p| && p[j] == i && NoGap(b, p, j)
  }

  /** Slot `i` is the first on the path without an entry. */
  ghost predicate FirstOpen<K(!new), V(!new)>(b: seq<Slot<K, V>>, p: seq<nat>, i: nat) {
    && i < |b| && !b[i].Entry?
    && exists j: nat :: j < |p| && p[j] == i && forall m :: 0 <= m < j && p[m] < |b| ==> b[p[m]].Entry?
  }

  lemma OpenOnPath<K(!new), V(!new)>(b: seq<Slot<K, V>>, p: seq<nat>, i: nat)
    requires FirstOpen(b, p, i)
    ensures OnPath(b, p, i)
  {
    var j: nat :| j < |p| && p[j] == i && forall m :: 0 <= m < j && p[m] < |b| ==> b[p[m]].Entry?;
    assert NoGap(b, p, j);
  }

  ghost predicate Stored<K(!new), V(!new)>(b: seq<Slot<K, V>>, k: K, v: V) {
    exists i :: 0 <= i < |b| && b[i] == Entry(k, v)
  }

  /** Every entry is in the map, and no key has two entries. */
  ghost predicate Faithful<K(!new), V(!new)>(b: seq<Slot<K, V>>, contents: map<K, V>) {
    && (forall i :: 0 <= i < |b| && b[i].Entry? ==> b[i].key in contents && contents[b[i].key] == b[i].value)
    && (forall i, j :: 0 <= i < |b| && 0 <= j < |b| && b[i].Entry? && b[j].Entry? && b[i].key == b[j].key ==> i == j)
  }

  /** The buckets hold exactly the entries of the map, each one once and where a
      search for it arrives. */
  ghost predicate Table<K(!new), V(!new)>(b: seq<Slot<K, V>>, hash: K -> nat, contents: map<K, V>) {
    && IsPow2(|b|) && |b| >= 8
    && Faithful(b, contents)
    && (forall i :: 0 <= i < |b| && b[i].Entry? ==> OnPath(b, Probes(|b|, hash(b[i].key)), i))
    && (forall k :: k in contents ==> Stored(b, k, contents[k]))
  }

  /** No entry with key `k` in the first `j` slots of the path. */
  predicate Missed<K(==), V>(b: seq<Slot<K, V>>, p: seq<nat>, j: nat, k: K) {
    forall m :: 0 <= m < j && m < |p| && p[m] < |b| && b[p[m]].Entry? ==> b[p[m]].key != k
  }

  /** An entry of the map lies on its path, with no gap before it. */
  lemma WhereIs<K(!new), V(!new)>(b: seq<Slot<K, V>>, hash: K -> nat, contents: map<K, V>, k: K) returns (m: nat)
    requires Table(b, hash, contents) && k in contents
    ensures m < |Probes(|b|, hash(k))| && Probes(|b|, hash(k))[m] < |b|
    ensures b[Probes(|b|, hash(k))[m]] == Entry(k, contents[k]) && NoGap(b, Probes(|b|, hash(k)), m)
  {
    assert Stored(b, k, contents[k]);
    var i :| 0 <= i < |b| && b[i] == Entry(k, contents[k]);
    m :| m < |Probes(|b|, hash(k))| && Probes(|b|, hash(k))[m] == i && NoGap(b, Probes(|b|, hash(k)), m);
  }

  /** A search that meets an empty bucket, or visits the whole path, without
      meeting the key shows that the key is not in the map. */
  lemma NotThere<K(!new), V(!new)>(b: seq<Slot<K, V>>, hash: K -> nat, contents: map<K, V>, k: K, p: seq<nat>, j: nat)
    requires Table(b, hash, contents) && p == Probes(|b|, hash(k)) && IsPath(p, |b|)
    requires j <= |p| && Missed(b, p, j, k) && (j < |p| ==> b[p[j]].Empty?)
    ensures k !in contents
  {
    if k in contents { var m := WhereIs(b, hash, contents, k); }
  }

  /** What a search knows after the first `j` probes; `deleted` is the first
      removed entry it met, or the size of the table. */
  ghost predicate Searched<K(!new), V(!new)>(b: seq<Slot<K, V>>, p: seq<nat>, k: K, j: nat, deleted: nat) {
    && Missed(b, p, j, k) && NoGap(b, p, j) && deleted <= |b|
    && (if deleted < |b| then b[deleted].Deleted? && FirstOpen(b, p, deleted)
        else forall m :: 0 <= m < j && m < |p| && p[m] < |b| ==> b[p[m]].Entry?)
  }

  lemma SearchStep<K(!new), V(!new)>(b: seq<Slot<K, V>>, p: seq<nat>, k: K, j: nat, deleted: nat)
    requires IsPath(p, |b|) && j < |p| && Searched(b, p, k, j, deleted)
    requires !b[p[j]].Empty? && (b[p[j]].Entry? ==> b[p[j]].key != k)
    ensures Searched(b, p, k, j + 1, if b[p[j]].Deleted? && deleted == |b| then p[j] else deleted)
    ensures j == 0 ==> Searched(b, p, k, j, if b[p[j]].Deleted? && deleted == |b| then p[j] else deleted)
  {
    if b[p[j]].Deleted? && deleted == |b| { assert FirstOpen(b, p, p[j]); }
  }

  /** A path full of entries holds as many keys as it has slots. */
  lemma {:induction false} Crowded<K(!new), V(!new)>(b: seq<Slot<K, V>>, hash: K -> nat, contents: map<K, V>, p: seq<nat>, j: nat)
    returns (keys: set<K>)
    requires Table(b, hash, contents) && IsPath(p, |b|) && j <= |p|
    requires forall m :: 0 <= m < j ==> b[p[m]].Entry?
    ensures |keys| == j && keys <= contents.Keys
    ensures forall k :: k in keys ==> exists m :: 0 <= m < j && b[p[m]].key == k
  {
    if j == 0 {
      keys := {};
    } else {
      var fewer := Crowded(b, hash, contents, p, j - 1);
      var k := b[p[j - 1]].key;
      assert k !in fewer;
      keys := fewer + {k};
    }
  }

  /** At load at most one half, not all slots of a path hold entries. */
  lemma PathNotFull<K(!new), V(!new)>(b: seq<Slot<K, V>>, hash: K -> nat, contents: map<K, V>, p: seq<nat>)
    requires Table(b, hash, contents) && IsPath(p, |b|) && 2 * |contents| <= |b|
    ensures exists m :: 0 <= m < |p| && !b[p[m]].Entry?
  {
    assert |contents.Keys| == |contents|;
    if forall m :: 0 <= m < |p| ==> b[p[m]].Entry? {
      var keys := Crowded(b, hash, contents, p, |p|);
      Subset(keys, contents.Keys);
    }
  }

  /** Filling or marking a bucket opens no gap. */
  lemma StillOnPath<K(!new), V(!new)>(b: seq<Slot<K, V>>, i: nat, s: Slot<K, V>, p: seq<nat>, j: nat)
    requires i < |b| && !s.Empty? && OnPath(b, p, j)
    ensures OnPath(b[i := s], p, j)
  {
    var m: nat :| m < |p| && p[m] == j && NoGap(b, p, m);
    assert NoGap(b[i := s], p, m);
  }

  lemma TablePut<K(!new), V(!new)>(b: seq<Slot<K, V>>, hash: K -> nat, contents: map<K, V>, i: nat, k: K, v: V)
    requires Table(b, hash, contents) && i < |b|
    requires if k in contents then b[i].Entry? && b[i].key == k
             else !b[i].Entry? && OnPath(b, Probes(|b|, hash(k)), i)
    ensures Table(b[i := Entry(k, v)], hash, contents[k := v])
  {
    var b', c' := b[i := Entry(k, v)], contents[k := v];
    forall j | 0 <= j < |b'| && b'[j].Entry?
      ensures b'[j].key in c' && c'[b'[j].key] == b'[j].value && OnPath(b', Probes(|b'|, hash(b'[j].key)), j)
    {
      StillOnPath(b, i, Entry(k, v), Probes(|b|, hash(b'[j].key)), j);
    }
    forall q | q in c' ensures Stored(b', q, c'[q]) {
      if q == k {
        assert b'[i] == Entry(k, v);
      } else {
        assert Stored(b, q, contents[q]);
        var j :| 0 <= j < |b| && b[j] == Entry(q, contents[q]);
        assert b'[j] == Entry(q, contents[q]);
      }
    }
  }

  lemma FaithfulRemove<K(!new), V(!new)>(b: seq<Slot<K, V>>, contents: map<K, V>, i: nat)
    requires Faithful(b, contents) && i < |b| && b[i].Entry?
    ensures Faithful(b[i := Deleted], contents - {b[i].key})
    ensures b[i].key in contents && |contents - {b[i].key}| == |contents| - 1
  {
    var c' := contents - {b[i].key};
    assert contents.Keys == c'.Keys + {b[i].key};
    assert |c'.Keys| == |c'| && |contents.Keys| == |contents|;
  }

  lemma TableRemove<K(!new), V(!new)>(b: seq<Slot<K, V>>, hash: K -> nat, contents: map<K, V>, i: nat)
    requires Table(b, hash, contents) && i < |b| && b[i].Entry?
    ensures Table(b[i := Deleted], hash, contents - {b[i].key})
  {
    var b', c' := b[i := Deleted], contents - {b[i].key};
    FaithfulRemove(b, contents, i);
    forall j | 0 <= j < |b'| && b'[j].Entry? ensures OnPath(b', Probes(|b'|, hash(b'[j].key)), j) {
      StillOnPath(b, i, Deleted, Probes(|b|, hash(b'[j].key)), j);
    }
    forall q | q in c' ensures Stored(b', q, c'[q]) {
      assert Stored(b, q, contents[q]);
      var j :| 0 <= j < |b| && b[j] == Entry(q, contents[q]);
      assert b'[j] == Entry(q, contents[q]);
    }
  }

  /** The entries in the first `i` buckets, as a part of the map. */
  ghost predicate Gathered<K(!new), V(!new)>(b: seq<Slot<K, V>>, contents: map<K, V>, i: nat, part: map<K, V>) {
    && (forall k :: k in part ==> k in contents && part[k] == contents[k])
    && (forall k :: k in part ==> exists j :: 0 <= j < i && j < |b| && b[j] == Entry(k, part[k]))
    && (forall j :: 0 <= j < i && j < |b| && b[j].Entry? ==> b[j].key in part)
  }

  lemma GatherOne<K(!new), V(!new)>(b: seq<Slot<K, V>>, contents: map<K, V>, i: nat, part: map<K, V>)
    requires Faithful(b, contents) && i < |b| && Gathered(b, contents, i, part)
    ensures !b[i].Entry? ==> Gathered(b, contents, i + 1, part)
    ensures b[i].Entry? ==> b[i].key !in part && Gathered(b, contents, i + 1, part[b[i].key := b[i].value])
  {
    forall k | k in part ensures exists j :: 0 <= j < i + 1 && j < |b| && b[j] == Entry(k, part[k]) {
      var j :| 0 <= j < i && j < |b| && b[j] == Entry(k, part[k]);
      assert b[j] == Entry(k, part[k]);
    }
  }

  lemma Smaller<K(!new), V(!new)>(part: map<K, V>, k: K, contents: map<K, V>)
    requires part.Keys <= contents.Keys && k in contents && k !in part
    ensures |part| < |contents|
  {
    Subset(part.Keys + {k}, contents.Keys);
    assert |part.Keys| == |part| && |contents.Keys| == |contents|;
  }

  lemma GatheredAll<K(!new), V(!new)>(b: seq<Slot<K, V>>, hash: K -> nat, contents: map<K, V>, part: map<K, V>)
    requires Table(b, hash, contents) && Gathered(b, contents, |b|, part)
    ensures part == contents
  {
    forall k | k in contents ensures k in part {
      assert Stored(b, k, contents[k]);
    }
  }

  /** Without entries there is nothing in the map. */
  lemma EmptyTable<K(!new), V(!new)>(b: seq<Slot<K, V>>, hash: K -> nat, contents: map<K, V>)
    requires Table(b, hash, contents) && contents == map[]
    ensures forall j :: 0 <= j < |b| ==> !b[j].Entry?
  {
  }

  // ---------- Iteration ----------

  /** The keys of the entries in the first `i` buckets, in their order. */
  function KeysUpTo<K, V>(b: seq<Slot<K, V>>, i: nat): seq<K>
    requires i <= |b|
  {
    if i == 0 then []
    else KeysUpTo(b, i - 1) + if b[i - 1].Entry? then [b[i - 1].key] else []
  }

  lemma {:induction false} SkipEmpty<K, V>(b: seq<Slot<K, V>>, i: nat, j: nat)
    requires i <= j <= |b| && forall m :: i <= m < j ==> !b[m].Entry?
    ensures KeysUpTo(b, j) == KeysUpTo(b, i)
    decreases j
  {
    if i < j { SkipEmpty(b, i, j - 1); }
  }

  lemma {:induction false} KeyUpTo<K(!new), V(!new)>(b: seq<Slot<K, V>>, i: nat, k: K)
    requires i <= |b|
    ensures k in KeysUpTo(b, i) <==> exists j :: 0 <= j < i && b[j].Entry? && b[j].key == k
  {
    if i > 0 { KeyUpTo(b, i - 1, k); }
  }

  /** Going through all buckets visits every key of the map once. */
  lemma {:induction false} VisitsOnce<K(!new), V(!new)>(b: seq<Slot<K, V>>, contents: map<K, V>, i: nat)
    requires Faithful(b, contents) && i <= |b|
    ensures forall m, n :: 0 <= m < n < |KeysUpTo(b, i)| ==> KeysUpTo(b, i)[m] != KeysUpTo(b, i)[n]
  {
    if i > 0 {
      VisitsOnce(b, contents, i - 1);
      if b[i - 1].Entry? { KeyUpTo(b, i - 1, b[i - 1].key); }
    }
  }

  lemma VisitsAll<K(!new), V(!new)>(b: seq<Slot<K, V>>, hash: K -> nat, contents: map<K, V>)
    requires Table(b, hash, contents)
    ensures forall k :: k in KeysUpTo(b, |b|) <==> k in contents
  {
    forall k ensures k in KeysUpTo(b, |b|) <==> k in contents {
      KeyUpTo(b, |b|, k);
      if k in contents { assert Stored(b, k, contents[k]); }
    }
  }
}
