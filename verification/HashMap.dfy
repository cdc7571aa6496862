/** The hash map of the runtime's data structures: open addressing over an array
    of buckets, triangular probing, marks for removed entries, and growth by a
    factor of eight when more than half of the buckets are taken. */
module HashMap {
  import opened Basics
  import opened Masks
  import opened ProbeArithmetic
  import opened HashTable

  /** The index before the first bucket, where an iteration starts. */
  const HASHMAP_BEGIN := -1

  /** The smallest power of two that is at least `n`. */
  function NextPow2(n: nat, k: nat): (r: nat)
    requires Pow2(k) < 2 * n
    ensures IsPow2(r) && n <= r < 2 * n && r >= Pow2(k)
    decreases 2 * n - Pow2(k)
  {
    if n <= Pow2(k) then Pow2(k)
    else
      assert Pow2(k + 1) == 2 * Pow2(k);
      NextPow2(n, k + 1)
  }

  class Map<K(!new, ==), V(!new)> {
    const hash: K -> nat
    var count: nat
    var buckets: array<Slot<K, V>>
    ghost var contents: map<K, V>

    /** The buckets hold the contents, whatever the load. */
    ghost predicate Holds()
      reads this, buckets
    {
      && count == |contents|
      && (if buckets.Length == 0 then contents == map[] else Table(buckets[..], hash, contents))
    }

    ghost predicate Valid()
      reads this, buckets
    {
      Holds() && 2 * count <= buckets.Length
    }

    constructor (hash: K -> nat, size: nat)
      ensures Valid() && fresh(buckets) && this.hash == hash && contents == map[]
      ensures buckets.Length == Capacity(size) && 2 * size <= buckets.Length && (size == 0 ==> buckets.Length == 0)
    {
      this.hash := hash;
      this.count := 0;
      this.contents := map[];
      var n := Capacity(size);
      this.buckets := new Slot<K, V>[n](_ => Empty);
    }

    /** An empty table with room for `size` entries without resizing. */
    method Init(size: nat)
      requires size > 0
      modifies this
      ensures Valid() && fresh(buckets) && contents == map[]
      ensures buckets.Length == Capacity(size) && 2 * size <= buckets.Length && buckets.Length >= 8
    {
      Clear(Capacity(size));
    }

    /** An empty table of `n` buckets. */
    method Clear(n: nat)
      requires IsPow2(n) && n >= 8
      modifies this
      ensures Valid() && fresh(buckets) && contents == map[] && buckets.Length == n
    {
      count, contents := 0, map[];
      buckets := new Slot<K, V>[n](_ => Empty);
    }

    /** The slot of the entry with the key, or the slot to put it into. */
    method Search(k: K) returns (pos: nat, found: bool)
      requires Valid() && buckets.Length > 0
      ensures pos < buckets.Length && found == (k in contents)
      ensures if found then buckets[pos] == Entry(k, contents[k])
              else FirstOpen(buckets[..], Probes(buckets.Length, hash(k)), pos)
    {
      var n := buckets.Length;
      var h := hash(k);
      ghost var b, p := buckets[..], Probes(n, h);
      ProbesDistinct(n, h);
      assert IsPath(p, n);
      var deleted: nat := n;
      var index := ProbeIndex(n, h, 0);
      var i: nat := 0;
      while i < n
        invariant i <= n && buckets[..] == b
        invariant i < n ==> index == p[Probed(i)]
        invariant Searched(b, p, k, Probed(i), deleted)
      {
        ghost var j := Probed(i);
        var elem := buckets[index];
        assert elem == b[p[j]];
        if elem.Empty? {
          NotThere(b, hash, contents, k, p, j);
          assert deleted == n ==> FirstOpen(b, p, index);
          return if deleted < n then deleted else index, false;
        }
        if elem.Entry? && k == elem.key { return index, true; }
        SearchStep(b, p, k, j, deleted);
        if elem.Deleted? && deleted == n { deleted := index; }
        index := ProbeIndex(n, h, i);
        i := i + 1;
      }
      NotThere(b, hash, contents, k, p, n - 1);
      PathNotFull(b, hash, contents, p);
      return deleted, false;
    }

    method Get(k: K) returns (r: Option<V>)
      requires Valid()
      ensures r == if k in contents then Some(contents[k]) else None
    {
      if count == 0 { return None; }
      var pos, found := Search(k);
      if found { return Some(buckets[pos].value); }
      return None;
    }

    /** Adds the entry, or replaces the one with the same key and returns it. */
    method Put(k: K, v: V) returns (r: Option<V>)
      requires Valid()
      modifies this, buckets
      ensures Valid() && contents == old(contents)[k := v]
      ensures r == if k in old(contents) then Some(old(contents)[k]) else None
      ensures fresh(buckets) || buckets == old(buckets)
      ensures k in old(contents) || 2 * (old(count) + 1) <= old(buckets.Length) ==> buckets == old(buckets)
      ensures k !in old(contents) && 2 * (old(count) + 1) > old(buckets.Length) > 0 ==>
        buckets.Length == 8 * old(buckets.Length)
      ensures old(buckets.Length) == 0 ==> buckets.Length == Capacity(4)
      decreases if 2 * (count + 1) > buckets.Length then 2 else 0
    {
      if buckets.Length == 0 { Init(4); }
      var pos, found := Search(k);
      r := if found then Some(buckets[pos].value) else None;
      if !found { OpenOnPath(buckets[..], Probes(buckets.Length, hash(k)), pos); }
      Store(pos, k, v);
      if !found {
        count := count + 1;
        if 2 * count > buckets.Length { Resize(); }
      }
    }

    method Store(pos: nat, k: K, v: V)
      requires pos < buckets.Length && Table(buckets[..], hash, contents)
      requires if k in contents then buckets[pos].Entry? && buckets[pos].key == k
               else !buckets[pos].Entry? && OnPath(buckets[..], Probes(buckets.Length, hash(k)), pos)
      modifies `contents, buckets
      ensures Table(buckets[..], hash, contents) && contents == old(contents)[k := v]
      ensures |contents| == |old(contents)| + if k in old(contents) then 0 else 1
    {
      TablePut(buckets[..], hash, contents, pos, k, v);
      buckets[pos] := Entry(k, v);
      ghost var more := contents[k := v];
      assert more.Keys == contents.Keys + {k};
      assert |more.Keys| == |more| && |contents.Keys| == |contents|;
      contents := more;
    }

    /** Moves the entries to a table eight times as large. */
    method Resize()
      requires Holds() && 0 < buckets.Length < 2 * count <= buckets.Length + 2
      modifies this
      ensures Valid() && contents == old(contents) && fresh(buckets) && buckets.Length == 8 * old(buckets.Length)
      decreases 1
    {
      ghost var all, bs := contents, buckets[..];
      var b, s := buckets, buckets.Length;
      Pow2Eight(s);
      Clear(8 * s);
      var i := 0;
      while i < s
        invariant 0 <= i <= s && Valid() && fresh(buckets) && buckets.Length == 8 * s && b[..] == bs
        invariant Gathered(bs, all, i, contents)
      {
        GatherOne(bs, all, i, contents);
        assert b[i] == bs[i];
        var curr := b[i];
        if curr.Entry? {
          Smaller(contents, curr.key, all);
          var _ := Put(curr.key, curr.value);
        }
        i := i + 1;
      }
      GatheredAll(bs, hash, all, contents);
    }

    method Remove(k: K) returns (r: Option<V>)
      requires Valid()
      modifies `count, `contents, buckets
      ensures Valid() && contents == old(contents) - {k} && buckets == old(buckets)
      ensures r == if k in old(contents) then Some(old(contents)[k]) else None
    {
      WithoutNone(contents, k);
      if count == 0 { return None; }
      var pos, found := Search(k);
      if !found { return None; }
      r := Some(buckets[pos].value);
      Vacate(pos);
    }

    /** Marks the bucket of an entry as removed. */
    method Vacate(pos: nat)
      requires Valid() && pos < buckets.Length && buckets[pos].Entry?
      modifies `count, `contents, buckets
      ensures Valid() && contents == old(contents) - {old(buckets[pos].key)}
      ensures buckets[..] == old(buckets[..])[pos := Deleted]
    {
      TableRemove(buckets[..], hash, contents, pos);
      FaithfulRemove(buckets[..], contents, pos);
      ghost var k := buckets[pos].key;
      buckets[pos] := Deleted;
      contents := contents - {k};
      count := count - 1;
    }

    /** Removes the entry in a bucket, if there is one. */
    method RemoveIndex(index: nat) returns (r: Option<V>)
      requires Valid()
      modifies `count, `contents, buckets
      ensures Valid() && buckets == old(buckets)
      ensures if index < buckets.Length && old(buckets[index]).Entry?
              then r == Some(old(buckets[index].value)) && contents == old(contents) - {old(buckets[index].key)}
                   && buckets[..] == old(buckets[..])[index := Deleted]
              else r == None && contents == old(contents) && buckets[..] == old(buckets[..])
    {
      if buckets.Length <= index || !buckets[index].Entry? { return None; }
      r := Some(buckets[index].value);
      Vacate(index);
    }

    /** The first entry behind bucket `i`. */
    method Next(i: int) returns (index: int, r: Option<K>)
      requires Valid() && i >= HASHMAP_BEGIN
      ensures r.None? ==> NoEntry(buckets[..], i + 1, buckets.Length)
      ensures r.None? ==> index == if count == 0 then i else if i < buckets.Length then buckets.Length else i + 1
      ensures r.Some? ==> i < index < buckets.Length && buckets[index].Entry? && buckets[index].key == r.value
      ensures r.Some? ==> NoEntry(buckets[..], i + 1, index)
    {
      if count == 0 {
        if buckets.Length > 0 { EmptyTable(buckets[..], hash, contents); }
        return i, None;
      }
      index := i + 1;
      while index < buckets.Length
        invariant i < index && (index <= buckets.Length || index == i + 1)
        invariant NoEntry(buckets[..], i + 1, index)
      {
        if buckets[index].Entry? { return index, Some(buckets[index].key); }
        index := index + 1;
      }
      return index, None;
    }

    method DropAt(i: nat, drop: K -> bool, ghost b: seq<Slot<K, V>>, ghost all: map<K, V>, ghost visited: seq<K>)
      requires Valid() && i < buckets.Length && buckets[i].Entry?
      requires Swept(b, buckets[..], all, contents, drop, i, visited)
      modifies `count, `contents, buckets
      ensures Valid() && Swept(b, buckets[..], all, contents, drop, i + 1, visited + [old(buckets[i].key)])
    {
      SweptOne(b, buckets[..], all, contents, drop, i, visited);
      if drop(buckets[i].key) { var _ := RemoveIndex(i); }
    }

    /** The next entry to visit in an iteration, or the end of it. */
    method NextSwept(i: int, drop: K -> bool, ghost b: seq<Slot<K, V>>, ghost all: map<K, V>, ghost visited: seq<K>)
      returns (index: int, r: Option<K>)
      requires Valid() && i >= HASHMAP_BEGIN && Swept(b, buckets[..], all, contents, drop, i + 1, visited)
      ensures r.Some? ==> i < index < |b| && buckets[index].Entry? && buckets[index].key == r.value
      ensures Swept(b, buckets[..], all, contents, drop, if r.Some? then index else |b|, visited)
    {
      index, r := Next(i);
      SweptSkip(b, buckets[..], all, contents, drop, i + 1, if r.Some? then index else |b|, visited);
    }

    /** An iteration that removes the entries it is told to, as the sweeps of the
        object map do: it visits every entry once. */
    method Sweep(drop: K -> bool) returns (visited: seq<K>)
      requires Valid()
      modifies `count, `contents, buckets
      ensures Valid() && buckets == old(buckets)
      ensures forall i, j :: 0 <= i < j < |visited| ==> visited[i] != visited[j]
      ensures forall k :: k in visited <==> k in old(contents)
      ensures contents == Kept(old(contents), visited, drop)
    {
      ghost var b, all := buckets[..], contents;
      visited := [];
      SweptNothing(b, all, drop);
      var i, key := NextSwept(HASHMAP_BEGIN, drop, b, all, visited);
      while key.Some?
        invariant Valid() && buckets == old(buckets)
        invariant key.Some? ==> 0 <= i < |b| && buckets[i].Entry? && buckets[i].key == key.value
        invariant Swept(b, buckets[..], all, contents, drop, if key.Some? then i else |b|, visited)
        decreases if key.Some? then |b| - i else 0
      {
        DropAt(i, drop, b, all, visited);
        visited := visited + [key.value];
        i, key := NextSwept(i, drop, b, all, visited);
      }
      if |b| > 0 {
        VisitsOnce(b, all, |b|);
        VisitsAll(b, hash, all);
      }
    }
  }

  lemma WithoutNone<K, V>(contents: map<K, V>, k: K)
    ensures k !in contents ==> contents - {k} == contents
    ensures |contents| == 0 ==> k !in contents
  {
  }

  /** What is left of a map when the visited keys that are to be dropped are
      removed. */
  ghost function Kept<K(!new), V>(all: map<K, V>, visited: seq<K>, drop: K -> bool): map<K, V> {
    map k | k in all && !(k in visited && drop(k)) :: all[k]
  }

  predicate NoEntry<K, V>(b: seq<Slot<K, V>>, from: int, to: int) {
    forall m :: from <= m < to && 0 <= m < |b| ==> !b[m].Entry?
  }

  /** An iteration has come to bucket `i`: the buckets from there on are as they
      were, and what was to be dropped before it is. */
  ghost predicate Swept<K(!new), V(!new)>(b: seq<Slot<K, V>>, b': seq<Slot<K, V>>, all: map<K, V>, contents: map<K, V>,
                                          drop: K -> bool, i: nat, visited: seq<K>) {
    && i <= |b| == |b'| && (forall m :: i <= m < |b| ==> b'[m] == b[m])
    && visited == KeysUpTo(b, i) && contents == Kept(all, visited, drop)
  }

  lemma SweptNothing<K(!new), V(!new)>(b: seq<Slot<K, V>>, all: map<K, V>, drop: K -> bool)
    ensures Swept(b, b, all, all, drop, 0, [])
  {
  }

  lemma SweptSkip<K(!new), V(!new)>(b: seq<Slot<K, V>>, b': seq<Slot<K, V>>, all: map<K, V>, contents: map<K, V>,
                                    drop: K -> bool, i: nat, j: nat, visited: seq<K>)
    requires Swept(b, b', all, contents, drop, i, visited) && i <= j <= |b| && NoEntry(b', i, j)
    ensures Swept(b, b', all, contents, drop, j, visited)
  {
    SkipEmpty(b, i, j);
  }

  lemma SweptOne<K(!new), V(!new)>(b: seq<Slot<K, V>>, b': seq<Slot<K, V>>, all: map<K, V>, contents: map<K, V>,
                                   drop: K -> bool, i: nat, visited: seq<K>)
    requires Swept(b, b', all, contents, drop, i, visited) && i < |b| && b'[i].Entry?
    ensures var k := b'[i].key;
      if drop(k) then Swept(b, b'[i := Deleted], all, contents - {k}, drop, i + 1, visited + [k])
      else Swept(b, b', all, contents, drop, i + 1, visited + [k])
  {
    var k := b'[i].key;
    assert (contents - {k}) == Kept(all, visited + [k], drop) || !drop(k);
    assert drop(k) || contents == Kept(all, visited + [k], drop);
  }

  /** The slot of a probe, as the search loop computes it with the mask. */
  method ProbeIndex(n: nat, h: nat, i: nat) returns (index: nat)
    requires IsPow2(n)
    ensures index < n && (i < n - 1 ==> index == Probes(n, h)[i])
  {
    ghost var k: nat :| n == Pow2(k);
    MaskIsRemainder(h + Offset(i), k);
    index := And(h + Offset(i), n - 1);
    if i < n - 1 { ProbeAt(n, h, n - 1, i); }
  }

  /** How many different slots the search loop has visited before iteration
      `i`: the first two iterations visit the same one. */
  function Probed(i: nat): nat {
    if i == 0 then 0 else i - 1
  }

  /** The number of buckets that hashmap_init asks for. */
  function Capacity(size: nat): (n: nat)
    ensures size == 0 ==> n == 0
    ensures size > 0 ==> IsPow2(n) && n >= 8 && 2 * size <= n && (n == 8 || n < 4 * size)
  {
    assert Pow2(3) == 8 by { assert Pow2(1) == 2; assert Pow2(2) == 4; }
    if size == 0 then 0 else if 2 * size < 8 then 8 else NextPow2(2 * size, 3)
  }
}
