/** The string dictionary: 32 buckets chosen by a hash of the key, each a list searched for
    the exact key. */
module Dict {
  import opened Wrappers

  const BUCKETS: nat := 32

  datatype Entry<V> = Entry(key: string, value: V)

  datatype Errno = Ok | AddrInUse | NoMemory

  type Table<V> = seq<seq<Entry<V>>>

  // ---- Lists -------------------------------------------------------------

  /** list_apply: the index of the first entry the handler stops at, or |es|. */
  function First<V>(es: seq<Entry<V>>, p: Entry<V> -> bool): (i: nat)
    ensures i <= |es| && (i < |es| ==> p(es[i])) && forall j :: 0 <= j < i ==> !p(es[j])
    decreases |es|
  {
    if es == [] || p(es[0]) then 0 else
    var i := First(es[1..], p);
    assert forall j :: 1 <= j < i + 1 ==> es[j] == es[1..][j - 1];
    i + 1
  }

  predicate Distinct<V>(es: seq<Entry<V>>) {
    forall i, j :: 0 <= i < j < |es| ==> es[i].key != es[j].key
  }

  /** The buckets one after the other, in the order hash_apply visits them. */
  function Flat<V>(bs: Table<V>): seq<Entry<V>> {
    if bs == [] then [] else Flat(bs[..|bs| - 1]) + bs[|bs| - 1]
  }

  // ---- The table as a map --------------------------------------------------

  /** A bucket holds keys of its own, each once, with the map's values. */
  ghost predicate BucketOk<V>(es: seq<Entry<V>>, b: nat, hash: string -> nat, m: map<string, V>) {
    && Distinct(es)
    && forall i :: 0 <= i < |es| ==>
         hash(es[i].key) % BUCKETS == b && es[i].key in m && Entry(es[i].key, m[es[i].key]) == es[i]
  }

  /** The table holds exactly the map m, every key once and in its own bucket. */
  ghost predicate Represents<V(!new)>(bs: Table<V>, hash: string -> nat, m: map<string, V>) {
    && |bs| == BUCKETS
    && (forall b :: 0 <= b < BUCKETS ==> BucketOk(bs[b], b, hash, m))
    && (forall k :: k in m ==> Entry(k, m[k]) in bs[hash(k) % BUCKETS])
  }

  predicate Is<V>(key: string, e: Entry<V>) {
    e.key == key
  }

  /** Looking in a key's own bucket finds it exactly if the map has it, with the map's value. */
  lemma LookupMeans<V(!new)>(bs: Table<V>, hash: string -> nat, m: map<string, V>, key: string)
    requires Represents(bs, hash, m)
    ensures var b := bs[hash(key) % BUCKETS]; var i := First(b, (e: Entry<V>) => Is(key, e));
            (i < |b| <==> key in m) && (i < |b| ==> b[i] == Entry(key, m[key]))
  {
  }

  lemma AddMeans<V(!new)>(bs: Table<V>, hash: string -> nat, m: map<string, V>, key: string, v: V)
    requires Represents(bs, hash, m) && key !in m
    ensures var b := hash(key) % BUCKETS;
            Represents(bs[b := bs[b] + [Entry(key, v)]], hash, m[key := v])
  {
    var b := hash(key) % BUCKETS;
    var es, m' := bs[b] + [Entry(key, v)], m[key := v];
    forall k | k in m' ensures Entry(k, m'[k]) in bs[b := es][hash(k) % BUCKETS] {
      if k == key {
        assert es[|bs[b]|] == Entry(key, v);
      } else {
        assert Entry(k, m[k]) in bs[hash(k) % BUCKETS];
      }
    }
  }

  lemma RemoveMeans<V(!new)>(bs: Table<V>, hash: string -> nat, m: map<string, V>, key: string, i: nat)
    requires Represents(bs, hash, m) && key in m
    requires i < |bs[hash(key) % BUCKETS]| && bs[hash(key) % BUCKETS][i].key == key
    ensures var b := hash(key) % BUCKETS;
            Represents(bs[b := bs[b][..i] + bs[b][i + 1..]], hash, m - {key})
  {
    var b := hash(key) % BUCKETS;
    var es, m' := bs[b][..i] + bs[b][i + 1..], m - {key};
    WithoutAt(bs[b], i);
    forall k | k in m' ensures Entry(k, m'[k]) in bs[b := es][hash(k) % BUCKETS] {
      assert Entry(k, m[k]) in bs[hash(k) % BUCKETS];
    }
    var bs' := bs[b := es];
    forall c | 0 <= c < BUCKETS ensures BucketOk(bs'[c], c, hash, m') {
      assert BucketOk(bs[c], c, hash, m);
    }
  }

  /** Dropping entry i of a list drops its key and nothing else. */
  lemma WithoutAt<V>(es: seq<Entry<V>>, i: nat)
    requires Distinct(es) && i < |es|
    ensures var fs := es[..i] + es[i + 1..];
            Distinct(fs) && forall e :: e in fs <==> e in es && e.key != es[i].key
  {
    var fs := es[..i] + es[i + 1..];
    assert forall j :: 0 <= j < |fs| ==> fs[j] == es[if j < i then j else j + 1];
    forall e | e in es && e.key != es[i].key ensures e in fs {
      var j :| 0 <= j < |es| && es[j] == e;
      assert fs[if j < i then j else j - 1] == e;
    }
  }

  function Keys<V>(es: seq<Entry<V>>): set<string> {
    set i | 0 <= i < |es| :: es[i].key
  }

  lemma KeysOfMore<V>(es: seq<Entry<V>>, e: Entry<V>)
    ensures Keys(es + [e]) == Keys(es) + {e.key}
  {
    forall k | k in Keys(es) + {e.key} ensures k in Keys(es + [e]) {
      if k in Keys(es) {
        var i :| 0 <= i < |es| && es[i].key == k;
        assert (es + [e])[i].key == k;
      } else {
        assert (es + [e])[|es|].key == k;
      }
    }
  }

  lemma {:induction false} DistinctCount<V>(es: seq<Entry<V>>)
    requires Distinct(es)
    ensures |Keys(es)| == |es|
    decreases |es|
  {
    if es == [] {
    } else {
      var fs, e := es[..|es| - 1], es[|es| - 1];
      DistinctCount(fs);
      KeysOfMore(fs, e);
      assert es == fs + [e];
      assert e.key !in Keys(fs);
    }
  }

  /** The first b buckets, flattened: distinct keys, all from those buckets. */
  lemma {:induction false} FlatDistinct<V(!new)>(bs: Table<V>, hash: string -> nat, m: map<string, V>, b: nat)
    requires Represents(bs, hash, m) && b <= BUCKETS
    ensures var es := Flat(bs[..b]);
            Distinct(es) && forall i :: 0 <= i < |es| ==>
              hash(es[i].key) % BUCKETS < b && es[i].key in m && m[es[i].key] == es[i].value
    decreases b
  {
    if b == 0 {
    } else {
      FlatDistinct(bs, hash, m, b - 1);
      assert bs[..b][..b - 1] == bs[..b - 1];
    }
  }

  lemma {:induction false} FlatHas<V>(bs: Table<V>, n: nat, b: nat, i: nat)
    requires b < n <= |bs| && i < |bs[b]|
    ensures bs[b][i] in Flat(bs[..n])
    decreases n
  {
    assert bs[..n][..n - 1] == bs[..n - 1];
    if b == n - 1 {
    } else {
      FlatHas(bs, n - 1, b, i);
    }
  }

  /** dict_count counts the map. */
  lemma {:induction false} CountMeans<V(!new)>(bs: Table<V>, hash: string -> nat, m: map<string, V>)
    requires Represents(bs, hash, m)
    ensures |Flat(bs)| == |m|
  {
    var es := Flat(bs);
    assert bs[..BUCKETS] == bs;
    FlatDistinct(bs, hash, m, BUCKETS);
    DistinctCount(es);
    forall k | k in m ensures k in Keys(es) {
      var b := hash(k) % BUCKETS;
      var i :| 0 <= i < |bs[b]| && bs[b][i] == Entry(k, m[k]);
      FlatHas(bs, BUCKETS, b, i);
    }
    assert Keys(es) == m.Keys;
  }

  /** An entry is somewhere in the table exactly if the map has it. */
  lemma {:induction false} FlatMeans<V(!new)>(bs: Table<V>, hash: string -> nat, m: map<string, V>, e: Entry<V>)
    requires Represents(bs, hash, m)
    ensures e in Flat(bs) <==> e.key in m && m[e.key] == e.value
  {
    assert bs[..BUCKETS] == bs;
    FlatDistinct(bs, hash, m, BUCKETS);
    if e.key in m && m[e.key] == e.value {
      var b := hash(e.key) % BUCKETS;
      var i :| 0 <= i < |bs[b]| && bs[b][i] == Entry(e.key, m[e.key]);
      FlatHas(bs, BUCKETS, b, i);
    }
  }

  // ---- The object ----------------------------------------------------------

  class Dictionary<V(!new)> {
    const hash: string -> nat
    const buckets: array<seq<Entry<V>>>
    ghost var contents: map<string, V>

    ghost predicate Valid()
      reads this, buckets
    {
      buckets.Length == BUCKETS && Represents(buckets[..], hash, contents)
    }

    /** dict_alloc */
    constructor (hash: string -> nat)
      ensures Valid() && fresh(buckets) && contents == map[] && this.hash == hash
    {
      this.hash := hash;
      buckets := new seq<Entry<V>>[BUCKETS](_ => []);
      contents := map[];
    }

    /** list_apply on one bucket, looking for a key. */
    method Find(key: string) returns (i: nat)
      requires Valid()
      ensures var b := buckets[hash(key) % BUCKETS]; i == First(b, (e: Entry<V>) => Is(key, e))
      ensures i < |buckets[hash(key) % BUCKETS]| <==> key in contents
      ensures key in contents ==> buckets[hash(key) % BUCKETS][i] == Entry(key, contents[key])
    {
      LookupMeans(buckets[..], hash, contents, key);
      var b := buckets[hash(key) % BUCKETS];
      ghost var r := First(b, (e: Entry<V>) => Is(key, e));
      i := 0;
      while i < |b| && b[i].key != key
        invariant i <= r
      {
        i := i + 1;
      }
    }

    /** dict_lookup */
    method Lookup(key: string) returns (r: Option<V>)
      requires Valid()
      ensures r == if key in contents then Some(contents[key]) else None
    {
      var i := Find(key);
      var b := buckets[hash(key) % BUCKETS];
      r := if i < |b| then Some(b[i].value) else None;
    }

    /** dict_add; `mem` says that the entry can be allocated. */
    method Add(key: string, v: V, mem: bool) returns (err: Errno)
      requires Valid()
      modifies this, buckets
      ensures Valid() && err == if key in old(contents) then AddrInUse else if mem then Ok else NoMemory
      ensures contents == if err == Ok then old(contents)[key := v] else old(contents)
    {
      var i := Find(key);
      var b := hash(key) % BUCKETS;
      if i < |buckets[b]| {
        return AddrInUse;
      }
      if !mem {
        return NoMemory;
      }
      AddMeans(buckets[..], hash, contents, key, v);
      ghost var bs := buckets[..];
      buckets[b] := buckets[b] + [Entry(key, v)];
      assert buckets[..] == bs[b := bs[b] + [Entry(key, v)]];
      contents := contents[key := v];
      err := Ok;
    }

    /** dict_remove */
    method Remove(key: string)
      requires Valid()
      modifies this, buckets
      ensures Valid() && contents == old(contents) - {key}
    {
      var i := Find(key);
      var b := hash(key) % BUCKETS;
      if i < |buckets[b]| {
        RemoveMeans(buckets[..], hash, contents, key, i);
        ghost var bs := buckets[..];
        buckets[b] := buckets[b][..i] + buckets[b][i + 1..];
        assert buckets[..] == bs[b := bs[b][..i] + bs[b][i + 1..]];
      }
      contents := contents - {key};
    }

    /** dict_flush */
    method Flush()
      requires Valid()
      modifies this, buckets
      ensures Valid() && contents == map[]
    {
      for i := 0 to BUCKETS
        invariant forall b :: 0 <= b < i ==> buckets[b] == []
      {
        buckets[i] := [];
      }
      contents := map[];
    }

    /** dict_count */
    method Count() returns (n: nat)
      requires Valid()
      ensures n == |contents|
    {
      n := 0;
      for i := 0 to BUCKETS
        invariant n == |Flat(buckets[..i])|
      {
        assert buckets[..i + 1][..i] == buckets[..i];
        n := n + |buckets[i]|;
      }
      assert buckets[..BUCKETS] == buckets[..];
      CountMeans(buckets[..], hash, contents);
    }

    /** dict_apply with a handler that keeps no state: the first entry it stops at. */
    method Apply(h: Entry<V> -> bool) returns (r: Option<Entry<V>>)
      requires Valid()
      ensures var es := Flat(buckets[..]); var i := First(es, h); r == if i < |es| then Some(es[i]) else None
      ensures r.Some? ==> h(r.value) && r.value.key in contents && contents[r.value.key] == r.value.value
      ensures r.None? <==> forall k :: k in contents ==> !h(Entry(k, contents[k]))
    {
      r := None;
      var b := 0;
      while b < BUCKETS && r.None?
        invariant b <= BUCKETS && Stops(Flat(buckets[..b]), h, r)
      {
        r := ApplyList(buckets[b], h);
        assert buckets[..b + 1][..b] == buckets[..b];
        StopsLater(Flat(buckets[..b]), buckets[b], h, r);
        b := b + 1;
      }
      StopsInTable(buckets[..], b, h, r);
      StopsMeans(buckets[..], hash, contents, h, r);
    }

    /** list_apply */
    static method ApplyList(es: seq<Entry<V>>, h: Entry<V> -> bool) returns (r: Option<Entry<V>>)
      ensures Stops(es, h, r)
    {
      r := None;
      var i := 0;
      while i < |es| && r.None?
        invariant i <= |es| && (r.None? ==> i <= First(es, h))
        invariant r.Some? ==> Stops(es, h, r)
      {
        if h(es[i]) {
          r := Some(es[i]);
        }
        i := i + 1;
      }
    }
  }

  /** r is what traversing es with h gives. */
  ghost predicate Stops<V>(es: seq<Entry<V>>, h: Entry<V> -> bool, r: Option<Entry<V>>) {
    var i := First(es, h);
    r == if i < |es| then Some(es[i]) else None
  }

  /** Where a traversal stops is the only place it can. */
  lemma {:induction false} FirstIs<V>(es: seq<Entry<V>>, h: Entry<V> -> bool, i: nat)
    requires i <= |es| && (i < |es| ==> h(es[i])) && forall j :: 0 <= j < i ==> !h(es[j])
    ensures First(es, h) == i
  {
  }

  lemma StopsLater<V>(es: seq<Entry<V>>, fs: seq<Entry<V>>, h: Entry<V> -> bool, r: Option<Entry<V>>)
    requires Stops(es, h, None) && Stops(fs, h, r)
    ensures Stops(es + fs, h, r)
  {
    var j := First(fs, h);
    forall k | 0 <= k < |es| + j ensures !h((es + fs)[k]) {
      assert (es + fs)[k] == if k < |es| then es[k] else fs[k - |es|];
    }
    FirstIs(es + fs, h, |es| + j);
  }

  lemma StopsSooner<V>(es: seq<Entry<V>>, fs: seq<Entry<V>>, h: Entry<V> -> bool, r: Option<Entry<V>>)
    requires Stops(es, h, r) && r.Some?
    ensures Stops(es + fs, h, r)
  {
    var i, j := First(es + fs, h), First(es, h);
    assert forall k :: 0 <= k < |es| ==> (es + fs)[k] == es[k];
    assert h((es + fs)[j]);
    assert i == j;
  }

  lemma {:induction false} StopsInTable<V>(bs: Table<V>, b: nat, h: Entry<V> -> bool, r: Option<Entry<V>>)
    requires b <= |bs| && Stops(Flat(bs[..b]), h, r) && (r.None? ==> b == |bs|)
    ensures Stops(Flat(bs), h, r)
    decreases |bs| - b
  {
    if b == |bs| {
      assert bs[..b] == bs;
    } else {
      assert bs[..b + 1][..b] == bs[..b];
      StopsSooner(Flat(bs[..b]), bs[b], h, r);
      StopsInTable(bs, b + 1, h, r);
    }
  }

  /** In terms of the map: an entry the handler accepts, or no entry at all. */
  lemma {:induction false} StopsMeans<V(!new)>(bs: Table<V>, hash: string -> nat, m: map<string, V>,
                                        h: Entry<V> -> bool,
                            r: Option<Entry<V>>)
    requires Represents(bs, hash, m) && Stops(Flat(bs), h, r)
    ensures r.Some? ==> h(r.value) && r.value.key in m && m[r.value.key] == r.value.value
    ensures r.None? <==> forall k :: k in m ==> !h(Entry(k, m[k]))
  {
    var es := Flat(bs);
    if r.Some? {
      FlatMeans(bs, hash, m, r.value);
    } else {
      forall k | k in m ensures !h(Entry(k, m[k])) {
        FlatMeans(bs, hash, m, Entry(k, m[k]));
      }
    }
  }
}
