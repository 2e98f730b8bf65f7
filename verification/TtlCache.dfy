/** The bounded TTL cache (`TTLCache`). A Python dict keeps its keys in insertion order, and that order
    decides which of several entries with the same expiry is evicted, so it is part of the model. */
module TtlCache {
  import opened Text

  datatype Item = Item(value: string, expiry: real)

  /** An insertion-ordered dictionary. */
  datatype Dict<K> = Dict(order: seq<K>, items: map<K, Item>)

  predicate NoDuplicates<K(==, !new)>(s: seq<K>) {
    forall i, j :: 0 <= i < j < |s| ==> s[i] != s[j]
  }

  predicate DictOk<K(==, !new)>(d: Dict<K>) {
    && NoDuplicates(d.order)
    && (forall k :: k in d.order ==> k in d.items)
    && (forall k :: k in d.items ==> k in d.order)
  }

  function Without<K(==, !new)>(s: seq<K>, k: K): (r: seq<K>)
    ensures forall x :: x in r <==> x in s && x != k
    ensures k !in s ==> r == s
    ensures |r| <= |s|
  {
    if s == [] then []
    else if s[0] == k then Without(s[1..], k)
    else [s[0]] + Without(s[1..], k)
  }

  lemma ConsDistinct<K(!new)>(k: K, s: seq<K>)
    requires NoDuplicates(s) && k !in s
    ensures NoDuplicates([k] + s)
  {
  }

  lemma {:induction false} WithoutDistinct<K(!new)>(s: seq<K>, k: K)
    requires NoDuplicates(s)
    ensures NoDuplicates(Without(s, k))
    ensures |Without(s, k)| == if k in s then |s| - 1 else |s|
  {
    if s != [] {
      assert forall i :: 0 <= i < |s[1..]| ==> s[1..][i] == s[i + 1];
      assert s[0] !in s[1..];
      WithoutDistinct(s[1..], k);
      if s[0] != k {
        ConsDistinct(s[0], Without(s[1..], k));
      }
    }
  }

  function Put<K(==, !new)>(d: Dict<K>, k: K, item: Item): Dict<K> {
    Dict(if k in d.items then d.order else d.order + [k], d.items[k := item])
  }

  function Drop<K(==, !new)>(d: Dict<K>, k: K): Dict<K> {
    Dict(Without(d.order, k), d.items - {k})
  }

  /** Popping keys one after the other. */
  function DropAll<K(==, !new)>(d: Dict<K>, ks: seq<K>): Dict<K> {
    if ks == [] then d else Drop(DropAll(d, ks[..|ks| - 1]), ks[|ks| - 1])
  }

  function ExpiryOf<K(==, !new)>(items: map<K, Item>, k: K): real {
    if k in items then items[k].expiry else 0.0
  }

  function ExpiredKeys<K(==, !new)>(order: seq<K>, items: map<K, Item>, now: real): seq<K> {
    if order == [] then []
    else (if ExpiryOf(items, order[0]) <= now then [order[0]] else []) + ExpiredKeys(order[1..], items, now)
  }

  /** Stable insertion of k in front of the first entry that does not expire earlier. */
  function InsertByExpiry<K(==, !new)>(k: K, s: seq<K>, items: map<K, Item>): (r: seq<K>)
    ensures |r| == |s| + 1
  {
    if s == [] || ExpiryOf(items, k) <= ExpiryOf(items, s[0]) then [k] + s
    else [s[0]] + InsertByExpiry(k, s[1..], items)
  }

  /** `sorted(..., key=expiry)`: stable. */
  function SortedByExpiry<K(==, !new)>(order: seq<K>, items: map<K, Item>): (r: seq<K>)
    ensures |r| == |order|
  {
    if order == [] then [] else InsertByExpiry(order[0], SortedByExpiry(order[1..], items), items)
  }

  function Evicted<K(==, !new)>(d: Dict<K>, maxsize: int, now: real): Dict<K>
    requires DictOk(d)
  {
    if |d.order| <= maxsize then d
    else
      var e := DropAll(d, ExpiredKeys(d.order, d.items, now));
      DropAllMeans(d, ExpiredKeys(d.order, d.items, now));
      if |e.order| <= maxsize then e
      else
        var sorted := SortedByExpiry(e.order, e.items);
        DropAll(e, sorted[..if maxsize < 0 then |sorted| else |e.order| - maxsize])
  }

  lemma {:induction false} DropAllMeans<K(!new)>(d: Dict<K>, ks: seq<K>)
    requires DictOk(d)
    ensures var e := DropAll(d, ks);
            && DictOk(e)
            && (forall k :: k in e.items <==> k in d.items && k !in ks)
            && (forall k :: k in e.items ==> e.items[k] == d.items[k])
            && |e.order| <= |d.order|
  {
    if ks != [] {
      DropAllMeans(d, ks[..|ks| - 1]);
      var k := ks[|ks| - 1];
      assert ks == ks[..|ks| - 1] + [k];
      WithoutDistinct(DropAll(d, ks[..|ks| - 1]).order, k);
    }
  }

  /** Popping distinct keys that are present shrinks the dictionary by exactly that many. */
  lemma {:induction false} DropAllShrinks<K(!new)>(d: Dict<K>, ks: seq<K>)
    requires DictOk(d) && NoDuplicates(ks) && (forall k :: k in ks ==> k in d.items)
    ensures |DropAll(d, ks).order| == |d.order| - |ks|
  {
    if ks != [] {
      var init, k := ks[..|ks| - 1], ks[|ks| - 1];
      assert forall x :: x in init ==> x in ks;
      DropAllShrinks(d, init);
      DropAllMeans(d, init);
      assert k !in init;
      WithoutDistinct(DropAll(d, init).order, k);
    }
  }

  // ------------------------------------------------------------------ sorting

  predicate ByExpiry<K(==, !new)>(s: seq<K>, items: map<K, Item>) {
    forall i, j :: 0 <= i < j < |s| ==> ExpiryOf(items, s[i]) <= ExpiryOf(items, s[j])
  }

  lemma {:induction false} ExpiredKeysMeans<K(!new)>(order: seq<K>, items: map<K, Item>, now: real, k: K)
    ensures k in ExpiredKeys(order, items, now) <==> k in order && ExpiryOf(items, k) <= now
  {
    if order != [] {
      ExpiredKeysMeans(order[1..], items, now, k);
      assert k in order <==> k == order[0] || k in order[1..];
    }
  }

  lemma {:induction false} InsertMeans<K(!new)>(k: K, s: seq<K>, items: map<K, Item>, x: K)
    ensures x in InsertByExpiry(k, s, items) <==> x == k || x in s
  {
    if s != [] && ExpiryOf(items, k) > ExpiryOf(items, s[0]) {
      InsertMeans(k, s[1..], items, x);
      assert x in s <==> x == s[0] || x in s[1..];
    }
  }

  lemma {:induction false} SortedMeans<K(!new)>(order: seq<K>, items: map<K, Item>, x: K)
    ensures x in SortedByExpiry(order, items) <==> x in order
  {
    if order != [] {
      SortedMeans(order[1..], items, x);
      InsertMeans(order[0], SortedByExpiry(order[1..], items), items, x);
      assert x in order <==> x == order[0] || x in order[1..];
    }
  }

  /** Inserting keeps the list sorted, and its first entry is the new key or the old first entry. */
  lemma {:induction false} InsertSorts<K(!new)>(k: K, s: seq<K>, items: map<K, Item>)
    requires ByExpiry(s, items)
    ensures var r := InsertByExpiry(k, s, items);
            && ByExpiry(r, items)
            && r[0] == (if s != [] && ExpiryOf(items, k) > ExpiryOf(items, s[0]) then s[0] else k)
  {
    if s != [] && ExpiryOf(items, k) > ExpiryOf(items, s[0]) {
      InsertSorts(k, s[1..], items);
      ConsByExpiry(s[0], InsertByExpiry(k, s[1..], items), items);
    } else {
      ConsByExpiry(k, s, items);
    }
  }

  lemma ConsByExpiry<K(!new)>(k: K, s: seq<K>, items: map<K, Item>)
    requires ByExpiry(s, items) && (s != [] ==> ExpiryOf(items, k) <= ExpiryOf(items, s[0]))
    ensures ByExpiry([k] + s, items)
  {
  }

  lemma {:induction false} SortSorts<K(!new)>(order: seq<K>, items: map<K, Item>)
    ensures ByExpiry(SortedByExpiry(order, items), items)
  {
    if order != [] {
      SortSorts(order[1..], items);
      InsertSorts(order[0], SortedByExpiry(order[1..], items), items);
    }
  }

  lemma {:induction false} InsertKeepsDistinct<K(!new)>(k: K, s: seq<K>, items: map<K, Item>)
    requires k !in s && NoDuplicates(s)
    ensures NoDuplicates(InsertByExpiry(k, s, items))
  {
    if s == [] || ExpiryOf(items, k) <= ExpiryOf(items, s[0]) {
      ConsDistinct(k, s);
    } else {
      assert forall i :: 0 <= i < |s[1..]| ==> s[1..][i] == s[i + 1];
      InsertKeepsDistinct(k, s[1..], items);
      InsertMeans(k, s[1..], items, s[0]);
      ConsDistinct(s[0], InsertByExpiry(k, s[1..], items));
    }
  }

  lemma {:induction false} SortKeepsDistinct<K(!new)>(order: seq<K>, items: map<K, Item>)
    requires NoDuplicates(order)
    ensures NoDuplicates(SortedByExpiry(order, items))
  {
    if order != [] {
      assert forall i :: 0 <= i < |order[1..]| ==> order[1..][i] == order[i + 1];
      SortKeepsDistinct(order[1..], items);
      SortedMeans(order[1..], items, order[0]);
      InsertKeepsDistinct(order[0], SortedByExpiry(order[1..], items), items);
    }
  }

  /** The last key inserted stays last if nothing expires later than it, ties included. */
  lemma {:induction false} LatestStaysLast<K(!new)>(order: seq<K>, items: map<K, Item>)
    requires order != []
    requires forall i :: 0 <= i < |order| ==> ExpiryOf(items, order[i]) <= ExpiryOf(items, order[|order| - 1])
    ensures SortedByExpiry(order, items)[|order| - 1] == order[|order| - 1]
  {
    var rest := SortedByExpiry(order[1..], items);
    if |order| > 1 {
      assert forall i :: 0 <= i < |order| - 1 ==> order[1..][i] == order[i + 1];
      LatestStaysLast(order[1..], items);
      InsertBeforeLast(order[0], rest, items);
    }
  }

  lemma {:induction false} InsertBeforeLast<K(!new)>(k: K, s: seq<K>, items: map<K, Item>)
    requires s != [] && ExpiryOf(items, k) <= ExpiryOf(items, s[|s| - 1])
    ensures InsertByExpiry(k, s, items)[|s|] == s[|s| - 1]
  {
    if ExpiryOf(items, k) > ExpiryOf(items, s[0]) {
      InsertBeforeLast(k, s[1..], items);
    }
  }

  /** The first key of the sorted list is the first in insertion order among those that expire earliest. */
  lemma {:induction false} EarliestComesFirst<K(!new)>(order: seq<K>, items: map<K, Item>, i: nat)
    requires i < |order|
    requires forall j :: 0 <= j < |order| ==> ExpiryOf(items, order[i]) <= ExpiryOf(items, order[j])
    requires forall j :: 0 <= j < i ==> ExpiryOf(items, order[i]) < ExpiryOf(items, order[j])
    ensures SortedByExpiry(order, items)[0] == order[i]
  {
    var rest := SortedByExpiry(order[1..], items);
    SortSorts(order[1..], items);
    InsertSorts(order[0], rest, items);
    if i > 0 {
      assert forall j :: 0 <= j < |order| - 1 ==> order[1..][j] == order[j + 1];
      EarliestComesFirst(order[1..], items, i - 1);
    } else if rest != [] {
      SortedMeans(order[1..], items, rest[0]);
    }
  }

  // ---------------------------------------------------------------- eviction

  /** What an eviction pass leaves, compared with what it found. */
  ghost predicate EvictionOk<K(!new)>(d: Dict<K>, e: Dict<K>, maxsize: int, now: real) {
    && DictOk(e)
    && (forall k :: k in e.items ==> k in d.items && e.items[k] == d.items[k])
    && (|d.order| <= maxsize ==> e == d)
    && |e.order| <= maxsize
    // a live entry goes only if every entry left is live and expires no earlier
    && (forall k, x :: k in d.items && k !in e.items && d.items[k].expiry > now && x in e.items ==>
          now < d.items[x].expiry && d.items[k].expiry <= d.items[x].expiry)
    // and, if the dictionary was over its size by one, only if it held no expired entry at all
    && (|d.order| <= maxsize + 1 ==>
          forall k, x :: k in d.items && k !in e.items && d.items[k].expiry > now && x in d.items ==>
            d.items[x].expiry > now)
  }

  lemma TakeOfSorted<K(!new)>(s: seq<K>, items: map<K, Item>, n: nat, k: K, x: K)
    requires ByExpiry(s, items) && n <= |s|
    requires k in s[..n] && x in s && x !in s[..n]
    ensures ExpiryOf(items, k) <= ExpiryOf(items, x)
  {
    var i :| 0 <= i < n && s[i] == k;
    var j :| 0 <= j < |s| && s[j] == x;
    assert forall m :: 0 <= m < n ==> s[..n][m] == s[m];
  }

  /** The second half of a pass: the earliest entries go until the size is right. */
  lemma OverflowDropped<K(!new)>(e: Dict<K>, maxsize: int)
    requires DictOk(e) && 0 <= maxsize < |e.order|
    ensures var sorted := SortedByExpiry(e.order, e.items);
            var r := DropAll(e, sorted[..|e.order| - maxsize]);
            && DictOk(r) && |r.order| == maxsize
            && (forall k :: k in r.items ==> k in e.items && r.items[k] == e.items[k])
            && (forall k, x :: k in e.items && k !in r.items && x in r.items ==> e.items[k].expiry <= e.items[x].expiry)
  {
    var sorted := SortedByExpiry(e.order, e.items);
    SortSorts(e.order, e.items);
    SortKeepsDistinct(e.order, e.items);
    var n := |e.order| - maxsize;
    var gone := sorted[..n];
    assert NoDuplicates(gone);
    forall k | k in gone ensures k in e.items {
      assert k in sorted;
      SortedMeans(e.order, e.items, k);
    }
    DropAllMeans(e, gone);
    DropAllShrinks(e, gone);
    var r := DropAll(e, gone);
    forall k, x | k in e.items && k !in r.items && x in r.items ensures e.items[k].expiry <= e.items[x].expiry {
      SortedMeans(e.order, e.items, x);
      TakeOfSorted(sorted, e.items, n, k, x);
    }
  }

  lemma EvictionIsOk<K(!new)>(d: Dict<K>, maxsize: int, now: real)
    requires DictOk(d) && maxsize >= 0
    ensures EvictionOk(d, Evicted(d, maxsize, now), maxsize, now)
  {
    hide DropAll, SortedByExpiry, ExpiredKeys, NoDuplicates;
    if |d.order| > maxsize {
      var expired := ExpiredKeys(d.order, d.items, now);
      var e := DropAll(d, expired);
      DropAllMeans(d, expired);
      if |e.order| > maxsize {
        OverflowDropped(e, maxsize);
        if |d.order| <= maxsize + 1 {
          NothingDropped(d, expired);
        }
      }
      forall x | x in d.items ensures x in expired <==> d.items[x].expiry <= now {
        ExpiredKeysMeans(d.order, d.items, now, x);
      }
    }
  }

  /** One entry too many and none expired: exactly the earliest to expire goes, and among several of those
      the one inserted first. */
  lemma EarliestIsEvicted<K(!new)>(d: Dict<K>, maxsize: nat, now: real, i: nat)
    requires DictOk(d) && |d.order| == maxsize + 1 && i < |d.order|
    requires forall j :: 0 <= j < |d.order| ==> ExpiryOf(d.items, d.order[j]) > now
    requires forall j :: 0 <= j < |d.order| ==> ExpiryOf(d.items, d.order[i]) <= ExpiryOf(d.items, d.order[j])
    requires forall j :: 0 <= j < i ==> ExpiryOf(d.items, d.order[i]) < ExpiryOf(d.items, d.order[j])
    ensures Evicted(d, maxsize, now) == Drop(d, d.order[i])
  {
    var expired := ExpiredKeys(d.order, d.items, now);
    if expired != [] {
      ExpiredKeysMeans(d.order, d.items, now, expired[0]);
      assert false;
    }
    EarliestComesFirst(d.order, d.items, i);
    EvictedUnfolds(d, maxsize, now);
    hide Evicted, ExpiredKeys, SortedByExpiry, DictOk, Drop;
    var first := SortedByExpiry(d.order, d.items)[..1];
    assert first == [d.order[i]] && first[..0] == [];
    assert DropAll(d, []) == d;
    assert DropAll(d, first) == Drop(d, d.order[i]);
  }

  lemma EvictionKeeps<K(!new)>(d: Dict<K>, maxsize: int, now: real)
    requires DictOk(d) && maxsize >= 0
    ensures var e := Evicted(d, maxsize, now);
            && DictOk(e) && |e.order| <= maxsize && (|d.order| <= maxsize ==> e == d)
            && (forall k :: k in e.items ==> k in d.items && e.items[k] == d.items[k])
  {
    EvictionIsOk(d, maxsize, now);
  }

  /** Dropping keys without getting smaller drops nothing. */
  lemma {:induction false} NothingDropped<K(!new)>(d: Dict<K>, ks: seq<K>)
    requires DictOk(d) && |DropAll(d, ks).order| >= |d.order|
    ensures forall k :: k in ks ==> k !in d.items
  {
    if ks != [] {
      var init, k := ks[..|ks| - 1], ks[|ks| - 1];
      DropAllMeans(d, init);
      WithoutDistinct(DropAll(d, init).order, k);
      NothingDropped(d, init);
      assert ks == init + [k];
    }
  }

  // --------------------------------------------------------------- operations

  datatype Config = Config(ttl: int, maxsize: int, refreshOnGet: bool)

  predicate Enabled(c: Config) {
    c.ttl > 0 && c.maxsize > 0
  }

  datatype GetResult<K> = GetResult(dict: Dict<K>, value: Option<string>)

  function Lookup<K(==, !new)>(c: Config, d: Dict<K>, k: K, now: real): GetResult<K> {
    if !Enabled(c) || k !in d.items then GetResult(d, None)
    else if d.items[k].expiry <= now then GetResult(Drop(d, k), None)
    else
      GetResult(if c.refreshOnGet then Put(d, k, Item(d.items[k].value, now + c.ttl as real)) else d,
                Some(d.items[k].value))
  }

  function Stored<K(==, !new)>(c: Config, d: Dict<K>, k: K, value: string, now: real): Dict<K>
    requires DictOk(d)
  {
    if !Enabled(c) then d
    else
      PutOk(d, k, Item(value, now + c.ttl as real));
      Evicted(Put(d, k, Item(value, now + c.ttl as real)), c.maxsize, now)
  }

  lemma PutOk<K(!new)>(d: Dict<K>, k: K, item: Item)
    requires DictOk(d)
    ensures DictOk(Put(d, k, item))
    ensures |Put(d, k, item).order| == if k in d.items then |d.order| else |d.order| + 1
  {
    var e := Put(d, k, item);
    if k !in d.items {
      assert forall x :: x in e.order <==> x in d.order || x == k;
    }
  }

  lemma DropOk<K(!new)>(d: Dict<K>, k: K)
    requires DictOk(d)
    ensures DictOk(Drop(d, k)) && |Drop(d, k).order| <= |d.order|
  {
    WithoutDistinct(d.order, k);
  }

  /** A cache that its own operations have built: a dictionary within its size in which nothing
      expires later than an entry set or refreshed now would. */
  ghost predicate CacheOk<K(!new)>(c: Config, d: Dict<K>, now: real) {
    && DictOk(d)
    && (if Enabled(c) then |d.order| <= c.maxsize else d.items == map[])
    && forall k :: k in d.items ==> d.items[k].expiry <= now + c.ttl as real
  }

  lemma GetOk<K(!new)>(c: Config, d: Dict<K>, k: K, now: real)
    requires CacheOk(c, d, now)
    ensures CacheOk(c, Lookup(c, d, k, now).dict, now)
  {
    DropOk(d, k);
    if k in d.items {
      PutOk(d, k, Item(d.items[k].value, now + c.ttl as real));
    }
  }

  /** After `set` the cache is within its size, and the key just set is there: it survives the
      eviction pass it may have caused. */
  lemma SetOk<K(!new)>(c: Config, d: Dict<K>, k: K, value: string, now: real)
    requires CacheOk(c, d, now)
    ensures CacheOk(c, Stored(c, d, k, value, now), now)
    ensures Enabled(c) ==> k in Stored(c, d, k, value, now).items
                           && Stored(c, d, k, value, now).items[k] == Item(value, now + c.ttl as real)
  {
    if Enabled(c) {
      hide Evicted, DictOk, Stored, NoDuplicates;
      var p := Put(d, k, Item(value, now + c.ttl as real));
      PutOk(d, k, Item(value, now + c.ttl as real));
      SetIsEvicted(c, d, k, value, now);
      PutKeepsExpiries(c, d, k, value, now);
      EvictedCacheOk(c, p, now);
      if k in d.items {
        SmallIsKept(p, c.maxsize, now);
      } else {
        JustSetSurvives(d, k, p, c, now);
      }
      EvictedKeepsItem(p, k, c.maxsize, now);
    }
  }

  lemma SetIsEvicted<K(!new)>(c: Config, d: Dict<K>, k: K, value: string, now: real)
    requires DictOk(d) && Enabled(c)
    ensures DictOk(Put(d, k, Item(value, now + c.ttl as real)))
    ensures Stored(c, d, k, value, now) == Evicted(Put(d, k, Item(value, now + c.ttl as real)), c.maxsize, now)
  {
    PutOk(d, k, Item(value, now + c.ttl as real));
    hide Evicted, DictOk;
  }

  lemma PutKeepsExpiries<K(!new)>(c: Config, d: Dict<K>, k: K, value: string, now: real)
    requires CacheOk(c, d, now)
    ensures var p := Put(d, k, Item(value, now + c.ttl as real));
            forall x :: x in p.items ==> p.items[x].expiry <= now + c.ttl as real
  {
  }

  lemma EvictedCacheOk<K(!new)>(c: Config, p: Dict<K>, now: real)
    requires DictOk(p) && Enabled(c)
    requires forall x :: x in p.items ==> p.items[x].expiry <= now + c.ttl as real
    ensures CacheOk(c, Evicted(p, c.maxsize, now), now)
  {
    EvictionKeeps(p, c.maxsize, now);
    hide Evicted, DictOk;
  }

  lemma SmallIsKept<K(!new)>(p: Dict<K>, maxsize: int, now: real)
    requires DictOk(p) && |p.order| <= maxsize
    ensures Evicted(p, maxsize, now) == p
  {
  }

  lemma EvictedKeepsItem<K(!new)>(p: Dict<K>, k: K, maxsize: int, now: real)
    requires DictOk(p) && maxsize >= 0 && k in Evicted(p, maxsize, now).items
    ensures k in p.items && Evicted(p, maxsize, now).items[k] == p.items[k]
  {
    EvictionKeeps(p, maxsize, now);
  }

  lemma {:induction false} DropAllLast<K(!new)>(order: seq<K>, k: K, items: map<K, Item>, ks: seq<K>)
    requires DictOk(Dict(order + [k], items)) && k !in ks
    ensures var r := DropAll(Dict(order + [k], items), ks).order;
            r != [] && r[|r| - 1] == k
  {
    if ks != [] {
      var init, x := ks[..|ks| - 1], ks[|ks| - 1];
      assert forall y :: y in init ==> y in ks;
      DropAllLast(order, k, items, init);
      var r := DropAll(Dict(order + [k], items), init).order;
      assert r == r[..|r| - 1] + [k];
      WithoutLast(r[..|r| - 1], k, x);
    }
  }

  lemma {:induction false} WithoutLast<K(!new)>(s: seq<K>, k: K, x: K)
    requires x != k
    ensures Without(s + [k], x) == Without(s, x) + [k]
  {
    if s == [] {
      assert s + [k] == [k] && [k][1..] == [];
    } else {
      assert (s + [k])[1..] == s[1..] + [k];
      WithoutLast(s[1..], k, x);
    }
  }

  lemma JustSetSurvives<K(!new)>(d: Dict<K>, k: K, p: Dict<K>, c: Config, now: real)
    requires CacheOk(c, d, now) && Enabled(c) && k !in d.items && DictOk(p)
    requires p.order == d.order + [k] && k in p.items && p.items[k].expiry == now + c.ttl as real
    requires forall x :: x in d.items ==> x in p.items && p.items[x] == d.items[x]
    ensures k in Evicted(p, c.maxsize, now).items
  {
    hide Evicted, DropAll, ExpiredKeys, SortedByExpiry, DictOk, CacheOk, NoDuplicates;
    JustSetOutlivesExpired(d, k, p, c, now);
    EvictedUnfolds(p, c.maxsize, now);
    var e := DropAll(p, ExpiredKeys(p.order, p.items, now));
    if |p.order| > c.maxsize && |e.order| > c.maxsize {
      LatestSurvives(e, k, c.maxsize);
    }
  }

  lemma EvictedUnfolds<K(!new)>(p: Dict<K>, maxsize: int, now: real)
    requires DictOk(p) && maxsize >= 0
    ensures var e := DropAll(p, ExpiredKeys(p.order, p.items, now));
            Evicted(p, maxsize, now) ==
            if |p.order| <= maxsize then p
            else if |e.order| <= maxsize then e
            else DropAll(e, SortedByExpiry(e.order, e.items)[..|e.order| - maxsize])
  {
    hide DropAll, ExpiredKeys, SortedByExpiry, DictOk;
  }

  /** The first half of a pass leaves the key just set, in last place and expiring last. */
  lemma JustSetOutlivesExpired<K(!new)>(d: Dict<K>, k: K, p: Dict<K>, c: Config, now: real)
    requires CacheOk(c, d, now) && Enabled(c) && k !in d.items && DictOk(p)
    requires p.order == d.order + [k] && k in p.items && p.items[k].expiry == now + c.ttl as real
    requires forall x :: x in d.items ==> x in p.items && p.items[x] == d.items[x]
    ensures var e := DropAll(p, ExpiredKeys(p.order, p.items, now));
            && DictOk(e) && k in e.items && e.order != [] && e.order[|e.order| - 1] == k
            && forall x :: x in e.items ==> e.items[x].expiry <= e.items[k].expiry
  {
    var expired := ExpiredKeys(p.order, p.items, now);
    DropAllMeans(p, expired);
    ExpiredKeysMeans(p.order, p.items, now, k);
    DropAllLast(d.order, k, p.items, expired);
    NothingOutlives(d, k, p, c, now);
    hide DropAll, ExpiredKeys, NoDuplicates, DictOk, CacheOk;
    assert p == Dict(d.order + [k], p.items);
  }

  lemma NothingOutlives<K(!new)>(d: Dict<K>, k: K, p: Dict<K>, c: Config, now: real)
    requires CacheOk(c, d, now) && DictOk(p) && p.order == d.order + [k]
    requires k in p.items && p.items[k].expiry == now + c.ttl as real
    requires forall x :: x in d.items ==> x in p.items && p.items[x] == d.items[x]
    ensures forall x :: x in p.items ==> p.items[x].expiry <= p.items[k].expiry
  {
    hide NoDuplicates;
    forall x | x in p.items ensures p.items[x].expiry <= p.items[k].expiry {
      assert x in p.order;
      assert x == k || x in d.order;
    }
  }

  lemma LatestSurvives<K(!new)>(e: Dict<K>, k: K, maxsize: nat)
    requires DictOk(e) && 0 < maxsize < |e.order| && k in e.items && e.order[|e.order| - 1] == k
    requires forall x :: x in e.items ==> e.items[x].expiry <= e.items[k].expiry
    ensures k in DropAll(e, SortedByExpiry(e.order, e.items)[..|e.order| - maxsize]).items
  {
    hide SortedByExpiry, DropAll;
    assert forall i :: 0 <= i < |e.order| ==> e.order[i] in e.items;
    LatestStaysLast(e.order, e.items);
    SortKeepsDistinct(e.order, e.items);
    var sorted := SortedByExpiry(e.order, e.items);
    var gone := sorted[..|e.order| - maxsize];
    assert k !in gone by {
      assert forall i :: 0 <= i < |gone| ==> gone[i] == sorted[i] && sorted[i] != sorted[|sorted| - 1];
    }
    DropAllMeans(e, gone);
  }

  // ----------------------------------------------- the unbounded timed map

  /** An unbounded map of timed entries: what the cache would be without a size. */
  predicate Live<K(==, !new)>(items: map<K, Item>, k: K, now: real) {
    k in items && items[k].expiry > now
  }

  function TimedGet<K(==, !new)>(c: Config, m: map<K, Item>, k: K, now: real): (map<K, Item>, Option<string>) {
    if !Live(m, k, now) then (m, None)
    else (if c.refreshOnGet then m[k := Item(m[k].value, now + c.ttl as real)] else m, Some(m[k].value))
  }

  function TimedSet<K(==, !new)>(c: Config, m: map<K, Item>, k: K, value: string, now: real): map<K, Item> {
    m[k := Item(value, now + c.ttl as real)]
  }

  /** Every live entry of the cache is an entry of the map. */
  ghost predicate Below<K(!new)>(d: Dict<K>, m: map<K, Item>, now: real) {
    forall k :: Live(d.items, k, now) ==> k in m && m[k] == d.items[k]
  }

  /** And the other way round. */
  ghost predicate Same<K(!new)>(d: Dict<K>, m: map<K, Item>, now: real) {
    Below(d, m, now) && forall k :: Live(m, k, now) ==> Live(d.items, k, now)
  }

  /** Setting k makes the cache evict a live entry. */
  ghost predicate EvictsLive<K(!new)>(c: Config, d: Dict<K>, k: K, value: string, now: real)
    requires DictOk(d)
  {
    exists x :: x != k && Live(d.items, x, now) && x !in Stored(c, d, k, value, now).items
  }

  // ------------------------------------------- which live entry a set evicts

  /** The first in insertion order among the entries that expire earliest. */
  function Earliest<K(==, !new)>(order: seq<K>, items: map<K, Item>): (r: K)
    requires order != []
    ensures SomeEarliest(order, items, r)
  {
    var last := order[|order| - 1];
    if |order| == 1 then
      OnlyIsEarliest(order, items);
      last
    else
      var init := order[..|order| - 1];
      var before := Earliest(init, items);
      EarliestSnoc(order, items, before);
      if ExpiryOf(items, last) < ExpiryOf(items, before) then last else before
  }

  ghost predicate IsEarliest<K(!new)>(order: seq<K>, items: map<K, Item>, i: int) {
    && 0 <= i < |order|
    && (forall j :: 0 <= j < |order| ==> ExpiryOf(items, order[i]) <= ExpiryOf(items, order[j]))
    && (forall j :: 0 <= j < i ==> ExpiryOf(items, order[i]) < ExpiryOf(items, order[j]))
  }

  ghost predicate SomeEarliest<K(!new)>(order: seq<K>, items: map<K, Item>, x: K) {
    exists i :: IsEarliest(order, items, i) && order[i] == x
  }

  lemma OnlyIsEarliest<K(!new)>(order: seq<K>, items: map<K, Item>)
    requires |order| == 1
    ensures SomeEarliest(order, items, order[0])
  {
    assert IsEarliest(order, items, 0);
  }

  lemma EarliestSnoc<K(!new)>(order: seq<K>, items: map<K, Item>, before: K)
    requires |order| > 1
    requires SomeEarliest(order[..|order| - 1], items, before)
    ensures var last := order[|order| - 1];
            SomeEarliest(order, items, if ExpiryOf(items, last) < ExpiryOf(items, before) then last else before)
  {
    var init, last := order[..|order| - 1], order[|order| - 1];
    var i :| IsEarliest(init, items, i) && init[i] == before;
    assert forall j :: 0 <= j < |init| ==> init[j] == order[j];
    if ExpiryOf(items, last) < ExpiryOf(items, before) {
      assert IsEarliest(order, items, |order| - 1);
    } else {
      assert IsEarliest(order, items, i);
    }
  }

  ghost predicate AllLive<K(!new)>(d: Dict<K>, now: real) {
    forall x :: x in d.items ==> d.items[x].expiry > now
  }

  /** The live entry that setting k has to evict: none unless k is new and the cache is full of live entries. */
  ghost function Victim<K(!new)>(c: Config, d: Dict<K>, k: K, now: real): Option<K> {
    if Enabled(c) && k !in d.items && d.order != [] && |d.order| >= c.maxsize && AllLive(d, now)
    then Some(Earliest(d.order, d.items)) else None
  }

  /** Setting k evicts exactly that live entry. */
  lemma EvictsVictim<K(!new)>(c: Config, d: Dict<K>, k: K, value: string, now: real, x: K)
    requires CacheOk(c, d, now) && DictOk(d) && Live(d.items, x, now) && x != k
    ensures x !in Stored(c, d, k, value, now).items <==> Victim(c, d, k, now) == Some(x)
  {
    if Enabled(c) {
      var item := Item(value, now + c.ttl as real);
      var p := Put(d, k, item);
      PutOk(d, k, item);
      SetIsEvicted(c, d, k, value, now);
      hide Stored, Evicted, DictOk, Earliest;
      if k in d.items || |d.order| < c.maxsize {
        SmallIsKept(p, c.maxsize, now);
      } else if AllLive(d, now) {
        FullEvictsEarliest(c, d, k, value, now);
      } else {
        var y :| y in d.items && d.items[y].expiry <= now;
        EvictionIsOk(p, c.maxsize, now);
        assert y in p.items && p.items[y] == d.items[y] && p.items[x] == d.items[x];
      }
    }
  }

  lemma FullEvictsEarliest<K(!new)>(c: Config, d: Dict<K>, k: K, value: string, now: real)
    requires CacheOk(c, d, now) && DictOk(d) && Enabled(c)
    requires k !in d.items && |d.order| >= c.maxsize && AllLive(d, now)
    ensures DictOk(Put(d, k, Item(value, now + c.ttl as real)))
    ensures Evicted(Put(d, k, Item(value, now + c.ttl as real)), c.maxsize, now)
            == Drop(Put(d, k, Item(value, now + c.ttl as real)), Earliest(d.order, d.items))
  {
    var item := Item(value, now + c.ttl as real);
    PutOk(d, k, item);
    FullOrder(c, d, k, item, now);
    hide Evicted, DictOk, Drop, Put, Earliest;
    LastIsLatest(d, Put(d, k, item), k, c.maxsize, now, Earliest(d.order, d.items));
  }

  /** A full cache of live entries with one more, in last place and expiring last. */
  lemma LastIsLatest<K(!new)>(d: Dict<K>, p: Dict<K>, k: K, maxsize: nat, now: real, x: K)
    requires DictOk(p) && |d.order| == maxsize && p.order == d.order + [k] && SomeEarliest(d.order, d.items, x)
    requires ExpiryOf(p.items, k) > now
    requires forall j :: 0 <= j < |d.order| ==>
               && p.order[j] == d.order[j]
               && ExpiryOf(p.items, d.order[j]) == ExpiryOf(d.items, d.order[j])
               && now < ExpiryOf(d.items, d.order[j]) <= ExpiryOf(p.items, k)
    ensures Evicted(p, maxsize, now) == Drop(p, x)
  {
    var i :| IsEarliest(d.order, d.items, i) && d.order[i] == x;
    hide Evicted, DictOk, Drop;
    EarliestIsEvicted(p, maxsize, now, i);
  }

  /** The expiries of the full cache with the new entry in last place. */
  lemma FullOrder<K(!new)>(c: Config, d: Dict<K>, k: K, item: Item, now: real)
    requires CacheOk(c, d, now) && DictOk(d) && Enabled(c) && k !in d.items && AllLive(d, now)
    requires item.expiry == now + c.ttl as real
    ensures var p := Put(d, k, item);
            && p.order == d.order + [k]
            && ExpiryOf(p.items, k) == item.expiry > now
            && (forall j :: 0 <= j < |d.order| ==>
                 && p.order[j] == d.order[j]
                 && ExpiryOf(p.items, d.order[j]) == ExpiryOf(d.items, d.order[j])
                 && now < ExpiryOf(d.items, d.order[j]) <= item.expiry)
  {
    forall j | 0 <= j < |d.order|
      ensures ExpiryOf(Put(d, k, item).items, d.order[j]) == ExpiryOf(d.items, d.order[j])
      ensures now < ExpiryOf(d.items, d.order[j]) <= item.expiry
    {
      assert d.order[j] in d.order && d.order[j] in d.items;
    }
  }

  /** So whether a live entry is lost can be told beforehand: the key is new, the cache is full, and every
      entry in it is live. */
  lemma EvictsLiveExactly<K(!new)>(c: Config, d: Dict<K>, k: K, value: string, now: real)
    requires CacheOk(c, d, now) && DictOk(d)
    ensures EvictsLive(c, d, k, value, now) <==> Victim(c, d, k, now).Some?
  {
    hide Stored, Earliest;
    if Victim(c, d, k, now).Some? {
      EarliestIsEntry(c, d, k, now);
      EvictsVictim(c, d, k, value, now, Victim(c, d, k, now).value);
    }
    if EvictsLive(c, d, k, value, now) {
      var x :| x != k && Live(d.items, x, now) && x !in Stored(c, d, k, value, now).items;
      EvictsVictim(c, d, k, value, now, x);
    }
  }

  lemma EarliestIsEntry<K(!new)>(c: Config, d: Dict<K>, k: K, now: real)
    requires DictOk(d) && Victim(c, d, k, now).Some?
    ensures Live(d.items, Victim(c, d, k, now).value, now) && Victim(c, d, k, now).value != k
  {
    var i :| IsEarliest(d.order, d.items, i) && d.order[i] == Earliest(d.order, d.items);
    hide Earliest;
    assert d.order[i] in d.order;
  }

  lemma GetRefines<K(!new)>(c: Config, d: Dict<K>, m: map<K, Item>, k: K, now: real)
    requires CacheOk(c, d, now) && Below(d, m, now)
    ensures var r, (m', v) := Lookup(c, d, k, now), TimedGet(c, m, k, now);
            && Below(r.dict, m', now)
            && (r.value.Some? ==> v == r.value)
            && (Enabled(c) && Same(d, m, now) ==> Same(r.dict, m', now) && v == r.value)
  {
  }

  lemma SetRefines<K(!new)>(c: Config, d: Dict<K>, m: map<K, Item>, k: K, value: string, now: real)
    requires CacheOk(c, d, now) && Below(d, m, now)
    ensures var e, m' := Stored(c, d, k, value, now), TimedSet(c, m, k, value, now);
            && Below(e, m', now)
            && (Enabled(c) && Same(d, m, now) ==> (Same(e, m', now) <==> !EvictsLive(c, d, k, value, now)))
  {
    SetMeans(c, d, k, value, now);
    hide Stored, DictOk, CacheOk;
    var e, m' := Stored(c, d, k, value, now), TimedSet(c, m, k, value, now);
    if Enabled(c) {
      forall x | Live(e.items, x, now) ensures x in m' && m'[x] == e.items[x] {
        if x != k {
          assert Live(d.items, x, now);
        }
      }
      if Same(d, m, now) {
        if EvictsLive(c, d, k, value, now) {
          var x :| x != k && Live(d.items, x, now) && x !in e.items;
          assert Live(m', x, now);
        } else {
          forall x | Live(m', x, now) ensures Live(e.items, x, now) {
            if x != k {
              assert Live(m, x, now) && Live(d.items, x, now);
            }
          }
        }
      }
    }
  }

  /** `set`, as its caller sees it. */
  lemma SetMeans<K(!new)>(c: Config, d: Dict<K>, k: K, value: string, now: real)
    requires CacheOk(c, d, now)
    ensures var e := Stored(c, d, k, value, now);
            && DictOk(e)
            && CacheOk(c, e, now)
            && (!Enabled(c) ==> e == d && d.items == map[])
            && (Enabled(c) ==> k in e.items && e.items[k] == Item(value, now + c.ttl as real)
                               && Live(e.items, k, now))
            && (forall x :: x in e.items && x != k ==> x in d.items && e.items[x] == d.items[x])
  {
    SetOk(c, d, k, value, now);
    if Enabled(c) {
      SetIsEvicted(c, d, k, value, now);
      EvictionKeeps(Put(d, k, Item(value, now + c.ttl as real)), c.maxsize, now);
    }
    hide Stored, Evicted, NoDuplicates;
  }

  lemma PopRefines<K(!new)>(c: Config, d: Dict<K>, m: map<K, Item>, k: K, now: real)
    requires CacheOk(c, d, now) && Below(d, m, now)
    ensures CacheOk(c, Drop(d, k), now) && Below(Drop(d, k), m - {k}, now)
    ensures Same(d, m, now) ==> Same(Drop(d, k), m - {k}, now)
  {
    DropOk(d, k);
  }

  // -------------------------------------------------------------- whole runs

  datatype Action<K> = GetKey(key: K) | SetKey(key: K, value: string) | PopKey(key: K)

  /** One call, with the clock reading it takes. */
  datatype Call<K> = Call(action: Action<K>, now: real)

  /** The cache a sequence of calls leaves, starting from the empty one. */
  function Reached<K(==, !new)>(c: Config, calls: seq<Call<K>>): (d: Dict<K>)
    ensures DictOk(d)
  {
    if calls == [] then Dict([], map[])
    else
      var d, call := Reached(c, calls[..|calls| - 1]), calls[|calls| - 1];
      StepKeepsDict(c, d, call);
      Stepped(c, d, call)
  }

  function Stepped<K(==, !new)>(c: Config, d: Dict<K>, call: Call<K>): Dict<K>
    requires DictOk(d)
  {
    match call.action
    case GetKey(k) => Lookup(c, d, k, call.now).dict
    case SetKey(k, value) => Stored(c, d, k, value, call.now)
    case PopKey(k) => Drop(d, k)
  }

  lemma StepKeepsDict<K(!new)>(c: Config, d: Dict<K>, call: Call<K>)
    requires DictOk(d)
    ensures DictOk(Stepped(c, d, call))
  {
    hide DictOk, Stored, Lookup, Drop;
    match call.action {
      case GetKey(k) => GetKeepsDict(c, d, k, call.now);
      case SetKey(k, value) => SetKeepsDict(c, d, k, value, call.now);
      case PopKey(k) => DropOk(d, k);
    }
  }

  lemma GetKeepsDict<K(!new)>(c: Config, d: Dict<K>, k: K, now: real)
    requires DictOk(d)
    ensures DictOk(Lookup(c, d, k, now).dict)
  {
    hide DictOk, Put, Drop;
    DropOk(d, k);
    if k in d.items {
      PutOk(d, k, Item(d.items[k].value, now + c.ttl as real));
    }
  }

  lemma SetKeepsDict<K(!new)>(c: Config, d: Dict<K>, k: K, value: string, now: real)
    requires DictOk(d)
    ensures DictOk(Stored(c, d, k, value, now))
  {
    hide DictOk, Put, Evicted;
    if Enabled(c) {
      PutOk(d, k, Item(value, now + c.ttl as real));
      EvictionKeeps(Put(d, k, Item(value, now + c.ttl as real)), c.maxsize, now);
    }
  }

  /** The unbounded map under the same calls. */
  function TimedReached<K(==, !new)>(c: Config, calls: seq<Call<K>>): map<K, Item> {
    if calls == [] then map[]
    else TimedStepped(c, TimedReached(c, calls[..|calls| - 1]), calls[|calls| - 1])
  }

  function TimedStepped<K(==, !new)>(c: Config, m: map<K, Item>, call: Call<K>): map<K, Item> {
    match call.action
    case GetKey(k) => TimedGet(c, m, k, call.now).0
    case SetKey(k, value) => TimedSet(c, m, k, value, call.now)
    case PopKey(k) => m - {k}
  }

  ghost predicate Ordered<K(!new)>(calls: seq<Call<K>>) {
    forall i, j :: 0 <= i <= j < |calls| ==> calls[i].now <= calls[j].now
  }

  /** No call had to make the cache evict a live entry: no new key was set while it was full of live entries. */
  ghost predicate Lossless<K(!new)>(c: Config, calls: seq<Call<K>>) {
    calls == [] ||
    var init, call := calls[..|calls| - 1], calls[|calls| - 1];
    && Lossless(c, init)
    && (call.action.SetKey? ==> Victim(c, Reached(c, init), call.action.key, call.now).None?)
  }

  lemma Later<K(!new)>(c: Config, d: Dict<K>, m: map<K, Item>, t0: real, t1: real)
    requires t0 <= t1 && CacheOk(c, d, t0) && Below(d, m, t0)
    ensures CacheOk(c, d, t1) && Below(d, m, t1) && (Same(d, m, t0) ==> Same(d, m, t1))
  {
    hide DictOk;
    assert forall k :: Live(d.items, k, t1) ==> Live(d.items, k, t0);
    assert forall k :: Live(m, k, t1) ==> Live(m, k, t0);
  }

  lemma StepRefines<K(!new)>(c: Config, d: Dict<K>, m: map<K, Item>, call: Call<K>)
    requires CacheOk(c, d, call.now) && Below(d, m, call.now)
    ensures var e, m' := Stepped(c, d, call), TimedStepped(c, m, call);
            && CacheOk(c, e, call.now) && Below(e, m', call.now)
            && (Enabled(c) && Same(d, m, call.now) ==>
                 (Same(e, m', call.now) <==>
                  !(call.action.SetKey? && Victim(c, d, call.action.key, call.now).Some?)))
  {
    hide DictOk, CacheOk, Below, Same, EvictsLive, Victim, Lookup, Stored, Drop, TimedGet, TimedSet;
    Dictionary(c, d, call.now);
    match call.action {
      case GetKey(k) =>
        GetOk(c, d, k, call.now);
        GetRefines(c, d, m, k, call.now);
      case SetKey(k, value) =>
        SetOk(c, d, k, value, call.now);
        SetRefines(c, d, m, k, value, call.now);
        EvictsLiveExactly(c, d, k, value, call.now);
      case PopKey(k) =>
        PopRefines(c, d, m, k, call.now);
    }
  }

  lemma Dictionary<K(!new)>(c: Config, d: Dict<K>, now: real)
    requires CacheOk(c, d, now)
    ensures DictOk(d)
  {
  }

  /** Over whole runs the cache is a bounded refinement of the unbounded timed map: it holds no more than
      `maxsize` entries and no live entry the map would not hold, and as long as no live entry was evicted
      it holds them all. */
  lemma {:induction false} CacheRefinesTimedMap<K(!new)>(c: Config, calls: seq<Call<K>>, now: real)
    requires c.ttl > 0 && c.maxsize > 0 && Ordered(calls) && (calls != [] ==> calls[|calls| - 1].now <= now)
    ensures var d, m := Reached(c, calls), TimedReached(c, calls);
            && CacheOk(c, d, now) && |d.order| <= c.maxsize && Below(d, m, now)
            && (Lossless(c, calls) ==> Same(d, m, now))
  {
    if calls != [] {
      var init, call := calls[..|calls| - 1], calls[|calls| - 1];
      assert init != [] ==> init[|init| - 1].now <= call.now;
      CacheRefinesTimedMap(c, init, call.now);
      LastStep(c, calls);
      hide Reached, TimedReached, Below, Same, Stepped, TimedStepped, DictOk, Victim;
      StepRefines(c, Reached(c, init), TimedReached(c, init), call);
      Later(c, Reached(c, calls), TimedReached(c, calls), call.now, now);
    }
  }

  /** After the last of these calls the cache and the map hold the same live entries. */
  ghost predicate Agrees<K(!new)>(c: Config, calls: seq<Call<K>>)
    requires calls != []
  {
    Same(Reached(c, calls), TimedReached(c, calls), calls[|calls| - 1].now)
  }

  /** The cache agrees with the map after every call of a run exactly if the run never made it evict a
      live entry. */
  lemma {:induction false} AgreesUntilLoss<K(!new)>(c: Config, calls: seq<Call<K>>)
    requires c.ttl > 0 && c.maxsize > 0 && Ordered(calls)
    ensures Lossless(c, calls) <==> forall i :: 0 < i <= |calls| ==> Agrees(c, calls[..i])
  {
    if calls != [] {
      var init := calls[..|calls| - 1];
      AgreesUntilLoss(c, init);
      LastAgreement(c, calls);
      hide Reached, Agrees, Victim, Ordered;
      assert calls[..|calls|] == calls;
      if Lossless(c, calls) {
        forall i | 0 < i <= |calls| ensures Agrees(c, calls[..i]) {
          if i < |calls| {
            assert init[..i] == calls[..i];
          }
        }
      } else if !Lossless(c, init) {
        var i :| 0 < i <= |init| && !Agrees(c, init[..i]);
        assert init[..i] == calls[..i];
      }
    }
  }

  /** A cache without a time-to-live or without a size remembers nothing. */
  lemma {:induction false} DisabledForgets<K(!new)>(c: Config, calls: seq<Call<K>>, k: K, now: real)
    requires c.ttl <= 0 || c.maxsize <= 0
    ensures Reached(c, calls).items == map[] && Lookup(c, Reached(c, calls), k, now).value.None?
  {
    if calls != [] {
      DisabledForgets(c, calls[..|calls| - 1], k, now);
    }
  }

  lemma LastAgreement<K(!new)>(c: Config, calls: seq<Call<K>>)
    requires c.ttl > 0 && c.maxsize > 0 && Ordered(calls) && calls != []
    ensures var init, call := calls[..|calls| - 1], calls[|calls| - 1];
            Lossless(c, init) ==>
              (Agrees(c, calls) <==>
               !(call.action.SetKey? && Victim(c, Reached(c, init), call.action.key, call.now).Some?))
  {
    var init, call := calls[..|calls| - 1], calls[|calls| - 1];
    hide Reached, TimedReached, Below, Same, Stepped, TimedStepped, DictOk, Victim, CacheOk;
    CacheRefinesTimedMap(c, init, call.now);
    LastStep(c, calls);
    StepRefines(c, Reached(c, init), TimedReached(c, init), call);
  }

  lemma LastStep<K(!new)>(c: Config, calls: seq<Call<K>>)
    requires calls != []
    ensures var init, call := calls[..|calls| - 1], calls[|calls| - 1];
            && Reached(c, calls) == Stepped(c, Reached(c, init), call)
            && TimedReached(c, calls) == TimedStepped(c, TimedReached(c, init), call)
  {
    hide Stepped, TimedStepped;
  }

  /** So a `get` never returns what the map would not, and returns exactly what the map would as long as
      no live entry was evicted. */
  lemma AnswersRefine<K(!new)>(c: Config, calls: seq<Call<K>>, k: K, now: real)
    requires c.ttl > 0 && c.maxsize > 0 && Ordered(calls) && (calls != [] ==> calls[|calls| - 1].now <= now)
    ensures var answer, ideal := Lookup(c, Reached(c, calls), k, now).value, TimedGet(c, TimedReached(c, calls), k, now).1;
            && (answer.Some? ==> answer == ideal)
            && (Lossless(c, calls) ==> answer == ideal)
  {
    CacheRefinesTimedMap(c, calls, now);
    hide Reached, TimedReached, Below, Same, Lookup, TimedGet, CacheOk, Lossless;
    GetRefines(c, Reached(c, calls), TimedReached(c, calls), k, now);
  }

  // --------------------------------------------------- least recently touched

  predicate Touches<K(==, !new)>(c: Config, call: Call<K>, k: K) {
    call.action.key == k && (call.action.SetKey? || (call.action.GetKey? && c.refreshOnGet))
  }

  /** When k was last set, or, under `refresh_on_get`, last asked for. */
  function LastTouch<K(==, !new)>(c: Config, calls: seq<Call<K>>, k: K): real {
    if calls == [] then 0.0
    else if Touches(c, calls[|calls| - 1], k) then calls[|calls| - 1].now
    else LastTouch(c, calls[..|calls| - 1], k)
  }

  lemma {:induction false} ExpiryIsLastTouch<K(!new)>(c: Config, calls: seq<Call<K>>, k: K)
    requires c.ttl > 0 && c.maxsize > 0 && Ordered(calls)
    ensures k in Reached(c, calls).items ==>
              Reached(c, calls).items[k].expiry == LastTouch(c, calls, k) + c.ttl as real
  {
    if calls != [] {
      var init, call := calls[..|calls| - 1], calls[|calls| - 1];
      ExpiryIsLastTouch(c, init, k);
      CacheRefinesTimedMap(c, init, call.now);
      LastStep(c, calls);
      hide Reached, Stored, DictOk, CacheOk, Lossless, Below;
      if call.action.SetKey? {
        SetMeans(c, Reached(c, init), call.action.key, call.action.value, call.now);
      }
    }
  }

  /** A live entry that a `set` evicts expires no later than any entry that stays, and goes only if the
      cache held no expired entry. */
  lemma EarliestGoes<K(!new)>(c: Config, d: Dict<K>, k: K, value: string, now: real, x: K, y: K)
    requires CacheOk(c, d, now) && Enabled(c) && DictOk(d)
    requires x != k && y != k && Live(d.items, x, now) && x !in Stored(c, d, k, value, now).items && y in d.items
    ensures Live(d.items, y, now)
    ensures y in Stored(c, d, k, value, now).items ==> d.items[x].expiry <= d.items[y].expiry
  {
    var item := Item(value, now + c.ttl as real);
    PutOk(d, k, item);
    SetIsEvicted(c, d, k, value, now);
    var p := Put(d, k, item);
    EvictionIsOk(p, c.maxsize, now);
    hide Stored, Evicted, DictOk;
    assert p.items[x] == d.items[x] && p.items[y] == d.items[y];
  }

  /** So it was touched no later than any entry that stays. */
  lemma LeastRecentlyTouchedGoes<K(!new)>(c: Config, calls: seq<Call<K>>, k: K, value: string, now: real, x: K, y: K)
    requires c.ttl > 0 && c.maxsize > 0 && Ordered(calls) && (calls != [] ==> calls[|calls| - 1].now <= now)
    requires x != k && y != k && Live(Reached(c, calls).items, x, now)
    requires x !in Stored(c, Reached(c, calls), k, value, now).items && y in Reached(c, calls).items
    ensures Live(Reached(c, calls).items, y, now)
    ensures y in Stored(c, Reached(c, calls), k, value, now).items ==> LastTouch(c, calls, x) <= LastTouch(c, calls, y)
  {
    hide Reached, TimedReached, LastTouch, Stored, DictOk, CacheOk, Below, Same, Lossless, Ordered;
    CacheRefinesTimedMap(c, calls, now);
    ExpiryIsLastTouch(c, calls, x);
    ExpiryIsLastTouch(c, calls, y);
    EarliestGoes(c, Reached(c, calls), k, value, now, x, y);
  }

  // ------------------------------------------------------------------- class

  /** The cache as it is kept: one dictionary, changed in place. */
  class TTLCache<K(==, !new)> {
    const config: Config
    var store: Dict<K>

    constructor (ttl: int, maxsize: int, refreshOnGet: bool)
      ensures config == Config(ttl, maxsize, refreshOnGet) && store == Dict([], map[])
    {
      config := Config(ttl, maxsize, refreshOnGet);
      store := Dict([], map[]);
    }

    method Get(k: K, now: real) returns (value: Option<string>)
      modifies this
      ensures GetResult(store, value) == Lookup(config, old(store), k, now)
    {
      if config.ttl <= 0 || config.maxsize <= 0 {
        return None;
      }
      if k !in store.items {
        return None;
      }
      var item := store.items[k];
      if item.expiry <= now {
        Pop(k);
        return None;
      }
      if config.refreshOnGet {
        store := Put(store, k, Item(item.value, now + config.ttl as real));
      }
      value := Some(item.value);
    }

    method Set(k: K, value: string, now: real)
      requires DictOk(store)
      modifies this
      ensures DictOk(old(store)) && store == Stored(config, old(store), k, value, now)
    {
      if config.ttl <= 0 || config.maxsize <= 0 {
        return;
      }
      PutOk(store, k, Item(value, now + config.ttl as real));
      store := Put(store, k, Item(value, now + config.ttl as real));
      EvictIfNeeded(now);
    }

    method Pop(k: K)
      modifies this
      ensures store == Drop(old(store), k)
    {
      store := Drop(store, k);
    }

    method EvictIfNeeded(now: real)
      requires DictOk(store) && config.maxsize >= 0
      modifies this
      ensures store == Evicted(old(store), config.maxsize, now)
    {
      EvictedUnfolds(store, config.maxsize, now);
      hide Evicted, DictOk, Drop, SortedByExpiry;
      if |store.order| <= config.maxsize {
        return;
      }
      ghost var before := store;
      var expired: seq<K> := Expired(now);
      PopAll(expired);
      if |store.order| <= config.maxsize {
        return;
      }
      var overflow := |store.order| - config.maxsize;
      var byExpiry := SortedByExpiry(store.order, store.items);
      PopAll(byExpiry[..overflow]);
    }

    /** The list comprehension over the dictionary's items. */
    method Expired(now: real) returns (expired: seq<K>)
      requires DictOk(store)
      ensures expired == ExpiredKeys(store.order, store.items, now)
    {
      expired := [];
      var i := |store.order|;
      assert store.order[i..] == [];
      while i > 0
        invariant 0 <= i <= |store.order|
        invariant expired == ExpiredKeys(store.order[i..], store.items, now)
      {
        i := i - 1;
        var k := store.order[i];
        assert store.order[i..][1..] == store.order[i + 1..];
        if store.items[k].expiry <= now {
          expired := [k] + expired;
        }
      }
    }

    method PopAll(ks: seq<K>)
      modifies this
      ensures store == DropAll(old(store), ks)
    {
      hide Drop;
      var i := 0;
      while i < |ks|
        invariant 0 <= i <= |ks|
        invariant store == DropAll(old(store), ks[..i])
      {
        assert ks[..i + 1][..i] == ks[..i];
        Pop(ks[i]);
        i := i + 1;
      }
      assert ks[..|ks|] == ks;
    }
  }
}
