// The least-recently-used cache with expiry, and the query cache on top of it.
module Cache {
  import opened Common

  datatype Entry<+V> = Entry(value: V, lastAccess: int, accessCount: nat)

  /** What is in the cache is the latest that was inserted. */
  ghost predicate AgreesWith<V>(data: map<string, Entry<V>>, latest: map<string, V>, clock: int) {
    forall k :: k in data ==> k in latest && latest[k] == data[k].value && data[k].lastAccess <= clock
  }

  /** Keys pushed out and not inserted again were last used no later than any key in the cache. */
  ghost predicate OutlivesPushedOut<V>(data: map<string, Entry<V>>, pushedOut: map<string, int>, clock: int) {
    && (forall k :: k in pushedOut ==> k !in data && pushedOut[k] <= clock)
    && (forall k, r :: k in pushedOut && r in data ==> pushedOut[k] <= data[r].lastAccess)
  }

  ghost predicate IsLeastRecent<V>(data: map<string, Entry<V>>, k: string) {
    k in data && forall r :: r in data ==> data[k].lastAccess <= data[r].lastAccess
  }

  /** Instants and the time to live are in the same unit; the clock never goes back. */
  class Cache<V(==)> {
    var data: map<string, Entry<V>>
    const maxSize: nat
    const ttl: nat
    /** For each key, the latest value inserted since its last `remove` or `clear`. */
    ghost var latest: map<string, V>
    /** When each key that was pushed out for lack of room was last used. */
    ghost var pushedOut: map<string, int>
    ghost var clock: int

    ghost predicate Valid()
      reads this
    {
      AgreesWith(data, latest, clock) && OutlivesPushedOut(data, pushedOut, clock) && |data| <= Max(maxSize, 1)
    }

    constructor (maxSize: nat, ttl: nat, ghost now: int)
      ensures Valid() && data == map[] && latest == map[] && pushedOut == map[] && clock == now
      ensures this.maxSize == maxSize && this.ttl == ttl
    {
      this.maxSize, this.ttl := maxSize, ttl;
      data, latest, pushedOut, clock := map[], map[], map[], now;
    }

    /** An entry that can still be read. */
    predicate IsFresh(key: string, now: int)
      reads this
    {
      key in data && now - data[key].lastAccess <= ttl
    }

    /** Counts a use of an entry and makes it the most recent one. */
    method Renew(key: string, now: int)
      requires Valid() && clock <= now && key in data
      modifies this`data, this`clock
      ensures Valid() && clock == now
      ensures data == old(data)[key := Entry(old(data)[key].value, now, old(data)[key].accessCount + 1)]
    {
      var entry := data[key];
      var renewed := Entry(entry.value, now, entry.accessCount + 1);
      UpdateKeepsSize(data, key, renewed);
      RenewalKeeps(data, latest, pushedOut, now, key, renewed);
      data := data[key := renewed];
      clock := now;
    }

    method Expire(key: string, now: int)
      requires Valid() && clock <= now && key in data
      modifies this`data, this`clock
      ensures Valid() && clock == now && data == old(data) - {key}
    {
      RemovalShrinks(data, key);
      data := data - {key};
      clock := now;
    }

    /**
     * The latest value inserted under the key, exactly when its entry is there
     * and has been used within the time to live; using it renews it.
     */
    method Get(key: string, now: int) returns (value: Option<V>)
      requires Valid() && clock <= now
      modifies this`data, this`clock
      ensures Valid() && clock == now
      ensures value.Some? <==> key in old(data) && now - old(data)[key].lastAccess <= ttl
      ensures old(IsFresh(key, now)) ==> key in latest && value == Some(latest[key])
      ensures old(IsFresh(key, now)) ==>
        data == old(data)[key := Entry(old(data)[key].value, now, old(data)[key].accessCount + 1)]
      ensures !old(IsFresh(key, now)) ==> value == None && data == old(data) - {key}
    {
      if key !in data {
        assert data - {key} == data;
        clock := now;
        return None;
      }
      if now - data[key].lastAccess > ttl {
        Expire(key, now);
        return None;
      }
      Renew(key, now);
      return Some(data[key].value);
    }

    /** Removes an entry that was not used later than any other one. */
    method EvictLru()
      requires Valid()
      modifies this`data, this`pushedOut
      ensures Valid()
      ensures old(data) == map[] ==> data == map[] && pushedOut == old(pushedOut)
      ensures old(data) != map[] ==> |data| == |old(data)| - 1
      ensures old(data) != map[] ==> exists k ::
        && IsLeastRecent(old(data), k) && data == old(data) - {k}
        && pushedOut == old(pushedOut)[k := old(data)[k].lastAccess]
    {
      if data == map[] {
        return;
      }
      var oldest := OldestKey();
      RemovalShrinks(data, oldest);
      pushedOut := pushedOut[oldest := data[oldest].lastAccess];
      data := data - {oldest};
    }

    /** Walks over the entries in any order. */
    method OldestKey() returns (oldest: string)
      requires data != map[]
      ensures IsLeastRecent(data, oldest)
    {
      var left := data.Keys;
      SomeKey(data);
      oldest :| oldest in left;
      left := left - {oldest};
      while left != {}
        invariant left <= data.Keys && oldest in data
        invariant forall r :: r in data && r !in left ==> data[oldest].lastAccess <= data[r].lastAccess
        decreases |left|
      {
        var key :| key in left;
        left := left - {key};
        if data[key].lastAccess < data[oldest].lastAccess { oldest := key; }
      }
    }

    /** A full cache pushes out one least recently used entry, even when the key itself is there. */
    method Insert(key: string, value: V, now: int)
      requires Valid() && clock <= now
      modifies this
      ensures Valid() && clock == now
      ensures latest == old(latest)[key := value]
      ensures key in data && data[key] == Entry(value, now, 1)
      ensures |old(data)| < maxSize ==> data == old(data)[key := Entry(value, now, 1)]
      ensures |old(data)| < maxSize ==> pushedOut == old(pushedOut) - {key}
      ensures |old(data)| >= maxSize && old(data) != map[] ==> exists k ::
        && IsLeastRecent(old(data), k) && data == (old(data) - {k})[key := Entry(value, now, 1)]
        && pushedOut == old(pushedOut)[k := old(data)[k].lastAccess] - {key}
    {
      if |data| >= maxSize {
        EvictLru();
      }
      Store(key, value, now);
    }

    /** Stores a value where there is room. */
    method Store(key: string, value: V, now: int)
      requires Valid() && clock <= now && |data| < Max(maxSize, 1)
      modifies this
      ensures Valid() && clock == now
      ensures latest == old(latest)[key := value] && data == old(data)[key := Entry(value, now, 1)]
      ensures pushedOut == old(pushedOut) - {key}
    {
      clock := now;
      latest := latest[key := value];
      pushedOut := pushedOut - {key};
      InsertionGrows(data, key, Entry(value, now, 1));
      data := data[key := Entry(value, now, 1)];
    }

    method Remove(key: string)
      requires Valid()
      modifies this`data, this`latest
      ensures Valid() && data == old(data) - {key} && latest == old(latest) - {key}
    {
      RemovalShrinks(data, key);
      data := data - {key};
      latest := latest - {key};
    }

    method Clear()
      requires Valid()
      modifies this`data, this`latest
      ensures Valid() && data == map[] && latest == map[]
    {
      data, latest := map[], map[];
    }
  }

  lemma {:induction false} RenewalKeeps<V>(
      data: map<string, Entry<V>>, latest: map<string, V>, pushedOut: map<string, int>, now: int, key: string,
      renewed: Entry<V>)
    requires AgreesWith(data, latest, now) && OutlivesPushedOut(data, pushedOut, now)
    requires key in data && renewed.value == data[key].value && renewed.lastAccess == now
    ensures AgreesWith(data[key := renewed], latest, now) && OutlivesPushedOut(data[key := renewed], pushedOut, now)
  {
  }

  lemma {:induction false} SomeKey<V>(m: map<string, V>)
    requires m != map[]
    ensures m.Keys != {}
  {
    assert m.Keys == {} ==> m == map[];
  }

  lemma {:induction false} RemovalShrinks<V>(m: map<string, V>, key: string)
    ensures |m - {key}| == if key in m then |m| - 1 else |m|
  {
    assert (m - {key}).Keys == m.Keys - {key};
  }

  lemma {:induction false} UpdateKeepsSize<V>(m: map<string, V>, key: string, v: V)
    requires key in m
    ensures |m[key := v]| == |m|
  {
    assert m[key := v].Keys == m.Keys;
  }

  lemma {:induction false} InsertionGrows<V>(m: map<string, V>, key: string, v: V)
    ensures |m[key := v]| <= |m| + 1
  {
    assert m[key := v].Keys == m.Keys + {key};
  }

  // ---- Query keys -------------------------------------------------------

  /** Splits a query into words, in lower case. */
  type Words = string -> seq<string>

  function Normalized(words: Words, query: string): string { Join(words(query), " ") }

  function KeyOf(table: string, normalized: string): string { table + ":" + normalized }

  function CacheKey(words: Words, query: string, table: string): string { KeyOf(table, Normalized(words, query)) }

  /** One of the two splits of a shared key lies further right. */
  lemma {:induction false} KeysOverlap(t1: string, n1: string, t2: string, n2: string)
    requires KeyOf(t1, n1) == KeyOf(t2, n2) && |t1| < |t2|
    ensures t2 == t1 + ":" + t2[|t1| + 1..] && n1 == t2[|t1| + 1..] + ":" + n2
  {
    var key, x := KeyOf(t1, n1), t2[|t1| + 1..];
    assert key[..|t1|] == t1 && key[..|t2|] == t2;
    assert t2[..|t1|] == t1 && t2[|t1|] == key[|t1|] == ':';
    assert key[|t1| + 1..] == n1;
    assert key[|t2|] == ':' && key[|t2| + 1..] == n2;
    assert key[|t1| + 1..] == key[|t1| + 1..|t2|] + key[|t2|..];
    assert key[|t2|..] == ":" + n2;
    assert key[|t1| + 1..|t2|] == x;
  }

  /**
   * Two queries share a key exactly when table and normalised text agree, or
   * when one table continues the other behind a colon.
   */
  lemma {:induction false} KeysAgreeIff(t1: string, n1: string, t2: string, n2: string)
    ensures KeyOf(t1, n1) == KeyOf(t2, n2)
      <==> (t1 == t2 && n1 == n2) || Continues(t1, n1, t2, n2) || Continues(t2, n2, t1, n1)
  {
    if KeyOf(t1, n1) == KeyOf(t2, n2) {
      if |t1| < |t2| {
        KeysOverlap(t1, n1, t2, n2);
      } else if |t2| < |t1| {
        KeysOverlap(t2, n2, t1, n1);
      } else {
        assert KeyOf(t1, n1)[..|t1|] == t1 && KeyOf(t2, n2)[..|t2|] == t2;
        assert KeyOf(t1, n1)[|t1| + 1..] == n1 && KeyOf(t2, n2)[|t2| + 1..] == n2;
      }
    }
    if Continues(t1, n1, t2, n2) { ContinuedKeysAgree(t1, n1, t2, n2); }
    if Continues(t2, n2, t1, n1) { ContinuedKeysAgree(t2, n2, t1, n1); }
  }

  /** `t2` is `t1`, a colon and some text, and that text opens `n1`. */
  ghost predicate Continues(t1: string, n1: string, t2: string, n2: string) {
    |t1| < |t2| && t2 == t1 + ":" + t2[|t1| + 1..] && n1 == t2[|t1| + 1..] + ":" + n2
  }

  lemma {:induction false} ContinuedKeysAgree(t1: string, n1: string, t2: string, n2: string)
    requires Continues(t1, n1, t2, n2)
    ensures KeyOf(t1, n1) == KeyOf(t2, n2)
  {
    var x := t2[|t1| + 1..];
    assert t1 + ":" + (x + ":" + n2) == (t1 + ":" + x) + ":" + n2;
  }

  ghost predicate IsWord(w: string) { w != "" && ' ' !in w }

  ghost predicate AreWords(words: seq<string>) { forall i :: 0 <= i < |words| ==> IsWord(words[i]) }

  lemma {:induction false} FirstWord(a: string, restA: string, b: string, restB: string)
    requires ' ' !in a && ' ' !in b && a + " " + restA == b + " " + restB
    ensures a == b && restA == restB
  {
    var text := a + " " + restA;
    BlankBehind(a, restA);
    BlankBehind(b, restB);
    assert |a| <= |b| && |b| <= |a|;
    assert text[..|a|] == a && (b + " " + restB)[..|b|] == b;
    assert text[|a| + 1..] == restA && (b + " " + restB)[|b| + 1..] == restB;
  }

  lemma {:induction false} BlankBehind(a: string, rest: string)
    requires ' ' !in a
    ensures var text := a + " " + rest;
      text[|a|] == ' ' && forall i :: 0 <= i < |a| ==> text[i] != ' '
  {
    forall i | 0 <= i < |a| ensures (a + " " + rest)[i] != ' ' { assert a[i] in a; }
  }

  lemma {:induction false} BlankInJoin(words: seq<string>)
    requires AreWords(words) && |words| > 1
    ensures ' ' in Join(words, " ")
  {
    assert Join(words, " ")[|words[0]|] == ' ';
  }

  /** Words can be read back from the text they are joined to. */
  lemma {:induction false} JoinIsInjective(a: seq<string>, b: seq<string>)
    requires AreWords(a) && AreWords(b) && Join(a, " ") == Join(b, " ")
    ensures a == b
    decreases |a|
  {
    if |a| <= 1 || |b| <= 1 {
      if |a| > 1 { BlankInJoin(a); }
      if |b| > 1 { BlankInJoin(b); }
    } else {
      assert IsWord(a[0]) && IsWord(b[0]);
      FirstWord(a[0], Join(a[1..], " "), b[0], Join(b[1..], " "));
      JoinIsInjective(a[1..], b[1..]);
      assert a == [a[0]] + a[1..] && b == [b[0]] + b[1..];
    }
  }

  /** For table ids without a colon, queries share an entry exactly when the table and the words agree. */
  lemma {:induction false} TablesDoNotMix(words: Words, q1: string, t1: string, q2: string, t2: string)
    requires ':' !in t1 && ':' !in t2 && AreWords(words(q1)) && AreWords(words(q2))
    ensures CacheKey(words, q1, t1) == CacheKey(words, q2, t2) <==> t1 == t2 && words(q1) == words(q2)
  {
    KeysAgreeIff(t1, Normalized(words, q1), t2, Normalized(words, q2));
    if Normalized(words, q1) == Normalized(words, q2) { JoinIsInjective(words(q1), words(q2)); }
    assert forall i :: 0 <= i < |t1| ==> t1[i] in t1;
    assert forall i :: 0 <= i < |t2| ==> t2[i] in t2;
  }

  /** With a colon in a table id, queries on different tables can share an entry. */
  lemma {:induction false} TablesMayMix()
    ensures KeyOf("a:b", "c") == KeyOf("a", "b:c")
  {
  }

  // ---- The query cache --------------------------------------------------

  class QueryCache<V(==)> {
    const cache: Cache<V>
    const words: Words
    var hits: nat
    var misses: nat
    /** Lookups since the counters were last reset. */
    ghost var lookups: nat

    ghost predicate Valid()
      reads this, cache
    {
      cache.Valid() && hits + misses == lookups
    }

    constructor (maxQueries: nat, ttl: nat, words: Words, ghost now: int)
      ensures Valid() && fresh(cache) && cache.latest == map[] && cache.data == map[] && cache.clock == now
      ensures this.words == words && hits == 0 && misses == 0
    {
      cache := new Cache(maxQueries, ttl, now);
      this.words, hits, misses, lookups := words, 0, 0, 0;
    }

    /** Counts a hit when an answer comes back, and a miss otherwise. */
    method Get(query: string, table: string, now: int) returns (value: Option<V>)
      requires Valid() && cache.clock <= now
      modifies this, cache
      ensures Valid() && lookups == old(lookups) + 1 && cache.latest == old(cache.latest)
      ensures hits == old(hits) + (if value.Some? then 1 else 0)
      ensures var key := CacheKey(words, query, table);
        value == if old(cache.IsFresh(key, now)) then Some(cache.latest[key]) else None
    {
      value := cache.Get(CacheKey(words, query, table), now);
      if value.Some? { hits := hits + 1; } else { misses := misses + 1; }
      lookups := lookups + 1;
    }

    method Insert(query: string, table: string, value: V, now: int)
      requires Valid() && cache.clock <= now
      modifies cache
      ensures Valid() && cache.latest == old(cache.latest)[CacheKey(words, query, table) := value]
      ensures cache.IsFresh(CacheKey(words, query, table), now) && cache.clock == now
    {
      cache.Insert(CacheKey(words, query, table), value, now);
    }

    /** Drops the answers for every table; the counters stay. */
    method InvalidateTable(table: string)
      requires Valid()
      modifies cache
      ensures Valid() && cache.data == map[] && cache.latest == map[]
    {
      cache.Clear();
    }

    method Clear()
      requires Valid()
      modifies this, cache
      ensures Valid() && cache.data == map[] && cache.latest == map[] && hits == 0 && misses == 0 && lookups == 0
    {
      cache.Clear();
      hits, misses, lookups := 0, 0, 0;
    }
  }
}
