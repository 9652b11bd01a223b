/**
  `DevCache` of src/cache.py: a directory of JSON records, one per key, with
  time-to-live expiry. The directory is a map from key to record, the clock is
  the `now` parameter of every operation that reads it, and SHA-256 over the
  JSON text of the sorted parameters is the `hash` function the cache is built
  with, of which nothing is assumed.
 */
module DevCache {
  import opened Text

  // ---------------------------------------------------------------------------
  // The cache key: a hash of the parameters in sorted order
  // ---------------------------------------------------------------------------

  /** One keyword argument of `get` or `set`. */
  datatype Param = Param(name: string, value: string)

  /** Python's `a <= b` on strings: lexicographic by code point, a proper prefix first. */
  predicate StrLe(a: string, b: string)
    decreases |a|
  {
    a == [] || (b != [] && (a[0] < b[0] || (a[0] == b[0] && StrLe(a[1..], b[1..]))))
  }

  lemma {:induction false} StrLeTotal(a: string, b: string)
    ensures StrLe(a, b) || StrLe(b, a)
    decreases |a|
  {
    if a != [] && b != [] && a[0] == b[0] {
      StrLeTotal(a[1..], b[1..]);
    }
  }

  lemma {:induction false} StrLeAntisymmetric(a: string, b: string)
    requires StrLe(a, b) && StrLe(b, a)
    ensures a == b
    decreases |a|
  {
    if a != [] {
      StrLeAntisymmetric(a[1..], b[1..]);
      assert a == [a[0]] + a[1..] && b == [b[0]] + b[1..];
    }
  }

  lemma {:induction false} StrLeTransitive(a: string, b: string, c: string)
    requires StrLe(a, b) && StrLe(b, c)
    ensures StrLe(a, c)
    decreases |a|
  {
    if a != [] && a[0] == b[0] && b[0] == c[0] {
      StrLeTransitive(a[1..], b[1..], c[1..]);
    }
  }

  /** Python's `<=` on `(name, value)` tuples: by name, then by value. */
  predicate ParamLe(p: Param, q: Param) {
    StrLe(p.name, q.name) && (p.name == q.name ==> StrLe(p.value, q.value))
  }

  lemma ParamLeTotal(p: Param, q: Param)
    ensures ParamLe(p, q) || ParamLe(q, p)
  {
    StrLeTotal(p.name, q.name);
    StrLeTotal(p.value, q.value);
  }

  lemma ParamLeAntisymmetric(p: Param, q: Param)
    requires ParamLe(p, q) && ParamLe(q, p)
    ensures p == q
  {
    StrLeAntisymmetric(p.name, q.name);
    StrLeAntisymmetric(p.value, q.value);
  }

  lemma ParamLeTransitive(p: Param, q: Param, r: Param)
    requires ParamLe(p, q) && ParamLe(q, r)
    ensures ParamLe(p, r)
  {
    StrLeTransitive(p.name, q.name, r.name);
    if p.name == r.name {
      StrLeAntisymmetric(p.name, q.name);
      StrLeTransitive(p.value, q.value, r.value);
    }
  }

  predicate Sorted(s: seq<Param>) {
    forall i, j :: 0 <= i < j < |s| ==> ParamLe(s[i], s[j])
  }

  function Insert(x: Param, s: seq<Param>): (r: seq<Param>)
    ensures multiset(r) == multiset(s) + multiset{x}
  {
    if s == [] then [x]
    else if ParamLe(x, s[0]) then [x] + s
    else
      assert s == [s[0]] + s[1..];
      [s[0]] + Insert(x, s[1..])
  }

  /** `sorted(kwargs.items())`. */
  function SortParams(s: seq<Param>): (r: seq<Param>)
    ensures multiset(r) == multiset(s)
  {
    if s == [] then []
    else
      assert s == [s[0]] + s[1..];
      Insert(s[0], SortParams(s[1..]))
  }

  /** A sorted sequence stays sorted under a new head that is below all of it. */
  lemma SortedCons(x: Param, s: seq<Param>)
    requires Sorted(s)
    requires forall j :: 0 <= j < |s| ==> ParamLe(x, s[j])
    ensures Sorted([x] + s)
  {
    var r := [x] + s;
    forall i, j | 0 <= i < j < |r| ensures ParamLe(r[i], r[j]) {
      assert r[j] == s[j - 1];
      if i > 0 {
        assert r[i] == s[i - 1];
      }
    }
  }

  lemma {:induction false} InsertSorted(x: Param, s: seq<Param>)
    requires Sorted(s)
    ensures Sorted(Insert(x, s))
  {
    if s == [] {
    } else if ParamLe(x, s[0]) {
      forall j | 0 <= j < |s| ensures ParamLe(x, s[j]) {
        if j > 0 {
          ParamLeTransitive(x, s[0], s[j]);
        }
      }
      SortedCons(x, s);
    } else {
      ParamLeTotal(x, s[0]);
      var t := Insert(x, s[1..]);
      InsertSorted(x, s[1..]);
      forall j | 0 <= j < |t| ensures ParamLe(s[0], t[j]) {
        InsertedFrom(x, s[1..], t[j]);
        if t[j] != x {
          var k :| 0 <= k < |s[1..]| && s[1..][k] == t[j];
          assert s[k + 1] == t[j];
        }
      }
      SortedCons(s[0], t);
    }
  }

  /** Every element of `Insert(x, s)` is `x` or an element of `s`. */
  lemma InsertedFrom(x: Param, s: seq<Param>, y: Param)
    requires y in Insert(x, s)
    ensures y == x || y in s
  {
    assert y in multiset(Insert(x, s));
  }

  lemma {:induction false} SortParamsSorted(s: seq<Param>)
    ensures Sorted(SortParams(s))
  {
    if s != [] {
      SortParamsSorted(s[1..]);
      InsertSorted(s[0], SortParams(s[1..]));
    }
  }

  /** The head of a sorted sequence is below every element of it. */
  lemma HeadIsLeast(s: seq<Param>, y: Param)
    requires Sorted(s) && y in s
    ensures ParamLe(s[0], y)
  {
    var j :| 0 <= j < |s| && s[j] == y;
    if j == 0 {
      StrLeTotal(y.name, y.name);
      StrLeTotal(y.value, y.value);
    }
  }

  lemma SortedTail(s: seq<Param>)
    requires Sorted(s) && s != []
    ensures Sorted(s[1..])
  {
    forall i, j | 0 <= i < j < |s| - 1 ensures ParamLe(s[1..][i], s[1..][j]) {
      assert s[1..][i] == s[i + 1] && s[1..][j] == s[j + 1];
    }
  }

  /** Two sorted sequences with the same elements are the same sequence. */
  lemma {:induction false} SortedUnique(a: seq<Param>, b: seq<Param>)
    requires Sorted(a) && Sorted(b)
    requires multiset(a) == multiset(b)
    ensures a == b
  {
    if a == [] {
      assert |b| == |multiset(b)| == 0;
    } else {
      assert |b| == |multiset(b)| == |multiset(a)| == |a|;
      assert a[0] in multiset(b) && b[0] in multiset(a);
      HeadIsLeast(b, a[0]);
      HeadIsLeast(a, b[0]);
      ParamLeAntisymmetric(a[0], b[0]);
      assert a == [a[0]] + a[1..] && b == [b[0]] + b[1..];
      assert multiset(a[1..]) == multiset(a) - multiset{a[0]};
      assert multiset(b[1..]) == multiset(b) - multiset{b[0]};
      SortedTail(a);
      SortedTail(b);
      SortedUnique(a[1..], b[1..]);
    }
  }

  /**
    `_generate_key`: `sha256(json.dumps(sorted(kwargs.items())))`, the hash and
    the JSON encoding being the one function `hash`.
   */
  function Key(hash: seq<Param> -> string, params: seq<Param>): string {
    hash(SortParams(params))
  }

  /** The keyword order of a call does not change the key: any permutation addresses the same record. */
  lemma KeyOrderIndependent(hash: seq<Param> -> string, p: seq<Param>, q: seq<Param>)
    requires multiset(p) == multiset(q)
    ensures Key(hash, p) == Key(hash, q)
  {
    SortParamsSorted(p);
    SortParamsSorted(q);
    SortedUnique(SortParams(p), SortParams(q));
  }

  // ---------------------------------------------------------------------------
  // Records and expiry
  // ---------------------------------------------------------------------------

  /**
    The content of one `<key>.json` file. `Unreadable` is a file whose reading,
    JSON parsing or timestamp comparison raises; a readable file lacking its
    timestamp counts as stamped 0 and one lacking its value yields `None`.
   */
  datatype Record =
    | Record(value: Option<string>, timestamp: Option<int>, ttl: int, metadata: seq<Param>)
    | Unreadable

  /** `data.get('timestamp', 0)` */
  function StampOf(r: Record): int
    requires r.Record?
  {
    if r.timestamp.Some? then r.timestamp.value else 0
  }

  /** `is_expired`: the age is compared with the cache's `ttl`, strictly. */
  predicate IsExpired(ttl: int, timestamp: int, now: int) {
    now - timestamp > ttl
  }

  /** An age of exactly `ttl` is still fresh; one second more is expired. */
  lemma ExpiryIsStrict(ttl: int, timestamp: int)
    ensures !IsExpired(ttl, timestamp, timestamp + ttl)
    ensures IsExpired(ttl, timestamp, timestamp + ttl + 1)
  {
  }

  /** The readable records that `is_expired` would reject at `now`. */
  predicate ExpiredAt(store: map<string, Record>, ttl: int, now: int, k: string) {
    k in store && store[k].Record? && IsExpired(ttl, StampOf(store[k]), now)
  }

  function ExpiredKeys(store: map<string, Record>, ttl: int, now: int): (r: set<string>)
    ensures r <= store.Keys
  {
    set k | k in store && ExpiredAt(store, ttl, now, k)
  }

  function FreshKeys(store: map<string, Record>, ttl: int, now: int): (r: set<string>)
    ensures r <= store.Keys
  {
    set k | k in store && store[k].Record? && !ExpiredAt(store, ttl, now, k)
  }

  function UnreadableKeys(store: map<string, Record>): (r: set<string>)
    ensures r <= store.Keys
  {
    set k | k in store && store[k].Unreadable?
  }

  /** Every record is exactly one of fresh, expired and unreadable. */
  lemma KeysPartition(store: map<string, Record>, ttl: int, now: int)
    ensures |store| == |FreshKeys(store, ttl, now)| + |ExpiredKeys(store, ttl, now)| + |UnreadableKeys(store)|
  {
    var f, e, u := FreshKeys(store, ttl, now), ExpiredKeys(store, ttl, now), UnreadableKeys(store);
    assert store.Keys == f + e + u;
    assert f * e == {} && (f + e) * u == {};
    assert |store.Keys| == |store|;
  }

  // ---------------------------------------------------------------------------
  // get and set as functions of the directory, for an enabled cache
  // ---------------------------------------------------------------------------

  /** The value `get` returns for key `k` at `now`. */
  function Lookup(store: map<string, Record>, ttl: int, k: string, now: int): Option<string> {
    if k !in store || store[k].Unreadable? || ExpiredAt(store, ttl, now, k) then None
    else store[k].value
  }

  /** The directory after `get` of key `k` at `now`: only an expired record is unlinked. */
  function AfterLookup(store: map<string, Record>, ttl: int, k: string, now: int): map<string, Record> {
    if ExpiredAt(store, ttl, now, k) then store - {k} else store
  }

  /** The directory after `set`: the record for `k` is (over)written, stamped `now`. */
  function Stored(store: map<string, Record>, ttl: int, k: string, value: string, params: seq<Param>, now: int)
    : map<string, Record>
  {
    store[k := Record(Some(value), Some(now), ttl, params)]
  }

  /**
    A value set with some parameters is returned by a `get` with the same
    parameters in any order, up to and including `ttl` seconds later, and no
    file is deleted.
   */
  lemma SetThenGet(
    hash: seq<Param> -> string, store: map<string, Record>, ttl: int,
    value: string, p: seq<Param>, q: seq<Param>, setAt: int, now: int)
    requires multiset(p) == multiset(q)
    requires now - setAt <= ttl
    ensures var s := Stored(store, ttl, Key(hash, p), value, p, setAt);
      Lookup(s, ttl, Key(hash, q), now) == Some(value) && AfterLookup(s, ttl, Key(hash, q), now) == s
  {
    KeyOrderIndependent(hash, p, q);
  }

  /** Past `ttl` the same `get` misses and deletes that record, and only it. */
  lemma SetThenGetExpired(
    hash: seq<Param> -> string, store: map<string, Record>, ttl: int,
    value: string, p: seq<Param>, setAt: int, now: int)
    requires now - setAt > ttl
    ensures var k := Key(hash, p);
      var s := Stored(store, ttl, k, value, p, setAt);
      Lookup(s, ttl, k, now) == None && AfterLookup(s, ttl, k, now) == store - {k}
  {
  }

  /** The `ttl` stored inside a record plays no part in any answer. */
  lemma StoredTtlIgnored(store: map<string, Record>, ttl: int, k: string, t1: int, t2: int, now: int)
    requires k in store && store[k].Record?
    ensures var s1 := store[k := store[k].(ttl := t1)];
      var s2 := store[k := store[k].(ttl := t2)];
      Lookup(s1, ttl, k, now) == Lookup(s2, ttl, k, now)
      && (k in AfterLookup(s1, ttl, k, now) <==> k in AfterLookup(s2, ttl, k, now))
  {
  }

  /** Clearing the expired records changes no answer `get` would give at the same time. */
  lemma ClearExpiredPreservesLookups(store: map<string, Record>, ttl: int, now: int, k: string)
    ensures Lookup(store - ExpiredKeys(store, ttl, now), ttl, k, now) == Lookup(store, ttl, k, now)
  {
    var s := store - ExpiredKeys(store, ttl, now);
    if k in s {
      assert s[k] == store[k];
    }
  }

  /** After clearing, no expired record is left and every unreadable one still is. */
  lemma ClearExpiredLeavesNoExpired(store: map<string, Record>, ttl: int, now: int)
    ensures ExpiredKeys(store - ExpiredKeys(store, ttl, now), ttl, now) == {}
    ensures UnreadableKeys(store - ExpiredKeys(store, ttl, now)) == UnreadableKeys(store)
  {
    var s := store - ExpiredKeys(store, ttl, now);
    forall k | k in s ensures s[k] == store[k] && !ExpiredAt(s, ttl, now, k) {
    }
  }

  // ---------------------------------------------------------------------------
  // The cache object
  // ---------------------------------------------------------------------------

  /** The dictionary `stats` returns, less its byte and megabyte sizes. */
  datatype CacheStats = CacheStats(enabled: bool, totalFiles: nat, validFiles: nat, expiredFiles: nat)

  class Cache {
    /** `Config.DEV_CACHE_ENABLED`, read once at construction. */
    const enabled: bool
    /** The `ttl` argument, or `Config.DEV_CACHE_TTL` when it is `None`. */
    const ttl: int
    /** SHA-256 of the JSON text of the sorted parameters. */
    const hash: seq<Param> -> string
    /** The `*.json` files of the cache directory, by key. */
    var store: map<string, Record>

    /** `existing` is what the directory already holds from earlier runs. */
    constructor (enabled: bool, ttl: int, hash: seq<Param> -> string, existing: map<string, Record>)
      ensures this.enabled == enabled && this.ttl == ttl && this.hash == hash
      ensures store == existing
    {
      this.enabled := enabled;
      this.ttl := ttl;
      this.hash := hash;
      store := existing;
    }

    /** `get(**params)` at time `now`. */
    method Get(params: seq<Param>, now: int) returns (r: Option<string>)
      modifies this
      ensures !enabled ==> r == None && store == old(store)
      ensures enabled ==> r == Lookup(old(store), ttl, Key(hash, params), now)
      ensures enabled ==> store == AfterLookup(old(store), ttl, Key(hash, params), now)
    {
      if !enabled {
        return None;
      }
      var k := Key(hash, params);
      if k !in store {
        return None;
      }
      match store[k]
      case Unreadable =>
        r := None;
      case Record(value, timestamp, _, _) =>
        var stamp := if timestamp.Some? then timestamp.value else 0;
        if IsExpired(ttl, stamp, now) {
          store := store - {k};
          r := None;
        } else {
          r := value;
        }
    }

    /** `set(value, **params)` at time `now`. */
    method Set(value: string, params: seq<Param>, now: int)
      modifies this
      ensures !enabled ==> store == old(store)
      ensures enabled ==> store == Stored(old(store), ttl, Key(hash, params), value, params, now)
    {
      if enabled {
        var k := Key(hash, params);
        store := store[k := Record(Some(value), Some(now), ttl, params)];
      }
    }

    /** `clear_expired()` at time `now`: unlinks the expired readable files and counts them. */
    method ClearExpired(now: int) returns (removed: nat)
      modifies this
      ensures !enabled ==> removed == 0 && store == old(store)
      ensures enabled ==> store == old(store) - ExpiredKeys(old(store), ttl, now)
      ensures enabled ==> removed == |ExpiredKeys(old(store), ttl, now)|
    {
      removed := 0;
      if !enabled {
        return;
      }
      ghost var s0 := store;
      ghost var gone: set<string> := {};
      var pending := store.Keys;
      while pending != {}
        invariant pending <= s0.Keys
        invariant gone <= ExpiredKeys(s0, ttl, now)
        invariant forall k :: k in ExpiredKeys(s0, ttl, now) ==> (k in gone <==> k !in pending)
        invariant store == s0 - gone
        invariant removed == |gone|
        decreases pending
      {
        var k :| k in pending;
        assert k in store && store[k] == s0[k];
        match store[k] {
          case Unreadable =>
          case Record(_, timestamp, _, _) =>
            var stamp := if timestamp.Some? then timestamp.value else 0;
            if IsExpired(ttl, stamp, now) {
              assert ExpiredAt(s0, ttl, now, k);
              store := store - {k};
              gone := gone + {k};
              removed := removed + 1;
            }
        }
        pending := pending - {k};
      }
      assert gone == ExpiredKeys(s0, ttl, now);
    }

    /** `clear_all()`: unlinks every file and counts them. */
    method ClearAll() returns (removed: nat)
      modifies this
      ensures !enabled ==> removed == 0 && store == old(store)
      ensures enabled ==> store == map[] && removed == |old(store)|
    {
      removed := 0;
      if !enabled {
        return;
      }
      var pending := store.Keys;
      assert |pending| == |store|;
      while pending != {}
        invariant store.Keys == pending
        invariant removed + |pending| == |old(store)|
        decreases pending
      {
        var k :| k in pending;
        store := store - {k};
        pending := pending - {k};
        removed := removed + 1;
      }
      assert store == map[];
    }

    /** `stats()` at time `now`, a read-only scan of the directory. */
    method Stats(now: int) returns (st: CacheStats)
      ensures !enabled ==> st == CacheStats(false, 0, 0, 0)
      ensures enabled ==> st.enabled && st.totalFiles == |store|
      ensures enabled ==> st.validFiles == |FreshKeys(store, ttl, now)|
      ensures enabled ==> st.expiredFiles == |ExpiredKeys(store, ttl, now)|
    {
      if !enabled {
        return CacheStats(false, 0, 0, 0);
      }
      var total, valid, expired := 0, 0, 0;
      ghost var seen: set<string> := {};
      ghost var freshSeen: set<string> := {};
      ghost var staleSeen: set<string> := {};
      var pending := store.Keys;
      while pending != {}
        invariant seen + pending == store.Keys && seen !! pending
        invariant total == |seen| && valid == |freshSeen| && expired == |staleSeen|
        invariant forall k :: k in freshSeen <==> k in seen && k in FreshKeys(store, ttl, now)
        invariant forall k :: k in staleSeen <==> k in seen && k in ExpiredKeys(store, ttl, now)
        decreases pending
      {
        var k :| k in pending;
        ghost var r := store[k];
        assert k in FreshKeys(store, ttl, now) <==> r.Record? && !IsExpired(ttl, StampOf(r), now);
        assert k in ExpiredKeys(store, ttl, now) <==> r.Record? && IsExpired(ttl, StampOf(r), now);
        match store[k] {
          case Unreadable =>
          case Record(_, timestamp, _, _) =>
            var stamp := if timestamp.Some? then timestamp.value else 0;
            if IsExpired(ttl, stamp, now) {
              expired := expired + 1;
              staleSeen := staleSeen + {k};
            } else {
              valid := valid + 1;
              freshSeen := freshSeen + {k};
            }
        }
        total := total + 1;
        seen := seen + {k};
        pending := pending - {k};
      }
      assert freshSeen == FreshKeys(store, ttl, now);
      assert staleSeen == ExpiredKeys(store, ttl, now);
      return CacheStats(true, total, valid, expired);
    }
  }

  /** The counts `stats` reports add up: every file is valid, expired or unreadable. */
  lemma StatsAddUp(store: map<string, Record>, ttl: int, now: int, st: CacheStats)
    requires st.enabled && st.totalFiles == |store|
    requires st.validFiles == |FreshKeys(store, ttl, now)|
    requires st.expiredFiles == |ExpiredKeys(store, ttl, now)|
    ensures st.totalFiles == st.validFiles + st.expiredFiles + |UnreadableKeys(store)|
  {
    KeysPartition(store, ttl, now);
  }
}
