/**
 The shared cache the views memoise into: `safe_key` (views.py lines 27-28),
 `cached_qs` (lines 30-35) and the `cache.get` / `cache.set` / `cache.clear`
 operations of the backend, over a dictionary from key to stored value.
 */
module CacheStore {
  import opened Wrappers
  import opened Aggregation

  /**
   `"_".join(args)`: starts with the first argument, followed by an underscore
   when more arguments come.
   */
  function Join(args: seq<string>): (s: string)
    ensures s == "" <==> args == [] || args == [""]
    ensures args != [] ==> |s| >= |args[0]| && s[..|args[0]|] == args[0]
    ensures |args| > 1 ==> |s| > |args[0]| && s[|args[0]|] == '_'
  {
    if args == [] then ""
    else if |args| == 1 then args[0]
    else
      var s := args[0] + "_" + Join(args[1..]);
      assert s[..|args[0]|] == args[0];
      s
  }

  /**
   `safe_key(prefix, *args)`: the prefix, an underscore, and the digest of the
   underscore-joined arguments. The digest (an MD5 hex string in the source) is
   a parameter: any deterministic function of the joined text.
   */
  function SafeKey(digest: string -> string, prefix: string, args: seq<string>): (key: string)
    ensures |key| > |prefix| && key[..|prefix|] == prefix && key[|prefix|] == '_'
  {
    var key := prefix + "_" + digest(Join(args));
    assert key[..|prefix|] == prefix;
    key
  }

  /** `"complete_data_"`, the start of every key under which candidate data is stored. */
  const CANDIDATE_DATA_PREFIX := "complete_data_"

  /** Does the key start with `complete_data_`? */
  predicate IsCandidateDataKey(key: string) {
    |key| >= |CANDIDATE_DATA_PREFIX| && key[..|CANDIDATE_DATA_PREFIX|] == CANDIDATE_DATA_PREFIX
  }

  /**
   The kinds of key never meet: candidate-data keys start with `complete_data_`,
   while party-list and candidate-list keys and the year-list key do not.
   */
  lemma KeyKindsDisjoint(digest: string -> string, a: seq<string>, b: seq<string>)
    ensures IsCandidateDataKey(SafeKey(digest, "complete_data", a))
    ensures !IsCandidateDataKey(SafeKey(digest, "partidos", a))
    ensures !IsCandidateDataKey(SafeKey(digest, "candidatos", a))
    ensures !IsCandidateDataKey("anos_eleicao")
    ensures SafeKey(digest, "partidos", a) != SafeKey(digest, "candidatos", b)
    ensures SafeKey(digest, "partidos", a) != "anos_eleicao"
    ensures SafeKey(digest, "candidatos", a) != "anos_eleicao"
  {
    var c := SafeKey(digest, "complete_data", a);
    assert c[..|CANDIDATE_DATA_PREFIX|] == "complete_data" + "_";
    var p := SafeKey(digest, "partidos", a);
    var q := SafeKey(digest, "candidatos", b);
    assert p[0] == 'p' && q[0] == 'c';
    assert SafeKey(digest, "candidatos", a)[1] == 'a';
  }

  /**
   Joining with an underscore loses the boundary between arguments: two
   neighbouring arguments `x`, `y` join to the same text as the one argument
   `x_y`, wherever they stand.
   */
  lemma {:induction false} JoinMerges(pre: seq<string>, x: string, y: string, rest: seq<string>)
    ensures Join(pre + [x + "_" + y] + rest) == Join(pre + [x, y] + rest)
    decreases |pre|
  {
    if pre == [] {
      assert [] + [x + "_" + y] + rest == [x + "_" + y] + rest;
      assert [] + [x, y] + rest == [x, y] + rest;
      assert ([x, y] + rest)[1..] == [y] + rest;
      if rest != [] {
        assert ([x + "_" + y] + rest)[1..] == rest;
        assert ([y] + rest)[1..] == rest;
        assert (x + "_" + y) + "_" + Join(rest) == x + "_" + (y + "_" + Join(rest));
      } else {
        assert [y] + rest == [y];
      }
    } else {
      assert (pre + [x + "_" + y] + rest)[1..] == pre[1..] + [x + "_" + y] + rest;
      assert (pre + [x, y] + rest)[1..] == pre[1..] + [x, y] + rest;
      JoinMerges(pre[1..], x, y, rest);
    }
  }

  /**
   Hence `safe_key` is not injective: argument lists of different lengths
   share a key, whatever the digest.
   */
  lemma SafeKeyCollides(digest: string -> string, prefix: string,
                        pre: seq<string>, x: string, y: string, rest: seq<string>)
    ensures SafeKey(digest, prefix, pre + [x + "_" + y] + rest) == SafeKey(digest, prefix, pre + [x, y] + rest)
    ensures pre + [x + "_" + y] + rest != pre + [x, y] + rest
  {
    JoinMerges(pre, x, y, rest);
    assert |pre + [x + "_" + y] + rest| < |pre + [x, y] + rest|;
  }

  /** What the views store: a list of names, or the data of one candidate. */
  datatype CacheValue = Names(names: seq<string>) | Complete(data: CandidateData)

  /** A stored value with the time-to-live it was stored with (expiry itself is not modelled). */
  datatype Entry = Entry(value: CacheValue, ttl: int)

  /** Python truthiness of a stored value: an empty list is falsy, a dictionary of three keys is not. */
  predicate Truthy(v: CacheValue) {
    match v
    case Names(names) => names != []
    case Complete(_) => true
  }

  /**
   What `cached_qs` answers for `key` given the entries before the call: the
   stored list on a hit, the query's rows on a miss.
   */
  function ListServed(entries: map<string, Entry>, key: string, query: seq<string>): seq<string> {
    if key in entries && entries[key].value.Names? then entries[key].value.names else query
  }

  /** What a lookup of candidate data answers given the entries before the call. */
  function DataServed(entries: map<string, Entry>, key: string, computed: Option<CandidateData>)
    : Option<CandidateData>
  {
    if key in entries && entries[key].value.Complete? then Some(entries[key].value.data) else computed
  }

  /** `after` keeps every entry of `before` as it was, and adds entries only under `keys`. */
  ghost predicate Extends(before: map<string, Entry>, after: map<string, Entry>, keys: set<string>) {
    && (forall k :: k in before ==> k in after && after[k] == before[k])
    && (forall k :: k in after && k !in before ==> k in keys)
  }

  /**
   After the call, `key` holds `value`; when the key is new, its entry was
   stored with time-to-live `ttl`.
   */
  ghost predicate Stores(before: map<string, Entry>, after: map<string, Entry>, key: string, value: CacheValue, ttl: int) {
    key in after && after[key].value == value && (key !in before ==> after[key].ttl == ttl)
  }

  lemma ExtendsTransitive(a: map<string, Entry>, b: map<string, Entry>, c: map<string, Entry>,
                          ka: set<string>, kb: set<string>)
    requires Extends(a, b, ka) && Extends(b, c, kb)
    ensures Extends(a, c, ka + kb)
  {
  }

  /** A later call finds the same entry under a key an earlier call could not have written. */
  lemma ServedUnaffected(before: map<string, Entry>, after: map<string, Entry>, keys: set<string>, key: string)
    requires Extends(before, after, keys) && key !in keys
    ensures key in after <==> key in before
    ensures key in before ==> after[key] == before[key]
  {
  }

  /**
   The outcome of a candidate-data lookup, hit or miss, read as what it
   answers and what it adds to the entries.
   */
  lemma DataOutcome(before: map<string, Entry>, after: map<string, Entry>, key: string,
                    d: Option<CandidateData>, computed: Option<CandidateData>, ttl: int)
    requires key in before ==> before[key].value.Complete? && d == Some(before[key].value.data) && after == before
    requires key !in before ==>
      d == computed && after == if d.None? then before else before[key := Entry(Complete(d.value), ttl)]
    ensures d == DataServed(before, key, computed)
    ensures Extends(before, after, {key})
    ensures d.Some? ==> Stores(before, after, key, Complete(d.value), ttl)
  {
  }

  class Cache {
    /** The stored entries, by key. */
    var entries: map<string, Entry>
    /** How many record-store queries have been run on misses. */
    ghost var queries: nat

    /** Candidate data is stored exactly under `complete_data_` keys, lists everywhere else. */
    ghost predicate Valid()
      reads this
    {
      forall k :: k in entries ==> (entries[k].value.Complete? <==> IsCandidateDataKey(k))
    }

    constructor ()
      ensures Valid() && entries == map[] && queries == 0
    {
      entries := map[];
      queries := 0;
    }

    /**
     The outcome of `cached_qs(query, key, ttl)` returning `res`: a hit (any
     stored list, the empty one included) returns it and runs nothing; a miss
     runs the query once, stores its rows under `key` and returns them.
     */
    twostate predicate Served(key: string, query: seq<string>, ttl: int, res: seq<string>)
      reads this
    {
      if key in old(entries) then
        && old(entries)[key].value.Names?
        && res == old(entries)[key].value.names
        && entries == old(entries)
        && queries == old(queries)
      else
        && res == query
        && entries == old(entries)[key := Entry(Names(query), ttl)]
        && queries == old(queries) + 1
    }

    /** `cache.get(key)`: the stored value, or `None`. */
    method Get(key: string) returns (v: Option<CacheValue>)
      ensures key in entries <==> v.Some?
      ensures v.Some? ==> v.value == entries[key].value
    {
      v := if key in entries then Some(entries[key].value) else None;
    }

    /** `cache.set(key, value, ttl)`: the one entry is replaced, nothing else changes. */
    method Set(key: string, value: CacheValue, ttl: int)
      requires Valid() && (value.Complete? <==> IsCandidateDataKey(key))
      modifies this
      ensures Valid()
      ensures entries == old(entries)[key := Entry(value, ttl)] && queries == old(queries)
    {
      entries := entries[key := Entry(value, ttl)];
    }

    /** `cached_qs(query, key, ttl)` (views.py lines 30-35). */
    method CachedQs(key: string, query: seq<string>, ttl: int) returns (res: seq<string>)
      requires Valid() && !IsCandidateDataKey(key)
      modifies this
      ensures Valid()
      ensures Served(key, query, ttl, res)
      ensures res == ListServed(old(entries), key, query)
      ensures Extends(old(entries), entries, {key}) && Stores(old(entries), entries, key, Names(res), ttl)
    {
      var stored := Get(key);
      if stored.None? {
        queries := queries + 1;
        res := query;
        Set(key, Names(res), ttl);
      } else {
        res := stored.value.names;
      }
    }

    /** `cache.clear()`: every entry goes. */
    method Clear()
      modifies this
      ensures Valid() && entries == map[] && queries == old(queries)
    {
      entries := map[];
    }
  }
}
