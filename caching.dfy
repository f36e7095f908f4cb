/** The shared result cache (`caches['search_results']`) and `make_cache_key`, whose
    key is the text `uuid + ':' + ':'.join(repr(arg) for arg in args)` before hashing. */
module Caching {
  import opened Py
  import opened Strings
  import opened Tables
  import opened Options

  /** The text `make_cache_key` hashes, given the import uuid and the reprs of its
      arguments. */
  function KeyText(uuid: string, reprs: seq<string>): (r: string)
    ensures IsPrefix(uuid + ":", r)
    ensures r[|uuid| + 1..] == Join(":", reprs)
  {
    var r := uuid + ":" + Join(":", reprs);
    assert r[..|uuid + ":"|] == uuid + ":";
    r
  }

  /** An import uuid (a hex uuid has no ':') is recovered from the key text, and so
      is the joined argument text: keys of different imports never meet. */
  lemma KeyTextSeparates(u1: string, reprs1: seq<string>, u2: string, reprs2: seq<string>)
    requires ':' !in u1 && ':' !in u2
    requires KeyText(u1, reprs1) == KeyText(u2, reprs2)
    ensures u1 == u2 && Join(":", reprs1) == Join(":", reprs2)
  {
    var k := KeyText(u1, reprs1);
    assert k[|u1|] == ':' && k[|u2|] == ':';
    assert |u1| == |u2|;
    assert u1 == k[..|u1|] == u2;
  }

  const QAllCachedName: string := "SampleQuery._q_all_cached"
  const PossibilitiesName: string := "TaxonomyOptions.possibilities"

  /** The first arguments of the two callers' keys, as `repr` writes the names. */
  const QAllCachedRepr: string := "'" + QAllCachedName + "'"
  const PossibilitiesRepr: string := "'" + PossibilitiesName + "'"

  /** The written-out first arguments are the reprs of the names. */
  lemma QAllCachedReprIsRepr()
    ensures QAllCachedRepr == PyReprStr(QAllCachedName)
  {
    var name := QAllCachedName;
    assert forall i :: 0 <= i < |name| ==> PlainChar(name[i]);
    PlainRepr(name);
  }

  lemma PossibilitiesReprIsRepr()
    ensures PossibilitiesRepr == PyReprStr(PossibilitiesName)
  {
    var name := PossibilitiesName;
    assert forall i :: 0 <= i < |name| ==> PlainChar(name[i]);
    PlainRepr(name);
  }

  /** Keys whose first arguments' reprs differ in their second character differ. */
  lemma FirstArgumentsSeparate(u1: string, a: seq<string>, u2: string, b: seq<string>)
    requires ':' !in u1 && ':' !in u2
    requires a != [] && b != [] && |a[0]| >= 2 && |b[0]| >= 2 && a[0][1] != b[0][1]
    ensures KeyText(u1, a) != KeyText(u2, b)
  {
    if KeyText(u1, a) == KeyText(u2, b) {
      KeyTextSeparates(u1, a, u2, b);
      JoinStartsWithFirst(":", a);
      JoinStartsWithFirst(":", b);
    }
  }

  /** The keys `_q_all_cached` builds never equal the keys `possibilities` builds:
      the two share one cache without clobbering each other. */
  lemma CallersDoNotCollide(u1: string, rest: seq<string>, u2: string, filterRepr: string)
    requires ':' !in u1 && ':' !in u2
    ensures KeyText(u1, [QAllCachedRepr] + rest) != KeyText(u2, [PossibilitiesRepr, filterRepr])
  {
    var a := [QAllCachedRepr] + rest;
    var b := [PossibilitiesRepr, filterRepr];
    assert a[0] == QAllCachedRepr && b[0] == PossibilitiesRepr;
    FirstArgumentsSeparate(u1, a, u2, b);
  }

  /** `make_cache_key` and the process-wide `__METADATA_UUID` it fills on first use. */
  class KeyMaker {
    var metadataUuid: Option<string>

    constructor ()
      ensures metadataUuid == None
    {
      metadataUuid := None;
    }

    /** `make_cache_key(*args)` with `reprs` the reprs of the arguments and
        `currentUuid` the uuid of the import now in the database: it is read only
        on the first call, and every later key carries that first uuid. */
    method MakeCacheKey(currentUuid: string, reprs: seq<string>) returns (key: string)
      modifies this
      ensures metadataUuid == (if old(metadataUuid).None? then Some(currentUuid) else old(metadataUuid))
      ensures key == KeyText(metadataUuid.value, reprs)
    {
      if metadataUuid.None? {
        metadataUuid := Some(currentUuid);
      }
      key := KeyText(metadataUuid.value, reprs);
    }
  }

  /** The values the cache holds: the results of the cached queries. */
  datatype CacheValue =
    | SampleRows(samples: seq<Sample>)           // matching_samples
    | HeaderRows(rows: seq<seq<PyValue>>)        // matching_sample_headers
    | ExistsRow(present: bool)                   // the one row of an EXISTS query
    | Flag(b: bool)                              // has_matching_sample_otus, after to_boolean
    | Choices(p: Possibilities)                  // TaxonomyOptions.possibilities

  /** `not result` is false: an empty result list, `False` and `{}` are falsy. */
  predicate Truthy(v: CacheValue)
  {
    match v
    case SampleRows(s) => s != []
    case HeaderRows(rows) => rows != []
    case ExistsRow(_) => true
    case Flag(b) => b
    case Choices(p) => p.NewOptions?
  }

  /** `cache.get(key)` finds a value the caller uses as it is. */
  predicate Hit(entries: map<string, CacheValue>, key: string)
  {
    key in entries && Truthy(entries[key])
  }

  /** The Django cache: a map from keys to values. Expiry and eviction are not modelled. */
  class Cache {
    var entries: map<string, CacheValue>

    constructor ()
      ensures entries == map[]
    {
      entries := map[];
    }

    /** `cache.get(key)`: None on a miss. */
    function Get(key: string): (r: Option<CacheValue>)
      reads this
      ensures r.Some? <==> key in entries
      ensures r.Some? ==> r.value == entries[key]
    {
      if key in entries then Some(entries[key]) else None
    }

    /** `cache.set(key, value, timeout)`. */
    method Set(key: string, value: CacheValue)
      modifies this
      ensures entries == old(entries)[key := value]
    {
      entries := entries[key := value];
    }
  }
}
