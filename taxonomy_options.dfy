/** `TaxonomyOptions.possibilities()`: `_possibilities` behind the shared cache. */
module OptionQueries {
  import opened Py
  import opened Strings
  import opened Tables
  import opened Caching
  import opened Options
  import TF = TaxonomyFilters

  /** The key text of `possibilities`: the method's name and the filter's repr. */
  function OptionsKey(uuid: string, tf: TF.TaxonomyFilter): string
  {
    KeyText(uuid, [PossibilitiesRepr, TF.Repr(tf)])
  }

  /** What `_possibilities` returns for the filter, by the first invalid level. */
  ghost predicate ComputedFor(db: Db, tf: TF.TaxonomyFilter, p: Possibilities)
  {
    && ((forall k :: 0 <= k < TF.Steps(tf) ==> Valid(db, tf, k)) ==> p == Complete)
    && (forall t :: FirstInvalid(db, tf, t) ==> p == PossibilitiesAt(db, tf, t))
  }

  /** Distinct filters get distinct keys under one uuid. */
  lemma OptionsKeyInjective(uuid: string, a: TF.TaxonomyFilter, b: TF.TaxonomyFilter)
    requires OptionsKey(uuid, a) == OptionsKey(uuid, b)
    ensures a == b
  {
    var ka := OptionsKey(uuid, a);
    JoinTwo(":", PossibilitiesRepr, TF.Repr(a));
    JoinTwo(":", PossibilitiesRepr, TF.Repr(b));
    var head := |uuid| + 1 + |PossibilitiesRepr| + 1;
    assert TF.Repr(a) == ka[head..] == TF.Repr(b);
    TF.ReprInjective(a, b);
  }

  /** The cache invariant `possibilities` relies on: whatever is stored under a
      `possibilities` key of the uuid is what `_possibilities` computes for that
      key's filter. */
  ghost predicate OptionsCoherent(db: Db, uuid: string, entries: map<string, CacheValue>)
  {
    forall tf: TF.TaxonomyFilter {:trigger OptionsKey(uuid, tf)} :: OptionsKey(uuid, tf) in entries ==>
      entries[OptionsKey(uuid, tf)].Choices? && ComputedFor(db, tf, entries[OptionsKey(uuid, tf)].p)
  }

  /** Storing the computed possibilities of a filter under its key keeps the invariant. */
  lemma StoreKeepsCoherent(db: Db, uuid: string, entries: map<string, CacheValue>, tf: TF.TaxonomyFilter, p: Possibilities)
    requires OptionsCoherent(db, uuid, entries)
    requires ComputedFor(db, tf, p)
    ensures OptionsCoherent(db, uuid, entries[OptionsKey(uuid, tf) := Choices(p)])
  {
    var after := entries[OptionsKey(uuid, tf) := Choices(p)];
    forall other: TF.TaxonomyFilter | OptionsKey(uuid, other) in after
      ensures after[OptionsKey(uuid, other)].Choices? && ComputedFor(db, other, after[OptionsKey(uuid, other)].p)
    {
      if OptionsKey(uuid, other) == OptionsKey(uuid, tf) {
        OptionsKeyInjective(uuid, other, tf);
      }
    }
  }

  /** Storing a `_q_all_cached` result (under a key of an import uuid) keeps the
      invariant: those keys never equal a `possibilities` key. */
  lemma QueryStoreKeepsCoherent(db: Db, uuid: string, entries: map<string, CacheValue>,
                                u: string, rest: seq<string>, v: CacheValue)
    requires ':' !in uuid && ':' !in u
    requires OptionsCoherent(db, uuid, entries)
    ensures OptionsCoherent(db, uuid, entries[KeyText(u, [QAllCachedRepr] + rest) := v])
  {
    var key := KeyText(u, [QAllCachedRepr] + rest);
    var after := entries[key := v];
    forall tf: TF.TaxonomyFilter | OptionsKey(uuid, tf) in after
      ensures after[OptionsKey(uuid, tf)].Choices? && ComputedFor(db, tf, after[OptionsKey(uuid, tf)].p)
    {
      CallersDoNotCollide(u, rest, uuid, TF.Repr(tf));
    }
  }

  class TaxonomyOptions {
    const db: Db
    const cache: Cache
    const keys: KeyMaker

    constructor (db: Db, cache: Cache, keys: KeyMaker)
      ensures this.db == db && this.cache == cache && this.keys == keys
    {
      this.db := db;
      this.cache := cache;
      this.keys := keys;
    }

    /** `possibilities(taxonomy_filter, force_cache)`: any cached value (even `{}`) is
        returned unless `force_cache`; otherwise `_possibilities` runs and its result
        is stored, whether or not it was cached before. */
    method Possibilities(tf: TF.TaxonomyFilter, forceCache: bool) returns (r: CacheValue)
      requires OptionsCoherent(db, if keys.metadataUuid.Some? then keys.metadataUuid.value else db.importUuid, cache.entries)
      modifies cache, keys
      ensures keys.metadataUuid == (if old(keys.metadataUuid).None? then Some(db.importUuid) else old(keys.metadataUuid))
      ensures OptionsCoherent(db, keys.metadataUuid.value, cache.entries)
      ensures r.Choices? && ComputedFor(db, tf, r.p)
      ensures var key := OptionsKey(keys.metadataUuid.value, tf);
        !forceCache && key in old(cache.entries) ==> r == old(cache.entries)[key] && cache.entries == old(cache.entries)
      ensures var key := OptionsKey(keys.metadataUuid.value, tf);
        forceCache || key !in old(cache.entries) ==>
          r.Choices? && ComputedFor(db, tf, r.p) && cache.entries == old(cache.entries)[key := r]
    {
      ghost var before := cache.entries;
      var key := keys.MakeCacheKey(db.importUuid, [PossibilitiesRepr, TF.Repr(tf)]);
      assert key == OptionsKey(keys.metadataUuid.value, tf) && cache.entries == before;
      var result: Option<CacheValue> := None;
      if !forceCache {
        result := cache.Get(key);
      }
      if result.None? {
        var p := ComputePossibilities(db, tf);
        assert ComputedFor(db, tf, p);
        StoreKeepsCoherent(db, keys.metadataUuid.value, before, tf, p);
        r := Choices(p);
        cache.Set(key, r);
      } else {
        r := result.value;
      }
    }
  }
}
