/** `SampleQuery`: the cached sample queries (`_q_all_cached` and its callers) over
    one database, one pair of filters and the shared cache. */
module SampleQueries {
  import opened Py
  import opened Strings
  import opened Seqs
  import opened Tables
  import opened Caching
  import TF = TaxonomyFilters
  import CF = ContextualFilters
  import Q = Queries

  /** `mutate_result` applied when given. */
  function Mutated(v: CacheValue, mutate: Option<CacheValue -> CacheValue>): CacheValue
  {
    if mutate.Some? then mutate.value(v) else v
  }

  /** `to_boolean(result)`: `result[0][0]` of an EXISTS query. */
  function ToBoolean(): CacheValue -> CacheValue
  {
    (v: CacheValue) => if v.ExistsRow? then Flag(v.present) else v
  }

  /** The key text of `_q_all_cached`: the function's name, the topic, the compiled
      statement and the repr of its bind parameters. */
  function QueryKey(uuid: string, topic: string, statement: string, params: string): string
  {
    KeyText(uuid, [QAllCachedRepr, PyReprStr(topic), PyReprStr(statement), params])
  }

  /** `'has_matching_sample_otus:%s' % (kingdom_id)`. */
  function ExistsTopic(kingdomId: Option<int>): (r: string)
    ensures IsPrefix("has_matching_sample_otus:", r)
  {
    var r := "has_matching_sample_otus:" + (if kingdomId.Some? then IntToString(kingdomId.value) else "None");
    assert r[..|"has_matching_sample_otus:"|] == "has_matching_sample_otus:";
    r
  }

  /** Different kingdoms are cached under different topics. */
  lemma ExistsTopicInjective(a: Option<int>, b: Option<int>)
    requires ExistsTopic(a) == ExistsTopic(b)
    ensures a == b
  {
    var n := |"has_matching_sample_otus:"|;
    var ta, tb := ExistsTopic(a)[n..], ExistsTopic(b)[n..];
    if a.Some? && b.Some? {
      assert ta == IntToString(a.value) && tb == IntToString(b.value);
      IntToStringInjective(a.value, b.value);
    }
  }

  // ---------------------------------------------------------------------------
  // matching_sample_headers

  /** The first requested header that is not empty and is not a SampleContext column:
      `getattr(SampleContext, h)` raises for it. */
  function FirstBadHeader(db: Db, headers: seq<string>): (r: Option<string>)
    ensures r.None? <==> forall h :: h in headers && h != "" ==> h in db.sampleColumns
    ensures r.Some? ==> r.value in headers && r.value != "" && r.value !in db.sampleColumns
  {
    if headers == [] then None
    else if headers[0] != "" && headers[0] !in db.sampleColumns then Some(headers[0])
    else FirstBadHeader(db, headers[1..])
  }

  /** The value an outer join to an ontology table yields: the value of the row with
      the id, NULL when the id is NULL or has no row. */
  function LookupValue(table: OntologyTable, id: Option<int>): (r: PyValue)
    ensures r.PNone? || r.PStr?
    ensures r.PStr? ==> id.Some? && OntologyRow(id.value, r.s) in table
    ensures r.PNone? <==> id.None? || forall row :: row in table ==> row.id != id.value
  {
    if id.None? then PNone
    else
      var rows := RowsWithId(table, id.value);
      if rows == [] then PNone
      else
        assert rows[0] in rows;
        PStr(rows[0].value)
  }

  /** The column a header selects: the ontology value for an ontology-coded column,
      the stored value otherwise. */
  function HeaderValue(db: Db, s: Sample, h: string): PyValue
  {
    if h in db.fieldOntologies then LookupValue(db.fieldOntologies[h], AsId(Column(s, h)))
    else Column(s, h)
  }

  /** One result row: id, environment_id, then the requested non-empty headers. */
  function HeaderRow(db: Db, s: Sample, headers: seq<string>): (r: seq<PyValue>)
    ensures |r| == 2 + |Where(headers, NonEmpty())|
    ensures r[0] == PInt(s.id) && r[1] == Column(s, "environment_id")
    ensures forall i :: 0 <= i < |r| - 2 ==> r[i + 2] == HeaderValue(db, s, Where(headers, NonEmpty())[i])
  {
    [PInt(s.id), Column(s, "environment_id")] + Select(Where(headers, NonEmpty()), (h: string) => HeaderValue(db, s, h))
  }

  function NonEmpty(): string -> bool
  {
    (h: string) => h != ""
  }

  /** The rows of `matching_sample_headers` before caching. */
  function SampleHeaders(db: Db, tf: TF.TaxonomyFilter, cf: CF.Contextual, headers: seq<string>): (r: seq<seq<PyValue>>)
    requires TF.CanTestEmpty(tf)
    ensures |r| == |Q.AssembleSampleQuery(db, tf, cf)|
    ensures forall i :: 0 <= i < |r| ==> r[i] == HeaderRow(db, Q.AssembleSampleQuery(db, tf, cf)[i], headers)
  {
    Select(Q.AssembleSampleQuery(db, tf, cf), (s: Sample) => HeaderRow(db, s, headers))
  }

  // ---------------------------------------------------------------------------

  class SampleQuery {
    const db: Db
    const taxonomyFilter: TF.TaxonomyFilter
    const contextualFilter: CF.Contextual
    const cache: Cache
    const keys: KeyMaker

    /** `SampleQuery(params)`; the cache and the key memo are the process-wide ones. */
    constructor (db: Db, taxonomyFilter: TF.TaxonomyFilter, contextualFilter: CF.Contextual, cache: Cache, keys: KeyMaker)
      ensures this.db == db && this.taxonomyFilter == taxonomyFilter && this.contextualFilter == contextualFilter
      ensures this.cache == cache && this.keys == keys
    {
      this.db := db;
      this.taxonomyFilter := taxonomyFilter;
      this.contextualFilter := contextualFilter;
      this.cache := cache;
      this.keys := keys;
    }

    /** `_q_all_cached(topic, q, mutate_result)`: `rows` is what `q.all()` returns,
        `statement` and `params` the compiled SQL and the repr of its parameters. A
        truthy cached value is returned as it is; otherwise the result (mutated when
        asked) is stored under the key and returned. */
    method QAllCached(topic: string, statement: string, params: string, rows: CacheValue, mutate: Option<CacheValue -> CacheValue>)
      returns (r: CacheValue)
      modifies cache, keys
      ensures keys.metadataUuid == (if old(keys.metadataUuid).None? then Some(db.importUuid) else old(keys.metadataUuid))
      ensures var key := QueryKey(keys.metadataUuid.value, topic, statement, params);
        Hit(old(cache.entries), key) ==> r == old(cache.entries)[key] && cache.entries == old(cache.entries)
      ensures var key := QueryKey(keys.metadataUuid.value, topic, statement, params);
        !Hit(old(cache.entries), key) ==> r == Mutated(rows, mutate) && cache.entries == old(cache.entries)[key := r]
    {
      var key := keys.MakeCacheKey(db.importUuid, [QAllCachedRepr, PyReprStr(topic), PyReprStr(statement), params]);
      var result := cache.Get(key);
      if result.Some? && Truthy(result.value) {
        return result.value;
      }
      r := Mutated(rows, mutate);
      cache.Set(key, r);
    }

    /** `matching_samples()`: the samples passing both filters, ordered by id, from the
        cache when a non-empty result is there. */
    method MatchingSamples(statement: string, params: string) returns (r: CacheValue)
      requires TF.CanTestEmpty(taxonomyFilter)
      modifies cache, keys
      ensures keys.metadataUuid == (if old(keys.metadataUuid).None? then Some(db.importUuid) else old(keys.metadataUuid))
      ensures var key := QueryKey(keys.metadataUuid.value, "matching_samples", statement, params);
        Hit(old(cache.entries), key) ==> r == old(cache.entries)[key] && cache.entries == old(cache.entries)
      ensures var key := QueryKey(keys.metadataUuid.value, "matching_samples", statement, params);
        !Hit(old(cache.entries), key) ==>
          r == SampleRows(Q.MatchingSamples(db, taxonomyFilter, contextualFilter)) && cache.entries == old(cache.entries)[key := r]
    {
      var rows := Q.MatchingSamples(db, taxonomyFilter, contextualFilter);
      r := QAllCached("matching_samples", statement, params, SampleRows(rows), None);
    }

    /** `has_matching_sample_otus(kingdom_id)`: whether any abundance fact passes both
        filters and the kingdom. A cached False is falsy, so it is recomputed every time. */
    method HasMatchingSampleOtus(kingdomId: Option<int>, statement: string, params: string) returns (r: CacheValue)
      modifies cache, keys
      ensures keys.metadataUuid == (if old(keys.metadataUuid).None? then Some(db.importUuid) else old(keys.metadataUuid))
      ensures var key := QueryKey(keys.metadataUuid.value, ExistsTopic(kingdomId), statement, params);
        Hit(old(cache.entries), key) ==> r == old(cache.entries)[key] && cache.entries == old(cache.entries)
      ensures var key := QueryKey(keys.metadataUuid.value, ExistsTopic(kingdomId), statement, params);
        !Hit(old(cache.entries), key) ==>
          r == Flag(Q.MatchingSampleOtus(db, taxonomyFilter, contextualFilter, kingdomId) != [])
          && cache.entries == old(cache.entries)[key := r]
    {
      var present := Q.MatchingSampleOtus(db, taxonomyFilter, contextualFilter, kingdomId) != [];
      r := QAllCached(ExistsTopic(kingdomId), statement, params, ExistsRow(present), Some(ToBoolean()));
    }

    /** `matching_sample_headers(required_headers)`: AttributeError for a requested
        header that is not a column, before anything is cached; otherwise the id,
        environment and requested columns of each matching sample. */
    method MatchingSampleHeaders(requiredHeaders: seq<string>, statement: string, params: string) returns (r: Outcome<CacheValue>)
      requires TF.CanTestEmpty(taxonomyFilter)
      modifies cache, keys
      ensures FirstBadHeader(db, requiredHeaders).Some? ==>
        r == Raised(AttributeError(FirstBadHeader(db, requiredHeaders).value))
        && cache.entries == old(cache.entries) && keys.metadataUuid == old(keys.metadataUuid)
      ensures FirstBadHeader(db, requiredHeaders).None? ==>
        keys.metadataUuid == (if old(keys.metadataUuid).None? then Some(db.importUuid) else old(keys.metadataUuid))
      ensures FirstBadHeader(db, requiredHeaders).None? ==>
        var key := QueryKey(keys.metadataUuid.value, "matching_sample_headers", statement, params);
        Hit(old(cache.entries), key) ==> r == Ok(old(cache.entries)[key]) && cache.entries == old(cache.entries)
      ensures FirstBadHeader(db, requiredHeaders).None? ==>
        var key := QueryKey(keys.metadataUuid.value, "matching_sample_headers", statement, params);
        !Hit(old(cache.entries), key) ==>
          r == Ok(HeaderRows(SampleHeaders(db, taxonomyFilter, contextualFilter, requiredHeaders)))
          && cache.entries == old(cache.entries)[key := r.value]
    {
      var bad := FirstBadHeader(db, requiredHeaders);
      if bad.Some? {
        return Raised(AttributeError(bad.value));
      }
      var rows := SampleHeaders(db, taxonomyFilter, contextualFilter, requiredHeaders);
      var v := QAllCached("matching_sample_headers", statement, params, HeaderRows(rows), None);
      r := Ok(v);
    }
  }
}
