/** The queries `SampleQuery` builds: the two "distinct ids present in the
    abundance facts" subqueries, the sample and OTU queries they narrow, and the
    abundance rows of the export, each evaluated over the in-memory tables. */
module Queries {
  import opened Py
  import opened Seqs
  import opened Tables
  import TF = TaxonomyFilters
  import CF = ContextualFilters

  // ---------------------------------------------------------------------------
  // Row accessors

  function FactOtuOtu(): ((Fact, Otu)) -> Otu
  {
    (p: (Fact, Otu)) => p.1
  }

  function FactOtuSampleId(): ((Fact, Otu)) -> int
  {
    (p: (Fact, Otu)) => p.0.sampleId
  }

  function FactSampleSample(): ((Fact, Sample)) -> Sample
  {
    (p: (Fact, Sample)) => p.1
  }

  function FactSampleOtuId(): ((Fact, Sample)) -> int
  {
    (p: (Fact, Sample)) => p.0.otuId
  }

  function SampleItself(): Sample -> Sample
  {
    (s: Sample) => s
  }

  function OtuItself(): Otu -> Otu
  {
    (o: Otu) => o
  }

  function RowOtu(): (((Fact, Otu), Sample)) -> Otu
  {
    (r: ((Fact, Otu), Sample)) => r.0.1
  }

  function RowSample(): (((Fact, Otu), Sample)) -> Sample
  {
    (r: ((Fact, Otu), Sample)) => r.1
  }

  // ---------------------------------------------------------------------------
  // Subqueries

  /** Some abundance fact of the sample is for an OTU the taxonomy filter keeps. */
  ghost predicate HasKeptOtu(db: Db, tf: TF.TaxonomyFilter, sampleId: int)
  {
    exists f, o :: f in db.facts && o in db.otus && o.id == f.otuId && f.sampleId == sampleId && TF.Keeps(tf, o)
  }

  /** Some abundance fact of the OTU is for a sample the contextual filter keeps. */
  ghost predicate HasKeptSample(db: Db, cf: CF.Contextual, otuId: int)
  {
    exists f, s :: f in db.facts && s in db.samples && s.id == f.sampleId && f.otuId == otuId && CF.KeepsSample(cf, s)
  }

  /** A sample id is selected from the facts whose OTU the filter keeps exactly when
      such a fact exists. */
  lemma KeptOtuListed(db: Db, tf: TF.TaxonomyFilter, id: int)
    ensures id in Select(TF.Apply(tf, FactOtuRows(db), FactOtuOtu()), FactOtuSampleId()) <==> HasKeptOtu(db, tf, id)
  {
    var rows := TF.Apply(tf, FactOtuRows(db), FactOtuOtu());
    SelectIn(rows, FactOtuSampleId(), id);
    if HasKeptOtu(db, tf, id) {
      var f, o :| f in db.facts && o in db.otus && o.id == f.otuId && f.sampleId == id && TF.Keeps(tf, o);
      assert (f, o) in rows;
    }
  }

  /** An OTU id is selected from the facts whose sample the filter keeps exactly when
      such a fact exists. */
  lemma KeptSampleListed(db: Db, cf: CF.Contextual, id: int)
    ensures id in Select(CF.Apply(cf, FactSampleRows(db), FactSampleSample()), FactSampleOtuId()) <==> HasKeptSample(db, cf, id)
  {
    var rows := CF.Apply(cf, FactSampleRows(db), FactSampleSample());
    SelectIn(rows, FactSampleOtuId(), id);
    if HasKeptSample(db, cf, id) {
      var f, s :| f in db.facts && s in db.samples && s.id == f.sampleId && f.otuId == id && CF.KeepsSample(cf, s);
      assert (f, s) in rows;
    }
  }

  /** `_build_taxonomy_subquery()`: None for an empty taxonomy filter, otherwise the
      distinct sample ids of facts whose OTU the filter keeps. */
  function TaxonomySubquery(db: Db, tf: TF.TaxonomyFilter): (r: Option<seq<int>>)
    requires TF.CanTestEmpty(tf)
    ensures r.None? <==> TF.IsEmpty(tf)
    ensures r.Some? ==> NoDuplicates(r.value) && forall id :: id in r.value <==> HasKeptOtu(db, tf, id)
  {
    if TF.IsEmpty(tf) then None
    else
      var ids := Select(TF.Apply(tf, FactOtuRows(db), FactOtuOtu()), FactOtuSampleId());
      assert forall id :: id in ids <==> HasKeptOtu(db, tf, id) by {
        forall id ensures id in ids <==> HasKeptOtu(db, tf, id) {
          KeptOtuListed(db, tf, id);
        }
      }
      Some(Distinct(ids))
  }

  /** `_build_contextual_subquery()`: None for an empty contextual filter, otherwise
      the distinct OTU ids of facts whose sample the filter keeps. */
  function ContextualSubquery(db: Db, cf: CF.Contextual): (r: Option<seq<int>>)
    ensures r.None? <==> CF.IsEmpty(cf)
    ensures r.Some? ==> NoDuplicates(r.value) && forall id :: id in r.value <==> HasKeptSample(db, cf, id)
  {
    if CF.IsEmpty(cf) then None
    else
      var ids := Select(CF.Apply(cf, FactSampleRows(db), FactSampleSample()), FactSampleOtuId());
      assert forall id :: id in ids <==> HasKeptSample(db, cf, id) by {
        forall id ensures id in ids <==> HasKeptSample(db, cf, id) {
          KeptSampleListed(db, cf, id);
        }
      }
      Some(Distinct(ids))
  }

  // ---------------------------------------------------------------------------
  // Samples

  function KeyIn<R>(key: R -> int, ids: seq<int>): R -> bool
  {
    (x: R) => key(x) in ids
  }

  /** `SampleContext.id.in_(subquery)` when there is a subquery. */
  function InSubquery<R(!new)>(q: seq<R>, key: R -> int, sub: Option<seq<int>>): (r: seq<R>)
    ensures sub.None? ==> r == q
    ensures sub.Some? ==> forall x :: x in r <==> x in q && key(x) in sub.value
  {
    if sub.None? then q else Where(q, KeyIn(key, sub.value))
  }

  /** The sample-side condition of every sample query. */
  ghost predicate SampleMatches(db: Db, tf: TF.TaxonomyFilter, cf: CF.Contextual, s: Sample)
    requires TF.CanTestEmpty(tf)
  {
    CF.KeepsSample(cf, s) && (TF.IsEmpty(tf) || HasKeptOtu(db, tf, s.id))
  }

  /** `_assemble_sample_query(q, taxonomy_subquery)` on the SampleContext rows. */
  function AssembleSampleQuery(db: Db, tf: TF.TaxonomyFilter, cf: CF.Contextual): (r: seq<Sample>)
    requires TF.CanTestEmpty(tf)
    ensures forall s :: s in r <==> s in db.samples && SampleMatches(db, tf, cf, s)
  {
    CF.Apply(cf, InSubquery(db.samples, SampleKey(), TaxonomySubquery(db, tf)), SampleItself())
  }

  /** `matching_samples()` before caching: the assembled query ordered by id. */
  function MatchingSamples(db: Db, tf: TF.TaxonomyFilter, cf: CF.Contextual): (r: seq<Sample>)
    requires TF.CanTestEmpty(tf)
    ensures forall s :: s in r <==> s in db.samples && SampleMatches(db, tf, cf, s)
    ensures SortedBy(r, SampleIdLe())
  {
    IdOrdersArePreorders();
    var q := AssembleSampleQuery(db, tf, cf);
    var r := SortBy(q, SampleIdLe());
    SortByIn(q, SampleIdLe());
    r
  }

  /** With an empty taxonomy filter the samples are not narrowed by taxonomy at all;
      otherwise only samples with a fact for a kept OTU remain. */
  lemma SampleNarrowing(db: Db, tf: TF.TaxonomyFilter, cf: CF.Contextual, s: Sample)
    requires TF.CanTestEmpty(tf)
    ensures TF.IsEmpty(tf) ==> (s in MatchingSamples(db, tf, cf) <==> s in db.samples && CF.KeepsSample(cf, s))
    ensures !TF.IsEmpty(tf) && s in MatchingSamples(db, tf, cf) ==>
      exists f, o :: f in db.facts && o in db.otus && o.id == f.otuId && f.sampleId == s.id && TF.Keeps(tf, o)
  {
  }

  /** The rows of `q` with their multiplicities, narrowed: a primary key stays one. */
  lemma {:induction false} ApplySubMultiset<R(!new)>(cf: CF.Contextual, q: seq<R>, sampleOf: R -> Sample)
    ensures multiset(CF.Apply(cf, q, sampleOf)) <= multiset(q)
  {
    CF.ApplyIsWhere(cf, q, sampleOf);
    WhereSubMultiset(q, CF.KeepsSampleOf(cf, sampleOf));
  }

  /** `matching_samples()` lists each sample of a well-formed database at most once. */
  lemma MatchingSamplesUnique(db: Db, tf: TF.TaxonomyFilter, cf: CF.Contextual)
    requires TF.CanTestEmpty(tf)
    requires UniqueSampleIds(db.samples)
    ensures UniqueSampleIds(MatchingSamples(db, tf, cf))
  {
    var sub := TaxonomySubquery(db, tf);
    var q1 := InSubquery(db.samples, SampleKey(), sub);
    assert multiset(q1) <= multiset(db.samples) by {
      if sub.Some? {
        WhereSubMultiset(db.samples, KeyIn(SampleKey(), sub.value));
      }
    }
    ApplySubMultiset(cf, q1, SampleItself());
    UniqueKeysSub(MatchingSamples(db, tf, cf), db.samples, SampleKey());
  }

  // ---------------------------------------------------------------------------
  // OTUs

  function KingdomIs(kingdomId: int): Otu -> bool
  {
    (o: Otu) => Level(o, 0) == Some(kingdomId)
  }

  /** The OTU-side condition of the OTU query. */
  ghost predicate OtuMatches(db: Db, tf: TF.TaxonomyFilter, cf: CF.Contextual, o: Otu)
  {
    TF.Keeps(tf, o) && (CF.IsEmpty(cf) || HasKeptSample(db, cf, o.id))
  }

  /** `_assemble_otu_query(q, contextual_subquery, kingdom_id)` on the OTU rows. */
  function AssembleOtuQuery(db: Db, tf: TF.TaxonomyFilter, cf: CF.Contextual, kingdomId: Option<int>): (r: seq<Otu>)
    ensures forall o :: o in r <==>
      o in db.otus && OtuMatches(db, tf, cf, o) && (kingdomId.Some? ==> Level(o, 0) == kingdomId)
  {
    var q := TF.Apply(tf, InSubquery(db.otus, OtuKey(), ContextualSubquery(db, cf)), OtuItself());
    if kingdomId.None? then q else Where(q, KingdomIs(kingdomId.value))
  }

  /** `matching_otus(kingdom_id)`: the assembled query ordered by OTU id. */
  function MatchingOtus(db: Db, tf: TF.TaxonomyFilter, cf: CF.Contextual, kingdomId: Option<int>): (r: seq<Otu>)
    ensures forall o :: o in r <==>
      o in db.otus && OtuMatches(db, tf, cf, o) && (kingdomId.Some? ==> Level(o, 0) == kingdomId)
    ensures SortedBy(r, OtuIdLe())
  {
    IdOrdersArePreorders();
    var q := AssembleOtuQuery(db, tf, cf, kingdomId);
    var r := SortBy(q, OtuIdLe());
    SortByIn(q, OtuIdLe());
    r
  }

  /** Restricting to a kingdom keeps exactly the unrestricted OTUs of that kingdom. */
  lemma KingdomRestricts(db: Db, tf: TF.TaxonomyFilter, cf: CF.Contextual, kingdomId: int, o: Otu)
    ensures o in MatchingOtus(db, tf, cf, Some(kingdomId)) <==>
      o in MatchingOtus(db, tf, cf, None) && Level(o, 0) == Some(kingdomId)
  {
  }

  /** With an empty contextual filter the OTUs are narrowed by the taxonomy filter only. */
  lemma OtuNarrowing(db: Db, tf: TF.TaxonomyFilter, cf: CF.Contextual, o: Otu)
    ensures CF.IsEmpty(cf) ==> (o in MatchingOtus(db, tf, cf, None) <==> o in db.otus && TF.Keeps(tf, o))
    ensures !CF.IsEmpty(cf) && o in MatchingOtus(db, tf, cf, None) ==>
      exists f, s :: f in db.facts && s in db.samples && s.id == f.sampleId && f.otuId == o.id && CF.KeepsSample(cf, s)
  {
  }

  lemma {:induction false} TaxonomySubMultiset<R(!new)>(tf: TF.TaxonomyFilter, q: seq<R>, otuOf: R -> Otu)
    ensures multiset(TF.Apply(tf, q, otuOf)) <= multiset(q)
  {
    TF.ApplyIsWhere(tf, q, otuOf);
    WhereSubMultiset(q, TF.KeepsOf(tf, otuOf));
  }

  /** `matching_otus()` lists each OTU of a well-formed database at most once. */
  lemma MatchingOtusUnique(db: Db, tf: TF.TaxonomyFilter, cf: CF.Contextual, kingdomId: Option<int>)
    requires UniqueOtuIds(db.otus)
    ensures UniqueOtuIds(MatchingOtus(db, tf, cf, kingdomId))
  {
    var sub := ContextualSubquery(db, cf);
    var q1 := InSubquery(db.otus, OtuKey(), sub);
    assert multiset(q1) <= multiset(db.otus) by {
      if sub.Some? {
        WhereSubMultiset(db.otus, KeyIn(OtuKey(), sub.value));
      }
    }
    var q2 := TF.Apply(tf, q1, OtuItself());
    TaxonomySubMultiset(tf, q1, OtuItself());
    assert multiset(AssembleOtuQuery(db, tf, cf, kingdomId)) <= multiset(q2) by {
      if kingdomId.Some? {
        WhereSubMultiset(q2, KingdomIs(kingdomId.value));
      }
    }
    UniqueKeysSub(MatchingOtus(db, tf, cf, kingdomId), db.otus, OtuKey());
  }

  // ---------------------------------------------------------------------------
  // Abundance rows

  /** `matching_sample_otus(kingdom_id)`: the facts joined to their OTU and sample,
      narrowed by both filters and the kingdom. */
  function MatchingSampleOtus(db: Db, tf: TF.TaxonomyFilter, cf: CF.Contextual, kingdomId: Option<int>): (r: seq<((Fact, Otu), Sample)>)
    ensures forall row :: row in r <==>
      && row in AbundanceRows(db)
      && TF.Keeps(tf, row.0.1)
      && CF.KeepsSample(cf, row.1)
      && (kingdomId.Some? ==> Level(row.0.1, 0) == kingdomId)
  {
    var q := CF.Apply(cf, TF.Apply(tf, AbundanceRows(db), RowOtu()), RowSample());
    if kingdomId.None? then q
    else Where(q, (row: ((Fact, Otu), Sample)) => Level(row.0.1, 0) == kingdomId)
  }

  /** Every abundance row of the export belongs to an OTU `matching_otus()` lists and
      to a sample `matching_samples()` lists, whatever the filters. */
  lemma ExportClosure(db: Db, tf: TF.TaxonomyFilter, cf: CF.Contextual, row: ((Fact, Otu), Sample))
    requires TF.CanTestEmpty(tf)
    requires row in MatchingSampleOtus(db, tf, cf, None)
    ensures row.0.1 in MatchingOtus(db, tf, cf, None) && row.0.1.id == row.0.0.otuId
    ensures row.1 in MatchingSamples(db, tf, cf) && row.1.id == row.0.0.sampleId
  {
    var f, o, s := row.0.0, row.0.1, row.1;
    assert HasKeptSample(db, cf, o.id);
    assert HasKeptOtu(db, tf, s.id);
  }
}
