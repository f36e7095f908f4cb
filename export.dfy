/** The BIOM export run on a query's results: the rows are `matching_otus()`, the
    columns `matching_samples()` and the data the facts of `matching_sample_otus()`. */
module ExportQueries {
  import opened Py
  import opened Seqs
  import opened Tables
  import opened BiomExport
  import TF = TaxonomyFilters
  import CF = ContextualFilters
  import Q = Queries

  function RowFact(): (((Fact, Otu), Sample)) -> Fact
  {
    (row: ((Fact, Otu), Sample)) => row.0.0
  }

  /** The fact stream `abundance_tbl` reads: the SampleOTU of each joined row. */
  function ExportFacts(db: Db, tf: TF.TaxonomyFilter, cf: CF.Contextual): (r: seq<Fact>)
    ensures |r| == |Q.MatchingSampleOtus(db, tf, cf, None)|
    ensures forall i :: 0 <= i < |r| ==> r[i] == Q.MatchingSampleOtus(db, tf, cf, None)[i].0.0
  {
    Select(Q.MatchingSampleOtus(db, tf, cf, None), RowFact())
  }

  /** A row's OTU that is among the exported OTUs has a row number. */
  lemma OtuHasRow(otus: seq<Otu>, o: Otu)
    requires o in otus
    ensures o.id in RowIndex(otus)
  {
    var j :| 0 <= j < |otus| && otus[j] == o;
    assert OtuIds(otus)[j] == o.id;
  }

  /** A sample among the exported samples has a column number. */
  lemma SampleHasColumn(samples: seq<Sample>, s: Sample)
    requires s in samples
    ensures s.id in ColumnIndex(samples)
  {
    FirstOccurrencesCover(samples, {}, s);
    var ids := SampleIds(FirstOccurrences(samples, {}));
    var j :| 0 <= j < |ids| && ids[j] == s.id;
  }

  /** On a database whose sample ids are a primary key, the columns are exactly
      `matching_samples()`, in order, and the i-th of them is numbered i. */
  lemma ExportColumns(db: Db, tf: TF.TaxonomyFilter, cf: CF.Contextual)
    requires TF.CanTestEmpty(tf)
    requires UniqueSampleIds(db.samples)
    ensures var samples := Q.MatchingSamples(db, tf, cf);
      && FirstOccurrences(samples, {}) == samples
      && |ColumnIndex(samples)| == |samples|
      && forall i :: 0 <= i < |samples| ==> ColumnIndex(samples)[samples[i].id] == i
  {
    var samples := Q.MatchingSamples(db, tf, cf);
    Q.MatchingSamplesUnique(db, tf, cf);
    FirstOccurrencesOfUnique(samples, {});
    ColumnsNumbered(samples);
  }

  /** The export of a query never raises KeyError: every abundance fact it streams
      belongs to an OTU among the rows and a sample among the columns. */
  lemma ExportHasNoKeyError(db: Db, tf: TF.TaxonomyFilter, cf: CF.Contextual)
    requires TF.CanTestEmpty(tf)
    ensures forall f :: f in ExportFacts(db, tf, cf) ==>
      Translatable(f, RowIndex(Q.MatchingOtus(db, tf, cf, None)), ColumnIndex(Q.MatchingSamples(db, tf, cf)))
    ensures |Triples(ExportFacts(db, tf, cf), RowIndex(Q.MatchingOtus(db, tf, cf, None)), ColumnIndex(Q.MatchingSamples(db, tf, cf)))|
      == |ExportFacts(db, tf, cf)|
  {
    var rows := Q.MatchingSampleOtus(db, tf, cf, None);
    var facts := ExportFacts(db, tf, cf);
    var otus := Q.MatchingOtus(db, tf, cf, None);
    var samples := Q.MatchingSamples(db, tf, cf);
    forall f | f in facts ensures Translatable(f, RowIndex(otus), ColumnIndex(samples)) {
      var k :| 0 <= k < |facts| && facts[k] == f;
      var row := rows[k];
      Q.ExportClosure(db, tf, cf, row);
      OtuHasRow(otus, row.0.1);
      SampleHasColumn(samples, row.1);
    }
    TriplesComplete(facts, RowIndex(otus), ColumnIndex(samples));
  }

  /** On a database whose OTU ids are a primary key, every triple of the export points
      inside the declared shape. */
  lemma ExportWithinShape(db: Db, tf: TF.TaxonomyFilter, cf: CF.Contextual, i: nat)
    requires TF.CanTestEmpty(tf)
    requires UniqueOtuIds(db.otus)
    requires i < |ExportFacts(db, tf, cf)|
    ensures var f := ExportFacts(db, tf, cf)[i];
      && Translatable(f, RowIndex(Q.MatchingOtus(db, tf, cf, None)), ColumnIndex(Q.MatchingSamples(db, tf, cf)))
      && RowIndex(Q.MatchingOtus(db, tf, cf, None))[f.otuId] < |RowIndex(Q.MatchingOtus(db, tf, cf, None))|
      && ColumnIndex(Q.MatchingSamples(db, tf, cf))[f.sampleId] < |ColumnIndex(Q.MatchingSamples(db, tf, cf))|
  {
    var otus := Q.MatchingOtus(db, tf, cf, None);
    var samples := Q.MatchingSamples(db, tf, cf);
    var facts := ExportFacts(db, tf, cf);
    ExportHasNoKeyError(db, tf, cf);
    assert i < |Triples(facts, RowIndex(otus), ColumnIndex(samples))|;
    Q.MatchingOtusUnique(db, tf, cf, None);
    TriplesWithinShape(otus, samples, facts, i);
  }
}
