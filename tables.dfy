/** The tables the query layer reads: OTUs, samples (SampleContext), abundance
    facts (SampleOTU) and the ontology tables, held in memory. */
module Tables {
  import opened Py
  import opened Seqs

  /** An OTU. `taxonomy[k]` is its id at hierarchy level k (kingdom_id .. species_id),
      None where the column is NULL. */
  datatype Otu = Otu(id: int, code: string, ampliconId: Option<int>, taxonomy: seq<Option<int>>)

  /** A sample: its id and the values of its other SampleContext columns. */
  datatype Sample = Sample(id: int, columns: map<string, PyValue>)

  /** A SampleOTU row: a non-zero entry of the abundance matrix. */
  datatype Fact = Fact(sampleId: int, otuId: int, count: int)

  /** A row of an ontology table (OTUKingdom, Environment, ...). */
  datatype OntologyRow = OntologyRow(id: int, value: string)

  type OntologyTable = seq<OntologyRow>

  datatype Db = Db(
    otus: seq<Otu>,
    samples: seq<Sample>,
    facts: seq<Fact>,
    sampleColumns: seq<string>,                  // SampleContext.__table__.columns, "id" included
    ampliconTable: OntologyTable,                // OTUAmplicon
    levelTables: seq<OntologyTable>,             // OTUKingdom .. OTUSpecies
    environmentTable: OntologyTable,             // Environment
    fieldOntologies: map<string, OntologyTable>, // the ontology_class of each ontology-coded SampleContext column
    importUuid: string)                          // ImportMetadata.uuid of the loaded dataset

  /** `getattr(otu, <level>_id)`. */
  function Level(o: Otu, k: nat): Option<int>
  {
    if k < |o.taxonomy| then o.taxonomy[k] else None
  }

  /** `getattr(sample, name)`; a column the record does not hold reads as NULL. */
  function Column(s: Sample, name: string): PyValue
  {
    if name == "id" then PInt(s.id)
    else if name in s.columns then s.columns[name]
    else PNone
  }

  /** A foreign-key column's value: an id, or None for NULL. */
  function AsId(v: PyValue): Option<int>
  {
    if v.PInt? then Some(v.i) else None
  }

  function EnvironmentId(s: Sample): Option<int>
  {
    AsId(Column(s, "environment_id"))
  }

  // ---------------------------------------------------------------------------
  // Primary keys

  function OtuKey(): Otu -> int
  {
    (o: Otu) => o.id
  }

  function SampleKey(): Sample -> int
  {
    (s: Sample) => s.id
  }

  ghost predicate UniqueOtuIds(otus: seq<Otu>)
  {
    UniqueKeys(otus, OtuKey())
  }

  ghost predicate UniqueSampleIds(samples: seq<Sample>)
  {
    UniqueKeys(samples, SampleKey())
  }

  ghost predicate UniqueOntologyIds(table: OntologyTable)
  {
    forall i, j :: 0 <= i < j < |table| ==> table[i].id != table[j].id
  }

  /** The database the source runs against: primary keys are unique. */
  ghost predicate WellFormed(db: Db)
  {
    && UniqueOtuIds(db.otus)
    && UniqueSampleIds(db.samples)
    && UniqueOntologyIds(db.ampliconTable)
    && UniqueOntologyIds(db.environmentTable)
    && (forall k :: 0 <= k < |db.levelTables| ==> UniqueOntologyIds(db.levelTables[k]))
  }

  // ---------------------------------------------------------------------------
  // Ontology lookups (OntologyInfo.id_to_value)

  function RowsWithId(table: OntologyTable, id: int): (r: seq<OntologyRow>)
    ensures forall row :: row in r <==> row in table && row.id == id
  {
    Where(table, (row: OntologyRow) => row.id == id)
  }

  /** `id_to_value(cls, id)`: None for None, otherwise the value of the one row with that
      id; `.one()` raises when there is no such row or more than one. */
  function IdToValue(table: OntologyTable, id: Option<int>): (r: Outcome<Option<string>>)
    ensures id.None? ==> r == Ok(None)
    ensures id.Some? && r.Ok? ==> r.value.Some? && OntologyRow(id.value, r.value.value) in table
    ensures id.Some? ==> (r == Raised(NoResultFound) <==> forall row :: row in table ==> row.id != id.value)
    ensures UniqueOntologyIds(table) ==> r != Raised(MultipleResultsFound)
  {
    if id.None? then Ok(None)
    else
      var rows := RowsWithId(table, id.value);
      if |rows| == 0 then
        Raised(NoResultFound)
      else if |rows| > 1 then
        assert !UniqueOntologyIds(table) by {
          if UniqueOntologyIds(table) {
            RowsWithIdAtMostOne(table, id.value);
          }
        }
        assert rows[0] in rows;
        Raised(MultipleResultsFound)
      else
        assert rows[0] in rows;
        Ok(Some(rows[0].value))
  }

  lemma {:induction false} RowsWithIdAtMostOne(table: OntologyTable, id: int)
    requires UniqueOntologyIds(table)
    ensures |RowsWithId(table, id)| <= 1
  {
    if table != [] {
      var rest := table[1..];
      assert UniqueOntologyIds(rest) by {
        forall i, j | 0 <= i < j < |rest| ensures rest[i].id != rest[j].id {
          assert rest[i] == table[i + 1] && rest[j] == table[j + 1];
        }
      }
      RowsWithIdAtMostOne(rest, id);
      if table[0].id == id {
        assert forall row :: row in rest ==> row.id != id by {
          forall row | row in rest ensures row.id != id {
            var k :| 0 <= k < |rest| && rest[k] == row;
            assert table[k + 1] == row;
          }
        }
        WhereNone(rest, (row: OntologyRow) => row.id == id);
        assert table == [table[0]] + rest;
      }
    }
  }

  // ---------------------------------------------------------------------------
  // Joins

  /** SampleOTU joined to OTU on `OTU.id == SampleOTU.otu_id`. */
  function FactOtuRows(db: Db): (r: seq<(Fact, Otu)>)
    ensures forall p :: p in r <==> p.0 in db.facts && p.1 in db.otus && p.1.id == p.0.otuId
  {
    JoinOn(db.facts, db.otus, (f: Fact, o: Otu) => o.id == f.otuId)
  }

  /** SampleOTU joined to SampleContext on `SampleContext.id == SampleOTU.sample_id`. */
  function FactSampleRows(db: Db): (r: seq<(Fact, Sample)>)
    ensures forall p :: p in r <==> p.0 in db.facts && p.1 in db.samples && p.1.id == p.0.sampleId
  {
    JoinOn(db.facts, db.samples, (f: Fact, s: Sample) => s.id == f.sampleId)
  }

  /** The cross join OTU x SampleOTU x SampleContext narrowed to matching ids. */
  function AbundanceRows(db: Db): (r: seq<((Fact, Otu), Sample)>)
    ensures forall p :: p in r <==>
      p.0.0 in db.facts && p.0.1 in db.otus && p.1 in db.samples &&
      p.0.1.id == p.0.0.otuId && p.1.id == p.0.0.sampleId
  {
    JoinOn(FactOtuRows(db), db.samples, (fo: (Fact, Otu), s: Sample) => s.id == fo.0.sampleId)
  }

  // ---------------------------------------------------------------------------
  // ORDER BY id

  function OtuIdLe(): (Otu, Otu) -> bool
  {
    (a: Otu, b: Otu) => a.id <= b.id
  }

  function SampleIdLe(): (Sample, Sample) -> bool
  {
    (a: Sample, b: Sample) => a.id <= b.id
  }

  lemma IdOrdersArePreorders()
    ensures TotalPreorder(OtuIdLe())
    ensures TotalPreorder(SampleIdLe())
  {
  }
}
