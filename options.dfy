/** `TaxonomyOptions._possibilities()`: given a taxonomy selection, the first level
    whose selection is missing or selects no OTU (the target), the options offered
    for it, and the levels the client must reset. */
module Options {
  import opened Py
  import opened Strings
  import opened Seqs
  import opened Tables
  import opened Selectors
  import opened TaxonomyFilters

  /** The dictionary `_possibilities` returns: `{}` for a complete hierarchy, otherwise
      `{'new_options': {'target': ..., 'possibilities': ...}, 'clear': [...]}`. */
  datatype Possibilities =
    | Complete
    | NewOptions(target: string, possibilities: seq<OntologyRow>, clear: seq<string>)

  function OtuItself(): Otu -> Otu
  {
    (o: Otu) => o
  }

  // ---------------------------------------------------------------------------
  // determine_target

  /** Some OTU passes the amplicon selector and the selectors of levels 0 .. n-1. */
  ghost predicate SomeOtuPasses(db: Db, tf: TaxonomyFilter, n: nat)
    requires n <= |tf.stateVector|
  {
    exists o :: o in db.otus && SelectorKeeps(tf.ampliconFilter, o.ampliconId) && PassesLevels(tf.stateVector, o, n)
  }

  /** Level k's selection is valid: it selects a value, and together with the
      selections above it still leaves some OTU. */
  ghost predicate Valid(db: Db, tf: TaxonomyFilter, k: nat)
    requires k < Steps(tf)
  {
    SelectedValue(tf.stateVector[k]).Some? && SomeOtuPasses(db, tf, k + 1)
  }

  /** t is the first invalid level. */
  ghost predicate FirstInvalid(db: Db, tf: TaxonomyFilter, t: nat)
  {
    t < Steps(tf) && !Valid(db, tf, t) && forall k :: 0 <= k < t ==> Valid(db, tf, k)
  }

  /** There is at most one first invalid level. */
  lemma FirstInvalidUnique(db: Db, tf: TaxonomyFilter, t: nat, t': nat)
    requires FirstInvalid(db, tf, t) && FirstInvalid(db, tf, t')
    ensures t == t'
  {
  }

  /** Either every level `zip` reaches is valid or there is a first invalid one. */
  lemma {:induction false} CompleteOrFirstInvalid(db: Db, tf: TaxonomyFilter, n: nat)
    requires n <= Steps(tf)
    ensures (forall k :: 0 <= k < n ==> Valid(db, tf, k)) || exists t: nat :: t < n && FirstInvalid(db, tf, t)
  {
    if n > 0 {
      CompleteOrFirstInvalid(db, tf, n - 1);
      if forall k :: 0 <= k < n - 1 ==> Valid(db, tf, k) {
        if !Valid(db, tf, n - 1) {
          assert FirstInvalid(db, tf, n - 1);
        }
      }
    }
  }

  /** The OTUs passing the amplicon selector and levels 0 .. n-1, as the running query. */
  function Narrowed(db: Db, tf: TaxonomyFilter, n: nat): seq<Otu>
    requires n <= |tf.stateVector|
  {
    ApplyLevels(tf.stateVector, ApplyAmplicon(tf, db.otus, OtuItself()), OtuItself(), n)
  }

  /** `q.count() > 0` on the running query is "some OTU passes". */
  lemma NarrowedNonEmpty(db: Db, tf: TaxonomyFilter, n: nat)
    requires n <= |tf.stateVector|
    ensures |Narrowed(db, tf, n)| > 0 <==> SomeOtuPasses(db, tf, n)
  {
    var q := Narrowed(db, tf, n);
    if |q| > 0 {
      assert q[0] in q;
    }
    if SomeOtuPasses(db, tf, n) {
      var o :| o in db.otus && SelectorKeeps(tf.ampliconFilter, o.ampliconId) && PassesLevels(tf.stateVector, o, n);
      assert o in q;
    }
  }

  /** One turn of `determine_target`'s loop: filtering the running query by level
      idx gives the next running query, and level idx is valid exactly when it
      selects a value and that query is not empty. */
  lemma NarrowStep(db: Db, tf: TaxonomyFilter, idx: nat)
    requires idx < Steps(tf)
    ensures ApplyOpAndValFilter(LevelOf(OtuItself(), idx), Narrowed(db, tf, idx), tf.stateVector[idx])
      == Narrowed(db, tf, idx + 1)
    ensures Valid(db, tf, idx) <==>
      SelectedValue(tf.stateVector[idx]).Some? && |Narrowed(db, tf, idx + 1)| > 0
  {
    NarrowedNonEmpty(db, tf, idx + 1);
  }

  /** `determine_target()`: walks the levels in hierarchy order, narrowing the OTUs
      level by level, and stops at the first level with no selected value or with no
      OTU left; None when every level is valid. */
  method DetermineTarget(db: Db, tf: TaxonomyFilter) returns (t: Option<nat>)
    ensures t.None? ==> forall k :: 0 <= k < Steps(tf) ==> Valid(db, tf, k)
    ensures t.Some? ==> FirstInvalid(db, tf, t.value)
  {
    var sv := tf.stateVector;
    var q := ApplyAmplicon(tf, db.otus, OtuItself());
    var idx := 0;
    while idx < Steps(tf)
      invariant idx <= Steps(tf)
      invariant q == Narrowed(db, tf, idx)
      invariant forall k :: 0 <= k < idx ==> Valid(db, tf, k)
    {
      var taxonomy := sv[idx];
      NarrowStep(db, tf, idx);
      if SelectedValue(taxonomy).None? {
        return Some(idx);
      }
      q := ApplyOpAndValFilter(LevelOf(OtuItself(), idx), q, taxonomy);
      if |q| == 0 {
        return Some(idx);
      }
      idx := idx + 1;
    }
    return None;
  }

  // ---------------------------------------------------------------------------
  // The options for the target level

  /** The state vector with the target level and every level after it reset to None,
      padded to the length of the hierarchy. */
  function Cleared(sv: seq<Option<OpAndVal>>, t: nat): (r: seq<Option<OpAndVal>>)
    requires t <= |sv| && t <= |Hierarchy|
    ensures |r| == |Hierarchy|
    ensures forall k :: 0 <= k < t ==> r[k] == sv[k]
    ensures forall k :: t <= k < |Hierarchy| ==> r[k].None?
  {
    sv[..t] + seq(|Hierarchy| - t, _ => None)
  }

  /** Reset levels select nothing: passing the cleared state is passing the levels
      before the target. */
  lemma {:induction false} ClearedPasses(sv: seq<Option<OpAndVal>>, t: nat, o: Otu, n: nat)
    requires t <= |sv| && t <= |Hierarchy| && n <= |Hierarchy|
    ensures PassesLevels(Cleared(sv, t), o, n) <==> PassesLevels(sv, o, if n < t then n else t)
  {
    if n > 0 {
      ClearedPasses(sv, t, o, n - 1);
    }
  }

  /** Ontology values ordered by `value`. */
  function ValueLe(): (OntologyRow, OntologyRow) -> bool
  {
    (a: OntologyRow, b: OntologyRow) => StrLe(a.value, b.value)
  }

  lemma ValueLeIsPreorder()
    ensures TotalPreorder(ValueLe())
  {
    forall a: OntologyRow, b: OntologyRow ensures ValueLe()(a, b) || ValueLe()(b, a) {
      StrLeTotal(a.value, b.value);
    }
    forall a: OntologyRow, b: OntologyRow, c: OntologyRow | ValueLe()(a, b) && ValueLe()(b, c)
      ensures ValueLe()(a, c)
    {
      StrLeTransitive(a.value, b.value, c.value);
    }
  }

  /** The row of level t's ontology table is the level-t value of some OTU that
      passes the amplicon selector and the selections before level t. */
  ghost predicate Offered(db: Db, tf: TaxonomyFilter, t: nat, row: OntologyRow)
    requires t <= |tf.stateVector|
  {
    && row in LevelTable(db, t)
    && exists o :: o in db.otus && SelectorKeeps(tf.ampliconFilter, o.ampliconId)
         && PassesLevels(tf.stateVector, o, t) && Level(o, t) == Some(row.id)
  }

  function JoinsLevel(t: nat): (Otu, OntologyRow) -> bool
  {
    (o: Otu, row: OntologyRow) => Level(o, t) == Some(row.id)
  }

  function RowOf(): ((Otu, OntologyRow)) -> OntologyRow
  {
    (p: (Otu, OntologyRow)) => p.1
  }

  /** The (id, value) rows of the target level over the OTUs that pass the amplicon
      selector and the cleared state, joined to the level's table, before GROUP BY. */
  function LevelRows(db: Db, tf: TaxonomyFilter, t: nat): seq<OntologyRow>
    requires t < Steps(tf)
  {
    var cleared := Cleared(tf.stateVector, t);
    var otus := ApplyLevels(cleared, ApplyAmplicon(tf, db.otus, OtuItself()), OtuItself(), |Hierarchy|);
    Select(JoinOn(otus, LevelTable(db, t), JoinsLevel(t)), RowOf())
  }

  /** The joined rows are exactly the offered ones: clearing the target and later
      levels leaves the selections before the target. */
  lemma LevelRowsOffered(db: Db, tf: TaxonomyFilter, t: nat, row: OntologyRow)
    requires t < Steps(tf)
    ensures row in LevelRows(db, tf, t) <==> Offered(db, tf, t, row)
  {
    var cleared := Cleared(tf.stateVector, t);
    var otus := ApplyLevels(cleared, ApplyAmplicon(tf, db.otus, OtuItself()), OtuItself(), |Hierarchy|);
    var joined := JoinOn(otus, LevelTable(db, t), JoinsLevel(t));
    SelectIn(joined, RowOf(), row);
    if Offered(db, tf, t, row) {
      var o :| o in db.otus && SelectorKeeps(tf.ampliconFilter, o.ampliconId)
        && PassesLevels(tf.stateVector, o, t) && Level(o, t) == Some(row.id);
      ClearedPasses(tf.stateVector, t, o, |Hierarchy|);
      assert (o, row) in joined;
    }
    if row in LevelRows(db, tf, t) {
      var p :| p in joined && RowOf()(p) == row;
      ClearedPasses(tf.stateVector, t, p.0, |Hierarchy|);
    }
  }

  /** The general branch: the distinct (id, value) pairs of the target level over the
      OTUs that pass the cleared state, joined to the level's table, ordered by value. */
  function OptionsAt(db: Db, tf: TaxonomyFilter, t: nat): (r: seq<OntologyRow>)
    requires t < Steps(tf)
    ensures forall row :: row in r <==> Offered(db, tf, t, row)
    ensures NoDuplicates(r)
    ensures SortedBy(r, ValueLe())
  {
    var distinct := Distinct(LevelRows(db, tf, t));
    ValueLeIsPreorder();
    var r := SortBy(distinct, ValueLe());
    SortByIn(distinct, ValueLe());
    NoDuplicatesPermutation(r, distinct);
    assert forall row :: row in r <==> Offered(db, tf, t, row) by {
      forall row ensures row in r <==> Offered(db, tf, t, row) {
        LevelRowsOffered(db, tf, t, row);
      }
    }
    r
  }

  /** The names of the target level and the levels after it, without `_id`. */
  function Clears(t: nat): (r: seq<string>)
    requires t <= |Hierarchy|
    ensures |r| == |Hierarchy| - t
    ensures forall i :: 0 <= i < |r| ==> r[i] == DropId(Hierarchy[t + i])
  {
    Select(Hierarchy[t..], (a: string) => DropId(a))
  }

  /** The result for target t: the kingdom fast path lists the whole kingdom table
      when there is no amplicon selection. */
  function PossibilitiesAt(db: Db, tf: TaxonomyFilter, t: nat): (r: Possibilities)
    requires t < Steps(tf)
    ensures r.NewOptions? && r.target == DropId(Hierarchy[t]) && r.clear == Clears(t)
    ensures t == 0 && !IsTruthy(tf.ampliconFilter) ==> r.possibilities == LevelTable(db, 0)
    ensures t > 0 || IsTruthy(tf.ampliconFilter) ==> r.possibilities == OptionsAt(db, tf, t)
  {
    var options := if t == 0 && !IsTruthy(tf.ampliconFilter) then LevelTable(db, 0) else OptionsAt(db, tf, t);
    NewOptions(DropId(Hierarchy[t]), options, Clears(t))
  }

  /** The fast path offers every kingdom the general branch would offer (and also
      kingdoms no OTU has). */
  lemma FastPathCovers(db: Db, tf: TaxonomyFilter, row: OntologyRow)
    requires 0 < Steps(tf)
    requires row in OptionsAt(db, tf, 0)
    ensures row in PossibilitiesAt(db, tf, 0).possibilities
  {
  }

  /** `_possibilities(taxonomy_filter)`. */
  method ComputePossibilities(db: Db, tf: TaxonomyFilter) returns (r: Possibilities)
    ensures (forall k :: 0 <= k < Steps(tf) ==> Valid(db, tf, k)) ==> r == Complete
    ensures forall t :: FirstInvalid(db, tf, t) ==> r == PossibilitiesAt(db, tf, t)
  {
    var target := DetermineTarget(db, tf);
    if target.None? {
      return Complete;
    }
    r := PossibilitiesAt(db, tf, target.value);
    forall t | FirstInvalid(db, tf, t) ensures r == PossibilitiesAt(db, tf, t) {
      FirstInvalidUnique(db, tf, t, target.value);
    }
  }
}
