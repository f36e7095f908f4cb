/** `TaxonomyFilter`: an amplicon selector and one selector per level of the
    taxonomic hierarchy, applied as a conjunction of `=` / `!=` tests on OTUs. */
module TaxonomyFilters {
  import opened Py
  import opened Strings
  import opened Seqs
  import opened Tables
  import opened Selectors

  /** `TaxonomyOptions.hierarchy`: the OTU columns, kingdom first. */
  const Hierarchy: seq<string> :=
    ["kingdom_id", "phylum_id", "class_id", "order_id", "family_id", "genus_id", "species_id"]

  datatype TaxonomyFilter = TaxonomyFilter(ampliconFilter: Option<OpAndVal>, stateVector: seq<Option<OpAndVal>>)

  /** The number of levels `zip(hierarchy, state_vector)` visits. */
  function Steps(tf: TaxonomyFilter): (n: nat)
    ensures n <= |Hierarchy| && n <= |tf.stateVector|
    ensures n == |Hierarchy| || n == |tf.stateVector|
  {
    if |tf.stateVector| < |Hierarchy| then |tf.stateVector| else |Hierarchy|
  }

  /** `apply_amplicon_filter(q, amplicon_filter)` on rows carrying an OTU. */
  function ApplyAmplicon<R(!new)>(tf: TaxonomyFilter, q: seq<R>, otuOf: R -> Otu): (r: seq<R>)
    ensures forall x :: x in r <==> x in q && SelectorKeeps(tf.ampliconFilter, otuOf(x).ampliconId)
  {
    ApplyOpAndValFilter(AmpliconOf(otuOf), q, tf.ampliconFilter)
  }

  /** The column `amplicon_id` of a row's OTU. */
  function AmpliconOf<R>(otuOf: R -> Otu): R -> Option<int>
  {
    (x: R) => otuOf(x).ampliconId
  }

  /** The column of hierarchy level k of a row's OTU. */
  function LevelOf<R>(otuOf: R -> Otu, k: nat): R -> Option<int>
  {
    (x: R) => Level(otuOf(x), k)
  }

  /** Whether an OTU passes the selectors of levels 0 .. n-1. */
  predicate PassesLevels(sv: seq<Option<OpAndVal>>, o: Otu, n: nat)
    requires n <= |sv|
  {
    n == 0 || (PassesLevels(sv, o, n - 1) && SelectorKeeps(sv[n - 1], Level(o, n - 1)))
  }

  /** Passing levels 0 .. n-1 is passing each of them. */
  lemma {:induction false} PassesLevelsEach(sv: seq<Option<OpAndVal>>, o: Otu, n: nat)
    requires n <= |sv|
    ensures PassesLevels(sv, o, n) <==> forall k :: 0 <= k < n ==> SelectorKeeps(sv[k], Level(o, k))
  {
    if n > 0 {
      PassesLevelsEach(sv, o, n - 1);
    }
  }

  /** The level filters of levels 0 .. n-1 applied in hierarchy order, as the loop in
      `apply` and `determine_target` does. */
  function ApplyLevels<R(!new)>(sv: seq<Option<OpAndVal>>, q: seq<R>, otuOf: R -> Otu, n: nat): (r: seq<R>)
    requires n <= |sv|
    ensures forall x :: x in r <==> x in q && PassesLevels(sv, otuOf(x), n)
  {
    if n == 0 then q
    else ApplyOpAndValFilter(LevelOf(otuOf, n - 1), ApplyLevels(sv, q, otuOf, n - 1), sv[n - 1])
  }

  /** Whether an OTU passes the whole filter. */
  ghost predicate Keeps(tf: TaxonomyFilter, o: Otu)
  {
    SelectorKeeps(tf.ampliconFilter, o.ampliconId) && PassesLevels(tf.stateVector, o, Steps(tf))
  }

  /** An OTU passes the filter when it passes the amplicon selector and the selector
      of every level `zip` reaches. */
  lemma KeepsEach(tf: TaxonomyFilter, o: Otu)
    ensures Keeps(tf, o) <==>
      SelectorKeeps(tf.ampliconFilter, o.ampliconId) &&
      forall k :: 0 <= k < Steps(tf) ==> SelectorKeeps(tf.stateVector[k], Level(o, k))
  {
    PassesLevelsEach(tf.stateVector, o, Steps(tf));
  }

  /** `TaxonomyFilter.apply(q)`. */
  function Apply<R(!new)>(tf: TaxonomyFilter, q: seq<R>, otuOf: R -> Otu): (r: seq<R>)
    ensures forall x :: x in r <==> x in q && Keeps(tf, otuOf(x))
  {
    ApplyLevels(tf.stateVector, ApplyAmplicon(tf, q, otuOf), otuOf, Steps(tf))
  }

  function PassesLevelsOf<R>(sv: seq<Option<OpAndVal>>, otuOf: R -> Otu, n: nat): R -> bool
    requires n <= |sv|
  {
    (x: R) => PassesLevels(sv, otuOf(x), n)
  }

  ghost function KeepsOf<R>(tf: TaxonomyFilter, otuOf: R -> Otu): R -> bool
  {
    (x: R) => Keeps(tf, otuOf(x))
  }

  /** The level filters keep the order of the rows: they are one WHERE. */
  lemma {:induction false} ApplyLevelsIsWhere<R(!new)>(sv: seq<Option<OpAndVal>>, q: seq<R>, otuOf: R -> Otu, n: nat)
    requires n <= |sv|
    ensures ApplyLevels(sv, q, otuOf, n) == Where(q, PassesLevelsOf(sv, otuOf, n))
  {
    var all := PassesLevelsOf(sv, otuOf, n);
    if n == 0 {
      WhereAll(q, all);
    } else {
      var before := PassesLevelsOf(sv, otuOf, n - 1);
      var here := KeptBy(sv[n - 1], LevelOf(otuOf, n - 1));
      ApplyLevelsIsWhere(sv, q, otuOf, n - 1);
      var prev := ApplyLevels(sv, q, otuOf, n - 1);
      assert prev == Where(q, before);
      ApplyOpAndValFilterIsWhere(LevelOf(otuOf, n - 1), prev, sv[n - 1]);
      assert Where(Where(q, before), here) == Where(q, all) by {
        forall x | x in q
          ensures all(x) == (before(x) && here(x))
        {
          assert all(x) == PassesLevels(sv, otuOf(x), n);
        }
        WhereWhere(q, before, here, all);
      }
    }
  }

  /** `apply` keeps exactly, and in order, the rows whose OTU the filter keeps. */
  lemma ApplyIsWhere<R(!new)>(tf: TaxonomyFilter, q: seq<R>, otuOf: R -> Otu)
    ensures Apply(tf, q, otuOf) == Where(q, KeepsOf(tf, otuOf))
  {
    var amp := KeptBy(tf.ampliconFilter, AmpliconOf(otuOf));
    var levels := PassesLevelsOf(tf.stateVector, otuOf, Steps(tf));
    ApplyOpAndValFilterIsWhere(AmpliconOf(otuOf), q, tf.ampliconFilter);
    ApplyLevelsIsWhere(tf.stateVector, ApplyAmplicon(tf, q, otuOf), otuOf, Steps(tf));
    WhereWhere(q, amp, levels, KeepsOf(tf, otuOf));
  }

  // ---------------------------------------------------------------------------
  // is_empty

  /** `state_vector[0]` can be read (or is not reached, the amplicon test deciding first). */
  predicate CanTestEmpty(tf: TaxonomyFilter)
  {
    IsTruthy(tf.ampliconFilter) || |tf.stateVector| > 0
  }

  /** `is_empty()`: no amplicon selector and no kingdom selector; the later levels
      are not consulted. */
  predicate IsEmpty(tf: TaxonomyFilter): (r: bool)
    requires CanTestEmpty(tf)
    ensures r ==> SelectedValue(tf.ampliconFilter).None? && |tf.stateVector| > 0 && SelectedValue(tf.stateVector[0]).None?
  {
    !IsTruthy(tf.ampliconFilter) && tf.stateVector[0].None?
  }

  /** A filter that is empty and selects nothing at any level keeps every OTU. */
  lemma EmptyKeepsAll(tf: TaxonomyFilter, o: Otu)
    requires CanTestEmpty(tf) && IsEmpty(tf)
    requires forall k :: 0 <= k < |tf.stateVector| ==> tf.stateVector[k].None?
    ensures Keeps(tf, o)
  {
    KeepsEach(tf, o);
  }

  /** But only level 0 is looked at: a filter can be "empty" and still narrow the OTUs. */
  lemma EmptyCanStillNarrow()
    ensures var tf := TaxonomyFilter(None, [None, Some(OpAndVal(Has("is"), Has(5)))]);
      var o := Otu(1, "x", None, [Some(2), Some(6)]);
      CanTestEmpty(tf) && IsEmpty(tf) && !Keeps(tf, o)
  {
    var tf := TaxonomyFilter(None, [None, Some(OpAndVal(Has("is"), Has(5)))]);
    var o := Otu(1, "x", None, [Some(2), Some(6)]);
    assert !SelectorKeeps(tf.stateVector[1], Level(o, 1));
  }

  // ---------------------------------------------------------------------------
  // describe

  function LevelTable(db: Db, k: nat): OntologyTable
  {
    if k < |db.levelTables| then db.levelTables[k] else []
  }

  /** The number of levels among 0 .. n-1 that carry a selector. */
  function Selected(sv: seq<Option<OpAndVal>>, n: nat): (c: nat)
    requires n <= |sv|
    ensures c <= n
  {
    if n == 0 then 0 else Selected(sv, n - 1) + (if sv[n - 1].Some? then 1 else 0)
  }

  /** The description of level k's selector: something exactly when the level has a
      selector, and never "". */
  function DescribeLevel(db: Db, sv: seq<Option<OpAndVal>>, k: nat): (r: Outcome<Option<string>>)
    requires k < |sv| && k < |Hierarchy|
    ensures r.Ok? ==> (r.value.Some? <==> sv[k].Some?) && (r.value.Some? ==> r.value.value != "")
  {
    var r := DescribeOpAndVal(LevelTable(db, k), Hierarchy[k], sv[k]);
    assert r.Ok? && r.value.Some? ==> IsPrefix(DropId(Hierarchy[k]) + " is ", r.value.value);
    r
  }

  /** Appending the text of level n-1, when it has a selector, keeps each selected
      level's text at its place. */
  lemma PlacedAppend(sv: seq<Option<OpAndVal>>, n: nat, done: seq<string>, next: seq<string>, text: nat -> string)
    requires 0 < n <= |sv|
    requires |done| == Selected(sv, n - 1)
    requires forall k :: 0 <= k < n - 1 && sv[k].Some? ==> Selected(sv, k) < |done| && done[Selected(sv, k)] == text(k)
    requires next == if sv[n - 1].Some? then done + [text(n - 1)] else done
    ensures |next| == Selected(sv, n)
    ensures forall k :: 0 <= k < n && sv[k].Some? ==> Selected(sv, k) < |next| && next[Selected(sv, k)] == text(k)
  {
    forall k | 0 <= k < n && sv[k].Some?
      ensures Selected(sv, k) < |next| && next[Selected(sv, k)] == text(k)
    {
      if k < n - 1 {
        assert next[Selected(sv, k)] == done[Selected(sv, k)];
      }
    }
  }

  /** Level k's description text: the text `DescribeLevel` gives, "" when it gives
      none. */
  function LevelText(db: Db, sv: seq<Option<OpAndVal>>, k: nat): string
  {
    if k < |sv| && k < |Hierarchy| then
      match DescribeLevel(db, sv, k)
      case Ok(Some(t)) => t
      case _ => ""
    else ""
  }

  /** The descriptions of the selectors of levels 0 .. n-1 that describe something:
      one entry per level with a selector, in level order, each that level's
      `describe_op_and_val` text. Any level whose description raises makes the whole
      call raise. */
  function DescribeLevels(db: Db, sv: seq<Option<OpAndVal>>, n: nat): (r: Outcome<seq<string>>)
    requires n <= |sv| && n <= |Hierarchy|
    ensures r.Ok? <==> forall k :: 0 <= k < n ==> DescribeLevel(db, sv, k).Ok?
    ensures r.Ok? ==> |r.value| == Selected(sv, n)
    ensures r.Ok? ==> forall k :: 0 <= k < n && sv[k].Some? ==>
      Selected(sv, k) < |r.value| && r.value[Selected(sv, k)] == LevelText(db, sv, k)
    ensures r == Ok([]) <==> forall k :: 0 <= k < n ==> sv[k].None?
  {
    if n == 0 then Ok([])
    else
      match DescribeLevels(db, sv, n - 1)
      case Raised(e) => Raised(e)
      case Ok(done) =>
        match DescribeLevel(db, sv, n - 1)
        case Raised(e) => Raised(e)
        case Ok(d) =>
          var next := if d.Some? then done + [d.value] else done;
          PlacedAppend(sv, n, done, next, (k: nat) => LevelText(db, sv, k));
          assert next == [] <==> done == [] && sv[n - 1].None?;
          Ok(next)
  }

  /** `describe()`: the amplicon description and the list of level descriptions. */
  function Describe(db: Db, tf: TaxonomyFilter): (r: Outcome<(Option<string>, seq<string>)>)
    ensures r.Ok? <==>
      DescribeOpAndVal(db.ampliconTable, "amplicon_id", tf.ampliconFilter).Ok? &&
      DescribeLevels(db, tf.stateVector, Steps(tf)).Ok?
    ensures r.Ok? ==> (r.value.0.None? <==> tf.ampliconFilter.None?)
    ensures r.Ok? ==> r.value.0 == DescribeOpAndVal(db.ampliconTable, "amplicon_id", tf.ampliconFilter).value
    ensures r.Ok? ==> |r.value.1| <= Steps(tf) && r.value.1 == DescribeLevels(db, tf.stateVector, Steps(tf)).value
  {
    match DescribeOpAndVal(db.ampliconTable, "amplicon_id", tf.ampliconFilter)
    case Raised(e) => Raised(e)
    case Ok(a) =>
      match DescribeLevels(db, tf.stateVector, Steps(tf))
      case Raised(e) => Raised(e)
      case Ok(levels) => Ok((a, levels))
  }

  /** A filter describes nothing exactly when it selects nothing. */
  lemma DescribeNothing(db: Db, tf: TaxonomyFilter)
    ensures Describe(db, tf) == Ok((None, [])) <==>
      tf.ampliconFilter.None? && forall k :: 0 <= k < Steps(tf) ==> tf.stateVector[k].None?
  {
  }

  // ---------------------------------------------------------------------------
  // __repr__

  function SelectorReprs(sv: seq<Option<OpAndVal>>): (r: seq<string>)
    ensures |r| == |sv|
    ensures forall k :: 0 <= k < |sv| ==> r[k] == SelectorRepr(sv[k])
  {
    if sv == [] then [] else [SelectorRepr(sv[0])] + SelectorReprs(sv[1..])
  }

  /** `str(state_vector)`: the selectors' texts between brackets, comma-separated. */
  function SelectorListRepr(sv: seq<Option<OpAndVal>>): string
  {
    "[" + Join(", ", SelectorReprs(sv)) + "]"
  }

  /** `'<TaxonomyFilter(%s,state_vec[%s])>' % (amplicon_filter, state_vector)`. */
  function Repr(tf: TaxonomyFilter): (r: string)
    ensures IsPrefix("<TaxonomyFilter(" + SelectorRepr(tf.ampliconFilter) + ",state_vec[", r)
  {
    var head := "<TaxonomyFilter(" + SelectorRepr(tf.ampliconFilter) + ",state_vec[";
    var text := head + SelectorListRepr(tf.stateVector) + "])>";
    assert text[..|head|] == head;
    text
  }

  // ---------------------------------------------------------------------------
  // Reading a filter back from its repr

  /** Reads comma-separated selectors through the closing bracket of a list. */
  function ReadSelectorItems(s: string): Option<(seq<Option<OpAndVal>>, string)>
    decreases |s|
  {
    match ReadSelector(s)
    case None => None
    case Some((sel, t)) =>
      if t != [] && t[0] == ']' then Some(([sel], t[1..]))
      else if |t| < |s| then
        match Skip(", ", t)
        case None => None
        case Some(u) =>
          match ReadSelectorItems(u)
          case None => None
          case Some((more, rest)) => Some(([sel] + more, rest))
      else None
  }

  /** Reads a list of selectors after its opening bracket, through its closing one. */
  function ReadSelectorList(s: string): Option<(seq<Option<OpAndVal>>, string)>
  {
    if s != [] && s[0] == ']' then Some(([], s[1..])) else ReadSelectorItems(s)
  }

  /** Reads a filter from the whole of a text. */
  function ReadTaxonomyFilter(s: string): Option<TaxonomyFilter>
  {
    match Skip("<TaxonomyFilter(", s)
    case None => None
    case Some(a) =>
      match ReadSelector(a)
      case None => None
      case Some((amplicon, b)) =>
        match Skip(",state_vec[", b)
        case None => None
        case Some(c) =>
          if c != [] && c[0] == '[' then
            match ReadSelectorList(c[1..])
            case None => None
            case Some((sv, d)) => if d == "])>" then Some(TaxonomyFilter(amplicon, sv)) else None
          else None
  }

  /** The last selector of a list, followed by the closing bracket. */
  lemma ItemsLast(sel: Option<OpAndVal>, rest: string)
    ensures ReadSelectorItems(SelectorRepr(sel) + ("]" + rest)) == Some(([sel], rest))
  {
    SelectorReadBack(sel, "]" + rest);
    assert ("]" + rest)[1..] == rest;
  }

  /** A selector followed by a separator: reading goes on after the separator. */
  lemma ItemsStep(sel: Option<OpAndVal>, u: string)
    ensures ReadSelectorItems(SelectorRepr(sel) + (", " + u)) ==
      match ReadSelectorItems(u)
      case None => None
      case Some((more, rest)) => Some(([sel] + more, rest))
  {
    SelectorReadBack(sel, ", " + u);
    assert (", " + u)[0] == ',';
    SkipJoined(", ", u);
  }

  lemma ItemsCons(sel: Option<OpAndVal>, more: seq<Option<OpAndVal>>, text: string, tail: string, rest: string)
    requires text == SelectorRepr(sel) + (", " + tail)
    requires ReadSelectorItems(tail) == Some((more, rest))
    ensures ReadSelectorItems(text) == Some(([sel] + more, rest))
  {
    ItemsStep(sel, tail);
  }

  /** The list text of two or more selectors: the first, a separator, the others. */
  lemma ItemsText(sv: seq<Option<OpAndVal>>, rest: string)
    requires |sv| > 1
    ensures Join(", ", SelectorReprs(sv)) + ("]" + rest) ==
      SelectorRepr(sv[0]) + (", " + (Join(", ", SelectorReprs(sv[1..])) + ("]" + rest)))
  {
    JoinCons(", ", SelectorReprs(sv), "]" + rest);
    assert SelectorReprs(sv)[1..] == SelectorReprs(sv[1..]);
  }

  lemma {:induction false} ItemsReadBack(sv: seq<Option<OpAndVal>>, rest: string)
    requires sv != []
    ensures ReadSelectorItems(Join(", ", SelectorReprs(sv)) + ("]" + rest)) == Some((sv, rest))
    decreases |sv|
  {
    if |sv| == 1 {
      assert Join(", ", SelectorReprs(sv)) == SelectorRepr(sv[0]);
      ItemsLast(sv[0], rest);
      assert [sv[0]] == sv;
    } else {
      ItemsText(sv, rest);
      ItemsReadBack(sv[1..], rest);
      ItemsCons(sv[0], sv[1..], Join(", ", SelectorReprs(sv)) + ("]" + rest),
        Join(", ", SelectorReprs(sv[1..])) + ("]" + rest), rest);
      assert [sv[0]] + sv[1..] == sv;
    }
  }

  /** A state vector's list text, followed by anything, reads back as the vector and
      what follows. */
  lemma ListReadBack(sv: seq<Option<OpAndVal>>, rest: string)
    ensures ReadSelectorList(Join(", ", SelectorReprs(sv)) + ("]" + rest)) == Some((sv, rest))
  {
    if sv == [] {
      assert Join(", ", SelectorReprs(sv)) + ("]" + rest) == "]" + rest;
      assert ("]" + rest)[1..] == rest;
    } else {
      var first := SelectorRepr(sv[0]);
      var text := Join(", ", SelectorReprs(sv)) + ("]" + rest);
      JoinStartsWithFirst(", ", SelectorReprs(sv));
      assert text[0] == first[0] != ']';
      ItemsReadBack(sv, rest);
    }
  }

  lemma Nest(a: string, b: string, c: string, o: string, j: string, cl: string, d: string)
    ensures a + b + c + (o + j + cl) + d == a + (b + (c + (o + (j + (cl + d)))))
  {
  }

  lemma ReprText(tf: TaxonomyFilter)
    ensures Repr(tf) == "<TaxonomyFilter(" + (SelectorRepr(tf.ampliconFilter) + (",state_vec[" + ("[" +
      (Join(", ", SelectorReprs(tf.stateVector)) + ("]" + "])>")))))
  {
    Nest("<TaxonomyFilter(", SelectorRepr(tf.ampliconFilter), ",state_vec[",
      "[", Join(", ", SelectorReprs(tf.stateVector)), "]", "])>");
  }

  /** `repr()` of a taxonomy filter loses nothing: the filter reads back from it. */
  lemma ReprReadBack(tf: TaxonomyFilter)
    ensures ReadTaxonomyFilter(Repr(tf)) == Some(tf)
  {
    var list := Join(", ", SelectorReprs(tf.stateVector)) + ("]" + "])>");
    var c := "[" + list;
    var b := ",state_vec[" + c;
    var a := SelectorRepr(tf.ampliconFilter) + b;
    ReprText(tf);
    SkipJoined("<TaxonomyFilter(", a);
    SelectorReadBack(tf.ampliconFilter, b);
    SkipJoined(",state_vec[", c);
    assert c[0] == '[' && c[1..] == list;
    ListReadBack(tf.stateVector, "])>");
  }

  /** Distinct taxonomy filters have distinct reprs, so the cache keys built from
      them never mix two filters up. */
  lemma ReprInjective(a: TaxonomyFilter, b: TaxonomyFilter)
    requires Repr(a) == Repr(b)
    ensures a == b
  {
    ReprReadBack(a);
    ReprReadBack(b);
  }
}
