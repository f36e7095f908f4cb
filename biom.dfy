/** The BIOM 1.0 export (`generate_biom_file`): the JSON document as a sequence of
    text fragments, with OTU rows and sample columns numbered by first encounter and
    the abundance facts translated through those numbers. */
module BiomExport {
  import opened Py
  import opened Strings
  import opened Seqs
  import opened Tables

  // ---------------------------------------------------------------------------
  // interpose and wrap

  /** The `sep, x` pairs `interpose` yields after the first element. */
  function Separated(xs: seq<string>, sep: string): (r: seq<string>)
    ensures |r| == 2 * |xs|
    ensures forall i :: 0 <= i < |xs| ==> r[2 * i] == sep && r[2 * i + 1] == xs[i]
  {
    if xs == [] then []
    else
      var rest := Separated(xs[1..], sep);
      SeparatedStep(xs, sep, rest);
      [sep, xs[0]] + rest
  }

  /** A separator and the first element in front of the separated tail keep every
      element after its own separator. */
  lemma SeparatedStep(xs: seq<string>, sep: string, rest: seq<string>)
    requires xs != []
    requires |rest| == 2 * (|xs| - 1)
    requires forall i :: 0 <= i < |xs| - 1 ==> rest[2 * i] == sep && rest[2 * i + 1] == xs[1..][i]
    ensures forall i :: 0 <= i < |xs| ==> ([sep, xs[0]] + rest)[2 * i] == sep && ([sep, xs[0]] + rest)[2 * i + 1] == xs[i]
  {
    var r := [sep, xs[0]] + rest;
    forall i | 1 <= i < |xs| ensures r[2 * i] == sep && r[2 * i + 1] == xs[i] {
      var j := i - 1;
      assert 2 * i == 2 * j + 2;
      assert r[2 * j + 2] == rest[2 * j] && r[2 * j + 3] == rest[2 * j + 1];
      assert xs[1..][j] == xs[i];
    }
  }

  /** `interpose(it, sep)`: nothing for no elements, otherwise the elements in order
      with one separator between neighbours. */
  function Interpose(xs: seq<string>, sep: string): (r: seq<string>)
    ensures xs == [] ==> r == []
    ensures xs != [] ==> |r| == 2 * |xs| - 1
    ensures forall i :: 0 <= i < |xs| ==> r[2 * i] == xs[i]
    ensures forall i :: 0 <= i < |xs| - 1 ==> r[2 * i + 1] == sep
  {
    if xs == [] then [] else [xs[0]] + Separated(xs[1..], sep)
  }

  lemma {:induction false} SeparatedConcat(xs: seq<string>, sep: string)
    ensures Concat(Separated(xs, sep)) == if xs == [] then "" else sep + Join(sep, xs)
  {
    if xs != [] {
      var tail := Separated(xs[1..], sep);
      assert Separated(xs, sep) == [sep, xs[0]] + tail;
      ConcatPair(sep, xs[0], tail);
      SeparatedConcat(xs[1..], sep);
      JoinStep(sep, xs, Concat(tail));
    }
  }

  lemma ConcatOne(a: string, t: seq<string>)
    ensures Concat([a] + t) == a + Concat(t)
  {
    assert ([a] + t)[1..] == t;
  }

  lemma ConcatPair(a: string, b: string, t: seq<string>)
    ensures Concat([a, b] + t) == a + (b + Concat(t))
  {
    assert [a, b] + t == [a] + ([b] + t);
    ConcatOne(a, [b] + t);
    ConcatOne(b, t);
  }

  /** The first part followed by the separated rest is the joined whole. */
  lemma JoinStep(sep: string, xs: seq<string>, rest: string)
    requires xs != []
    requires rest == if xs[1..] == [] then "" else sep + Join(sep, xs[1..])
    ensures xs[0] + rest == Join(sep, xs)
  {
    if |xs| == 1 {
      assert xs[1..] == [];
    } else {
      assert xs[1..] != [];
      Regroup3(xs[0], sep, Join(sep, xs[1..]));
    }
  }

  lemma Regroup3(a: string, b: string, c: string)
    ensures a + b + c == a + (b + c)
  {
  }

  /** The fragments of `interpose` spell `sep.join(xs)`. */
  lemma InterposeIsJoin(xs: seq<string>, sep: string)
    ensures Concat(Interpose(xs, sep)) == Join(sep, xs)
  {
    if xs != [] {
      var tail := Separated(xs[1..], sep);
      assert Interpose(xs, sep) == [xs[0]] + tail;
      ConcatOne(xs[0], tail);
      SeparatedConcat(xs[1..], sep);
      JoinStep(sep, xs, Concat(tail));
    }
  }

  /** `wrap(pre, it, post, sep)`. */
  function Wrap(pre: string, xs: seq<string>, post: string, sep: string): (r: seq<string>)
    ensures |r| >= 2 && r[0] == pre && r[|r| - 1] == post
    ensures r[1..|r| - 1] == Interpose(xs, sep)
  {
    [pre] + Interpose(xs, sep) + [post]
  }

  /** The fragments of `wrap` spell `pre + sep.join(xs) + post`. */
  lemma WrapIsJoin(pre: string, xs: seq<string>, post: string, sep: string)
    ensures Concat(Wrap(pre, xs, post, sep)) == pre + Join(sep, xs) + post
  {
    InterposeIsJoin(xs, sep);
    ConcatAppend([pre], Interpose(xs, sep));
    ConcatAppend([pre] + Interpose(xs, sep), [post]);
  }

  // ---------------------------------------------------------------------------
  // k_v and empty_to_none

  /** `str(v)` of a date is its ISO form; every other value is left alone. */
  function DateAsString(v: PyValue): (r: PyValue)
    ensures v.PDate? ==> r == PStr(DateIso(v.d))
    ensures !v.PDate? ==> r == v
  {
    if v.PDate? then PStr(DateIso(v.d)) else v
  }

  /** `k_v(k, v)` with `enc` standing for `json.dumps`. */
  function KV(k: string, v: PyValue, enc: PyValue -> string): (r: string)
    ensures IsPrefix(enc(PStr(k)) + ":", r)
    ensures r[|enc(PStr(k))| + 1..] == enc(DateAsString(v))
  {
    var head := enc(PStr(k)) + ":";
    var r := head + enc(DateAsString(v));
    assert r[..|head|] == head;
    r
  }

  /** `empty_to_none(v)`: the empty string becomes None. */
  function EmptyToNone(v: PyValue): (r: PyValue)
    ensures r == PNone <==> v == PNone || v == PStr("")
    ensures v != PStr("") ==> r == v
  {
    if v == PStr("") then PNone else v
  }

  // ---------------------------------------------------------------------------
  // The id -> index dictionaries

  /** `otu_to_row` / `sample_to_column`: a dictionary the export fills in place. */
  class IdIndex {
    var index: map<int, nat>

    constructor ()
      ensures index == map[]
    {
      index := map[];
    }
  }

  /** The dictionary `d[ids[i]] = i` for i in order leaves: each id at the position
      of its last occurrence. */
  function LastIndex(ids: seq<int>): (m: map<int, nat>)
    ensures forall i :: 0 <= i < |ids| ==> ids[i] in m
    ensures forall k :: k in m ==> m[k] < |ids| && ids[m[k]] == k
  {
    if ids == [] then map[]
    else
      var init := ids[..|ids| - 1];
      assert forall i :: 0 <= i < |ids| - 1 ==> ids[i] == init[i];
      LastIndex(init)[ids[|ids| - 1] := |ids| - 1]
  }

  /** Each id maps to its last position. */
  lemma {:induction false} LastIndexIsLast(ids: seq<int>)
    ensures forall k :: k in LastIndex(ids) ==> forall j :: LastIndex(ids)[k] < j < |ids| ==> ids[j] != k
  {
    if ids != [] {
      var init := ids[..|ids| - 1];
      LastIndexIsLast(init);
      forall k | k in LastIndex(ids) ensures forall j :: LastIndex(ids)[k] < j < |ids| ==> ids[j] != k {
        if k != ids[|ids| - 1] {
          assert LastIndex(ids)[k] == LastIndex(init)[k];
          forall j | LastIndex(ids)[k] < j < |ids| - 1 ensures ids[j] != k {
            assert ids[j] == init[j];
          }
        }
      }
    }
  }

  /** With distinct ids the positions are exactly 0 .. n-1, one per id. */
  lemma {:induction false} LastIndexOfDistinct(ids: seq<int>)
    requires NoDuplicates(ids)
    ensures forall i :: 0 <= i < |ids| ==> LastIndex(ids)[ids[i]] == i
    ensures |LastIndex(ids)| == |ids|
  {
    if ids != [] {
      var init := ids[..|ids| - 1];
      assert NoDuplicates(init);
      LastIndexOfDistinct(init);
      LastIndexIsLast(ids);
      assert ids[|ids| - 1] !in LastIndex(init);
      forall i | 0 <= i < |ids| - 1 ensures LastIndex(ids)[ids[i]] == i {
        assert ids[i] == init[i];
      }
    }
  }

  // ---------------------------------------------------------------------------
  // otu_rows

  const TaxonomyFields: seq<string> := ["kingdom", "phylum", "class", "order", "family", "genus", "species"]

  /** `get_value`'s attribute name: `class` is stored as `klass`. */
  function AttributeFor(field: string): (r: string)
    ensures field == "class" ==> r == "klass"
    ensures field != "class" ==> r == field
  {
    if field == "class" then "klass" else field
  }

  /** The taxonomy array of an OTU, `otuValue(o, attr)` standing for
      `val_or_empty(getattr(otu, attr))`. */
  function TaxonomyArray(o: Otu, otuValue: (Otu, string) -> PyValue): (r: seq<PyValue>)
    ensures |r| == 7
    ensures r[0] == otuValue(o, "kingdom") && r[1] == otuValue(o, "phylum") && r[2] == otuValue(o, "klass")
    ensures r[3] == otuValue(o, "order") && r[4] == otuValue(o, "family")
    ensures r[5] == otuValue(o, "genus") && r[6] == otuValue(o, "species")
  {
    var r := Select(TaxonomyFields, (f: string) => otuValue(o, AttributeFor(f)));
    assert TaxonomyFields[2] == "class" && r[2] == otuValue(o, AttributeFor(TaxonomyFields[2]));
    assert r[0] == otuValue(o, AttributeFor(TaxonomyFields[0])) && r[1] == otuValue(o, AttributeFor(TaxonomyFields[1]));
    assert r[3] == otuValue(o, AttributeFor(TaxonomyFields[3])) && r[4] == otuValue(o, AttributeFor(TaxonomyFields[4]));
    assert r[5] == otuValue(o, AttributeFor(TaxonomyFields[5])) && r[6] == otuValue(o, AttributeFor(TaxonomyFields[6]));
    r
  }

  /** The row fragment of an OTU: its code and its amplicon and taxonomy metadata. */
  function OtuFragment(o: Otu, otuValue: (Otu, string) -> PyValue, enc: PyValue -> string): string
  {
    "{\"id\": \"" + o.code + "\",\"metadata\": {" + KV("amplicon", otuValue(o, "amplicon"), enc) + ","
      + KV("taxonomy", PList(TaxonomyArray(o, otuValue)), enc) + "}}"
  }

  function OtuIds(otus: seq<Otu>): (r: seq<int>)
    ensures |r| == |otus| && forall i :: 0 <= i < |otus| ==> r[i] == otus[i].id
  {
    Select(otus, OtuKey())
  }

  /** The row fragments of the OTUs, in order. */
  function OtuFragments(otus: seq<Otu>, otuValue: (Otu, string) -> PyValue, enc: PyValue -> string): (r: seq<string>)
    ensures |r| == |otus|
    ensures forall i :: 0 <= i < |otus| ==> r[i] == OtuFragment(otus[i], otuValue, enc)
  {
    Select(otus, FragmentOf(otuValue, enc))
  }

  function FragmentOf(otuValue: (Otu, string) -> PyValue, enc: PyValue -> string): Otu -> string
  {
    (o: Otu) => OtuFragment(o, otuValue, enc)
  }

  /** One more OTU adds its fragment at the end. */
  lemma OtuFragmentsStep(otus: seq<Otu>, n: nat, otuValue: (Otu, string) -> PyValue, enc: PyValue -> string)
    requires n < |otus|
    ensures OtuFragments(otus[..n + 1], otuValue, enc) == OtuFragments(otus[..n], otuValue, enc) + [OtuFragment(otus[n], otuValue, enc)]
  {
    SelectPrefixStep(otus, FragmentOf(otuValue, enc), n);
  }

  /** Numbering one more id: the old dictionary with that id set to the new position. */
  lemma LastIndexAppend(ids: seq<int>, k: int)
    ensures LastIndex(ids + [k]) == LastIndex(ids)[k := |ids|]
  {
    assert (ids + [k])[..|ids|] == ids;
  }

  /** The same step on a dictionary that held `before` when numbering began. */
  lemma LastIndexAppendOver(before: map<int, nat>, ids: seq<int>, k: int)
    ensures (before + LastIndex(ids))[k := |ids|] == before + LastIndex(ids + [k])
  {
    LastIndexAppend(ids, k);
    MergeUpdate(before, LastIndex(ids), k, |ids|);
  }

  lemma MergeUpdate(before: map<int, nat>, m: map<int, nat>, k: int, v: nat)
    ensures (before + m)[k := v] == before + m[k := v]
  {
  }

  /** One step of the numbering loop on a dictionary that held `before` on entry. */
  lemma NumberNext(before: map<int, nat>, ids: seq<int>, n: nat)
    requires n < |ids|
    ensures (before + LastIndex(ids[..n]))[ids[n] := n] == before + LastIndex(ids[..n + 1])
  {
    assert ids[..n + 1] == ids[..n] + [ids[n]];
    LastIndexAppendOver(before, ids[..n], ids[n]);
  }

  /** `otu_rows(query, otu_to_row)`: one fragment per OTU in query order, and
      `otu_to_row[otu.id]` set to the OTU's position. */
  method OtuRows(otus: seq<Otu>, otuToRow: IdIndex, otuValue: (Otu, string) -> PyValue, enc: PyValue -> string)
    returns (frags: seq<string>)
    modifies otuToRow
    ensures frags == OtuFragments(otus, otuValue, enc)
    ensures otuToRow.index == old(otuToRow.index) + LastIndex(OtuIds(otus))
  {
    var ids := OtuIds(otus);
    ghost var before := otuToRow.index;
    frags := [];
    for idx := 0 to |otus|
      invariant frags == OtuFragments(otus[..idx], otuValue, enc)
      invariant otuToRow.index == before + LastIndex(ids[..idx])
    {
      NumberNext(before, ids, idx);
      OtuFragmentsStep(otus, idx, otuValue, enc);
      otuToRow.index := otuToRow.index[otus[idx].id := idx];
      frags := frags + [OtuFragment(otus[idx], otuValue, enc)];
    }
    assert ids[..|otus|] == ids;
    assert otus[..|otus|] == otus;
  }

  /** With distinct OTU ids (a primary key) the row numbers are 0 .. n-1 in order. */
  lemma RowsNumbered(otus: seq<Otu>)
    requires UniqueOtuIds(otus)
    ensures forall i :: 0 <= i < |otus| ==> LastIndex(OtuIds(otus))[otus[i].id] == i
    ensures |LastIndex(OtuIds(otus))| == |otus|
  {
    assert NoDuplicates(OtuIds(otus));
    LastIndexOfDistinct(OtuIds(otus));
  }

  // ---------------------------------------------------------------------------
  // sample_columns

  /** The field has a value other than None / '' in the sample. */
  predicate FieldUsed(s: Sample, f: string)
  {
    EmptyToNone(Column(s, f)) != PNone
  }

  /** The fields of `allFields` some sample has a value for. */
  function UsedFields(samples: seq<Sample>, allFields: seq<string>): set<string>
  {
    set f | f in allFields && exists k :: 0 <= k < |samples| && FieldUsed(samples[k], f)
  }

  /** The first pass of `sample_columns`: collects the fields some sample has a value for. */
  method NonEmptyFields(samples: seq<Sample>, allFields: seq<string>) returns (nonEmpty: set<string>)
    ensures nonEmpty == UsedFields(samples, allFields)
  {
    nonEmpty := {};
    for i := 0 to |samples|
      invariant forall f :: f in nonEmpty <==> f in allFields && exists k :: 0 <= k < i && FieldUsed(samples[k], f)
    {
      for j := 0 to |allFields|
        invariant forall f :: f in nonEmpty <==>
          f in allFields && ((exists k :: 0 <= k < i && FieldUsed(samples[k], f)) || (f in allFields[..j] && FieldUsed(samples[i], f)))
      {
        assert allFields[..j + 1] == allFields[..j] + [allFields[j]];
        if EmptyToNone(Column(samples[i], allFields[j])) != PNone {
          nonEmpty := nonEmpty + {allFields[j]};
        }
      }
      assert allFields[..|allFields|] == allFields;
    }
  }

  function StrOrder(): (string, string) -> bool
  {
    (a: string, b: string) => StrLe(a, b)
  }

  lemma StrOrderIsPreorder()
    ensures TotalPreorder(StrOrder())
  {
    forall a: string, b: string ensures StrOrder()(a, b) || StrOrder()(b, a) {
      StrLeTotal(a, b);
    }
    forall a: string, b: string, c: string | StrOrder()(a, b) && StrOrder()(b, c) ensures StrOrder()(a, c) {
      StrLeTransitive(a, b, c);
    }
  }

  function InSet(s: set<string>): string -> bool
  {
    (f: string) => f in s
  }

  /** `fields = list(non_empty); fields.sort()`: the set's members in increasing order,
      each once. */
  function SortedFields(allFields: seq<string>, nonEmpty: set<string>): (r: seq<string>)
    ensures forall f :: f in r <==> f in allFields && f in nonEmpty
    ensures NoDuplicates(r)
    ensures forall i, j :: 0 <= i < j < |r| ==> StrLe(r[i], r[j]) && r[i] != r[j]
  {
    var d := Distinct(Where(allFields, InSet(nonEmpty)));
    StrOrderIsPreorder();
    var r := SortBy(d, StrOrder());
    SortByIn(d, StrOrder());
    NoDuplicatesPermutation(r, d);
    r
  }

  function NotId(): string -> bool
  {
    (f: string) => f != "id"
  }

  /** The metadata fields of the export: the non-id columns some sample has a value
      for, sorted, each once. */
  function ColumnFields(samples: seq<Sample>, allColumns: seq<string>): (r: seq<string>)
    ensures forall f :: f in r <==> f in allColumns && f != "id" && exists k :: 0 <= k < |samples| && FieldUsed(samples[k], f)
    ensures forall i, j :: 0 <= i < j < |r| ==> StrLe(r[i], r[j]) && r[i] != r[j]
  {
    var allFields := Where(allColumns, NotId());
    SortedFields(allFields, UsedFields(samples, allFields))
  }

  /** The column fragment of a sample: its id under the 102.100.100 prefix and the
      listed fields, '' written as None. */
  function SampleFragment(s: Sample, fields: seq<string>, enc: PyValue -> string): string
  {
    "{\"id\": \"102.100.100/" + IntToString(s.id) + "\",\"metadata\": {"
      + Join(",", Select(fields, (f: string) => KV(f, EmptyToNone(Column(s, f)), enc))) + "}}"
  }

  function SampleFragments(samples: seq<Sample>, fields: seq<string>, enc: PyValue -> string): (r: seq<string>)
    ensures |r| == |samples|
    ensures forall i :: 0 <= i < |samples| ==> r[i] == SampleFragment(samples[i], fields, enc)
  {
    Select(samples, SampleFragmentOf(fields, enc))
  }

  function SampleFragmentOf(fields: seq<string>, enc: PyValue -> string): Sample -> string
  {
    (s: Sample) => SampleFragment(s, fields, enc)
  }

  /** The samples whose id is not yet in `seen` and not seen earlier in the list. */
  function FirstOccurrences(samples: seq<Sample>, seen: set<int>): (r: seq<Sample>)
    ensures forall i :: 0 <= i < |r| ==> r[i].id !in seen
  {
    if samples == [] then []
    else if samples[0].id in seen then FirstOccurrences(samples[1..], seen)
    else [samples[0]] + FirstOccurrences(samples[1..], seen + {samples[0].id})
  }

  function SampleIds(samples: seq<Sample>): (r: seq<int>)
    ensures |r| == |samples| && forall i :: 0 <= i < |samples| ==> r[i] == samples[i].id
  {
    Select(samples, SampleKey())
  }

  /** Each id gets one column: the ids of the first occurrences are distinct. */
  lemma {:induction false} FirstOccurrencesDistinct(samples: seq<Sample>, seen: set<int>)
    ensures NoDuplicates(SampleIds(FirstOccurrences(samples, seen)))
  {
    if samples != [] {
      if samples[0].id in seen {
        FirstOccurrencesDistinct(samples[1..], seen);
      } else {
        var rest := FirstOccurrences(samples[1..], seen + {samples[0].id});
        FirstOccurrencesDistinct(samples[1..], seen + {samples[0].id});
        var ids := SampleIds([samples[0]] + rest);
        forall i, j | 0 <= i < j < |ids| ensures ids[i] != ids[j] {
          assert ids[j] == rest[j - 1].id;
          if i > 0 {
            assert ids[i] == SampleIds(rest)[i - 1] && ids[j] == SampleIds(rest)[j - 1];
          }
        }
      }
    }
  }

  /** Every sample's id is already numbered or gets a column. */
  lemma {:induction false} FirstOccurrencesCover(samples: seq<Sample>, seen: set<int>, s: Sample)
    requires s in samples
    ensures s.id in seen || s.id in SampleIds(FirstOccurrences(samples, seen))
  {
    if s != samples[0] {
      assert s in samples[1..];
      if samples[0].id in seen {
        FirstOccurrencesCover(samples[1..], seen, s);
      } else {
        var rest := FirstOccurrences(samples[1..], seen + {samples[0].id});
        FirstOccurrencesCover(samples[1..], seen + {samples[0].id}, s);
        assert SampleIds([samples[0]] + rest) == [samples[0].id] + SampleIds(rest);
      }
    } else if samples[0].id !in seen {
      assert SampleIds(FirstOccurrences(samples, seen))[0] == s.id;
    }
  }

  /** `js[i]` is the position in `samples` of the i-th sample of `r`. */
  ghost predicate Placed(samples: seq<Sample>, r: seq<Sample>, js: seq<nat>)
  {
    |js| == |r| && forall i :: 0 <= i < |js| ==> js[i] < |samples| && samples[js[i]] == r[i]
  }

  ghost predicate Increasing(js: seq<nat>)
  {
    forall i, i' :: 0 <= i < i' < |js| ==> js[i] < js[i']
  }

  ghost predicate Unseen(r: seq<Sample>, seen: set<int>)
  {
    forall i :: 0 <= i < |r| ==> r[i].id !in seen
  }

  /** No sample before `js[i]` has the id of `r[i]`. */
  ghost predicate Earliest(samples: seq<Sample>, r: seq<Sample>, js: seq<nat>)
    requires Placed(samples, r, js)
  {
    forall i, k :: 0 <= i < |js| && 0 <= k < js[i] ==> samples[k].id != r[i].id
  }

  /** The positions in `samples` of the samples of `r`: they increase, and each is
      the first position of its id, an id not in `seen`. */
  ghost predicate FirstPositions(samples: seq<Sample>, seen: set<int>, r: seq<Sample>, js: seq<nat>)
  {
    Placed(samples, r, js) && Increasing(js) && Unseen(r, seen) && Earliest(samples, r, js)
  }

  /** The positions in the tail, moved one place on. */
  function Shifted(more: seq<nat>): (js: seq<nat>)
    ensures |js| == |more| && forall n :: 0 <= n < |more| ==> js[n] == more[n] + 1
  {
    seq(|more|, n requires 0 <= n < |more| => more[n] + 1)
  }

  lemma PlacedShifted(samples: seq<Sample>, rest: seq<Sample>, more: seq<nat>)
    requires samples != [] && Placed(samples[1..], rest, more)
    ensures Placed(samples, rest, Shifted(more))
    ensures Placed(samples, [samples[0]] + rest, [0] + Shifted(more))
  {
    var js := Shifted(more);
    forall i | 0 <= i < |js| ensures js[i] < |samples| && samples[js[i]] == rest[i] {
      assert samples[1..][more[i]] == samples[js[i]];
    }
    var r, js' := [samples[0]] + rest, [0] + js;
    forall i | 0 < i < |js'| ensures js'[i] < |samples| && samples[js'[i]] == r[i] {
      assert js'[i] == js[i - 1] && r[i] == rest[i - 1];
    }
  }

  lemma IncreasingShifted(more: seq<nat>)
    requires Increasing(more)
    ensures Increasing(Shifted(more)) && Increasing([0] + Shifted(more))
  {
    var js := [0] + Shifted(more);
    forall i, i' | 0 < i < i' < |js| ensures js[i] < js[i'] {
      assert js[i] == more[i - 1] + 1 && js[i'] == more[i' - 1] + 1;
    }
  }

  lemma EarliestShifted(samples: seq<Sample>, seen: set<int>, rest: seq<Sample>, more: seq<nat>)
    requires samples != [] && Placed(samples[1..], rest, more) && Earliest(samples[1..], rest, more)
    requires samples[0].id in seen && Unseen(rest, seen)
    ensures Placed(samples, rest, Shifted(more)) && Earliest(samples, rest, Shifted(more))
  {
    PlacedShifted(samples, rest, more);
    var js := Shifted(more);
    forall i, k | 0 <= i < |js| && 0 <= k < js[i] ensures samples[k].id != rest[i].id {
      if k > 0 {
        assert samples[1..][k - 1] == samples[k];
      }
    }
  }

  lemma EarliestTaken(samples: seq<Sample>, rest: seq<Sample>, more: seq<nat>)
    requires samples != [] && Placed(samples[1..], rest, more) && Earliest(samples[1..], rest, more)
    requires Unseen(rest, {samples[0].id})
    ensures Placed(samples, [samples[0]] + rest, [0] + Shifted(more))
    ensures Earliest(samples, [samples[0]] + rest, [0] + Shifted(more))
  {
    PlacedShifted(samples, rest, more);
    EarliestShifted(samples, {samples[0].id}, rest, more);
    var r, js := [samples[0]] + rest, [0] + Shifted(more);
    forall i, k | 0 <= i < |js| && 0 <= k < js[i] ensures samples[k].id != r[i].id {
      assert r[i] == rest[i - 1] && js[i] == Shifted(more)[i - 1];
    }
  }

  /** A first sample whose id is already numbered is skipped. */
  lemma SkipPositions(samples: seq<Sample>, seen: set<int>, rest: seq<Sample>, more: seq<nat>)
    requires samples != [] && samples[0].id in seen
    requires FirstPositions(samples[1..], seen, rest, more)
    ensures FirstPositions(samples, seen, rest, Shifted(more))
  {
    IncreasingShifted(more);
    EarliestShifted(samples, seen, rest, more);
  }

  /** A first sample whose id is new is emitted first, at position 0. */
  lemma TakePositions(samples: seq<Sample>, seen: set<int>, rest: seq<Sample>, more: seq<nat>)
    requires samples != [] && samples[0].id !in seen
    requires FirstPositions(samples[1..], seen + {samples[0].id}, rest, more)
    ensures FirstPositions(samples, seen, [samples[0]] + rest, [0] + Shifted(more))
  {
    IncreasingShifted(more);
    assert Unseen(rest, {samples[0].id});
    EarliestTaken(samples, rest, more);
    var r := [samples[0]] + rest;
    assert forall i :: 0 < i < |r| ==> r[i] == rest[i - 1];
  }

  /** Where each emitted sample sits in the list: the positions increase, and each
      is the first position of its id, whose id was not already numbered. */
  lemma {:induction false} FirstOccurrencesSound(samples: seq<Sample>, seen: set<int>) returns (js: seq<nat>)
    ensures FirstPositions(samples, seen, FirstOccurrences(samples, seen), js)
  {
    if samples == [] {
      js := [];
    } else if samples[0].id in seen {
      var more := FirstOccurrencesSound(samples[1..], seen);
      SkipPositions(samples, seen, FirstOccurrences(samples[1..], seen), more);
      js := Shifted(more);
    } else {
      var more := FirstOccurrencesSound(samples[1..], seen + {samples[0].id});
      TakePositions(samples, seen, FirstOccurrences(samples[1..], seen + {samples[0].id}), more);
      js := [0] + Shifted(more);
    }
  }

  /** Samples with distinct ids, none already numbered, are all emitted in order. */
  lemma {:induction false} FirstOccurrencesOfUnique(samples: seq<Sample>, seen: set<int>)
    requires UniqueSampleIds(samples)
    requires forall i :: 0 <= i < |samples| ==> samples[i].id !in seen
    ensures FirstOccurrences(samples, seen) == samples
  {
    if samples != [] {
      var tail := samples[1..];
      forall i, j | 0 <= i < j < |tail| ensures SampleKey()(tail[i]) != SampleKey()(tail[j]) {
        assert tail[i] == samples[i + 1] && tail[j] == samples[j + 1];
      }
      forall i | 0 <= i < |tail| ensures tail[i].id !in seen + {samples[0].id} {
        assert tail[i] == samples[i + 1];
        assert SampleKey()(samples[0]) != SampleKey()(samples[i + 1]);
      }
      FirstOccurrencesOfUnique(tail, seen + {samples[0].id});
      assert [samples[0]] + tail == samples;
    }
  }

  /** One step of the second pass: the sample is skipped when its id is numbered. */
  lemma FirstOccurrencesStep(samples: seq<Sample>, i: nat, seen: set<int>)
    requires i < |samples|
    ensures samples[i].id in seen ==> FirstOccurrences(samples[i..], seen) == FirstOccurrences(samples[i + 1..], seen)
    ensures samples[i].id !in seen ==>
      FirstOccurrences(samples[i..], seen) == [samples[i]] + FirstOccurrences(samples[i + 1..], seen + {samples[i].id})
  {
    assert samples[i..][1..] == samples[i + 1..];
  }

  /** One step of the column numbering on a dictionary that held `before` on entry. */
  lemma NumberSample(before: map<int, nat>, taken: seq<Sample>, s: Sample)
    ensures (before + LastIndex(SampleIds(taken)))[s.id := |taken|] == before + LastIndex(SampleIds(taken + [s]))
  {
    assert SampleIds(taken + [s]) == SampleIds(taken) + [s.id];
    LastIndexAppendOver(before, SampleIds(taken), s.id);
  }

  /** The state of the numbering loop after `taken` have been given columns and the
      samples before `i` have been looked at. */
  ghost predicate ColumnsSoFar(samples: seq<Sample>, i: nat, before: map<int, nat>, taken: seq<Sample>, index: map<int, nat>)
    requires i <= |samples|
  {
    && FirstOccurrences(samples, before.Keys) == taken + FirstOccurrences(samples[i..], index.Keys)
    && index == before + LastIndex(SampleIds(taken))
  }

  /** A sample whose id is already numbered is skipped. */
  lemma SkipStep(samples: seq<Sample>, i: nat, before: map<int, nat>, taken: seq<Sample>, index: map<int, nat>)
    requires i < |samples| && samples[i].id in index
    requires ColumnsSoFar(samples, i, before, taken, index)
    ensures ColumnsSoFar(samples, i + 1, before, taken, index)
  {
    FirstOccurrencesStep(samples, i, index.Keys);
  }

  /** A sample whose id is not yet numbered is given the next column. */
  lemma TakeStep(samples: seq<Sample>, i: nat, before: map<int, nat>, taken: seq<Sample>, index: map<int, nat>)
    requires i < |samples| && samples[i].id !in index
    requires ColumnsSoFar(samples, i, before, taken, index)
    ensures ColumnsSoFar(samples, i + 1, before, taken + [samples[i]], index[samples[i].id := |taken|])
  {
    var s := samples[i];
    FirstOccurrencesStep(samples, i, index.Keys);
    AppendAssociative(taken, [s], FirstOccurrences(samples[i + 1..], index.Keys + {s.id}));
    NumberSample(before, taken, s);
    assert index[s.id := |taken|].Keys == index.Keys + {s.id};
  }

  /** After the last sample the columns are exactly the first occurrences. */
  lemma ColumnsDone(samples: seq<Sample>, before: map<int, nat>, taken: seq<Sample>, index: map<int, nat>)
    requires ColumnsSoFar(samples, |samples|, before, taken, index)
    ensures taken == FirstOccurrences(samples, before.Keys)
    ensures index == before + LastIndex(SampleIds(FirstOccurrences(samples, before.Keys)))
  {
    assert samples[|samples|..] == [];
  }

  /** The second pass of `sample_columns(query, sample_to_column)`: a fragment per
      sample whose id is not yet numbered, numbered in the order they are yielded. */
  method NumberColumns(samples: seq<Sample>, fields: seq<string>, sampleToColumn: IdIndex, enc: PyValue -> string)
    returns (frags: seq<string>)
    modifies sampleToColumn
    ensures frags == SampleFragments(FirstOccurrences(samples, old(sampleToColumn.index).Keys), fields, enc)
    ensures sampleToColumn.index == old(sampleToColumn.index) + LastIndex(SampleIds(FirstOccurrences(samples, old(sampleToColumn.index).Keys)))
  {
    ghost var before := sampleToColumn.index;
    ghost var taken: seq<Sample> := [];
    frags := [];
    for i := 0 to |samples|
      invariant frags == SampleFragments(taken, fields, enc)
      invariant ColumnsSoFar(samples, i, before, taken, sampleToColumn.index)
    {
      var s := samples[i];
      if s.id !in sampleToColumn.index {
        TakeStep(samples, i, before, taken, sampleToColumn.index);
        SelectAppend(taken, s, SampleFragmentOf(fields, enc));
        sampleToColumn.index := sampleToColumn.index[s.id := |frags|];
        frags := frags + [SampleFragment(s, fields, enc)];
        taken := taken + [s];
      } else {
        SkipStep(samples, i, before, taken, sampleToColumn.index);
      }
    }
    ColumnsDone(samples, before, taken, sampleToColumn.index);
  }

  /** `sample_columns(query, sample_to_column)`: both passes. */
  method SampleColumns(samples: seq<Sample>, allColumns: seq<string>, sampleToColumn: IdIndex, enc: PyValue -> string)
    returns (frags: seq<string>)
    modifies sampleToColumn
    ensures frags == SampleFragments(FirstOccurrences(samples, old(sampleToColumn.index).Keys), ColumnFields(samples, allColumns), enc)
    ensures sampleToColumn.index == old(sampleToColumn.index) + LastIndex(SampleIds(FirstOccurrences(samples, old(sampleToColumn.index).Keys)))
  {
    var allFields := Where(allColumns, NotId());
    var nonEmpty := NonEmptyFields(samples, allFields);
    var fields := SortedFields(allFields, nonEmpty);
    frags := NumberColumns(samples, fields, sampleToColumn, enc);
  }

  /** The ids of the columns are numbered 0 .. n-1 in order, one per distinct sample id. */
  lemma ColumnsNumbered(samples: seq<Sample>)
    ensures var columns := FirstOccurrences(samples, {});
      && |LastIndex(SampleIds(columns))| == |columns|
      && forall i :: 0 <= i < |columns| ==> LastIndex(SampleIds(columns))[columns[i].id] == i
  {
    var columns := FirstOccurrences(samples, {});
    FirstOccurrencesDistinct(samples, {});
    LastIndexOfDistinct(SampleIds(columns));
  }

  // ---------------------------------------------------------------------------
  // abundance_tbl

  /** `'[' + row + ',' + col + ',' + count + ']'`. */
  function Triple(row: int, col: int, count: int): string
  {
    "[" + IntToString(row) + "," + IntToString(col) + "," + IntToString(count) + "]"
  }

  predicate Translatable(f: Fact, otuToRow: map<int, nat>, sampleToColumn: map<int, nat>)
  {
    f.otuId in otuToRow && f.sampleId in sampleToColumn
  }

  /** The KeyError the failed lookup of a fact raises: the OTU id is looked up first. */
  function MissingKey(f: Fact, otuToRow: map<int, nat>): PyError
  {
    KeyError(IntToString(if f.otuId !in otuToRow then f.otuId else f.sampleId))
  }

  /** The triple of a fact whose OTU and sample are numbered. */
  function TripleOf(f: Fact, otuToRow: map<int, nat>, sampleToColumn: map<int, nat>): string
    requires Translatable(f, otuToRow, sampleToColumn)
  {
    Triple(otuToRow[f.otuId], sampleToColumn[f.sampleId], f.count)
  }

  /** The number of facts before the first one that cannot be translated. */
  function TranslatablePrefix(facts: seq<Fact>, otuToRow: map<int, nat>, sampleToColumn: map<int, nat>): (n: nat)
    ensures n <= |facts|
    ensures forall i :: 0 <= i < n ==> Translatable(facts[i], otuToRow, sampleToColumn)
    ensures n < |facts| ==> !Translatable(facts[n], otuToRow, sampleToColumn)
  {
    if facts == [] || !Translatable(facts[0], otuToRow, sampleToColumn) then 0
    else
      var n := 1 + TranslatablePrefix(facts[1..], otuToRow, sampleToColumn);
      assert forall i :: 1 <= i < n ==> facts[i] == facts[1..][i - 1];
      n
  }

  /** The triples of the facts up to the first one that cannot be translated. */
  function Triples(facts: seq<Fact>, otuToRow: map<int, nat>, sampleToColumn: map<int, nat>): (r: seq<string>)
    ensures |r| <= |facts|
    ensures forall i :: 0 <= i < |r| ==>
      Translatable(facts[i], otuToRow, sampleToColumn)
      && r[i] == TripleOf(facts[i], otuToRow, sampleToColumn)
    ensures |r| < |facts| ==> !Translatable(facts[|r|], otuToRow, sampleToColumn)
  {
    var n := TranslatablePrefix(facts, otuToRow, sampleToColumn);
    seq(n, i requires 0 <= i < n => TripleOf(facts[i], otuToRow, sampleToColumn))
  }

  /** Translating a prefix of translatable facts and stopping at the first other
      one is what `Triples` does. */
  lemma TriplesCharacterized(facts: seq<Fact>, otuToRow: map<int, nat>, sampleToColumn: map<int, nat>,
                             frags: seq<string>)
    requires |frags| <= |facts|
    requires forall i :: 0 <= i < |frags| ==>
      Translatable(facts[i], otuToRow, sampleToColumn)
      && frags[i] == TripleOf(facts[i], otuToRow, sampleToColumn)
    requires |frags| < |facts| ==> !Translatable(facts[|frags|], otuToRow, sampleToColumn)
    ensures frags == Triples(facts, otuToRow, sampleToColumn)
  {
    assert |frags| == TranslatablePrefix(facts, otuToRow, sampleToColumn);
  }

  /** Every fact is translated exactly when every fact's OTU and sample are numbered. */
  lemma TriplesComplete(facts: seq<Fact>, otuToRow: map<int, nat>, sampleToColumn: map<int, nat>)
    ensures |Triples(facts, otuToRow, sampleToColumn)| == |facts| <==>
      forall f :: f in facts ==> Translatable(f, otuToRow, sampleToColumn)
  {
    var r := Triples(facts, otuToRow, sampleToColumn);
    if |r| < |facts| {
      assert facts[|r|] in facts;
    }
  }

  /** `abundance_tbl(query, otu_to_row, sample_to_column)`: a triple per fact, in
      order, until a fact whose OTU or sample has no number, which raises KeyError
      after the triples before it have been yielded. */
  method AbundanceTable(facts: seq<Fact>, otuToRow: map<int, nat>, sampleToColumn: map<int, nat>)
    returns (frags: seq<string>, error: Option<PyError>)
    ensures frags == Triples(facts, otuToRow, sampleToColumn)
    ensures error.None? <==> |frags| == |facts|
    ensures error.Some? ==> error.value == MissingKey(facts[|frags|], otuToRow)
  {
    frags := [];
    for i := 0 to |facts|
      invariant |frags| == i
      invariant forall k :: 0 <= k < i ==>
        Translatable(facts[k], otuToRow, sampleToColumn)
        && frags[k] == TripleOf(facts[k], otuToRow, sampleToColumn)
    {
      var f := facts[i];
      if f.otuId !in otuToRow || f.sampleId !in sampleToColumn {
        TriplesCharacterized(facts, otuToRow, sampleToColumn, frags);
        return frags, Some(MissingKey(f, otuToRow));
      }
      frags := frags + [TripleOf(f, otuToRow, sampleToColumn)];
    }
    TriplesCharacterized(facts, otuToRow, sampleToColumn, frags);
    error := None;
  }

  // ---------------------------------------------------------------------------
  // The document

  const HeaderKeys: seq<string> :=
    ["id", "format", "format_url", "type", "generated_by", "date", "matrix_type", "matrix_element_type"]

  /** The header values, `now` standing for the generation timestamp: a null id,
      format 1.0.0 and its URL, an OTU table generated by Bioplatforms Australia
      at `now`, stored as a sparse matrix of ints. */
  function HeaderValues(now: string): (r: seq<PyValue>)
    ensures |r| == |HeaderKeys|
    ensures HeaderKeys[0] == "id" && r[0] == PNone
    ensures HeaderKeys[1] == "format" && r[1] == PStr("1.0.0")
    ensures HeaderKeys[2] == "format_url" && r[2] == PStr("http://biom-format.org")
    ensures HeaderKeys[3] == "type" && r[3] == PStr("OTU table")
    ensures HeaderKeys[4] == "generated_by" && r[4] == PStr("Bioplatforms Australia")
    ensures HeaderKeys[5] == "date" && r[5] == PStr(now)
    ensures HeaderKeys[6] == "matrix_type" && r[6] == PStr("sparse")
    ensures HeaderKeys[7] == "matrix_element_type" && r[7] == PStr("int")
  {
    [PNone, PStr("1.0.0"), PStr("http://biom-format.org"), PStr("OTU table"),
     PStr("Bioplatforms Australia"), PStr(now), PStr("sparse"), PStr("int")]
  }

  /** `biom_header()`: the eight header pairs, in this fixed order, opening the object.
      The document starts with `"id": null` and then `"format": "1.0.0"`, and the
      header ends with the separator before the rows section. */
  function BiomHeader(now: string, enc: PyValue -> string): (r: string)
    ensures IsPrefix("{" + KV("id", PNone, enc) + ",\n" + KV("format", PStr("1.0.0"), enc) + ",\n", r)
    ensures |r| >= 3 && r[|r| - 2..] == ",\n"
  {
    var values := HeaderValues(now);
    var pairs := seq(|HeaderKeys|, i requires 0 <= i < |HeaderKeys| => KV(HeaderKeys[i], values[i], enc));
    assert pairs[0] == KV(HeaderKeys[0], values[0], enc) && HeaderKeys[0] == "id" && values[0] == PNone;
    assert pairs[1] == KV(HeaderKeys[1], values[1], enc) && HeaderKeys[1] == "format" && values[1] == PStr("1.0.0");
    ObjectOpening(pairs);
    "{" + Join(",\n", pairs) + ",\n"
  }

  /** An object of at least three pairs opens with its first two pairs and ends with
      the separator. */
  lemma ObjectOpening(pairs: seq<string>)
    requires |pairs| >= 3
    ensures IsPrefix("{" + pairs[0] + ",\n" + pairs[1] + ",\n", "{" + Join(",\n", pairs) + ",\n")
    ensures var r := "{" + Join(",\n", pairs) + ",\n"; |r| >= 3 && r[|r| - 2..] == ",\n"
  {
    var rest := Join(",\n", pairs[2..]);
    assert Join(",\n", pairs[1..]) == pairs[1] + ",\n" + rest by {
      assert pairs[1..][1..] == pairs[2..];
    }
    var head := "{" + pairs[0] + ",\n" + pairs[1] + ",\n";
    var r := "{" + Join(",\n", pairs) + ",\n";
    assert r == head + rest + ",\n";
    assert r[..|head|] == head;
  }

  const RowsOpen: string := "\"rows\": ["
  const ColumnsOpen: string := "\"columns\": ["
  const ShapeOpen: string := "\"shape\": ["
  const DataOpen: string := "\"data\": ["
  const SectionClose: string := "],\n"
  const DocumentClose: string := "]}\n"

  /** The number of each OTU's row. */
  function RowIndex(otus: seq<Otu>): map<int, nat>
  {
    LastIndex(OtuIds(otus))
  }

  /** The number of each sample's column. */
  function ColumnIndex(samples: seq<Sample>): map<int, nat>
  {
    LastIndex(SampleIds(FirstOccurrences(samples, {})))
  }

  /** Numbering into empty dictionaries gives the row and column numbers. */
  lemma NumberedFromEmpty(otus: seq<Otu>, samples: seq<Sample>, empty: map<int, nat>)
    requires empty == map[]
    ensures empty.Keys == {}
    ensures empty + LastIndex(OtuIds(otus)) == RowIndex(otus)
    ensures empty + LastIndex(SampleIds(FirstOccurrences(samples, empty.Keys))) == ColumnIndex(samples)
  {
    assert empty.Keys == {};
    var rows := RowIndex(otus);
    assert empty + rows == rows;
    var columns := ColumnIndex(samples);
    assert empty + columns == columns;
  }

  /** The chain of sections before the data: the header, then rows, columns and
      shape each wrapped in its brackets. */
  function Sections(header: string, rows: seq<string>, cols: seq<string>, shape: seq<string>): seq<string>
  {
    [header] + Wrap(RowsOpen, rows, SectionClose, ",") + Wrap(ColumnsOpen, cols, SectionClose, ",")
      + Wrap(ShapeOpen, shape, SectionClose, ",")
  }

  /** The document up to the data section for the given query results. */
  function DocumentHead(otus: seq<Otu>, samples: seq<Sample>, allColumns: seq<string>,
                        now: string, otuValue: (Otu, string) -> PyValue, enc: PyValue -> string): seq<string>
  {
    Sections(BiomHeader(now, enc),
      OtuFragments(otus, otuValue, enc),
      SampleFragments(FirstOccurrences(samples, {}), ColumnFields(samples, allColumns), enc),
      [IntToString(|RowIndex(otus)|), IntToString(|ColumnIndex(samples)|)])
  }

  /** The sections built from the rows, columns and numberings are the document head. */
  lemma HeadOfParts(otus: seq<Otu>, samples: seq<Sample>, allColumns: seq<string>,
                    now: string, otuValue: (Otu, string) -> PyValue, enc: PyValue -> string,
                    rows: seq<string>, cols: seq<string>, otuToRow: map<int, nat>, sampleToColumn: map<int, nat>)
    requires rows == OtuFragments(otus, otuValue, enc)
    requires cols == SampleFragments(FirstOccurrences(samples, {}), ColumnFields(samples, allColumns), enc)
    requires otuToRow == RowIndex(otus) && sampleToColumn == ColumnIndex(samples)
    ensures Sections(BiomHeader(now, enc), rows, cols, [IntToString(|otuToRow|), IntToString(|sampleToColumn|)])
      == DocumentHead(otus, samples, allColumns, now, otuValue, enc)
  {
  }

  /** The rows and columns sections of `generate_biom_file`, each written while its
      fresh dictionary numbers the ids; the dictionaries as they are left afterwards. */
  method NumberedSections(otus: seq<Otu>, samples: seq<Sample>, allColumns: seq<string>,
                          otuValue: (Otu, string) -> PyValue, enc: PyValue -> string)
    returns (rows: seq<string>, cols: seq<string>, rowNumbers: map<int, nat>, columnNumbers: map<int, nat>)
    ensures rows == OtuFragments(otus, otuValue, enc)
    ensures cols == SampleFragments(FirstOccurrences(samples, {}), ColumnFields(samples, allColumns), enc)
    ensures rowNumbers == RowIndex(otus)
    ensures columnNumbers == ColumnIndex(samples)
  {
    var otuToRow := new IdIndex();
    var sampleToColumn := new IdIndex();
    NumberedFromEmpty(otus, samples, sampleToColumn.index);
    rows := OtuRows(otus, otuToRow, otuValue, enc);
    rowNumbers := otuToRow.index;
    cols := SampleColumns(samples, allColumns, sampleToColumn, enc);
    columnNumbers := sampleToColumn.index;
  }

  /** The header, rows, columns and shape sections, and the dictionaries the rows and
      columns sections leave behind. */
  method HeadSections(otus: seq<Otu>, samples: seq<Sample>, allColumns: seq<string>,
                      now: string, otuValue: (Otu, string) -> PyValue, enc: PyValue -> string)
    returns (head: seq<string>, rowNumbers: map<int, nat>, columnNumbers: map<int, nat>)
    ensures head == DocumentHead(otus, samples, allColumns, now, otuValue, enc)
    ensures rowNumbers == RowIndex(otus)
    ensures columnNumbers == ColumnIndex(samples)
  {
    var rows, cols;
    rows, cols, rowNumbers, columnNumbers := NumberedSections(otus, samples, allColumns, otuValue, enc);
    var shape := [IntToString(|rowNumbers|), IntToString(|columnNumbers|)];
    HeadOfParts(otus, samples, allColumns, now, otuValue, enc, rows, cols, rowNumbers, columnNumbers);
    head := Sections(BiomHeader(now, enc), rows, cols, shape);
  }

  /** `generate_biom_file(query)`: `otus`, `samples` and `facts` are what
      `matching_otus()`, `matching_samples()` and the abundance query return. The
      fragments are the header, rows, columns, shape and data sections in that order;
      the shape is read after the rows and columns have numbered their ids. On a
      KeyError the stream ends after the data triples yielded before it. */
  method GenerateBiomFile(otus: seq<Otu>, samples: seq<Sample>, facts: seq<Fact>, allColumns: seq<string>,
                          now: string, otuValue: (Otu, string) -> PyValue, enc: PyValue -> string)
    returns (doc: seq<string>, error: Option<PyError>)
    ensures error.None? <==> forall f :: f in facts ==> Translatable(f, RowIndex(otus), ColumnIndex(samples))
    ensures error.Some? ==> error.value == MissingKey(facts[|Triples(facts, RowIndex(otus), ColumnIndex(samples))|], RowIndex(otus))
    ensures error.None? ==>
      doc == DocumentHead(otus, samples, allColumns, now, otuValue, enc)
        + Wrap(DataOpen, Triples(facts, RowIndex(otus), ColumnIndex(samples)), DocumentClose, ",")
    ensures error.Some? ==>
      doc == DocumentHead(otus, samples, allColumns, now, otuValue, enc)
        + [DataOpen] + Interpose(Triples(facts, RowIndex(otus), ColumnIndex(samples)), ",")
  {
    var rowNumbers, columnNumbers;
    doc, rowNumbers, columnNumbers := HeadSections(otus, samples, allColumns, now, otuValue, enc);
    var data;
    data, error := AbundanceTable(facts, rowNumbers, columnNumbers);
    TriplesComplete(facts, rowNumbers, columnNumbers);
    if error.None? {
      doc := doc + Wrap(DataOpen, data, DocumentClose, ",");
    } else {
      doc := doc + [DataOpen] + Interpose(data, ",");
    }
  }

  /** Every data triple points inside the shape: its row below the row count (OTU
      ids being a primary key) and its column below the column count. */
  lemma TriplesWithinShape(otus: seq<Otu>, samples: seq<Sample>, facts: seq<Fact>, i: nat)
    requires UniqueOtuIds(otus)
    requires i < |Triples(facts, RowIndex(otus), ColumnIndex(samples))|
    ensures RowIndex(otus)[facts[i].otuId] < |RowIndex(otus)|
    ensures ColumnIndex(samples)[facts[i].sampleId] < |ColumnIndex(samples)|
  {
    RowsNumbered(otus);
    ColumnsNumbered(samples);
  }
}
