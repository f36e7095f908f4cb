/** `OTUQueryParams`: a contextual and a taxonomy filter, the one-line summary of
    them and the cache key of their combined repr. */
module QueryParams {
  import opened Py
  import opened Strings
  import opened Tables
  import opened Caching
  import TF = TaxonomyFilters
  import CF = ContextualFilters
  import CR = ContextualReprs
  import SL = Selectors

  const SummaryPrefix: string := "Australian Microbiome: "

  /** The parts of the summary: the amplicon description, the deepest level
      description and each contextual description. */
  function SummaryParts(db: Db, tf: TF.TaxonomyFilter, cf: CF.Contextual, displayName: string -> string, floatStr: real -> string)
    : (r: Outcome<seq<string>>)
    ensures r.Ok? <==> TF.Describe(db, tf).Ok? && CF.Describe(db, cf, displayName, floatStr).Ok?
    ensures r.Ok? ==>
      var (amplicon, levels) := TF.Describe(db, tf).value;
      var contextual := CF.Describe(db, cf, displayName, floatStr).value;
      && |r.value| == (if amplicon.Some? then 1 else 0) + (if levels != [] then 1 else 0) + |contextual|
      && r.value[|r.value| - |contextual|..] == contextual
      && (levels != [] ==> r.value[|r.value| - |contextual| - 1] == levels[|levels| - 1])
      && (amplicon.Some? ==> r.value[0] == amplicon.value)
  {
    var taxonomy := TF.Describe(db, tf);
    var contextual := CF.Describe(db, cf, displayName, floatStr);
    if taxonomy.Raised? then Raised(taxonomy.error)
    else if contextual.Raised? then Raised(contextual.error)
    else
      var head := SummaryHead(taxonomy.value.0, taxonomy.value.1);
      var parts := head + contextual.value;
      assert parts[|parts| - |contextual.value|..] == contextual.value;
      Ok(parts)
  }

  /** The amplicon description when there is one, then the deepest level's. */
  function SummaryHead(amplicon: Option<string>, levels: seq<string>): (r: seq<string>)
    ensures |r| == (if amplicon.Some? then 1 else 0) + (if levels != [] then 1 else 0)
    ensures amplicon.Some? ==> r[0] == amplicon.value
    ensures levels != [] ==> r[|r| - 1] == levels[|levels| - 1]
  {
    (if amplicon.Some? then [amplicon.value] else []) + (if levels != [] then [levels[|levels| - 1]] else [])
  }

  /** `summary()`: the prefix and the parts joined by "; " (`max_chars` is not used). */
  function Summary(db: Db, tf: TF.TaxonomyFilter, cf: CF.Contextual, displayName: string -> string, floatStr: real -> string)
    : (r: Outcome<string>)
    ensures r.Ok? <==> SummaryParts(db, tf, cf, displayName, floatStr).Ok?
    ensures r.Ok? ==> r.value == SummaryPrefix + Join("; ", SummaryParts(db, tf, cf, displayName, floatStr).value)
    ensures r.Ok? ==> IsPrefix(SummaryPrefix, r.value)
  {
    match SummaryParts(db, tf, cf, displayName, floatStr)
    case Raised(e) => Raised(e)
    case Ok(parts) =>
      var text := SummaryPrefix + Join("; ", parts);
      assert text[..|SummaryPrefix|] == SummaryPrefix;
      Ok(text)
  }

  /** With no selection at all the summary is the bare prefix. */
  lemma SummaryOfNothing(db: Db, tf: TF.TaxonomyFilter, cf: CF.Contextual, displayName: string -> string, floatStr: real -> string)
    requires tf.ampliconFilter.None? && forall k :: 0 <= k < |tf.stateVector| ==> tf.stateVector[k].None?
    requires cf.environmentFilter.None? && cf.terms == []
    ensures Summary(db, tf, cf, displayName, floatStr) == Ok(SummaryPrefix)
  {
    TF.DescribeNothing(db, tf);
    assert TF.Describe(db, tf) == Ok((None, []));
    assert CF.DescribeTerms(db, cf.terms, displayName, floatStr) == Ok([]);
    assert CF.Describe(db, cf, displayName, floatStr) == Ok([]);
    assert SummaryParts(db, tf, cf, displayName, floatStr) == Ok([]);
    assert SummaryPrefix + Join("; ", []) == SummaryPrefix;
  }

  /** `repr(params)`: `OTUQueryParams<contextual repr,taxonomy repr>`, with the
      contextual filter's repr as written. */
  function Repr(tf: TF.TaxonomyFilter, cf: CF.Contextual, floatStr: real -> string): (r: string)
    ensures IsPrefix("OTUQueryParams<" + CF.Repr(cf, floatStr) + ",", r)
    ensures r[|"OTUQueryParams<" + CF.Repr(cf, floatStr) + ","|..] == TF.Repr(tf) + ">"
  {
    var head := "OTUQueryParams<" + CF.Repr(cf, floatStr) + ",";
    var tail := TF.Repr(tf) + ">";
    SplitJoined(head, tail);
    head + tail
  }

  /** The parameters' repr over the corrected contextual repr, which quotes every
      string component of every term. */
  function CorrectedRepr(tf: TF.TaxonomyFilter, cf: CF.Contextual, floatStr: real -> string): (r: string)
    ensures IsPrefix("OTUQueryParams<" + CR.QuotedRepr(cf, floatStr) + ",", r)
    ensures r[|"OTUQueryParams<" + CR.QuotedRepr(cf, floatStr) + ","|..] == TF.Repr(tf) + ">"
  {
    var head := "OTUQueryParams<" + CR.QuotedRepr(cf, floatStr) + ",";
    var tail := TF.Repr(tf) + ">";
    SplitJoined(head, tail);
    head + tail
  }

  class OTUQueryParams {
    const contextualFilter: CF.Contextual
    const taxonomyFilter: TF.TaxonomyFilter
    const stateKey: string

    /** `OTUQueryParams(contextual_filter, taxonomy_filter)`: the state key is
        `make_cache_key(repr(self))`, over the repr as written. */
    constructor (contextualFilter: CF.Contextual, taxonomyFilter: TF.TaxonomyFilter, keys: KeyMaker, currentUuid: string, floatStr: real -> string)
      modifies keys
      ensures this.contextualFilter == contextualFilter && this.taxonomyFilter == taxonomyFilter
      ensures keys.metadataUuid == (if old(keys.metadataUuid).None? then Some(currentUuid) else old(keys.metadataUuid))
      ensures stateKey == KeyText(keys.metadataUuid.value, [PyReprStr(Repr(taxonomyFilter, contextualFilter, floatStr))])
    {
      this.contextualFilter := contextualFilter;
      this.taxonomyFilter := taxonomyFilter;
      var key := keys.MakeCacheKey(currentUuid, [PyReprStr(Repr(taxonomyFilter, contextualFilter, floatStr))]);
      this.stateKey := key;
    }
  }

  /** Two parameter sets of one import share a state key only when their reprs agree. */
  lemma StateKeySeparates(uuid: string, a: string, b: string)
    requires ':' !in uuid
    requires KeyText(uuid, [PyReprStr(a)]) == KeyText(uuid, [PyReprStr(b)])
    ensures a == b
  {
    KeyTextSeparates(uuid, [PyReprStr(a)], uuid, [PyReprStr(b)]);
    assert Join(":", [PyReprStr(a)]) == PyReprStr(a);
    assert Join(":", [PyReprStr(b)]) == PyReprStr(b);
    PyReprStrRoundTrip(a);
    PyReprStrRoundTrip(b);
  }

  /** As written, two different searches of one import share a state key: a text
      term whose text spells out the end of one term and the start of another has the
      same contextual repr as those two terms. */
  lemma StateKeyCollision(uuid: string, mode: CF.Mode, env: Option<SL.OpAndVal>, f: string, op: string,
                          tf: TF.TaxonomyFilter, floatStr: real -> string)
    ensures var one := CF.Contextual(mode, env, [CF.Term(f, op, CF.Substring("a)>," + CR.StringHead(f, op) + "b"))]);
      var two := CF.Contextual(mode, env, [CF.Term(f, op, CF.Substring("a")), CF.Term(f, op, CF.Substring("b"))]);
      one != two && KeyText(uuid, [PyReprStr(Repr(tf, one, floatStr))]) == KeyText(uuid, [PyReprStr(Repr(tf, two, floatStr))])
  {
    CR.ReprCollision(mode, env, f, op, floatStr);
  }

  /** Reads the contextual filter from the front of a parameter repr: the filter and
      the text after its `,`. */
  function ReadParams(s: string, floatOf: string -> Option<real>): Option<(CF.Contextual, string)>
  {
    match Skip("OTUQueryParams<", s)
    case None => None
    case Some(a) =>
      match CR.ReadContextual(a, floatOf)
      case None => None
      case Some((cf, b)) =>
        match Skip(",", b)
        case None => None
        case Some(c) => Some((cf, c))
  }

  lemma Nest3(a: string, b: string, c: string, d: string)
    ensures a + b + c + d == a + (b + (c + d))
  {
  }

  /** A corrected parameter repr reads back as its contextual filter, followed by the taxonomy
      filter's repr and `>`. */
  lemma ParamsReadBack(tf: TF.TaxonomyFilter, cf: CF.Contextual, floatStr: real -> string, floatOf: string -> Option<real>)
    requires CR.TermsFloatsRead(cf.terms, floatStr, floatOf)
    ensures ReadParams(CorrectedRepr(tf, cf, floatStr), floatOf) == Some((cf, TF.Repr(tf) + ">"))
  {
    var tail := TF.Repr(tf) + ">";
    var b := "," + tail;
    var a := CR.QuotedRepr(cf, floatStr) + b;
    Nest3("OTUQueryParams<", CR.QuotedRepr(cf, floatStr), ",", tail);
    assert CorrectedRepr(tf, cf, floatStr) == "OTUQueryParams<" + a;
    SkipJoined("OTUQueryParams<", a);
    CR.QuotedReprReadBack(cf, floatStr, floatOf, b);
    SkipJoined(",", tail);
  }

  /** Distinct parameter sets have distinct corrected reprs. */
  lemma ReprInjective(tfa: TF.TaxonomyFilter, cfa: CF.Contextual, tfb: TF.TaxonomyFilter, cfb: CF.Contextual,
                      floatStr: real -> string, floatOf: string -> Option<real>)
    requires CR.TermsFloatsRead(cfa.terms, floatStr, floatOf) && CR.TermsFloatsRead(cfb.terms, floatStr, floatOf)
    requires CorrectedRepr(tfa, cfa, floatStr) == CorrectedRepr(tfb, cfb, floatStr)
    ensures tfa == tfb && cfa == cfb
  {
    ParamsReadBack(tfa, cfa, floatStr, floatOf);
    ParamsReadBack(tfb, cfb, floatStr, floatOf);
    var ta, tb := TF.Repr(tfa) + ">", TF.Repr(tfb) + ">";
    assert ta == tb;
    assert TF.Repr(tfa) == ta[..|ta| - 1] == tb[..|tb| - 1] == TF.Repr(tfb);
    TF.ReprInjective(tfa, tfb);
  }

  /** Within one import, equal state keys over the corrected repr mean equal
      parameters: the cache would never serve one search's results for another. */
  lemma StateKeyIdentifies(uuid: string, tfa: TF.TaxonomyFilter, cfa: CF.Contextual, tfb: TF.TaxonomyFilter,
                           cfb: CF.Contextual, floatStr: real -> string, floatOf: string -> Option<real>)
    requires ':' !in uuid
    requires CR.TermsFloatsRead(cfa.terms, floatStr, floatOf) && CR.TermsFloatsRead(cfb.terms, floatStr, floatOf)
    requires KeyText(uuid, [PyReprStr(CorrectedRepr(tfa, cfa, floatStr))]) == KeyText(uuid, [PyReprStr(CorrectedRepr(tfb, cfb, floatStr))])
    ensures tfa == tfb && cfa == cfb
  {
    StateKeySeparates(uuid, CorrectedRepr(tfa, cfa, floatStr), CorrectedRepr(tfb, cfb, floatStr));
    ReprInjective(tfa, cfa, tfb, cfb, floatStr, floatOf);
  }
}
