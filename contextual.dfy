/** `ContextualFilter` and its terms: conditions on sample metadata columns,
    combined by `and`/`or`, after an environment selector. Conditions follow
    SQL's three-valued logic: a NULL column makes a test neither true nor false. */
module ContextualFilters {
  import opened Py
  import opened Strings
  import opened Seqs
  import opened Tables
  import opened Selectors

  // ---------------------------------------------------------------------------
  // Three-valued logic

  datatype Tri = Yes | No | Unknown

  function TriNot(a: Tri): Tri
  {
    match a
    case Yes => No
    case No => Yes
    case Unknown => Unknown
  }

  function TriAnd(a: Tri, b: Tri): Tri
  {
    if a == No || b == No then No
    else if a == Yes && b == Yes then Yes
    else Unknown
  }

  function TriOr(a: Tri, b: Tri): Tri
  {
    if a == Yes || b == Yes then Yes
    else if a == No && b == No then No
    else Unknown
  }

  function FromBool(b: bool): Tri
  {
    if b then Yes else No
  }

  // ---------------------------------------------------------------------------
  // Conditions

  /** The SQL conditions the terms build. */
  datatype Cond =
    | Between(field: string, lo: PyValue, hi: PyValue)   // field BETWEEN lo AND hi
    | Like(field: string, needle: string)                // field LIKE '%' || needle || '%'
    | Equals(field: string, id: int)                     // field = id
    | InList(field: string, ids: seq<int>)               // field IN (ids)
    | Not(c: Cond)                                       // NOT c

  function AsReal(v: PyValue): Option<real>
  {
    match v
    case PInt(i) => Some(i as real)
    case PFloat(r) => Some(r)
    case _ => None
  }

  predicate DateLe(a: Date, b: Date)
  {
    a.year < b.year || (a.year == b.year && (a.month < b.month || (a.month == b.month && a.day <= b.day)))
  }

  /** `lo <= v <= hi` for comparable values; Unknown for NULL or values of another type. */
  function InRange(v: PyValue, lo: PyValue, hi: PyValue): Tri
  {
    if v.PNone? then Unknown
    else if AsReal(v).Some? && AsReal(lo).Some? && AsReal(hi).Some? then
      FromBool(AsReal(lo).value <= AsReal(v).value <= AsReal(hi).value)
    else if v.PDate? && lo.PDate? && hi.PDate? then
      FromBool(DateLe(lo.d, v.d) && DateLe(v.d, hi.d))
    else Unknown
  }

  /** The truth value of a condition on one sample row. */
  function Eval(c: Cond, s: Sample): Tri
  {
    match c
    case Between(f, lo, hi) => InRange(Column(s, f), lo, hi)
    case Like(f, needle) =>
      var v := Column(s, f);
      if v.PStr? then FromBool(Contains(v.s, needle)) else Unknown
    case Equals(f, id) =>
      var v := Column(s, f);
      if v.PInt? then FromBool(v.i == id) else Unknown
    case InList(f, ids) =>
      var v := Column(s, f);
      if v.PInt? then FromBool(v.i in ids) else Unknown
    case Not(c') => TriNot(Eval(c', s))
  }

  /** The column a condition reads. */
  function FieldOf(c: Cond): string
  {
    match c
    case Between(f, _, _) => f
    case Like(f, _) => f
    case Equals(f, _) => f
    case InList(f, _) => f
    case Not(c') => FieldOf(c')
  }

  /** A condition on a NULL column is never true, negated or not. */
  lemma {:induction false} NullIsUnknown(c: Cond, s: Sample)
    requires Column(s, FieldOf(c)) == PNone
    ensures Eval(c, s) == Unknown
  {
    match c
    case Not(c') => NullIsUnknown(c', s);
    case _ =>
  }

  // ---------------------------------------------------------------------------
  // Terms

  /** The typed payload of each ContextualFilterTerm subclass. */
  datatype Payload =
    | FloatRange(fromF: real, toF: real)       // ContextualFilterTermFloat
    | DateRange(fromD: Date, toD: Date)        // ContextualFilterTermDate
    | Substring(text: string)                  // ContextualFilterTermString
    | OntologyId(id: int)                      // ContextualFilterTermOntology
    | SampleIds(ids: seq<int>)                 // ContextualFilterTermSampleID

  datatype Term = Term(fieldName: string, operator: string, payload: Payload)

  /** The `complement` property. */
  predicate IsComplement(t: Term)
  {
    t.operator == "complement"
  }

  /** `get_conditions()`: the condition of the term's kind, before any complement. */
  function GetConditions(t: Term): (r: seq<Cond>)
    ensures |r| == 1 && FieldOf(r[0]) == t.fieldName && !r[0].Not?
  {
    match t.payload
    case FloatRange(a, b) => [Between(t.fieldName, PFloat(a), PFloat(b))]
    case DateRange(a, b) => [Between(t.fieldName, PDate(a), PDate(b))]
    case Substring(text) => [Like(t.fieldName, text)]
    case OntologyId(id) => [Equals(t.fieldName, id)]
    case SampleIds(ids) => [InList(t.fieldName, ids)]
  }

  /** `conditions`: each condition negated when the term is a complement. */
  function Conditions(t: Term): (r: seq<Cond>)
    ensures |r| == |GetConditions(t)|
    ensures forall i :: 0 <= i < |r| ==>
      r[i] == if IsComplement(t) then Not(GetConditions(t)[i]) else GetConditions(t)[i]
  {
    var base := GetConditions(t);
    if IsComplement(t) then [Not(base[0])] else base
  }

  /** The complement of a term keeps exactly the rows the plain term rejects, on
      rows where the plain term is decided (a non-NULL value of the right type);
      where it is not, neither keeps the row. */
  lemma ComplementNegates(t: Term, s: Sample)
    requires IsComplement(t)
    ensures var plain := Term(t.fieldName, "is", t.payload);
      && |Conditions(t)| == 1 && |Conditions(plain)| == 1
      && Eval(Conditions(t)[0], s) == TriNot(Eval(Conditions(plain)[0], s))
      && (Eval(Conditions(plain)[0], s) != Unknown ==>
            (Eval(Conditions(t)[0], s) == Yes <==> Eval(Conditions(plain)[0], s) != Yes))
      && (Column(s, t.fieldName) == PNone ==>
            Eval(Conditions(t)[0], s) != Yes && Eval(Conditions(plain)[0], s) != Yes)
  {
    var plain := Term(t.fieldName, "is", t.payload);
    if Column(s, t.fieldName) == PNone {
      NullIsUnknown(Conditions(plain)[0], s);
    }
  }

  // ---------------------------------------------------------------------------
  // Term constructors: `getattr(SampleContext, field_name)`, then the type assertions

  /** The term, once the field exists and the payload has passed its type test. */
  function Construct(columns: seq<string>, fieldName: string, operator: string, typed: bool, payload: Payload): (r: Outcome<Term>)
    ensures fieldName !in columns ==> r == Raised(AttributeError(fieldName))
    ensures fieldName in columns && !typed ==> r == Raised(AssertionError)
    ensures r.Ok? <==> fieldName in columns && typed
    ensures r.Ok? ==> r.value == Term(fieldName, operator, payload)
  {
    if fieldName !in columns then Raised(AttributeError(fieldName))
    else if !typed then Raised(AssertionError)
    else Ok(Term(fieldName, operator, payload))
  }

  /** `ContextualFilterTermFloat(field_name, operator, val_from, val_to)`. */
  function NewFloatTerm(columns: seq<string>, fieldName: string, operator: string, valFrom: PyValue, valTo: PyValue): (r: Outcome<Term>)
    ensures r.Ok? <==> fieldName in columns && valFrom.PFloat? && valTo.PFloat?
    ensures r.Ok? ==> r.value.payload == FloatRange(valFrom.r, valTo.r)
  {
    var typed := valFrom.PFloat? && valTo.PFloat?;
    Construct(columns, fieldName, operator, typed,
      if typed then FloatRange(valFrom.r, valTo.r) else FloatRange(0.0, 0.0))
  }

  /** `ContextualFilterTermDate(field_name, operator, val_from, val_to)`. */
  function NewDateTerm(columns: seq<string>, fieldName: string, operator: string, valFrom: PyValue, valTo: PyValue): (r: Outcome<Term>)
    ensures r.Ok? <==> fieldName in columns && valFrom.PDate? && valTo.PDate?
    ensures r.Ok? ==> r.value.payload == DateRange(valFrom.d, valTo.d)
  {
    var typed := valFrom.PDate? && valTo.PDate?;
    Construct(columns, fieldName, operator, typed,
      if typed then DateRange(valFrom.d, valTo.d) else DateRange(Date(0, 0, 0), Date(0, 0, 0)))
  }

  /** `ContextualFilterTermString(field_name, operator, val_contains)`. */
  function NewStringTerm(columns: seq<string>, fieldName: string, operator: string, valContains: PyValue): (r: Outcome<Term>)
    ensures r.Ok? <==> fieldName in columns && valContains.PStr?
    ensures r.Ok? ==> r.value.payload == Substring(valContains.s)
  {
    Construct(columns, fieldName, operator, valContains.PStr?,
      if valContains.PStr? then Substring(valContains.s) else Substring(""))
  }

  /** `ContextualFilterTermOntology(field_name, operator, val_is)`; a bool is not an int here. */
  function NewOntologyTerm(columns: seq<string>, fieldName: string, operator: string, valIs: PyValue): (r: Outcome<Term>)
    ensures r.Ok? <==> fieldName in columns && valIs.PInt?
    ensures r.Ok? ==> r.value.payload == OntologyId(valIs.i)
  {
    Construct(columns, fieldName, operator, valIs.PInt?,
      if valIs.PInt? then OntologyId(valIs.i) else OntologyId(0))
  }

  predicate AllInts(items: seq<PyValue>)
  {
    forall i :: 0 <= i < |items| ==> items[i].PInt?
  }

  function Ints(items: seq<PyValue>): (r: seq<int>)
    requires AllInts(items)
    ensures |r| == |items| && forall i :: 0 <= i < |items| ==> items[i] == PInt(r[i])
  {
    if items == [] then [] else [items[0].i] + Ints(items[1..])
  }

  /** `ContextualFilterTermSampleID(field_name, operator, val_is_in)`. */
  function NewSampleIdTerm(columns: seq<string>, fieldName: string, operator: string, valIsIn: PyValue): (r: Outcome<Term>)
    ensures r.Ok? <==> fieldName in columns && valIsIn.PList? && AllInts(valIsIn.items)
    ensures r.Ok? ==>
      && r.value.payload.SampleIds?
      && |r.value.payload.ids| == |valIsIn.items|
      && forall i :: 0 <= i < |valIsIn.items| ==> valIsIn.items[i] == PInt(r.value.payload.ids[i])
  {
    var typed := valIsIn.PList? && AllInts(valIsIn.items);
    Construct(columns, fieldName, operator, typed,
      if typed then SampleIds(Ints(valIsIn.items)) else SampleIds([]))
  }

  // ---------------------------------------------------------------------------
  // Term descriptions and reprs

  /** `str()` of a between bound. */
  function BoundStr(v: PyValue, floatStr: real -> string): string
  {
    match v
    case PFloat(r) => floatStr(r)
    case PDate(d) => DateIso(d)
    case _ => ""
  }

  function Quoted(q: string, s: string): string
  {
    q + s + q
  }

  /** `describe()` of a term. `displayName` is `SampleContext.display_name`;
      `floatStr` is `str()` on a float. A range reads `from<=name<=to`, and its
      complement `name<from,>to`; a string term quotes its text in double quotes,
      an ontology term the looked-up value in single quotes, and a sample id term
      the list of ids in double quotes. */
  function DescribeTerm(db: Db, t: Term, displayName: string -> string, floatStr: real -> string): (r: Outcome<string>)
    ensures r.Ok? ==> r.value != ""
    ensures !t.payload.OntologyId? ==> r.Ok?
    ensures t.payload.FloatRange? ==>
      r.value == RangeWording(displayName(t.fieldName), floatStr(t.payload.fromF), floatStr(t.payload.toF), IsComplement(t))
    ensures t.payload.DateRange? ==>
      r.value == RangeWording(displayName(t.fieldName), DateIso(t.payload.fromD), DateIso(t.payload.toD), IsComplement(t))
    ensures t.payload.Substring? ==>
      r.value == displayName(t.fieldName) + (if IsComplement(t) then " does not contain " else " contains ")
        + ("\"" + t.payload.text + "\"")
    ensures t.payload.SampleIds? ==>
      r.value == displayName("id") + (if IsComplement(t) then " is not in " else " is in ")
        + ("\"" + IntListStr(t.payload.ids) + "\"")
    ensures t.payload.OntologyId? ==>
      (r.Ok? <==> t.fieldName in db.fieldOntologies && IdToValue(db.fieldOntologies[t.fieldName], Some(t.payload.id)).Ok?)
    ensures t.payload.OntologyId? && r.Ok? ==>
      var v := IdToValue(db.fieldOntologies[t.fieldName], Some(t.payload.id)).value;
      r.value == displayName(t.fieldName) + (if IsComplement(t) then " is not " else " is ")
        + ("'" + (if v.Some? then v.value else "None") + "'")
    ensures t.payload.Substring? ==>
      (IsComplement(t) <==> IsPrefix(displayName(t.fieldName) + " does not contain ", r.value))
    ensures t.payload.SampleIds? ==>
      (IsComplement(t) <==> IsPrefix(displayName("id") + " is not in ", r.value))
    ensures t.payload.OntologyId? && r.Ok? ==>
      (IsComplement(t) <==> IsPrefix(displayName(t.fieldName) + " is not ", r.value))
  {
    var name := displayName(t.fieldName);
    match t.payload
    case FloatRange(a, b) => Ok(RangeWording(name, floatStr(a), floatStr(b), IsComplement(t)))
    case DateRange(a, b) => Ok(RangeWording(name, DateIso(a), DateIso(b), IsComplement(t)))
    case Substring(text) =>
      PhraseDiffers(" contains ", " does not contain ", "\"" + text + "\"", 1);
      Ok(Worded(name, IsComplement(t), " contains ", " does not contain ", "\"" + text + "\""))
    case OntologyId(id) =>
      if t.fieldName !in db.fieldOntologies then Raised(AttributeError("ontology_class"))
      else
        var looked := IdToValue(db.fieldOntologies[t.fieldName], Some(id));
        if looked.Raised? then Raised(looked.error)
        else
          var v := looked.value;
          var value := if v.Some? then v.value else "None";
          OntologyPhraseDiffers(value);
          Ok(Worded(name, IsComplement(t), " is ", " is not ", "'" + value + "'"))
    case SampleIds(ids) =>
      PhraseDiffers(" is in ", " is not in ", "\"" + IntListStr(ids) + "\"", 4);
      Ok(Worded(displayName("id"), IsComplement(t), " is in ", " is not in ", "\"" + IntListStr(ids) + "\""))
  }

  /** A range term's wording: `lo<=name<=hi`, and for a complement `name<lo,>hi`. */
  function RangeWording(name: string, lo: string, hi: string, complement: bool): (r: string)
    ensures |r| >= 2
  {
    if complement then name + "<" + lo + ",>" + hi else lo + "<=" + name + "<=" + hi
  }

  /** `name`, then the negated phrase for a complement and the plain one otherwise,
      then `tail`; the text starts with the negated phrase exactly for a complement. */
  function Worded(name: string, complement: bool, plain: string, negated: string, tail: string): (r: string)
    requires Differs(plain + tail, negated)
    ensures r == name + (if complement then negated else plain) + tail
    ensures complement <==> IsPrefix(name + negated, r)
  {
    var out := name + (if complement then negated else plain) + tail;
    if complement then
      assert out[..|name + negated|] == name + negated;
      out
    else
      var k :| 0 <= k < |plain + tail| && k < |negated| && (plain + tail)[k] != negated[k];
      assert out[|name| + k] == (plain + tail)[k];
      out
  }

  /** Neither text is a prefix of the other: they differ at some shared position. */
  predicate Differs(a: string, b: string)
  {
    exists k :: 0 <= k < |a| && k < |b| && a[k] != b[k]
  }

  lemma PhraseDiffers(plain: string, negated: string, tail: string, k: nat)
    requires k < |plain| && k < |negated| && plain[k] != negated[k]
    ensures Differs(plain + tail, negated)
  {
    assert (plain + tail)[k] == plain[k];
  }

  lemma OntologyPhraseDiffers(value: string)
    ensures Differs(" is " + "'" + value + "'", " is not ")
  {
    assert (" is " + "'" + value + "'")[4] == '\'' != " is not "[4];
  }

  /** The class name each kind of term prints in its repr. */
  function KindName(p: Payload): string
  {
    match p
    case FloatRange(_, _) => "TermFloat"
    case DateRange(_, _) => "TermDate"
    case Substring(_) => "TermString"
    case OntologyId(_) => "TermOntology"
    case SampleIds(_) => "TermSampleID"
  }

  /** `__repr__` of a term: `<TermFloat(field,operator,from,to)>` and the like. */
  function TermRepr(t: Term, floatStr: real -> string): (r: string)
    ensures IsPrefix("<" + KindName(t.payload) + "(" + t.fieldName + "," + t.operator + ",", r)
  {
    var head := "<" + KindName(t.payload) + "(" + t.fieldName + "," + t.operator + ",";
    var args := match t.payload
      case FloatRange(a, b) => floatStr(a) + "," + floatStr(b)
      case DateRange(a, b) => DateIso(a) + "," + DateIso(b)
      case Substring(text) => text
      case OntologyId(id) => IntToString(id)
      case SampleIds(ids) => IntListStr(ids);
    var out := head + args + ")>";
    assert out[..|head|] == head;
    out
  }

  // ---------------------------------------------------------------------------
  // The filter

  datatype Mode = AndMode | OrMode

  function ModeName(m: Mode): string
  {
    match m
    case AndMode => "and"
    case OrMode => "or"
  }

  /** `ContextualFilter.mode_operators[mode]`. */
  function ModeFromName(name: string): (r: Outcome<Mode>)
    ensures r.Ok? <==> name == "and" || name == "or"
    ensures r.Ok? ==> ModeName(r.value) == name
    ensures r.Raised? ==> r.error == KeyError(PyReprStr(name))
  {
    if name == "and" then Ok(AndMode)
    else if name == "or" then Ok(OrMode)
    else Raised(KeyError(PyReprStr(name)))
  }

  /** The state of a ContextualFilter at one moment. */
  datatype Contextual = Contextual(mode: Mode, environmentFilter: Option<OpAndVal>, terms: seq<Term>)

  /** `chain(*(t.conditions for t in terms))`. */
  function AllConditions(terms: seq<Term>): (r: seq<Cond>)
    ensures |r| == |terms|
    ensures forall i :: 0 <= i < |terms| ==> r[i] == Conditions(terms[i])[0]
  {
    if terms == [] then [] else Conditions(terms[0]) + AllConditions(terms[1..])
  }

  function AndAll(cs: seq<Cond>, s: Sample): Tri
  {
    if cs == [] then Yes else TriAnd(Eval(cs[0], s), AndAll(cs[1..], s))
  }

  function OrAll(cs: seq<Cond>, s: Sample): Tri
  {
    if cs == [] then No else TriOr(Eval(cs[0], s), OrAll(cs[1..], s))
  }

  /** `mode_func(*conditions)` as a WHERE clause; with no conditions there is no
      clause at all, in either mode. */
  function Combine(m: Mode, cs: seq<Cond>, s: Sample): Tri
  {
    if cs == [] then Yes
    else if m == AndMode then AndAll(cs, s)
    else OrAll(cs, s)
  }

  lemma {:induction false} AndAllYes(cs: seq<Cond>, s: Sample)
    ensures AndAll(cs, s) == Yes <==> forall i :: 0 <= i < |cs| ==> Eval(cs[i], s) == Yes
  {
    if cs != [] {
      AndAllYes(cs[1..], s);
      assert forall i :: 1 <= i < |cs| ==> cs[i] == cs[1..][i - 1];
    }
  }

  lemma {:induction false} OrAllYes(cs: seq<Cond>, s: Sample)
    ensures OrAll(cs, s) == Yes <==> exists i :: 0 <= i < |cs| && Eval(cs[i], s) == Yes
  {
    if cs != [] {
      OrAllYes(cs[1..], s);
      if exists i :: 0 <= i < |cs| && Eval(cs[i], s) == Yes {
        var i :| 0 <= i < |cs| && Eval(cs[i], s) == Yes;
        if i > 0 {
          assert cs[1..][i - 1] == cs[i];
        }
      }
      if exists i :: 0 <= i < |cs[1..]| && Eval(cs[1..][i], s) == Yes {
        var i :| 0 <= i < |cs[1..]| && Eval(cs[1..][i], s) == Yes;
        assert cs[i + 1] == cs[1..][i];
      }
    }
  }

  /** In `and` mode a sample passes when every term's condition holds of it; in `or`
      mode when some term's does; no terms restrict nothing. */
  lemma CombineYes(m: Mode, terms: seq<Term>, s: Sample)
    ensures m == AndMode ==>
      (Combine(m, AllConditions(terms), s) == Yes <==>
        forall i :: 0 <= i < |terms| ==> Eval(Conditions(terms[i])[0], s) == Yes)
    ensures m == OrMode ==>
      (Combine(m, AllConditions(terms), s) == Yes <==>
        terms == [] || exists i :: 0 <= i < |terms| && Eval(Conditions(terms[i])[0], s) == Yes)
  {
    var cs := AllConditions(terms);
    AndAllYes(cs, s);
    OrAllYes(cs, s);
  }

  /** Whether the environment selector and the combined terms keep a sample. */
  predicate KeepsSample(cf: Contextual, s: Sample)
  {
    SelectorKeeps(cf.environmentFilter, EnvironmentId(s)) && Combine(cf.mode, AllConditions(cf.terms), s) == Yes
  }

  function EnvironmentOf<R>(sampleOf: R -> Sample): R -> Option<int>
  {
    (x: R) => EnvironmentId(sampleOf(x))
  }

  function TermsHold<R>(cf: Contextual, sampleOf: R -> Sample): R -> bool
  {
    (x: R) => Combine(cf.mode, AllConditions(cf.terms), sampleOf(x)) == Yes
  }

  function KeepsSampleOf<R>(cf: Contextual, sampleOf: R -> Sample): R -> bool
  {
    (x: R) => KeepsSample(cf, sampleOf(x))
  }

  /** `apply(q)`: the environment selector first, outside the mode, then one WHERE
      with the terms' conditions combined by the mode. */
  function Apply<R(!new)>(cf: Contextual, q: seq<R>, sampleOf: R -> Sample): (r: seq<R>)
    ensures forall x :: x in r <==> x in q && KeepsSample(cf, sampleOf(x))
  {
    Where(ApplyOpAndValFilter(EnvironmentOf(sampleOf), q, cf.environmentFilter), TermsHold(cf, sampleOf))
  }

  /** `apply` keeps exactly, and in order, the rows whose sample the filter keeps. */
  lemma ApplyIsWhere<R(!new)>(cf: Contextual, q: seq<R>, sampleOf: R -> Sample)
    ensures Apply(cf, q, sampleOf) == Where(q, KeepsSampleOf(cf, sampleOf))
  {
    ApplyOpAndValFilterIsWhere(EnvironmentOf(sampleOf), q, cf.environmentFilter);
    WhereWhere(q, KeptBy(cf.environmentFilter, EnvironmentOf(sampleOf)), TermsHold(cf, sampleOf),
      KeepsSampleOf(cf, sampleOf));
  }

  /** `is_empty()`: no terms and a falsy environment selector. */
  predicate IsEmpty(cf: Contextual): (r: bool)
    ensures r ==> SelectedValue(cf.environmentFilter).None? && forall sample :: KeepsSample(cf, sample)
  {
    |cf.terms| == 0 && !IsTruthy(cf.environmentFilter)
  }

  /** An empty filter restricts nothing. */
  lemma EmptyKeepsAll<R(!new)>(cf: Contextual, q: seq<R>, sampleOf: R -> Sample)
    requires IsEmpty(cf)
    ensures Apply(cf, q, sampleOf) == q
  {
    assert SelectedValue(cf.environmentFilter).None?;
    WhereAll(q, TermsHold(cf, sampleOf));
  }

  /** The descriptions of the terms, in order. */
  function DescribeTerms(db: Db, terms: seq<Term>, displayName: string -> string, floatStr: real -> string): (r: Outcome<seq<string>>)
    ensures r.Ok? <==> forall i :: 0 <= i < |terms| ==> DescribeTerm(db, terms[i], displayName, floatStr).Ok?
    ensures r.Ok? ==> |r.value| == |terms|
    ensures r.Ok? ==> forall i :: 0 <= i < |terms| ==>
      r.value[i] == DescribeTerm(db, terms[i], displayName, floatStr).value && r.value[i] != ""
  {
    if terms == [] then Ok([])
    else
      match DescribeTerm(db, terms[0], displayName, floatStr)
      case Raised(e) => Raised(e)
      case Ok(d) =>
        match DescribeTerms(db, terms[1..], displayName, floatStr)
        case Raised(e) => Raised(e)
        case Ok(rest) => Ok([d] + rest)
  }

  /** `describe()`: the environment description and the term descriptions, the falsy
      ones dropped. */
  function Describe(db: Db, cf: Contextual, displayName: string -> string, floatStr: real -> string): (r: Outcome<seq<string>>)
    ensures r.Ok? <==>
      DescribeOpAndVal(db.environmentTable, "environment_id", cf.environmentFilter).Ok? &&
      DescribeTerms(db, cf.terms, displayName, floatStr).Ok?
    ensures r.Ok? ==> |r.value| == |cf.terms| + (if cf.environmentFilter.Some? then 1 else 0)
    ensures r.Ok? ==> forall i :: 0 <= i < |r.value| ==> r.value[i] != ""
    ensures r.Ok? && cf.environmentFilter.Some? ==>
      r.value[0] == DescribeOpAndVal(db.environmentTable, "environment_id", cf.environmentFilter).value.value
    ensures r.Ok? ==> r.value[|r.value| - |cf.terms|..] == DescribeTerms(db, cf.terms, displayName, floatStr).value
  {
    match DescribeOpAndVal(db.environmentTable, "environment_id", cf.environmentFilter)
    case Raised(e) => Raised(e)
    case Ok(env) =>
      match DescribeTerms(db, cf.terms, displayName, floatStr)
      case Raised(e) => Raised(e)
      case Ok(ts) =>
        assert env.Some? ==> env.value != "" by {
          if env.Some? { assert IsPrefix(DropId("environment_id") + " is ", env.value); }
        }
        Ok((if env.Some? && env.value != "" then [env.value] else []) + ts)
  }

  function TermReprs(terms: seq<Term>, floatStr: real -> string): (r: seq<string>)
    ensures |r| == |terms|
    ensures forall i :: 0 <= i < |terms| ==> r[i] == TermRepr(terms[i], floatStr)
  {
    if terms == [] then [] else [TermRepr(terms[0], floatStr)] + TermReprs(terms[1..], floatStr)
  }

  /** `'<ContextualFilter(%s,env[%s],[%s]>'`; the format has no `)` before its `>`. */
  function Repr(cf: Contextual, floatStr: real -> string): (r: string)
    ensures IsPrefix("<ContextualFilter(" + ModeName(cf.mode) + ",env[" + SelectorRepr(cf.environmentFilter) + "],[", r)
    ensures r[|r| - 2..] == "]>"
  {
    var head := "<ContextualFilter(" + ModeName(cf.mode) + ",env[" + SelectorRepr(cf.environmentFilter) + "],[";
    var out := head + Join(",", TermReprs(cf.terms, floatStr)) + "]>";
    assert out[..|head|] == head;
    out
  }

  /** The filter object: built with a mode and an environment selector, then
      extended term by term. */
  class ContextualFilter {
    const mode: Mode
    const environmentFilter: Option<OpAndVal>
    var terms: seq<Term>

    constructor (mode: Mode, environmentFilter: Option<OpAndVal>)
      ensures this.mode == mode && this.environmentFilter == environmentFilter && terms == []
    {
      this.mode := mode;
      this.environmentFilter := environmentFilter;
      terms := [];
    }

    /** `ContextualFilter(mode, environment_filter)`: a mode other than `and`/`or` is a KeyError. */
    static method Create(modeName: string, environmentFilter: Option<OpAndVal>) returns (r: Outcome<ContextualFilter>)
      ensures r.Ok? <==> modeName == "and" || modeName == "or"
      ensures r.Raised? ==> r.error == KeyError(PyReprStr(modeName))
      ensures r.Ok? ==>
        && fresh(r.value)
        && ModeName(r.value.mode) == modeName
        && r.value.environmentFilter == environmentFilter
        && r.value.terms == []
    {
      match ModeFromName(modeName)
      case Raised(e) =>
        r := Raised(e);
      case Ok(m) =>
        var f := new ContextualFilter(m, environmentFilter);
        r := Ok(f);
    }

    /** `add_term(term)`. */
    method AddTerm(t: Term)
      modifies this
      ensures terms == old(terms) + [t]
    {
      terms := terms + [t];
    }

    /** The filter's current state, which `apply`, `describe`, `is_empty` and `repr` read. */
    function Snapshot(): (c: Contextual)
      reads this
      ensures c.terms == terms
    {
      Contextual(mode, environmentFilter, terms)
    }
  }
}
