/** The repr of a contextual filter, which `OTUQueryParams` hashes into its state key:
    the format as written, two filters it cannot tell apart, and the format with every
    string component written by `repr`, which reads back and so tells every two
    filters apart. */
module ContextualReprs {
  import opened Py
  import opened Strings
  import opened Selectors
  import opened ContextualFilters

  // ---------------------------------------------------------------------------
  // As written: a text term's value is printed bare

  /** What a text term's repr starts with. */
  function StringHead(f: string, op: string): string
  {
    "<TermString(" + f + "," + op + ","
  }

  lemma StringTermRepr(f: string, op: string, text: string, floatStr: real -> string)
    ensures TermRepr(Term(f, op, Substring(text)), floatStr) == StringHead(f, op) + (text + ")>")
  {
    assert "<" + KindName(Substring(text)) + "(" == "<TermString(";
  }

  lemma CollisionText(h: string, a: string, b: string, close: string, comma: string)
    ensures h + ((a + (close + comma) + h + b) + close) == (h + (a + close)) + comma + (h + (b + close))
  {
  }

  /** A text term whose value holds `)>,` and the start of another text term's repr
      has the same repr as the two terms it spells out. */
  lemma ReprCollision(mode: Mode, env: Option<OpAndVal>, f: string, op: string, floatStr: real -> string)
    ensures var one := Contextual(mode, env, [Term(f, op, Substring("a)>," + StringHead(f, op) + "b"))]);
      var two := Contextual(mode, env, [Term(f, op, Substring("a")), Term(f, op, Substring("b"))]);
      one != two && Repr(one, floatStr) == Repr(two, floatStr)
  {
    var h := StringHead(f, op);
    var joined := "a)>," + h + "b";
    var t1 := Term(f, op, Substring(joined));
    var ta := Term(f, op, Substring("a"));
    var tb := Term(f, op, Substring("b"));
    StringTermRepr(f, op, joined, floatStr);
    StringTermRepr(f, op, "a", floatStr);
    StringTermRepr(f, op, "b", floatStr);
    assert "a)>," == "a" + (")>" + ",");
    CollisionText(h, "a", "b", ")>", ",");
    JoinTwo(",", TermRepr(ta, floatStr), TermRepr(tb, floatStr));
    assert TermReprs([t1], floatStr) == [TermRepr(t1, floatStr)];
    assert TermReprs([ta, tb], floatStr) == [TermRepr(ta, floatStr), TermRepr(tb, floatStr)];
    assert Join(",", TermReprs([t1], floatStr)) == Join(",", TermReprs([ta, tb], floatStr));
    assert |joined| > 1;
  }

  // ---------------------------------------------------------------------------
  // Corrected: every string component written by `repr`

  /** The arguments after the field name and operator: the bounds, the quoted text,
      the ontology id or the list of sample ids. */
  function ArgsText(p: Payload, floatStr: real -> string): string
  {
    match p
    case FloatRange(a, b) => floatStr(a) + "," + floatStr(b)
    case DateRange(a, b) => DateIso(a) + "," + DateIso(b)
    case Substring(text) => PyReprStr(text)
    case OntologyId(id) => IntToString(id)
    case SampleIds(ids) => IntListStr(ids)
  }

  /** A term's repr with `%r` for its field name, operator and text. */
  function QuotedTermRepr(t: Term, floatStr: real -> string): string
  {
    "<" + KindName(t.payload) + "(" + PyReprStr(t.fieldName) + "," + PyReprStr(t.operator) + ","
      + ArgsText(t.payload, floatStr) + ")>"
  }

  function QuotedTermReprs(terms: seq<Term>, floatStr: real -> string): (r: seq<string>)
    ensures |r| == |terms|
    ensures forall i :: 0 <= i < |terms| ==> r[i] == QuotedTermRepr(terms[i], floatStr)
  {
    if terms == [] then [] else [QuotedTermRepr(terms[0], floatStr)] + QuotedTermReprs(terms[1..], floatStr)
  }

  /** The filter's repr in the format of `Repr`, over the quoted term reprs. */
  function QuotedRepr(cf: Contextual, floatStr: real -> string): string
  {
    "<ContextualFilter(" + ModeName(cf.mode) + ",env[" + SelectorRepr(cf.environmentFilter) + "],["
      + Join(",", QuotedTermReprs(cf.terms, floatStr)) + "]>"
  }

  /** `str(x)` of this float reads back as x and holds no comma and no closing
      parenthesis (as Python's shortest repr of a finite float does). */
  predicate FloatReads(floatStr: real -> string, floatOf: string -> Option<real>, x: real)
  {
    floatOf(floatStr(x)) == Some(x) && Avoids(floatStr(x), {',', ')'})
  }

  /** Both bounds of a float range read back; other payloads hold no float. */
  predicate PayloadFloatsRead(p: Payload, floatStr: real -> string, floatOf: string -> Option<real>)
  {
    p.FloatRange? ==> FloatReads(floatStr, floatOf, p.fromF) && FloatReads(floatStr, floatOf, p.toF)
  }

  /** Every bound of every float term reads back. */
  predicate TermsFloatsRead(terms: seq<Term>, floatStr: real -> string, floatOf: string -> Option<real>)
  {
    forall i :: 0 <= i < |terms| ==> PayloadFloatsRead(terms[i].payload, floatStr, floatOf)
  }

  /** A filter with no float range needs nothing of the float text. */
  lemma TermsWithoutFloatsRead(terms: seq<Term>, floatStr: real -> string, floatOf: string -> Option<real>)
    requires forall i :: 0 <= i < |terms| ==> !terms[i].payload.FloatRange?
    ensures TermsFloatsRead(terms, floatStr, floatOf)
  {
  }

  // ---------------------------------------------------------------------------
  // Reading the corrected repr back

  function ReadFloats(s: string, floatOf: string -> Option<real>): Option<(Payload, string)>
  {
    match ReadUntil(s, {','})
    case None => None
    case Some((ta, a)) =>
      match Skip(",", a)
      case None => None
      case Some(b) =>
        match ReadUntil(b, {')'})
        case None => None
        case Some((tb, rest)) =>
          match (floatOf(ta), floatOf(tb))
          case (Some(x), Some(y)) => Some((FloatRange(x, y), rest))
          case _ => None
  }

  function ReadDates(s: string): Option<(Payload, string)>
  {
    match ReadDate(s, ',')
    case None => None
    case Some((d1, a)) =>
      match Skip(",", a)
      case None => None
      case Some(b) =>
        match ReadDate(b, ')')
        case None => None
        case Some((d2, rest)) => Some((DateRange(d1, d2), rest))
  }

  function ReadText(s: string): Option<(Payload, string)>
  {
    match ReadQuoted(s)
    case None => None
    case Some((text, rest)) => Some((Substring(text), rest))
  }

  function ReadOntologyId(s: string): Option<(Payload, string)>
  {
    match ReadUntil(s, {')'})
    case None => None
    case Some((t, rest)) =>
      match ParseInt(t)
      case None => None
      case Some(id) => Some((OntologyId(id), rest))
  }

  function ReadSampleIds(s: string): Option<(Payload, string)>
  {
    match ReadIntList(s)
    case None => None
    case Some((ids, rest)) => Some((SampleIds(ids), rest))
  }

  /** Reads the arguments of a term of the named kind. */
  function ReadArgs(kind: string, s: string, floatOf: string -> Option<real>): Option<(Payload, string)>
  {
    if kind == "TermFloat" then ReadFloats(s, floatOf)
    else if kind == "TermDate" then ReadDates(s)
    else if kind == "TermString" then ReadText(s)
    else if kind == "TermOntology" then ReadOntologyId(s)
    else if kind == "TermSampleID" then ReadSampleIds(s)
    else None
  }

  /** Reads a term's repr from the front of a text. */
  function ReadTerm(s: string, floatOf: string -> Option<real>): Option<(Term, string)>
  {
    if s == [] || s[0] != '<' then None
    else
      match ReadUntil(s[1..], {'('})
      case None => None
      case Some((kind, a)) =>
        match Skip("(", a)
        case None => None
        case Some(b) =>
          match ReadQuoted(b)
          case None => None
          case Some((field, c)) =>
            match Skip(",", c)
            case None => None
            case Some(d) =>
              match ReadQuoted(d)
              case None => None
              case Some((op, e)) =>
                match Skip(",", e)
                case None => None
                case Some(g) =>
                  match ReadArgs(kind, g, floatOf)
                  case None => None
                  case Some((p, h)) =>
                    match Skip(")>", h)
                    case None => None
                    case Some(rest) => Some((Term(field, op, p), rest))
  }

  /** Reads comma-separated terms through the closing bracket of the list. */
  function ReadTermItems(s: string, floatOf: string -> Option<real>): Option<(seq<Term>, string)>
    decreases |s|
  {
    match ReadTerm(s, floatOf)
    case None => None
    case Some((t, u)) =>
      if u != [] && u[0] == ']' then Some(([t], u[1..]))
      else if u != [] && u[0] == ',' && |u| <= |s| then
        match ReadTermItems(u[1..], floatOf)
        case None => None
        case Some((more, rest)) => Some(([t] + more, rest))
      else None
  }

  function ReadMode(s: string): Option<(Mode, string)>
  {
    if s != [] && s[0] == 'a' then
      match Skip("and", s)
      case None => None
      case Some(rest) => Some((AndMode, rest))
    else if s != [] && s[0] == 'o' then
      match Skip("or", s)
      case None => None
      case Some(rest) => Some((OrMode, rest))
    else None
  }

  /** Reads a filter's corrected repr from the front of a text. */
  function ReadContextual(s: string, floatOf: string -> Option<real>): Option<(Contextual, string)>
  {
    match Skip("<ContextualFilter(", s)
    case None => None
    case Some(a) =>
      match ReadMode(a)
      case None => None
      case Some((mode, b)) =>
        match Skip(",env[", b)
        case None => None
        case Some(c) =>
          match ReadSelector(c)
          case None => None
          case Some((env, d)) =>
            match Skip("],[", d)
            case None => None
            case Some(e) =>
              if e != [] && e[0] == ']' then
                match Skip("]>", e)
                case None => None
                case Some(rest) => Some((Contextual(mode, env, []), rest))
              else
                match ReadTermItems(e, floatOf)
                case None => None
                case Some((terms, g)) =>
                  if g != [] && g[0] == '>' then Some((Contextual(mode, env, terms), g[1..])) else None
  }

  // ---------------------------------------------------------------------------
  // The corrected repr reads back

  lemma AvoidsFewer(s: string, stops: set<char>, fewer: set<char>)
    requires Avoids(s, stops) && fewer <= stops
    ensures Avoids(s, fewer)
  {
  }

  lemma FloatsReadBack(a: real, b: real, floatStr: real -> string, floatOf: string -> Option<real>, rest: string)
    requires FloatReads(floatStr, floatOf, a) && FloatReads(floatStr, floatOf, b)
    requires rest != [] && rest[0] == ')'
    ensures ReadFloats(ArgsText(FloatRange(a, b), floatStr) + rest, floatOf) == Some((FloatRange(a, b), rest))
  {
    var fa, fb := floatStr(a), floatStr(b);
    assert ArgsText(FloatRange(a, b), floatStr) + rest == fa + ("," + (fb + rest));
    AvoidsFewer(fa, {',', ')'}, {','});
    AvoidsFewer(fb, {',', ')'}, {')'});
    assert ("," + (fb + rest))[0] == ',';
    ReadUntilJoined(fa, "," + (fb + rest), {','});
    SkipJoined(",", fb + rest);
    ReadUntilJoined(fb, rest, {')'});
  }

  lemma DatesReadBack(a: Date, b: Date, floatStr: real -> string, rest: string)
    requires rest != [] && rest[0] == ')'
    ensures ReadDates(ArgsText(DateRange(a, b), floatStr) + rest) == Some((DateRange(a, b), rest))
  {
    var tail := DateIso(b) + rest;
    assert ArgsText(DateRange(a, b), floatStr) + rest == DateIso(a) + ("," + tail);
    assert ("," + tail)[0] == ',';
    DateReadBack(a, ',', "," + tail);
    SkipJoined(",", tail);
    DateReadBack(b, ')', rest);
  }

  lemma TextReadBack(text: string, rest: string)
    ensures ReadText(PyReprStr(text) + rest) == Some((Substring(text), rest))
  {
    ReadQuotedRepr(text, rest);
  }

  lemma OntologyIdReadBack(id: int, rest: string)
    requires rest != [] && rest[0] == ')'
    ensures ReadOntologyId(IntToString(id) + rest) == Some((OntologyId(id), rest))
  {
    IntTextAvoids(id, {')'});
    ReadUntilJoined(IntToString(id), rest, {')'});
    ParseIntRoundTrip(id);
  }

  lemma SampleIdsReadBack(ids: seq<int>, rest: string)
    ensures ReadSampleIds(IntListStr(ids) + rest) == Some((SampleIds(ids), rest))
  {
    IntListReadBack(ids, rest);
  }

  /** The arguments of a term read back, whatever its kind. */
  lemma ArgsReadBack(p: Payload, floatStr: real -> string, floatOf: string -> Option<real>, rest: string)
    requires PayloadFloatsRead(p, floatStr, floatOf)
    requires rest != [] && rest[0] == ')'
    ensures ReadArgs(KindName(p), ArgsText(p, floatStr) + rest, floatOf) == Some((p, rest))
  {
    match p
    case FloatRange(a, b) =>
      FloatsReadBack(a, b, floatStr, floatOf, rest);
    case DateRange(a, b) =>
      DatesReadBack(a, b, floatStr, rest);
    case Substring(text) =>
      TextReadBack(text, rest);
    case OntologyId(id) =>
      OntologyIdReadBack(id, rest);
    case SampleIds(ids) =>
      SampleIdsReadBack(ids, rest);
  }

  lemma TermPieces(a: string, b: string, c: string, d: string, e: string, f: string, g: string,
                   h: string, i: string, x: string)
    ensures a + b + c + d + e + f + g + h + i + x == a + (b + (c + (d + (e + (f + (g + (h + (i + x))))))))
  {
  }

  lemma KindNameAvoids(p: Payload)
    ensures Avoids(KindName(p), {'('})
  {
  }

  /** A term's corrected repr, followed by anything, reads back as the term and what
      follows. */
  lemma TermReadBack(t: Term, floatStr: real -> string, floatOf: string -> Option<real>, rest: string)
    requires PayloadFloatsRead(t.payload, floatStr, floatOf)
    ensures ReadTerm(QuotedTermRepr(t, floatStr) + rest, floatOf) == Some((t, rest))
  {
    var g := ArgsText(t.payload, floatStr) + (")>" + rest);
    var d := PyReprStr(t.operator) + ("," + g);
    var b := PyReprStr(t.fieldName) + ("," + d);
    var a := "(" + b;
    var s := QuotedTermRepr(t, floatStr) + rest;
    TermPieces("<", KindName(t.payload), "(", PyReprStr(t.fieldName), ",", PyReprStr(t.operator), ",",
      ArgsText(t.payload, floatStr), ")>", rest);
    assert s == "<" + (KindName(t.payload) + a);
    assert s[1..] == KindName(t.payload) + a;
    KindNameAvoids(t.payload);
    ReadUntilJoined(KindName(t.payload), a, {'('});
    SkipJoined("(", b);
    ReadQuotedRepr(t.fieldName, "," + d);
    SkipJoined(",", d);
    ReadQuotedRepr(t.operator, "," + g);
    SkipJoined(",", g);
    ArgsReadBack(t.payload, floatStr, floatOf, ")>" + rest);
    SkipJoined(")>", rest);
  }

  lemma TermsLast(t: Term, floatStr: real -> string, floatOf: string -> Option<real>, rest: string)
    requires PayloadFloatsRead(t.payload, floatStr, floatOf)
    ensures ReadTermItems(QuotedTermRepr(t, floatStr) + ("]" + rest), floatOf) == Some(([t], rest))
  {
    TermReadBack(t, floatStr, floatOf, "]" + rest);
    assert ("]" + rest)[1..] == rest;
  }

  lemma TermsOne(terms: seq<Term>, floatStr: real -> string, floatOf: string -> Option<real>, rest: string)
    requires TermsFloatsRead(terms, floatStr, floatOf)
    requires |terms| == 1
    ensures ReadTermItems(Join(",", QuotedTermReprs(terms, floatStr)) + ("]" + rest), floatOf) == Some((terms, rest))
  {
    assert Join(",", QuotedTermReprs(terms, floatStr)) == QuotedTermRepr(terms[0], floatStr);
    TermsLast(terms[0], floatStr, floatOf, rest);
    assert [terms[0]] == terms;
  }

  lemma TermsStep(t: Term, floatStr: real -> string, floatOf: string -> Option<real>, u: string)
    requires PayloadFloatsRead(t.payload, floatStr, floatOf)
    ensures ReadTermItems(QuotedTermRepr(t, floatStr) + ("," + u), floatOf) ==
      match ReadTermItems(u, floatOf)
      case None => None
      case Some((more, rest)) => Some(([t] + more, rest))
  {
    TermReadBack(t, floatStr, floatOf, "," + u);
    assert ("," + u)[0] == ',' && ("," + u)[1..] == u;
  }

  lemma TermsCons(t: Term, more: seq<Term>, floatStr: real -> string, floatOf: string -> Option<real>,
                  text: string, tail: string, rest: string)
    requires PayloadFloatsRead(t.payload, floatStr, floatOf)
    requires text == QuotedTermRepr(t, floatStr) + ("," + tail)
    requires ReadTermItems(tail, floatOf) == Some((more, rest))
    ensures ReadTermItems(text, floatOf) == Some(([t] + more, rest))
  {
    TermsStep(t, floatStr, floatOf, tail);
  }

  lemma TermsText(terms: seq<Term>, floatStr: real -> string, rest: string)
    requires |terms| > 1
    ensures Join(",", QuotedTermReprs(terms, floatStr)) + ("]" + rest) ==
      QuotedTermRepr(terms[0], floatStr) + ("," + (Join(",", QuotedTermReprs(terms[1..], floatStr)) + ("]" + rest)))
  {
    JoinCons(",", QuotedTermReprs(terms, floatStr), "]" + rest);
    assert QuotedTermReprs(terms, floatStr)[1..] == QuotedTermReprs(terms[1..], floatStr);
  }

  lemma TermsMore(t: Term, more: seq<Term>, floatStr: real -> string, floatOf: string -> Option<real>, rest: string)
    requires PayloadFloatsRead(t.payload, floatStr, floatOf)
    requires more != []
    requires ReadTermItems(Join(",", QuotedTermReprs(more, floatStr)) + ("]" + rest), floatOf) == Some((more, rest))
    ensures ReadTermItems(Join(",", QuotedTermReprs([t] + more, floatStr)) + ("]" + rest), floatOf) == Some(([t] + more, rest))
  {
    var tail := Join(",", QuotedTermReprs(more, floatStr)) + ("]" + rest);
    TermsText([t] + more, floatStr, rest);
    assert ([t] + more)[1..] == more;
    TermsCons(t, more, floatStr, floatOf, Join(",", QuotedTermReprs([t] + more, floatStr)) + ("]" + rest), tail, rest);
  }

  /** A non-empty list of corrected term reprs, its closing bracket and anything after
      it read back as the terms and what follows the bracket. */
  lemma {:induction false} TermsReadBack(terms: seq<Term>, floatStr: real -> string, floatOf: string -> Option<real>, rest: string)
    requires TermsFloatsRead(terms, floatStr, floatOf)
    requires terms != []
    ensures ReadTermItems(Join(",", QuotedTermReprs(terms, floatStr)) + ("]" + rest), floatOf) == Some((terms, rest))
    decreases |terms|
  {
    if |terms| == 1 {
      TermsOne(terms, floatStr, floatOf, rest);
    } else {
      assert [terms[0]] + terms[1..] == terms;
      TermsReadBack(terms[1..], floatStr, floatOf, rest);
      TermsMore(terms[0], terms[1..], floatStr, floatOf, rest);
    }
  }

  lemma FilterPieces(a: string, b: string, c: string, d: string, e: string, f: string, g: string, x: string)
    ensures a + b + c + d + e + f + g + x == a + (b + (c + (d + (e + (f + (g + x))))))
  {
  }

  lemma ModeReadBack(m: Mode, rest: string)
    ensures ReadMode(ModeName(m) + rest) == Some((m, rest))
  {
    SkipJoined(ModeName(m), rest);
  }

  /** The terms' part of a corrected repr, followed by `]>`, starts with `]` exactly
      when there are no terms. */
  lemma TermListStart(terms: seq<Term>, floatStr: real -> string, rest: string)
    ensures var e := Join(",", QuotedTermReprs(terms, floatStr)) + ("]>" + rest);
      e != [] && (e[0] == ']' <==> terms == [])
  {
    if terms != [] {
      JoinStartsWithFirst(",", QuotedTermReprs(terms, floatStr));
      assert QuotedTermRepr(terms[0], floatStr)[0] == '<';
    }
  }

  lemma CloseBrackets(rest: string)
    ensures "]>" + rest == "]" + (">" + rest)
  {
  }

  /** A non-empty terms' part, `]>` and anything after it read back as the terms and
      what follows the bracket. */
  lemma TermListReadBack(terms: seq<Term>, floatStr: real -> string, floatOf: string -> Option<real>, rest: string)
    requires TermsFloatsRead(terms, floatStr, floatOf)
    requires terms != []
    ensures ReadTermItems(Join(",", QuotedTermReprs(terms, floatStr)) + ("]>" + rest), floatOf) == Some((terms, ">" + rest))
  {
    CloseBrackets(rest);
    TermsReadBack(terms, floatStr, floatOf, ">" + rest);
  }

  /** `ReadContextual`, step by step. */
  lemma ReadContextualSteps(s: string, a: string, b: string, c: string, d: string, e: string,
                            mode: Mode, env: Option<OpAndVal>, terms: seq<Term>, rest: string,
                            floatOf: string -> Option<real>)
    requires Skip("<ContextualFilter(", s) == Some(a)
    requires ReadMode(a) == Some((mode, b))
    requires Skip(",env[", b) == Some(c)
    requires ReadSelector(c) == Some((env, d))
    requires Skip("],[", d) == Some(e)
    requires e != [] && (e[0] == ']' <==> terms == [])
    requires terms == [] ==> Skip("]>", e) == Some(rest)
    requires terms != [] ==> ReadTermItems(e, floatOf) == Some((terms, ">" + rest))
    ensures ReadContextual(s, floatOf) == Some((Contextual(mode, env, terms), rest))
  {
    if terms != [] {
      assert (">" + rest)[0] == '>' && (">" + rest)[1..] == rest;
    }
  }

  /** A filter's corrected repr, followed by anything, reads back as the filter and what
      follows. */
  lemma QuotedReprReadBack(cf: Contextual, floatStr: real -> string, floatOf: string -> Option<real>, rest: string)
    requires TermsFloatsRead(cf.terms, floatStr, floatOf)
    ensures ReadContextual(QuotedRepr(cf, floatStr) + rest, floatOf) == Some((cf, rest))
  {
    var j := Join(",", QuotedTermReprs(cf.terms, floatStr));
    var e := j + ("]>" + rest);
    var d := "],[" + e;
    var c := SelectorRepr(cf.environmentFilter) + d;
    var b := ",env[" + c;
    var a := ModeName(cf.mode) + b;
    var s := QuotedRepr(cf, floatStr) + rest;
    FilterPieces("<ContextualFilter(", ModeName(cf.mode), ",env[", SelectorRepr(cf.environmentFilter), "],[",
      j, "]>", rest);
    assert s == "<ContextualFilter(" + a;
    SkipJoined("<ContextualFilter(", a);
    ModeReadBack(cf.mode, b);
    SkipJoined(",env[", c);
    SelectorReadBack(cf.environmentFilter, d);
    SkipJoined("],[", e);
    TermListStart(cf.terms, floatStr, rest);
    if cf.terms == [] {
      assert j == "" && e == "]>" + rest;
      SkipJoined("]>", rest);
    } else {
      TermListReadBack(cf.terms, floatStr, floatOf, rest);
    }
    ReadContextualSteps(s, a, b, c, d, e, cf.mode, cf.environmentFilter, cf.terms, rest, floatOf);
  }

  /** Distinct filters have distinct corrected reprs, given that the texts of their float
      bounds read back. */
  lemma QuotedReprInjective(a: Contextual, b: Contextual, floatStr: real -> string, floatOf: string -> Option<real>)
    requires TermsFloatsRead(a.terms, floatStr, floatOf) && TermsFloatsRead(b.terms, floatStr, floatOf)
    requires QuotedRepr(a, floatStr) == QuotedRepr(b, floatStr)
    ensures a == b
  {
    QuotedReprReadBack(a, floatStr, floatOf, "");
    QuotedReprReadBack(b, floatStr, floatOf, "");
    assert QuotedRepr(a, floatStr) + "" == QuotedRepr(a, floatStr);
    assert QuotedRepr(b, floatStr) + "" == QuotedRepr(b, floatStr);
  }
}
