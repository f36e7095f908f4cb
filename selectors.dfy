/** The `{operator, value}` selectors of the taxonomy and environment filters:
    how one narrows a query (`apply_op_and_val_filter`), how it is described
    (`describe_op_and_val`) and how it prints inside a filter's repr. */
module Selectors {
  import opened Py
  import opened Strings
  import opened Seqs
  import opened Tables

  /** A selector dictionary, e.g. `{'operator': 'isnot', 'value': 3}`; each key may
      be absent or bound to None. */
  datatype OpAndVal = OpAndVal(operator: Slot<string>, value: Slot<int>)

  /** `bool(d)`: a dictionary is truthy when it holds some key. */
  predicate IsTruthy(sel: Option<OpAndVal>)
  {
    sel.Some? && (sel.value.operator != Missing || sel.value.value != Missing)
  }

  /** The id a selector restricts to: None when the selector or its value is None. */
  function SelectedValue(sel: Option<OpAndVal>): Option<int>
  {
    if sel.None? then None else Get(sel.value.value)
  }

  /** `op_and_val.get('operator', 'is') == 'isnot'`. */
  predicate Negates(sel: Option<OpAndVal>)
  {
    sel.Some? && sel.value.operator == Has("isnot")
  }

  /** Whether a row whose column holds `a` (None for NULL) survives the selector.
      SQL `=` and `!=` are never true of NULL. */
  predicate SelectorKeeps(sel: Option<OpAndVal>, a: Option<int>)
  {
    match SelectedValue(sel)
    case None => true
    case Some(v) => if Negates(sel) then a.Some? && a.value != v else a == Some(v)
  }

  /** `apply_op_and_val_filter(attr, q, op_and_val)`: `attr` reads the filtered column of a row. */
  function ApplyOpAndValFilter<R(!new)>(attr: R -> Option<int>, q: seq<R>, sel: Option<OpAndVal>): (r: seq<R>)
    ensures SelectedValue(sel).None? ==> r == q
    ensures SelectedValue(sel).Some? && Negates(sel) ==>
      forall x :: x in r <==> x in q && attr(x).Some? && attr(x).value != SelectedValue(sel).value
    ensures SelectedValue(sel).Some? && !Negates(sel) ==>
      forall x :: x in r <==> x in q && attr(x) == SelectedValue(sel)
  {
    match SelectedValue(sel)
    case None => q
    case Some(v) =>
      if Negates(sel) then Where(q, (x: R) => attr(x).Some? && attr(x).value != v)
      else Where(q, (x: R) => attr(x) == Some(v))
  }

  /** The row test of a selector on the column `attr`. */
  function KeptBy<R>(sel: Option<OpAndVal>, attr: R -> Option<int>): R -> bool
  {
    (x: R) => SelectorKeeps(sel, attr(x))
  }

  /** The selector filter is the order-preserving WHERE by `SelectorKeeps`. */
  lemma ApplyOpAndValFilterIsWhere<R(!new)>(attr: R -> Option<int>, q: seq<R>, sel: Option<OpAndVal>)
    ensures ApplyOpAndValFilter(attr, q, sel) == Where(q, KeptBy(sel, attr))
  {
    var keeps := KeptBy(sel, attr);
    match SelectedValue(sel)
    case None =>
      WhereAll(q, keeps);
    case Some(v) =>
      if Negates(sel) {
        WhereExt(q, (x: R) => attr(x).Some? && attr(x).value != v, keeps);
      } else {
        WhereExt(q, (x: R) => attr(x) == Some(v), keeps);
      }
  }

  // ---------------------------------------------------------------------------
  // describe_op_and_val

  /** `OP_DESCR[op]`. */
  function OpDescr(op: Slot<string>): (r: Option<string>)
    ensures r.Some? <==> op == Has("is") || op == Has("isnot")
  {
    if op == Has("is") then Some(" is ")
    else if op == Has("isnot") then Some(" is not ")
    else None
  }

  /** The text of the KeyError a failed `OP_DESCR[...]` lookup raises: the key's repr. */
  function SlotKeyRepr(op: Slot<string>): string
  {
    if op.Has? then PyReprStr(op.v) else "None"
  }

  /** `repr()` of an ontology value or None. */
  function OptionStrRepr(v: Option<string>): (r: string)
    ensures |r| >= 1 && (r[0] == '\'' || r[0] == '"' || r[0] == 'N')
  {
    if v.Some? then PyReprStr(v.value) else "None"
  }

  /** `describe_op_and_val(info, attr, cls, q)` with `table` the rows of `cls`:
      the attribute without `_id`, the operator's phrase, and the repr of the
      selected id's value. */
  function DescribeOpAndVal(table: OntologyTable, attr: string, sel: Option<OpAndVal>): (r: Outcome<Option<string>>)
    ensures sel.None? ==> r == Ok(None)
    ensures sel.Some? && OpDescr(sel.value.operator).None? ==>
      r == Raised(KeyError(SlotKeyRepr(sel.value.operator)))
    ensures sel.Some? && OpDescr(sel.value.operator).Some? ==>
      (r.Ok? <==> IdToValue(table, Get(sel.value.value)).Ok?)
    ensures sel.Some? && r.Ok? ==>
      && r.value.Some?
      && IsPrefix(DropId(attr) + " is ", r.value.value)
      && (Negates(sel) <==> IsPrefix(DropId(attr) + " is not ", r.value.value))
  {
    if sel.None? then Ok(None)
    else
      match OpDescr(sel.value.operator)
      case None => Raised(KeyError(SlotKeyRepr(sel.value.operator)))
      case Some(phrase) =>
        match IdToValue(table, Get(sel.value.value))
        case Raised(e) => Raised(e)
        case Ok(v) =>
          var d := DropId(attr);
          var tail := OptionStrRepr(v);
          var text := d + phrase + tail;
          assert IsPrefix(d + " is ", text) by {
            assert text[..|d + " is "|] == d + " is ";
          }
          assert Negates(sel) <==> IsPrefix(d + " is not ", text) by {
            if Negates(sel) {
              assert text[..|d + " is not "|] == d + " is not ";
            } else {
              assert text[|d| + 4] == tail[0];
              assert (d + " is not ")[|d| + 4] == 'n';
            }
          }
          Ok(Some(text))
  }

  /** The description loses nothing: the looked-up value reads back from its tail. */
  lemma DescribeOpAndValReadBack(table: OntologyTable, attr: string, sel: Option<OpAndVal>, value: string)
    requires sel.Some?
    requires IdToValue(table, Get(sel.value.value)) == Ok(Some(value))
    requires DescribeOpAndVal(table, attr, sel).Ok?
    ensures var text := DescribeOpAndVal(table, attr, sel).value.value;
      var head := DropId(attr) + (if Negates(sel) then " is not " else " is ");
      IsPrefix(head, text) && Unrepr(text[|head|..]) == Some(value)
  {
    var text := DescribeOpAndVal(table, attr, sel).value.value;
    var head := DropId(attr) + (if Negates(sel) then " is not " else " is ");
    assert text == head + PyReprStr(value);
    assert text[|head|..] == PyReprStr(value);
    PyReprStrRoundTrip(value);
  }

  // ---------------------------------------------------------------------------
  // str() of a selector, as it appears inside the filters' reprs

  /** `str()` of a selector's value: the number, or `None`. */
  function ValueText(v: Slot<int>): string
  {
    if v.Has? then IntToString(v.v) else "None"
  }

  /** `str(d)` of a selector dictionary, keys in the order operator, value. */
  function SelectorRepr(sel: Option<OpAndVal>): (r: string)
    ensures sel.None? <==> r == "None"
    ensures sel.Some? ==> |r| >= 2 && r[0] == '{' && r[|r| - 1] == '}'
  {
    if sel.None? then "None"
    else
      var op := if sel.value.operator.Missing? then [] else ["'operator': " + SlotKeyRepr(sel.value.operator)];
      var val := if sel.value.value.Missing? then [] else ["'value': " + ValueText(sel.value.value)];
      "{" + Join(", ", op + val) + "}"
  }

  // ---------------------------------------------------------------------------
  // Reading a selector back from its text

  /** Reads a `None` from the front of a text. */
  function ReadNone(s: string): Option<string>
  {
    Skip("None", s)
  }

  /** Reads an operator: `None` or a repr'd string. */
  function ReadOperator(s: string): Option<(Slot<string>, string)>
  {
    if s != [] && s[0] == 'N' then
      match ReadNone(s)
      case Some(rest) => Some((NoneValue, rest))
      case None => None
    else
      match ReadQuoted(s)
      case Some((x, rest)) => Some((Has(x), rest))
      case None => None
  }

  /** Reads a value: `None`, or a number up to the closing brace. */
  function ReadValue(s: string): Option<(Slot<int>, string)>
  {
    if s != [] && s[0] == 'N' then
      match ReadNone(s)
      case Some(rest) => Some((NoneValue, rest))
      case None => None
    else
      match ReadUntil(s, {'}'})
      case Some((digits, rest)) =>
        (match ParseInt(digits)
         case Some(v) => Some((Has(v), rest))
         case None => None)
      case None => None
  }

  /** Reads a value and the closing brace after it. */
  function ReadValueClose(op: Slot<string>, s: string): Option<(Option<OpAndVal>, string)>
  {
    match ReadValue(s)
    case Some((v, t)) =>
      if t != [] && t[0] == '}' then Some((Some(OpAndVal(op, v)), t[1..])) else None
    case None => None
  }

  /** After the operator: the closing brace, or the value and then the brace. */
  function ReadAfterOperator(op: Slot<string>, s: string): Option<(Option<OpAndVal>, string)>
  {
    if s != [] && s[0] == '}' then Some((Some(OpAndVal(op, Missing)), s[1..]))
    else
      match Skip(", ", s)
      case None => None
      case Some(t) =>
        match Skip("'value': ", t)
        case Some(t') => ReadValueClose(op, t')
        case None => None
  }

  /** Reads the inside of a selector dictionary, after its opening brace. */
  function ReadEntries(body: string): Option<(Option<OpAndVal>, string)>
  {
    if body != [] && body[0] == '}' then Some((Some(OpAndVal(Missing, Missing)), body[1..]))
    else if |body| >= 2 && body[1] == 'o' then
      match Skip("'operator': ", body)
      case None => None
      case Some(t) =>
        match ReadOperator(t)
        case None => None
        case Some((op, t')) => ReadAfterOperator(op, t')
    else
      match Skip("'value': ", body)
      case Some(t) => ReadValueClose(Missing, t)
      case None => None
  }

  /** Reads one selector from the front of a text: `None` or a dictionary with an
      optional operator and an optional value. */
  function ReadSelector(s: string): Option<(Option<OpAndVal>, string)>
  {
    if s != [] && s[0] == 'N' then
      match ReadNone(s)
      case Some(rest) => Some((None, rest))
      case None => None
    else if s != [] && s[0] == '{' then ReadEntries(s[1..])
    else None
  }

  lemma OperatorReadBack(op: Slot<string>, more: string)
    requires !op.Missing?
    ensures ReadOperator(SlotKeyRepr(op) + more) == Some((op, more))
  {
    var s := SlotKeyRepr(op) + more;
    if op.Has? {
      assert s[0] == PyReprStr(op.v)[0] != 'N';
      ReadQuotedRepr(op.v, more);
    } else {
      SkipJoined("None", more);
    }
  }

  lemma ValueReadBack(op: Slot<string>, v: Slot<int>, rest: string)
    requires !v.Missing?
    ensures ReadValueClose(op, ValueText(v) + ("}" + rest)) == Some((Some(OpAndVal(op, v)), rest))
  {
    var more := "}" + rest;
    var s := ValueText(v) + more;
    if v.Has? {
      assert NumberChar(s[0]);
      ReadUntilJoined(IntToString(v.v), more, {'}'});
      ParseIntRoundTrip(v.v);
    } else {
      SkipJoined("None", more);
    }
    assert more[0] == '}' && more[1..] == rest;
  }

  lemma ReadNoSelector(rest: string)
    ensures ReadSelector(SelectorRepr(None) + rest) == Some((None, rest))
  {
    SkipJoined("None", rest);
  }

  /** The text of a selector that is a dictionary is its entries after a brace. */
  lemma OpensWithBrace(sel: Option<OpAndVal>, rest: string)
    requires sel.Some?
    ensures ReadSelector(SelectorRepr(sel) + rest) == ReadEntries((SelectorRepr(sel) + rest)[1..])
  {
  }

  lemma ReadEmptySelector(rest: string)
    ensures ReadSelector(SelectorRepr(Some(OpAndVal(Missing, Missing))) + rest) == Some((Some(OpAndVal(Missing, Missing)), rest))
  {
    var sel := Some(OpAndVal(Missing, Missing));
    OpensWithBrace(sel, rest);
    assert (SelectorRepr(sel) + rest)[1..] == "}" + rest;
  }

  lemma ValueOnlyEntries(v: Slot<int>, rest: string)
    requires !v.Missing?
    ensures ReadEntries("'value': " + (ValueText(v) + ("}" + rest))) == Some((Some(OpAndVal(Missing, v)), rest))
  {
    var body := "'value': " + (ValueText(v) + ("}" + rest));
    assert body[0] == '\'' && body[1] == 'v';
    SkipJoined("'value': ", ValueText(v) + ("}" + rest));
    ValueReadBack(Missing, v, rest);
  }

  lemma ValueOnlyText(v: Slot<int>, rest: string)
    requires !v.Missing?
    ensures (SelectorRepr(Some(OpAndVal(Missing, v))) + rest)[1..] == "'value': " + (ValueText(v) + ("}" + rest))
  {
  }

  lemma ReadValueOnly(v: Slot<int>, rest: string)
    requires !v.Missing?
    ensures ReadSelector(SelectorRepr(Some(OpAndVal(Missing, v))) + rest) == Some((Some(OpAndVal(Missing, v)), rest))
  {
    OpensWithBrace(Some(OpAndVal(Missing, v)), rest);
    ValueOnlyText(v, rest);
    ValueOnlyEntries(v, rest);
  }

  /** Entries opening with an operator read on after it. */
  lemma ReadOperatorThen(op: Slot<string>, after: string)
    requires !op.Missing?
    ensures ReadEntries("'operator': " + (SlotKeyRepr(op) + after)) == ReadAfterOperator(op, after)
  {
    SkipJoined("'operator': ", SlotKeyRepr(op) + after);
    OperatorReadBack(op, after);
  }

  lemma OperatorOnlyText(op: Slot<string>, rest: string)
    requires !op.Missing?
    ensures (SelectorRepr(Some(OpAndVal(op, Missing))) + rest)[1..] == "'operator': " + (SlotKeyRepr(op) + ("}" + rest))
  {
  }

  lemma ReadOperatorOnly(op: Slot<string>, rest: string)
    requires !op.Missing?
    ensures ReadSelector(SelectorRepr(Some(OpAndVal(op, Missing))) + rest) == Some((Some(OpAndVal(op, Missing)), rest))
  {
    OpensWithBrace(Some(OpAndVal(op, Missing)), rest);
    OperatorOnlyText(op, rest);
    ReadOperatorThen(op, "}" + rest);
    assert ("}" + rest)[1..] == rest;
  }

  lemma ReadValueAfterOperator(op: Slot<string>, v: Slot<int>, rest: string)
    requires !v.Missing?
    ensures ReadAfterOperator(op, ", " + ("'value': " + (ValueText(v) + ("}" + rest)))) == Some((Some(OpAndVal(op, v)), rest))
  {
    SkipJoined(", ", "'value': " + (ValueText(v) + ("}" + rest)));
    SkipJoined("'value': ", ValueText(v) + ("}" + rest));
    ValueReadBack(op, v, rest);
  }

  lemma OperatorAndValueText(op: Slot<string>, v: Slot<int>, rest: string)
    requires !op.Missing? && !v.Missing?
    ensures (SelectorRepr(Some(OpAndVal(op, v))) + rest)[1..]
      == "'operator': " + (SlotKeyRepr(op) + (", " + ("'value': " + (ValueText(v) + ("}" + rest)))))
  {
    var o, w := "'operator': " + SlotKeyRepr(op), "'value': " + ValueText(v);
    JoinTwo(", ", o, w);
    assert SelectorRepr(Some(OpAndVal(op, v))) == "{" + (o + ", " + w) + "}";
    Unbrace("{", o + ", " + w, "}", rest);
    Regroup("'operator': ", SlotKeyRepr(op), ", ", "'value': ", ValueText(v), "}" + rest);
  }

  lemma ReadOperatorAndValue(op: Slot<string>, v: Slot<int>, rest: string)
    requires !op.Missing? && !v.Missing?
    ensures ReadSelector(SelectorRepr(Some(OpAndVal(op, v))) + rest) == Some((Some(OpAndVal(op, v)), rest))
  {
    OpensWithBrace(Some(OpAndVal(op, v)), rest);
    OperatorAndValueText(op, v, rest);
    ReadOperatorThen(op, ", " + ("'value': " + (ValueText(v) + ("}" + rest))));
    ReadValueAfterOperator(op, v, rest);
  }

  /** A selector's text, followed by anything, reads back as that selector and what
      follows it: `str()` of a selector loses nothing, and a reader can tell where it
      ends. */
  lemma SelectorReadBack(sel: Option<OpAndVal>, rest: string)
    ensures ReadSelector(SelectorRepr(sel) + rest) == Some((sel, rest))
  {
    if sel.None? {
      ReadNoSelector(rest);
    } else {
      var op, v := sel.value.operator, sel.value.value;
      if op.Missing? && v.Missing? {
        ReadEmptySelector(rest);
      } else if op.Missing? {
        ReadValueOnly(v, rest);
      } else if v.Missing? {
        ReadOperatorOnly(op, rest);
      } else {
        ReadOperatorAndValue(op, v, rest);
      }
    }
  }

  /** A selector's text followed by anything determines the selector and the rest. */
  lemma SelectorReprPrefixFree(a: Option<OpAndVal>, x: string, b: Option<OpAndVal>, y: string)
    requires SelectorRepr(a) + x == SelectorRepr(b) + y
    ensures a == b && x == y
  {
    SelectorReadBack(a, x);
    SelectorReadBack(b, y);
  }
}
