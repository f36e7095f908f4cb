/** The Python values, errors and dictionary slots the query layer handles. */
module Py {

  datatype Option<+T> = None | Some(value: T)

  /** The exceptions the modelled code can raise. */
  datatype PyError =
    | KeyError(key: string)           // a dictionary lookup of a missing key
    | AttributeError(name: string)    // getattr of an attribute the class does not have
    | AssertionError                  // a failed `assert(type(x) is ...)`
    | NoResultFound                   // `.one()` on a query with no rows
    | MultipleResultsFound            // `.one()` on a query with several rows

  /** A computation that returns a value or raises. */
  datatype Outcome<+T> = Ok(value: T) | Raised(error: PyError)

  /** One key of a Python dictionary: absent, bound to None, or bound to a value.
      `d.get(k)` is None for the first two. */
  datatype Slot<+T> = Missing | NoneValue | Has(v: T)

  /** `d.get(k)`. */
  function Get<T>(s: Slot<T>): (r: Option<T>)
    ensures r.Some? <==> s.Has?
    ensures r.Some? ==> r.value == s.v
  {
    if s.Has? then Some(s.v) else None
  }

  datatype Date = Date(year: nat, month: nat, day: nat)

  /** The dynamically typed values that reach the filters and the export:
      constructor payloads, sample metadata values and encoder inputs. */
  datatype PyValue =
    | PNone
    | PBool(b: bool)
    | PInt(i: int)
    | PFloat(r: real)
    | PStr(s: string)
    | PDate(d: Date)
    | PList(items: seq<PyValue>)
}
