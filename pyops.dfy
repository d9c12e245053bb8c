/**
 * The few Python operations the relay applies to a decoded upstream reply —
 * `key in x`, `len(x)`, `x[key]` and `x[0]` — with the exception each raises
 * on a value of the wrong type. A raised exception is a value (`Raise`), so
 * the handlers can say which exceptions their `except` clauses catch.
 */
module PyOps {
  import opened Json

  datatype PyError = KeyError | IndexError | TypeError | AttributeError

  /** The result of a Python expression: a value, or the exception it raised.
      Failure-compatible, so a chain of lookups reads `var x :- Op(...); ...`. */
  datatype Py<+T> = Ok(value: T) | Raise(error: PyError) {

    predicate IsFailure() {
      Raise?
    }

    function PropagateFailure<U>(): Py<U>
      requires Raise?
    {
      Raise(error)
    }

    function Extract(): T
      requires Ok?
    {
      value
    }
  }

  /** `k in s` for two strings: k is a substring of s. */
  predicate IsSubstring(k: string, s: string) {
    k <= s || (s != [] && IsSubstring(k, s[1..]))
  }

  /** `key in x`: a key of a dict, an element of a list, a substring of a str;
      numbers, booleans and None are not iterable. */
  function Contains(x: Json, key: string): (r: Py<bool>)
    ensures r.Raise? <==> x.JNull? || x.JBool? || x.JNum?
    ensures x.JObj? ==> r == Ok(key in x.fields)
  {
    match x
    case JObj(m) => Ok(key in m)
    case JArr(a) => Ok(JStr(key) in a)
    case JStr(s) => Ok(IsSubstring(key, s))
    case _ => Raise(TypeError)
  }

  /** `len(x)`: defined for dicts, lists and strs only. */
  function Len(x: Json): (r: Py<nat>)
    ensures r.Raise? <==> x.JNull? || x.JBool? || x.JNum?
    ensures x.JArr? ==> r == Ok(|x.items|)
  {
    match x
    case JObj(m) => Ok(|m|)
    case JArr(a) => Ok(|a|)
    case JStr(s) => Ok(|s|)
    case _ => Raise(TypeError)
  }

  /** `x[key]` with a str key: a dict lookup; everything else rejects a str index. */
  function GetItem(x: Json, key: string): (r: Py<Json>)
    ensures r.Ok? <==> x.JObj? && key in x.fields
    ensures r.Ok? ==> r.value == x.fields[key]
    ensures r == Raise(KeyError) <==> x.JObj? && key !in x.fields
  {
    match x
    case JObj(m) => if key in m then Ok(m[key]) else Raise(KeyError)
    case _ => Raise(TypeError)
  }

  /** `x[0]`: the first element of a list, the first character of a str;
      a dict with str keys has no key 0. */
  function GetFirst(x: Json): (r: Py<Json>)
    ensures r == Raise(IndexError) <==> (x.JArr? && x.items == []) || (x.JStr? && x.s == [])
    ensures x.JArr? && x.items != [] ==> r == Ok(x.items[0])
    ensures x.JObj? ==> r == Raise(KeyError)
  {
    match x
    case JArr(a) => if a != [] then Ok(a[0]) else Raise(IndexError)
    case JStr(s) => if s != [] then Ok(JStr([s[0]])) else Raise(IndexError)
    case JObj(_) => Raise(KeyError)
    case _ => Raise(TypeError)
  }
}
