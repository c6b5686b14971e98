/**
 * Decoded JSON records (the fetched time series and findings, and the
 * resources themselves), with the few Python operations the filters apply
 * to them: truthiness, `d[k]`, `l[i]`, `list(d.values())[0]` and `float(x)`.
 */
module Json {
  import opened Outcomes

  /** A decoded JSON value. Objects keep their entries in insertion order, as Python dicts do. */
  datatype Json =
    | JNull
    | JBool(b: bool)
    | JNum(n: int)
    | JStr(s: string)
    | JArr(items: seq<Json>)
    | JObj(fields: seq<(string, Json)>)

  /** Python truthiness: None, False, 0, "" and empty containers are falsy. */
  predicate Truthy(j: Json) {
    match j
    case JNull => false
    case JBool(b) => b
    case JNum(n) => n != 0
    case JStr(s) => s != ""
    case JArr(items) => items != []
    case JObj(fields) => fields != []
  }

  /** The value stored under `k` in an object's entries (the first entry with that key). */
  function Get(fields: seq<(string, Json)>, k: string): Option<Json>
    decreases |fields|
  {
    if |fields| == 0 then None
    else if fields[0].0 == k then Some(fields[0].1)
    else Get(fields[1..], k)
  }

  /** `Get` finds the first entry with the key, and finds nothing exactly when no entry has it. */
  lemma {:induction false} GetFinds(fields: seq<(string, Json)>, k: string)
    ensures Get(fields, k).Some? ==>
              exists i :: 0 <= i < |fields| && fields[i] == (k, Get(fields, k).value)
                          && forall j :: 0 <= j < i ==> fields[j].0 != k
    ensures Get(fields, k).None? <==> forall i :: 0 <= i < |fields| ==> fields[i].0 != k
    decreases |fields|
  {
    if |fields| > 0 && fields[0].0 != k {
      var rest := fields[1..];
      GetFinds(rest, k);
      if Get(rest, k).Some? {
        var i :| 0 <= i < |rest| && rest[i] == (k, Get(rest, k).value)
                 && forall j :: 0 <= j < i ==> rest[j].0 != k;
        assert fields[i + 1] == rest[i];
        assert forall j :: 1 <= j < i + 1 ==> fields[j] == rest[j - 1];
      } else {
        assert forall i :: 1 <= i < |fields| ==> fields[i] == rest[i - 1];
      }
    }
  }

  /** Python `j[k]` for a string key: KeyError when absent, TypeError on a non-object. */
  function Field(j: Json, k: string): Result<Json> {
    match j
    case JObj(fields) =>
      (match Get(fields, k)
       case Some(v) => Ok(v)
       case None => Err(KeyError(k)))
    case _ => Err(TypeError)
  }

  /**
   * Python `j[i]` for an integer index: the item (or one-character string)
   * at `i`, IndexError past the end, KeyError on an object, TypeError otherwise.
   * Python's KeyError carries the integer key; here the key is its decimal text.
   */
  function Item(j: Json, i: nat): Result<Json> {
    match j
    case JArr(items) => if i < |items| then Ok(items[i]) else Err(IndexError)
    case JStr(s) => if i < |s| then Ok(JStr([s[i]])) else Err(IndexError)
    case JObj(_) => Err(KeyError("0"))
    case _ => Err(TypeError)
  }

  /** Python `list(j.values())[0]`: the value of an object's first entry. */
  function FirstValue(j: Json): Result<Json> {
    match j
    case JObj(fields) => if |fields| > 0 then Ok(fields[0].1) else Err(IndexError)
    case _ => Err(AttributeError)
  }

  /**
   * Python `float(j)` over the model's integer numbers. `parse` stands for
   * Python's reading of a numeric string (None when the text is not a
   * number), which the model leaves abstract.
   */
  function AsNumber(j: Json, parse: string -> Option<int>): Result<int> {
    match j
    case JNum(n) => Ok(n)
    case JBool(b) => Ok(if b then 1 else 0)
    case JStr(s) => (match parse(s) case Some(n) => Ok(n) case None => Err(ValueError))
    case _ => Err(TypeError)
  }

  /**
   * A path expression: its text, as written in the policy, and what
   * evaluating it on a record gives (None when it does not resolve).
   */
  datatype Path = Path(text: string, eval: Json -> Option<string>)
}
