/**
  JSON values as `json.loads` produces them, and the few Python operations the
  agent applies to such values (`key in v`, `v[key]`, `v.get(key, default)`).
  Parsing and serialising stay abstract: the agent only ever sees the parsed value.
 */
module Json {

  /** One byte of an MQTT payload. */
  newtype byte = x: int | 0 <= x < 256

  datatype Option<T> = None | Some(value: T)

  /** A value returned by `json.loads`: integers and floats are kept apart, as in Python. */
  datatype Json =
    | JNull
    | JBool(b: bool)
    | JInt(i: int)
    | JFloat(f: real)
    | JStr(s: string)
    | JArr(items: seq<Json>)
    | JObj(fields: map<string, Json>)

  /** The object literal `{k: v}`. */
  function Obj1(k: string, v: Json): Json {
    JObj(map[k := v])
  }

  /** The object literal `{}`. */
  const EmptyObject: Json := JObj(map[])
}

module PyJson {
  import opened Json

  /** The outcome of a Python expression that may raise an exception. */
  datatype Py<T> = Ok(value: T) | Raise

  /** Python's `needle in hay` on two strings. */
  predicate IsSubstring(needle: string, hay: string)
    decreases |hay|
  {
    needle <= hay || (|hay| > 0 && IsSubstring(needle, hay[1..]))
  }

  /** `IsSubstring` holds exactly when `needle` starts some suffix of `hay`. */
  lemma {:induction false} SubstringAt(needle: string, hay: string)
    ensures IsSubstring(needle, hay) <==> exists i :: 0 <= i <= |hay| && needle <= hay[i..]
    decreases |hay|
  {
    if needle <= hay {
      assert hay[0..] == hay;
    } else if |hay| > 0 {
      var tail := hay[1..];
      SubstringAt(needle, tail);
      if IsSubstring(needle, tail) {
        var i :| 0 <= i <= |tail| && needle <= tail[i..];
        assert hay[i + 1..] == tail[i..];
      } else {
        forall i | 1 <= i <= |hay|
          ensures !(needle <= hay[i..])
        {
          assert hay[i..] == tail[i - 1..];
        }
      }
    }
  }

  /** Python's `key in container` for a string key. A dict tests its keys, a list
      its elements, a string its substrings; any other value raises TypeError. */
  function Contains(container: Json, key: string): (r: Py<bool>)
    ensures r.Raise? <==> !(container.JObj? || container.JArr? || container.JStr?)
    ensures container.JObj? ==> r == Ok(key in container.fields)
    ensures container.JArr? ==> r == Ok(JStr(key) in container.items)
    ensures container.JStr? ==>
              r == Ok(exists i :: 0 <= i <= |container.s| && key <= container.s[i..])
  {
    match container
    case JObj(m) => Ok(key in m)
    case JArr(items) => Ok(JStr(key) in items)
    case JStr(s) => SubstringAt(key, s); Ok(IsSubstring(key, s))
    case _ => Raise
  }

  /** Python's `container[key]` for a string key: only a dict holding the key
      answers; a missing key raises KeyError, any other value TypeError. */
  function GetItem(container: Json, key: string): (r: Py<Json>)
    ensures r.Ok? <==> container.JObj? && key in container.fields
    ensures r.Ok? ==> r.value == container.fields[key]
  {
    match container
    case JObj(m) => if key in m then Ok(m[key]) else Raise
    case JArr(_) => Raise
    case JStr(_) => Raise
    case _ => Raise
  }

  /** Python's `container.get(key, default)`: only a dict has `get`; any other
      value raises AttributeError. A key that is present wins, even if its value is null. */
  function GetOr(container: Json, key: string, default: Json): (r: Py<Json>)
    ensures r.Ok? <==> container.JObj?
    ensures container.JObj? && key in container.fields ==> r == Ok(container.fields[key])
    ensures container.JObj? && key !in container.fields ==> r == Ok(default)
  {
    match container
    case JObj(m) => Ok(if key in m then m[key] else default)
    case _ => Raise
  }
}
