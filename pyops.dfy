/** The two Python operations that `extract_last_message_text` applies to JSON
    values, with the exceptions they raise: the membership test `key in v` and
    subscription `v[key]` / `v[i]`. */
module PyOps {
  import opened Json

  datatype Exception = TypeError | KeyError | IndexError

  /** A Python evaluation: a value, or an exception propagating outward. */
  datatype PyResult<+T> = Ok(value: T) | Raise(exc: Exception) {

    predicate IsFailure() {
      Raise?
    }

    function PropagateFailure<U>(): PyResult<U>
      requires Raise?
    {
      Raise(exc)
    }

    function Extract(): T
      requires Ok?
    {
      value
    }
  }

  /** Python's `needle in hay` on two strings: substring search. In
      `extract_last_message_text` its outcome never shows: when it is false the
      `if` falls through, and when it is true the string is subscripted next,
      which raises `TypeError`. Both lead to the fallback. */
  function IsSubstring(needle: string, hay: string): bool
    decreases |hay|
  {
    needle <= hay || (hay != [] && IsSubstring(needle, hay[1..]))
  }

  /** `IsSubstring` finds `needle` exactly when it starts at some position of `hay`. */
  lemma {:induction false} IsSubstringIff(needle: string, hay: string)
    ensures IsSubstring(needle, hay) <==> exists k :: 0 <= k <= |hay| && needle <= hay[k..]
    decreases |hay|
  {
    if needle <= hay {
      assert hay[0..] == hay;
    } else if hay != [] {
      IsSubstringIff(needle, hay[1..]);
      if IsSubstring(needle, hay[1..]) {
        var k :| 0 <= k <= |hay[1..]| && needle <= hay[1..][k..];
        assert hay[1..][k..] == hay[k + 1..];
      } else {
        forall k | 0 <= k <= |hay| ensures !(needle <= hay[k..]) {
          if k > 0 {
            assert hay[1..][k - 1..] == hay[k..];
          } else {
            assert hay[0..] == hay;
          }
        }
      }
    } else {
      forall k | 0 <= k <= |hay| ensures !(needle <= hay[k..]) {
        assert hay[k..] == [];
      }
    }
  }

  /** Python's `key in v` for a string `key`: a dict tests its keys, a string
      searches for a substring, a list compares its elements; `None`, booleans
      and numbers are not iterable and raise `TypeError`. */
  function Contains(v: Json, key: string): (r: PyResult<bool>)
    ensures r.Raise? <==> v.JNull? || v.JBool? || v.JNumber?
    ensures r.Raise? ==> r.exc == TypeError
    ensures v.JObject? ==> r == Ok(key in v.fields)
    ensures v.JArray? ==> r == Ok(JString(key) in v.items)
    ensures v.JString? ==> r == Ok(IsSubstring(key, v.s))
  {
    match v
    case JObject(fields) => Ok(key in fields)
    case JString(s) => Ok(IsSubstring(key, s))
    case JArray(items) => Ok(JString(key) in items)
    case _ => Raise(TypeError)
  }

  /** Python's `v[key]` for a string `key`: only a dict can be subscripted by a
      string; a missing key raises `KeyError`, every other kind of value
      (including lists and strings) raises `TypeError`. */
  function GetItem(v: Json, key: string): (r: PyResult<Json>)
    ensures r.Ok? <==> v.JObject? && key in v.fields
    ensures r.Ok? ==> r.value == v.fields[key]
    ensures r.Raise? ==> r.exc == (if v.JObject? then KeyError else TypeError)
  {
    match v
    case JObject(fields) => if key in fields then Ok(fields[key]) else Raise(KeyError)
    case _ => Raise(TypeError)
  }

  /** Python's `v[i]` for a non-negative integer `i`: a list or a string yields its
      i-th element (a one-character string) or raises `IndexError`; a dict has
      only string keys here and raises `KeyError`; anything else raises `TypeError`. */
  function GetIndex(v: Json, i: nat): (r: PyResult<Json>)
    ensures v.JArray? && i < |v.items| ==> r == Ok(v.items[i])
    ensures r.Ok? ==> (v.JArray? && i < |v.items|) || (v.JString? && i < |v.s|)
  {
    match v
    case JArray(items) => if i < |items| then Ok(items[i]) else Raise(IndexError)
    case JString(s) => if i < |s| then Ok(JString([s[i]])) else Raise(IndexError)
    case JObject(_) => Raise(KeyError)
    case _ => Raise(TypeError)
  }
}
