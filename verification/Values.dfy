/** Optional and failing results. */
module Wrappers {
  datatype Option<+T> = None | Some(value: T)

  datatype Result<+T, +E> = Ok(value: T) | Err(error: E)
}

/** The JSON values that cross the storage boundary. A mapping has no key order, as in the source. */
module JsonValues {

  /** `Tup` is a Python tuple: it is accepted on input and written as a JSON array. */
  datatype Json =
    | Null
    | Bool(b: bool)
    | Num(n: int)
    | Str(s: string)
    | Arr(items: seq<Json>)
    | Tup(elements: seq<Json>)
    | Obj(fields: Mapping)

  type Mapping = map<string, Json>

  /** `mapping.get(key)`: a missing key reads as null. */
  function Get(m: Mapping, key: string): Json {
    if key in m then m[key] else Null
  }

  predicate IsSpace(c: char) {
    c == ' ' || '\t' <= c <= '\r' || '\U{1C}' <= c <= '\U{1F}'
  }

  /** `not text.strip()` for ASCII text. */
  predicate IsBlank(text: string) {
    forall i | 0 <= i < |text| :: IsSpace(text[i])
  }
}
