/**
 * The few Python built-ins the indexer relies on. `json.loads`, `str()` and
 * `int()` are abstract: the values they are applied to carry their outcome,
 * and every property proved here holds whatever those outcomes are.
 */
module Python {
  import opened Wrappers

  /** What `int(value)` does: return, raise ValueError/TypeError, or raise anything else (OverflowError on `Infinity`). */
  datatype IntResult = IntOk(value: int) | IntRejected | IntRaises

  /**
   * A decoded JSON value: `null`, an object with its keys in order, or any
   * other value (string, number, boolean, array). `str()` and `int()` of a
   * value are left abstract: each non-null value carries what they give.
   */
  datatype Json =
    | Null
    | Object(entries: seq<(string, Json)>, str: string)
    | Value(str: string, asInt: IntResult)

  /** `str(value)`. */
  function Str(v: Json): string
  {
    match v
    case Null => "None"
    case Object(_, s) => s
    case Value(s, _) => s
  }

  /** `int(value)`: `int(None)` and `int(dict)` raise TypeError. */
  function Int(v: Json): IntResult
  {
    match v
    case Null => IntRejected
    case Object(_, _) => IntRejected
    case Value(_, i) => i
  }

  /**
   * A `str` read back from a stored Lucene document, with what `int()` of it
   * gives: None when it raises ValueError.
   */
  datatype PyStr = PyStr(text: string, asInt: Option<int>)

  /** One line of a file: its text and what `json.loads` makes of it (None when it raises). */
  datatype Line = Line(text: string, loads: Option<Json>)

  /** The characters `str.strip()` removes (Python's `str.isspace`). */
  predicate IsSpace(c: char)
  {
    || '\t' <= c <= '\r'
    || '\U{1C}' <= c <= ' '
    || c == '\U{85}' || c == '\U{A0}' || c == '\U{1680}'
    || '\U{2000}' <= c <= '\U{200A}'
    || c == '\U{2028}' || c == '\U{2029}' || c == '\U{202F}' || c == '\U{205F}' || c == '\U{3000}'
  }

  /** `not line.strip()`. */
  predicate IsBlank(line: string)
  {
    forall c <- line :: IsSpace(c)
  }

  /** `s.endswith(suffix)`. */
  predicate EndsWith(s: string, suffix: string)
  {
    |suffix| <= |s| && s[|s| - |suffix|..] == suffix
  }
}
