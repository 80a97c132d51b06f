/**
 * Parsed JSON/YAML/TOML documents as the Python code sees them (dicts, lists,
 * strings, ints, bools and None), and the few Python operations the model
 * applies to them: `d[k]`, `d.get(k, default)`, `k in d`, truthiness and
 * `d == 0`. An operation Python would raise on yields `Raise`.
 */
module Doc {
  import opened Wrappers
  import opened Text

  datatype Doc =
    | DNull
    | DBool(b: bool)
    | DInt(i: int)
    | DStr(s: string)
    | DList(items: seq<Doc>)
    | DMap(fields: map<string, Doc>)

  /** The Python exceptions the modelled code can raise. */
  datatype PyError = KeyError(key: string) | TypeError | AttributeError | RuntimeError | AssertionError

  /** The value of a Python expression, or the exception it raised. */
  datatype Try<+T> = Value(v: T) | Raise(err: PyError)

  /** `d[key]` with a string key. */
  function Subscript(d: Doc, key: string): (r: Try<Doc>)
    ensures r.Value? <==> d.DMap? && key in d.fields
    ensures r.Value? ==> r.v == d.fields[key]
    ensures !d.DMap? ==> r == Raise(TypeError)
  {
    match d
    case DMap(m) => if key in m then Value(m[key]) else Raise(KeyError(key))
    case _ => Raise(TypeError)
  }

  /** `d.get(key, default)`: only a dict has a `get` method. */
  function Get(d: Doc, key: string, default: Doc): (r: Try<Doc>)
    ensures d.DMap? <==> r.Value?
    ensures r.Value? ==> r.v == if key in d.fields then d.fields[key] else default
  {
    match d
    case DMap(m) => Value(if key in m then m[key] else default)
    case _ => Raise(AttributeError)
  }

  /** `d.get(k1, {}).get(k2, {})....get(kn, default)`. */
  function GetPath(d: Doc, path: seq<string>, default: Doc): Try<Doc>
    requires |path| >= 1
    decreases |path|
  {
    if |path| == 1 then Get(d, path[0], default)
    else
      match Get(d, path[0], DMap(map[]))
      case Raise(e) => Raise(e)
      case Value(inner) => GetPath(inner, path[1..], default)
  }

  /** Following a path of dicts that all hold the next key yields the leaf. */
  lemma {:induction false} GetPathPresent(d: Doc, path: seq<string>, default: Doc, leaf: Doc)
    requires |path| >= 1 && Reaches(d, path, leaf)
    ensures GetPath(d, path, default) == Value(leaf)
    decreases |path|
  {
    if |path| > 1 {
      GetPathPresent(d.fields[path[0]], path[1..], default, leaf);
    }
  }

  /** `d` holds `leaf` under the nested keys `path`. */
  ghost predicate Reaches(d: Doc, path: seq<string>, leaf: Doc)
    decreases |path|
  {
    if path == [] then d == leaf
    else d.DMap? && path[0] in d.fields && Reaches(d.fields[path[0]], path[1..], leaf)
  }

  /** `key in d`: dict membership, list membership or substring test. */
  function Contains(d: Doc, key: string): (r: Try<bool>)
    ensures d.DMap? ==> r == Value(key in d.fields)
    ensures (d.DNull? || d.DBool? || d.DInt?) ==> r == Raise(TypeError)
  {
    match d
    case DMap(m) => Value(key in m)
    case DList(items) => Value(DStr(key) in items)
    case DStr(s) => Value(IsSubstring(key, s))
    case _ => Raise(TypeError)
  }

  /**
   * `str(d)`, which an f-string interpolates, for the scalars: `None`,
   * `True`/`False`, a decimal integer with its sign, and a string as it is.
   * A list or dict would be formatted by its repr, which is not modelled.
   */
  function Format(d: Doc): (r: Option<string>)
    ensures r.None? <==> d.DList? || d.DMap?
    ensures d.DStr? ==> r == Some(d.s)
  {
    match d
    case DNull => Some("None")
    case DBool(b) => Some(if b then "True" else "False")
    case DInt(i) => Some(if i < 0 then "-" + Dec(-i) else Dec(i))
    case DStr(s) => Some(s)
    case _ => None
  }

  /** A formatted integer reads back as the integer: its digits, after a minus sign exactly when it is negative. */
  lemma FormatIntRoundTrip(i: int)
    ensures var f := Format(DInt(i)).value;
      && |f| >= 1
      && (f[0] == '-' <==> i < 0)
      && (i < 0 ==> AllDigits(f[1..]) && ParseDec(f[1..]) == -i)
      && (i >= 0 ==> AllDigits(f) && ParseDec(f) == i)
  {
    var f := Format(DInt(i)).value;
    if i < 0 {
      assert f == "-" + Dec(-i);
      DecRoundTrip(-i);
      assert f[1..] == Dec(-i);
    } else {
      assert f == Dec(i);
      DecRoundTrip(i);
      DecDigits(i);
      assert IsDigit(f[0]);
    }
  }

  /**
   * The integer Python arithmetic sees in `d`: an int, or a bool as 0 or 1.
   * Adding anything else to an int raises TypeError.
   */
  function IntValue(d: Doc): (r: Option<int>)
    ensures r.Some? <==> d.DInt? || d.DBool?
    ensures d.DInt? ==> r == Some(d.i)
  {
    match d
    case DInt(i) => Some(i)
    case DBool(b) => Some(if b then 1 else 0)
    case _ => None
  }

  /** Python truthiness (`bool(d)`). */
  predicate Truthy(d: Doc)
  {
    match d
    case DNull => false
    case DBool(b) => b
    case DInt(i) => i != 0
    case DStr(s) => s != ""
    case DList(items) => items != []
    case DMap(m) => m != map[]
  }

  /** `d == 0`, which is also `d == False`: in Python `False == 0` holds. */
  predicate EqualsZero(d: Doc)
  {
    d == DInt(0) || d == DBool(false)
  }
}
