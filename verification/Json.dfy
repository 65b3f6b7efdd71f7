/**
 The values that are hashed and how they become text: `_canonicalize`, `canonical_json` and
 `hash_json` of reality_git/hashing.py.

 `PyValue` is what a caller passes in: dictionaries keep their insertion order, tuples and decimals
 are still there, and some values have no JSON form. `Json` is what `_canonicalize` returns: a
 dictionary is a map, because the printer sorts the keys again (`sort_keys=True`).
 */
module JsonValues {
  import opened Basics
  import opened StringOrder

  predicate NumberChar(c: char) {
    '0' <= c <= '9' || c == '-' || c == '+' || c == '.' || c == 'e' || c == 'E'
  }

  /** What tells the text of a float from the text of an int. */
  predicate FractionMark(c: char) {
    c == '.' || c == 'e' || c == 'E'
  }

  predicate IsFloatRepr(s: string) {
    (forall i | 0 <= i < |s| :: NumberChar(s[i])) && exists i | 0 <= i < |s| :: FractionMark(s[i])
  }

  lemma ShortestFloatRepr()
    ensures IsFloatRepr("0.5")
  {
    assert FractionMark("0.5"[1]);
  }

  /** The text of a finite float, kept as an opaque token. */
  type FloatRepr = s: string | IsFloatRepr(s) ghost witness (ShortestFloatRepr(); "0.5")

  datatype Json =
    | Null
    | Bool(b: bool)
    | Int(n: int)
    | Float(repr: FloatRepr)
    | Str(s: string)
    | List(items: seq<Json>)
    | Dict(fields: map<string, Json>)

  datatype DecimalNumber = Integral(n: int) | Fractional(nearest: FloatRepr) | NotFinite

  datatype PyValue =
    | PyNone
    | PyBool(b: bool)
    | PyInt(n: int)
    | PyFloat(repr: FloatRepr)
    | PyFloatNotFinite
    | PyDecimal(d: DecimalNumber)
    | PyStr(s: string)
    | PyList(items: seq<PyValue>)
    | PyTuple(items: seq<PyValue>)
    | PyDict(entries: seq<(string, PyValue)>)
    | PyOther

  datatype Error = ValueError | TypeError

  // ---------------------------------------------------------------- canonicalising

  function Names(entries: seq<(string, PyValue)>): set<string> {
    set i | 0 <= i < |entries| :: entries[i].0
  }

  function Lookup(entries: seq<(string, PyValue)>, name: string): (v: PyValue)
    requires name in Names(entries)
    ensures exists i | 0 <= i < |entries| :: entries[i] == (name, v)
  {
    if entries[0].0 == name then entries[0].1 else
      assert name in Names(entries[1..]) by {
        var i :| 0 <= i < |entries| && entries[i].0 == name;
        assert entries[1..][i - 1].0 == name;
      }
      var v := Lookup(entries[1..], name);
      assert exists i | 0 <= i < |entries| :: entries[i] == (name, v) by {
        var i :| 0 <= i < |entries[1..]| && entries[1..][i] == (name, v);
        assert entries[i + 1] == (name, v);
      }
      v
  }

  function Canonicalize(v: PyValue): Result<Json, Error>
    decreases v
  {
    match v
    case PyNone => Ok(Null)
    case PyBool(b) => Ok(Bool(b))
    case PyInt(n) => Ok(Int(n))
    case PyFloat(r) => Ok(Float(r))
    case PyFloatNotFinite => Err(ValueError)
    case PyDecimal(d) => CanonicalDecimal(d)
    case PyStr(s) => Ok(Str(s))
    case PyList(items) => ListOf(CanonicalItems(items))
    case PyTuple(items) => ListOf(CanonicalItems(items))
    case PyDict(entries) =>
      (match CanonicalFields(v, SortedNames(Names(entries)))
       case Ok(fields) => Ok(Dict(fields))
       case Err(e) => Err(e))
    case PyOther => Err(TypeError)
  }

  function CanonicalDecimal(d: DecimalNumber): Result<Json, Error> {
    match d
    case Integral(n) => Ok(Int(n))
    case Fractional(nearest) => Ok(Float(nearest))
    case NotFinite => Err(ValueError)
  }

  function ListOf(items: Result<seq<Json>, Error>): Result<Json, Error> {
    match items
    case Ok(js) => Ok(List(js))
    case Err(e) => Err(e)
  }

  function CanonicalItems(items: seq<PyValue>): (r: Result<seq<Json>, Error>)
    ensures r.Ok? <==> forall i | 0 <= i < |items| :: Canonicalize(items[i]).Ok?
    ensures r.Ok? ==> |r.value| == |items|
    ensures r.Ok? ==> forall i | 0 <= i < |items| :: Canonicalize(items[i]) == Ok(r.value[i])
    decreases items
  {
    if items == [] then Ok([]) else
      match Canonicalize(items[0])
      case Err(e) => Err(e)
      case Ok(j) =>
        match CanonicalItems(items[1..])
        case Err(e) => Err(e)
        case Ok(js) => Ok([j] + js)
  }

  /** The dictionary comprehension of `_canonicalize`: the names are visited in sorted order. */
  function CanonicalFields(v: PyValue, names: seq<string>): (r: Result<map<string, Json>, Error>)
    requires v.PyDict? && forall k | k in names :: k in Names(v.entries)
    ensures r.Ok? <==> forall k | k in names :: Canonicalize(Lookup(v.entries, k)).Ok?
    ensures r.Ok? ==> r.value.Keys == set k | k in names
    ensures r.Ok? ==> forall k | k in names :: Canonicalize(Lookup(v.entries, k)) == Ok(r.value[k])
    decreases v, |names|
  {
    if names == [] then Ok(map[]) else
      var child := Lookup(v.entries, names[0]);
      assert child < v;
      assert forall k :: k in names <==> k == names[0] || k in names[1..];
      match Canonicalize(child)
      case Err(e) => Err(e)
      case Ok(j) =>
        match CanonicalFields(v, names[1..])
        case Err(e) => Err(e)
        case Ok(rest) => Ok(rest[names[0] := j])
  }

  // ---------------------------------------------------------------- printing

  function Digit(d: nat): char
    requires d < 10
  {
    ('0' as int + d) as char
  }

  function NatText(n: nat): (s: string)
    ensures s != [] && forall c | c in s :: '0' <= c <= '9'
  {
    if n < 10 then [Digit(n)] else NatText(n / 10) + [Digit(n % 10)]
  }

  function IntText(n: int): string {
    if n < 0 then "-" + NatText(-n) else NatText(n)
  }

  function HexDigit(d: nat): char
    requires d < 16
  {
    if d < 10 then Digit(d) else ('a' as int + (d - 10)) as char
  }

  /** `ensure_ascii=False`: only the quote, the backslash and the control characters are escaped. */
  function EscapeChar(c: char): string {
    if c == '\"' then "\\\""
    else if c == '\\' then "\\\\"
    else if c == '\n' then "\\n"
    else if c == '\r' then "\\r"
    else if c == '\t' then "\\t"
    else if c == '\U{08}' then "\\b"
    else if c == '\U{0C}' then "\\f"
    else if c < ' ' then "\\u00" + [HexDigit(c as int / 16), HexDigit(c as int % 16)]
    else [c]
  }

  function Escape(s: string): string {
    if s == [] then [] else EscapeChar(s[0]) + Escape(s[1..])
  }

  function Quoted(s: string): string {
    "\"" + Escape(s) + "\""
  }

  /** `json.dumps` with compact separators and `sort_keys=True`. */
  function Text(v: Json): string
    decreases v
  {
    match v
    case Null => "null"
    case Bool(b) => if b then "true" else "false"
    case Int(n) => IntText(n)
    case Float(r) => r
    case Str(s) => Quoted(s)
    case List(items) => "[" + ItemsText(items) + "]"
    case Dict(fields) => "{" + FieldsText(v, SortedNames(fields.Keys)) + "}"
  }

  function ItemsText(items: seq<Json>): string
    decreases items
  {
    if items == [] then ""
    else if |items| == 1 then Text(items[0])
    else Text(items[0]) + "," + ItemsText(items[1..])
  }

  function FieldsText(v: Json, names: seq<string>): string
    requires v.Dict? && forall k | k in names :: k in v.fields
    decreases v, |names|
  {
    if names == [] then ""
    else
      var field := Quoted(names[0]) + ":" + Text(v.fields[names[0]]);
      if |names| == 1 then field else field + "," + FieldsText(v, names[1..])
  }

  function CanonicalJson(v: PyValue): Result<string, Error> {
    match Canonicalize(v)
    case Ok(j) => Ok(Text(j))
    case Err(e) => Err(e)
  }

  /** `hash_json` for a given digest of the UTF-8 text. */
  function HashJson(digest: string -> string, v: PyValue): Result<string, Error> {
    match CanonicalJson(v)
    case Ok(text) => Ok("sha256:" + digest(text))
    case Err(e) => Err(e)
  }
}
