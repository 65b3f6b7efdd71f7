/**
 A reader of the compact text (RFC 8259, sections 4, 5, 6 and 7) that inverts the printer. It exists to
 show that `canonical_json` loses nothing but the order of dictionary entries.
 */
module JsonReader {
  import opened Basics
  import opened StringOrder
  import opened JsonValues

  // ---------------------------------------------------------------- numbers

  function DigitValue(c: char): int {
    c as int - '0' as int
  }

  function ReadNat(s: string): int {
    if s == [] then 0 else ReadNat(s[..|s| - 1]) * 10 + DigitValue(s[|s| - 1])
  }

  function NumberRun(s: string): (n: nat)
    ensures n <= |s|
    ensures forall i | 0 <= i < n :: NumberChar(s[i])
    ensures n < |s| ==> !NumberChar(s[n])
  {
    if s == [] || !NumberChar(s[0]) then 0 else 1 + NumberRun(s[1..])
  }

  function ReadNumber(token: string): Json
    requires forall i | 0 <= i < |token| :: NumberChar(token[i])
  {
    if exists i | 0 <= i < |token| :: FractionMark(token[i]) then Float(token)
    else if token != [] && token[0] == '-' then Int(-ReadNat(token[1..]))
    else Int(ReadNat(token))
  }

  // ---------------------------------------------------------------- strings

  function HexValue(c: char): Option<nat> {
    if '0' <= c <= '9' then Some(c as int - '0' as int)
    else if 'a' <= c <= 'f' then Some(c as int - 'a' as int + 10)
    else None
  }

  /**
   One character of a string body, escaped or plain, and how much text it takes; control characters are never plain.
   */
  function ReadChar(s: string): (r: Option<(char, nat)>)
    ensures r.Some? ==> 0 < r.value.1 <= |s|
  {
    if s == [] then None
    else if s[0] != '\\' then if s[0] < ' ' then None else Some((s[0], 1))
    else if |s| < 2 then None
    else if s[1] == '\"' || s[1] == '\\' then Some((s[1], 2))
    else if s[1] == 'n' then Some(('\n', 2))
    else if s[1] == 'r' then Some(('\r', 2))
    else if s[1] == 't' then Some(('\t', 2))
    else if s[1] == 'b' then Some(('\U{08}', 2))
    else if s[1] == 'f' then Some(('\U{0C}', 2))
    else if s[1] == 'u' && |s| >= 6 && s[2] == '0' && s[3] == '0' then
      (match (HexValue(s[4]), HexValue(s[5]))
       case (Some(hi), Some(lo)) => Some(((hi * 16 + lo) as char, 6))
       case _ => None)
    else None
  }

  /** The rest of a string, up to and with the closing quote. */
  function ReadString(s: string): (r: Option<(string, string)>)
    ensures r.Some? ==> |r.value.1| < |s|
    decreases |s|
  {
    if s == [] then None
    else if s[0] == '\"' then Some(("", s[1..]))
    else
      match ReadChar(s)
      case None => None
      case Some((c, n)) =>
        match ReadString(s[n..])
        case None => None
        case Some((cs, rest)) => Some(([c] + cs, rest))
  }

  // ---------------------------------------------------------------- values

  predicate StartsWith(s: string, p: string) {
    |p| <= |s| && s[..|p|] == p
  }

  function ReadValue(s: string): (r: Option<(Json, string)>)
    ensures r.Some? ==> |r.value.1| < |s|
    decreases |s|, 0
  {
    if s == [] then None
    else if s[0] == '\"' then
      (match ReadString(s[1..])
       case None => None
       case Some((cs, rest)) => Some((Str(cs), rest)))
    else if s[0] == '[' then
      if |s| > 1 && s[1] == ']' then Some((List([]), s[2..])) else
        (match ReadItems(s[1..])
         case None => None
         case Some((items, rest)) => Some((List(items), rest)))
    else if s[0] == '{' then
      if |s| > 1 && s[1] == '}' then Some((Dict(map[]), s[2..])) else
        (match ReadFields(s[1..])
         case None => None
         case Some((fields, rest)) => Some((Dict(fields), rest)))
    else if NumberRun(s) > 0 then Some((ReadNumber(s[..NumberRun(s)]), s[NumberRun(s)..]))
    else if StartsWith(s, "null") then Some((Null, s[4..]))
    else if StartsWith(s, "true") then Some((Bool(true), s[4..]))
    else if StartsWith(s, "false") then Some((Bool(false), s[5..]))
    else None
  }

  /** One or more values separated by commas, up to and with the closing bracket. */
  function ReadItems(s: string): (r: Option<(seq<Json>, string)>)
    ensures r.Some? ==> |r.value.1| < |s|
    decreases |s|, 1
  {
    match ReadValue(s)
    case None => None
    case Some((v, rest)) =>
      if rest == [] then None
      else if rest[0] == ']' then Some(([v], rest[1..]))
      else if rest[0] == ',' then
        (match ReadItems(rest[1..])
         case None => None
         case Some((vs, rest')) => Some(([v] + vs, rest')))
      else None
  }

  function ReadField(s: string): (r: Option<(string, Json, string)>)
    ensures r.Some? ==> |r.value.2| < |s|
    decreases |s|, 1
  {
    if s == [] || s[0] != '\"' then None else
      match ReadString(s[1..])
      case None => None
      case Some((name, rest)) =>
        if rest == [] || rest[0] != ':' then None else
          match ReadValue(rest[1..])
          case None => None
          case Some((v, rest')) => Some((name, v, rest'))
  }

  /** One or more fields separated by commas, up to and with the closing brace. */
  function ReadFields(s: string): (r: Option<(map<string, Json>, string)>)
    ensures r.Some? ==> |r.value.1| < |s|
    decreases |s|, 2
  {
    match ReadField(s)
    case None => None
    case Some((name, v, rest)) =>
      if rest == [] then None
      else if rest[0] == '}' then Some((map[name := v], rest[1..]))
      else if rest[0] == ',' then
        (match ReadFields(rest[1..])
         case None => None
         case Some((fields, rest')) => Some((fields[name := v], rest')))
      else None
  }

  // ---------------------------------------------------------------- the reader inverts the printer

  lemma {:induction false} NatRoundTrip(n: nat)
    ensures ReadNat(NatText(n)) == n
  {
    if n < 10 {
      assert [Digit(n)][..0] == "";
    } else {
      var head := NatText(n / 10);
      assert (head + [Digit(n % 10)])[..|head|] == head;
      NatRoundTrip(n / 10);
    }
  }

  lemma NumberRunOf(token: string, rest: string)
    requires forall i | 0 <= i < |token| :: NumberChar(token[i])
    requires Stops(rest)
    ensures NumberRun(token + rest) == |token|
  {
    assert forall i | 0 <= i < |token| :: (token + rest)[i] == token[i];
    assert rest != [] ==> (token + rest)[|token|] == rest[0];
  }

  /** What may follow a number in the text: anything that cannot extend it. */
  predicate Stops(rest: string) {
    rest == [] || !NumberChar(rest[0])
  }

  lemma IntRoundTrip(n: int)
    ensures IntText(n) != []
    ensures forall i | 0 <= i < |IntText(n)| :: NumberChar(IntText(n)[i])
    ensures ReadNumber(IntText(n)) == Int(n)
  {
    var s := IntText(n);
    var digits := NatText(if n < 0 then -n else n);
    NatRoundTrip(if n < 0 then -n else n);
    assert forall i | 0 <= i < |digits| :: digits[i] in digits;
    assert forall i | 0 <= i < |s| :: s[i] in digits || s[i] == '-';
    if n < 0 {
      assert s[1..] == digits;
    } else {
      assert s[0] in digits;
    }
  }

  lemma HexRoundTrip(d: nat)
    requires d < 16
    ensures HexValue(HexDigit(d)) == Some(d)
  {
  }

  lemma CharRoundTrip(c: char, rest: string)
    ensures EscapeChar(c) != [] && EscapeChar(c)[0] != '\"'
    ensures ReadChar(EscapeChar(c) + rest) == Some((c, |EscapeChar(c)|))
  {
    var e := EscapeChar(c);
    assert (e + rest)[..|e|] == e;
    if c < ' ' {
      HexRoundTrip(c as int / 16);
      HexRoundTrip(c as int % 16);
      assert c == (c as int / 16 * 16 + c as int % 16) as char;
    }
  }

  lemma EscapedCharReads(t: string, c: char, n: nat, cs: string, rest: string)
    requires t != []
              && t[0] != '\"' && n <= |t| && ReadChar(t) == Some((c, n)) && ReadString(t[n..]) == Some((cs, rest))
    ensures ReadString(t) == Some(([c] + cs, rest))
  {
    hide ReadChar;
  }

  lemma EscapeOf(s: string, rest: string)
    requires s != []
    ensures Escape(s) + "\"" + rest == EscapeChar(s[0]) + (Escape(s[1..]) + "\"" + rest)
  {
    hide EscapeChar;
  }

  lemma EmptyStringReads(rest: string)
    ensures ReadString(Escape([]) + "\"" + rest) == Some(([], rest))
  {
    hide ReadChar;
    assert Escape([]) + "\"" + rest == "\"" + rest;
  }

  lemma {:induction false} StringRoundTrip(s: string, rest: string)
    ensures ReadString(Escape(s) + "\"" + rest) == Some((s, rest))
  {
    hide EscapeChar, ReadChar, ReadString, Escape;
    if s == [] {
      EmptyStringReads(rest);
    } else {
      var e := EscapeChar(s[0]);
      var tail := Escape(s[1..]) + "\"" + rest;
      EscapeOf(s, rest);
      CharRoundTrip(s[0], tail);
      StringRoundTrip(s[1..], rest);
      assert (e + tail)[|e|..] == tail;
      EscapedCharReads(e + tail, s[0], |e|, s[1..], rest);
      assert [s[0]] + s[1..] == s;
    }
  }

  lemma WordsRead(rest: string)
    ensures ReadValue("null" + rest) == Some((Null, rest))
    ensures ReadValue("true" + rest) == Some((Bool(true), rest))
    ensures ReadValue("false" + rest) == Some((Bool(false), rest))
  {
    hide ReadString, ReadItems, ReadFields, ReadNumber;
    assert ("null" + rest)[..4] == "null" && ("null" + rest)[4..] == rest;
    assert ("true" + rest)[..4] == "true" && ("true" + rest)[4..] == rest;
    assert ("false" + rest)[..5] == "false" && ("false" + rest)[5..] == rest && ("false" + rest)[..4] == "fals";
  }

  lemma QuotedReads(cs: string, rest: string)
    ensures ReadValue(Quoted(cs) + rest) == Some((Str(cs), rest))
  {
    hide ReadItems, ReadFields, ReadString, Escape;
    StringRoundTrip(cs, rest);
    assert (Quoted(cs) + rest)[1..] == Escape(cs) + "\"" + rest;
  }

  lemma {:induction false} ReadInvertsText(v: Json, rest: string)
    requires Stops(rest)
    ensures ReadValue(Text(v) + rest) == Some((v, rest))
    decreases v, 1
  {
    hide ReadValue, Quoted, ItemsText, FieldsText, IntText;
    match v
    case Null => WordsRead(rest);
    case Bool(b) => WordsRead(rest);
    case Int(n) =>
      IntRoundTrip(n);
      NumberTokenReads(IntText(n), rest);
    case Float(r) =>
      NumberTokenReads(r, rest);
    case Str(cs) =>
      QuotedReads(cs, rest);
    case List(items) =>
      ReadInvertsList(v, rest);
    case Dict(fields) =>
      ReadInvertsDict(v, rest);
  }

  lemma EmptyContainersRead(rest: string)
    ensures ReadValue("[]" + rest) == Some((List([]), rest)) && ReadValue("{}" + rest) == Some((Dict(map[]), rest))
  {
    hide ReadString, ReadItems, ReadFields;
  }

  lemma {:induction false} ReadInvertsList(v: Json, rest: string)
    requires v.List?
    ensures ReadValue(Text(v) + rest) == Some((v, rest))
    decreases v, 0
  {
    var items := v.items;
    hide ReadValue, ReadItems;
    if items == [] {
      EmptyContainersRead(rest);
      assert Text(v) + rest == "[]" + rest;
    } else {
      hide ItemsText;
      var body := ItemsText(items) + "]" + rest;
      assert Text(v) + rest == "[" + body;
      ReadInvertsItems(items, rest);
      ItemsTextStart(items);
      ListReads(body, items, rest);
    }
  }

  lemma ItemsTextStart(items: seq<Json>)
    requires items != []
    ensures ItemsText(items) != [] && ItemsText(items)[0] != ']'
  {
    TextStart(items[0]);
    hide Text;
  }

  lemma {:induction false} ReadInvertsDict(v: Json, rest: string)
    requires v.Dict?
    ensures ReadValue(Text(v) + rest) == Some((v, rest))
    decreases v, 0
  {
    var names := SortedNames(v.fields.Keys);
    DictText(v, rest);
    AllFields(v);
    hide ReadValue, ReadFields, Text, FieldsText, SortedNames;
    if names == [] {
      EmptyContainersRead(rest);
    } else {
      var text := FieldsText(v, names) + "}" + rest;
      FieldsTextStart(v, names);
      ReadInvertsFields(v, names, rest);
      assert text != [] && text[0] == '\"';
      DictReads(text, v.fields, rest);
    }
  }

  lemma AllFields(v: Json)
    requires v.Dict?
    ensures var names := SortedNames(v.fields.Keys);
            (map k | k in names :: v.fields[k]) == v.fields && (names == [] ==> v.fields == map[])
  {
    var names := SortedNames(v.fields.Keys);
    assert forall k :: k in names <==> k in v.fields;
    hide SortedNames;
    if names == [] {
      assert v.fields.Keys == {};
    }
  }

  lemma DictText(v: Json, rest: string)
    requires v.Dict?
    ensures var names := SortedNames(v.fields.Keys);
            && Text(v) + rest == "{" + (FieldsText(v, names) + "}" + rest)
            && (names == [] ==> Text(v) + rest == "{}" + rest)
  {
    var names := SortedNames(v.fields.Keys);
    if names != [] { hide FieldsText; }
    Bracketed("{", FieldsText(v, names), "}", rest);
  }

  lemma FieldsTextStart(v: Json, names: seq<string>)
    requires v.Dict? && names != [] && forall k | k in names :: k in v.fields
    ensures FieldsText(v, names) != [] && FieldsText(v, names)[0] == '\"'
  {
  }

  lemma Bracketed(open: string, body: string, close: string, rest: string)
    ensures (open + body + close) + rest == open + (body + close + rest)
  {
  }

  lemma ListReads(body: string, items: seq<Json>, rest: string)
    requires body != [] && body[0] != ']' && ReadItems(body) == Some((items, rest))
    ensures ReadValue("[" + body) == Some((List(items), rest))
  {
    assert ("[" + body)[1..] == body;
  }

  lemma DictReads(body: string, fields: map<string, Json>, rest: string)
    requires body != [] && body[0] != '}' && ReadFields(body) == Some((fields, rest))
    ensures ReadValue("{" + body) == Some((Dict(fields), rest))
  {
    assert ("{" + body)[1..] == body;
  }

  lemma NumberTokenReads(token: string, rest: string)
    requires token != [] && Stops(rest)
    requires forall i | 0 <= i < |token| :: NumberChar(token[i])
    ensures ReadValue(token + rest) == Some((ReadNumber(token), rest))
  {
    NumberRunOf(token, rest);
    assert (token + rest)[..|token|] == token && (token + rest)[|token|..] == rest;
    assert NumberChar((token + rest)[0]);
  }

  lemma TextStart(v: Json)
    ensures Text(v) != [] && Text(v)[0] != ']'
  {
    match v
    case Int(n) => IntRoundTrip(n);
    case Float(r) =>
      assert r != [];
      assert NumberChar(r[0]);
    case _ =>
  }

  lemma LastItemReads(s: string, v: Json, rest: string)
    requires ReadValue(s) == Some((v, "]" + rest))
    ensures ReadItems(s) == Some(([v], rest))
  {
    assert ("]" + rest)[1..] == rest;
  }

  lemma NextItemReads(s: string, v: Json, tail: string, vs: seq<Json>, rest: string)
    requires ReadValue(s) == Some((v, "," + tail))
    requires ReadItems(tail) == Some((vs, rest))
    ensures ReadItems(s) == Some(([v] + vs, rest))
  {
    assert ("," + tail)[1..] == tail;
  }

  lemma {:induction false} ReadInvertsItems(items: seq<Json>, rest: string)
    requires items != []
    ensures ReadItems(ItemsText(items) + "]" + rest) == Some((items, rest))
    decreases items, 0
  {
    hide Text, ReadValue, ReadItems;
    var s := ItemsText(items) + "]" + rest;
    if |items| == 1 {
      ReadInvertsText(items[0], "]" + rest);
      assert s == Text(items[0]) + ("]" + rest);
      LastItemReads(s, items[0], rest);
      assert [items[0]] == items;
    } else {
      var tail := ItemsText(items[1..]) + "]" + rest;
      assert s == Text(items[0]) + ("," + tail);
      ReadInvertsText(items[0], "," + tail);
      ReadInvertsItems(items[1..], rest);
      NextItemReads(s, items[0], tail, items[1..], rest);
      assert [items[0]] + items[1..] == items;
    }
  }

  lemma FieldReads(name: string, v: Json, rest: string)
    requires Stops(rest)
    requires ReadValue(Text(v) + rest) == Some((v, rest))
    ensures ReadField(Quoted(name) + ":" + Text(v) + rest) == Some((name, v, rest))
  {
    hide Text, ReadValue;
    var s := Quoted(name) + ":" + Text(v) + rest;
    var tail := ":" + Text(v) + rest;
    StringRoundTrip(name, tail);
    hide Escape;
    assert s[1..] == Escape(name) + "\"" + tail;
    assert tail[1..] == Text(v) + rest;
  }

  lemma LastFieldReads(s: string, name: string, v: Json, rest: string)
    requires ReadField(s) == Some((name, v, "}" + rest))
    ensures ReadFields(s) == Some((map[name := v], rest))
  {
    assert ("}" + rest)[1..] == rest;
  }

  lemma NextFieldReads(s: string, name: string, v: Json, tail: string, fields: map<string, Json>, rest: string)
    requires ReadField(s) == Some((name, v, "," + tail))
    requires ReadFields(tail) == Some((fields, rest))
    ensures ReadFields(s) == Some((fields[name := v], rest))
  {
    assert ("," + tail)[1..] == tail;
  }

  lemma {:induction false} ReadInvertsFields(v: Json, names: seq<string>, rest: string)
    requires v.Dict? && names != [] && forall k | k in names :: k in v.fields
    ensures ReadFields(FieldsText(v, names) + "}" + rest) == Some((map k | k in names :: v.fields[k], rest))
    decreases v, 0, |names|
  {
    hide Text, Quoted, ReadValue, ReadFields, ReadField;
    var name, value := names[0], v.fields[names[0]];
    var field := Quoted(name) + ":" + Text(value);
    assert value < v;
    if |names| == 1 {
      ReadInvertsText(value, "}" + rest);
      FieldReads(name, value, "}" + rest);
      LastFieldReads(field + ("}" + rest), name, value, rest);
      assert FieldsText(v, names) + "}" + rest == field + ("}" + rest);
      assert (map k | k in names :: v.fields[k]) == map[name := value];
    } else {
      var tail := FieldsText(v, names[1..]) + "}" + rest;
      var others := map k | k in names[1..] :: v.fields[k];
      ReadInvertsText(value, "," + tail);
      FieldReads(name, value, "," + tail);
      ReadInvertsFields(v, names[1..], rest);
      NextFieldReads(field + ("," + tail), name, value, tail, others, rest);
      FieldsTextSplit(v, names, rest);
      assert (map k | k in names :: v.fields[k]) == others[name := value];
    }
  }

  lemma FieldsTextSplit(v: Json, names: seq<string>, rest: string)
    requires v.Dict? && |names| > 1 && forall k | k in names :: k in v.fields
    ensures FieldsText(v, names) + "}" + rest ==
            Quoted(names[0]) + ":" + Text(v.fields[names[0]]) + ("," + (FieldsText(v, names[1..]) + "}" + rest))
  {
  }

  /** The compact text determines the value. */
  lemma TextIsInjective(a: Json, b: Json)
    requires Text(a) == Text(b)
    ensures a == b
  {
    ReadInvertsText(a, "");
    ReadInvertsText(b, "");
    assert Text(a) + "" == Text(a) && Text(b) + "" == Text(b);
  }
}
