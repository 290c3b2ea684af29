/**
 * JSON values as `encoding/json` decodes them into `interface{}`, the compact text json.Marshal writes for
 * them, and a reader of that text (sections 4 to 7 of RFC 8259). The main result is the round trip
 * `ReadBack`: Marshal loses nothing, so equal texts come only from equal values.
 */
module Json {
  import opened Base
  import opened Text

  predicate NumeralChar(c: char) {
    '0' <= c <= '9' || c == '-' || c == '+' || c == '.' || c == 'e' || c == 'E'
  }

  predicate IsNumeral(s: string) {
    s != [] && forall i | 0 <= i < |s| :: NumeralChar(s[i])
  }

  /** A float64, named by the shortest decimal text Go prints for it. */
  type Numeral = s: string | IsNumeral(s) witness "0"

  datatype Json =
    | Null
    | Bool(b: bool)
    | Num(n: Numeral)
    | Str(s: string)
    | Arr(items: seq<Json>)
    | Obj(fields: map<string, Json>)

  type Fields = map<string, Json>

  // ---------- writing ----------

  function HexValue(c: char): Option<nat> {
    if '0' <= c <= '9' then Some(c as int - '0' as int)
    else if 'a' <= c <= 'f' then Some(c as int - 'a' as int + 10)
    else if 'A' <= c <= 'F' then Some(c as int - 'A' as int + 10)
    else None
  }

  function HexDigit(d: nat): (c: char)
    requires d < 16
    ensures HexValue(c) == Some(d)
  {
    if d < 10 then '0' + d as char else 'a' + (d - 10) as char
  }

  function UnicodeEscape(code: nat): string
    requires code < 0x10000
  {
    var high, low := code / 256, code % 256;
    "\\u" + [HexDigit(high / 16), HexDigit(high % 16), HexDigit(low / 16), HexDigit(low % 16)]
  }

  /** One character inside quotes, with Go's HTML-safe escapes. */
  function EscapeChar(c: char): string {
    if c == '\"' then "\\\""
    else if c == '\\' then "\\\\"
    else if c == 8 as char then "\\b"
    else if c == 12 as char then "\\f"
    else if c == '\n' then "\\n"
    else if c == '\r' then "\\r"
    else if c == '\t' then "\\t"
    else if c as int < 32 || c in "<>&" || c as int == 0x2028 || c as int == 0x2029 then UnicodeEscape(c as int)
    else [c]
  }

  /** The text of a quoted string whose opening quote is written, followed by `rest`. */
  function WriteString(s: string, rest: string): string {
    if s == [] then "\"" + rest else EscapeChar(s[0]) + WriteString(s[1..], rest)
  }

  /** The text of a value, followed by `rest`. The members of an object come in increasing order of name. */
  function Write(j: Json, rest: string): string
    decreases j
  {
    match j
    case Null => "null" + rest
    case Bool(b) => if b then "true" + rest else "false" + rest
    case Num(n) => n + rest
    case Str(s) => "\"" + WriteString(s, rest)
    case Arr(items) => if items == [] then "[]" + rest else "[" + Write(items[0], WriteItems(j, 1, rest))
    case Obj(fields) =>
      if fields.Keys == {} then "{}" + rest else
      var k := First(fields.Keys);
      "{" + WriteMember(j, k, WriteMembers(j, fields.Keys - {k}, rest))
  }

  function WriteItems(j: Json, from: nat, rest: string): string
    requires j.Arr? && 0 < from <= |j.items|
    decreases j, |j.items| - from
  {
    if from == |j.items| then "]" + rest else "," + Write(j.items[from], WriteItems(j, from + 1, rest))
  }

  function WriteMember(j: Json, name: string, rest: string): string
    requires j.Obj? && name in j.fields
    decreases j, 0
  {
    "\"" + WriteString(name, ":" + Write(j.fields[name], rest))
  }

  function WriteMembers(j: Json, names: set<string>, rest: string): string
    requires j.Obj? && names <= j.fields.Keys
    decreases j, 1 + |names|
  {
    if names == {} then "}" + rest else
    var k := First(names);
    "," + WriteMember(j, k, WriteMembers(j, names - {k}, rest))
  }

  /** json.Marshal: a value and nothing after it. */
  function Marshal(j: Json): string {
    Write(j, "")
  }

  // ---------- reading ----------

  function ReadHex(s: string): (r: Option<char>)
    requires |s| == 4
  {
    match (HexValue(s[0]), HexValue(s[1]), HexValue(s[2]), HexValue(s[3]))
    case (Some(a), Some(b), Some(c), Some(d)) =>
      var code := 256 * (16 * a + b) + (16 * c + d);
      if code < 0xD800 || 0xE000 <= code < 0x110000 then Some(code as char) else None
    case _ => None
  }

  function Unescaped(c: char): Option<char> {
    if c == '\"' || c == '\\' || c == '/' then Some(c)
    else if c == 'b' then Some(8 as char)
    else if c == 'f' then Some(12 as char)
    else if c == 'n' then Some('\n')
    else if c == 'r' then Some('\r')
    else if c == 't' then Some('\t')
    else None
  }

  /** One character of a string, and what follows it. */
  function ReadChar(s: string): (r: Option<(char, string)>)
    ensures r.Some? ==> |r.value.1| < |s|
  {
    if s == [] || s[0] == '\"' || s[0] as int < 32 then None
    else if s[0] != '\\' then Some((s[0], s[1..]))
    else if |s| == 1 then None
    else if s[1] == 'u' then
      if |s| < 6 then None else
      match ReadHex(s[2..6]) case None => None case Some(c) => Some((c, s[6..]))
    else match Unescaped(s[1]) case None => None case Some(c) => Some((c, s[2..]))
  }

  /** The rest of a string whose opening quote has been read. */
  function ReadString(s: string): (r: Option<(string, string)>)
    ensures r.Some? ==> |r.value.1| < |s|
    decreases |s|
  {
    if s != [] && s[0] == '\"' then Some(([], s[1..])) else
    match ReadChar(s)
    case None => None
    case Some((c, rest)) =>
      match ReadString(rest)
      case None => None
      case Some((tail, after)) => Some(([c] + tail, after))
  }

  function NumeralLength(s: string): (n: nat)
    ensures n <= |s|
    ensures forall i | 0 <= i < n :: NumeralChar(s[i])
    ensures n < |s| ==> !NumeralChar(s[n])
  {
    if s == [] || !NumeralChar(s[0]) then 0 else 1 + NumeralLength(s[1..])
  }

  function ReadValue(s: string): (r: Option<(Json, string)>)
    ensures r.Some? ==> |r.value.1| < |s|
    decreases |s|, 0
  {
    if s == [] then None
    else if s[0] == '\"' then
      match ReadString(s[1..]) case None => None case Some((t, rest)) => Some((Str(t), rest))
    else if "null" <= s then Some((Null, s[4..]))
    else if "true" <= s then Some((Bool(true), s[4..]))
    else if "false" <= s then Some((Bool(false), s[5..]))
    else if "[]" <= s then Some((Arr([]), s[2..]))
    else if s[0] == '[' then
      match ReadValue(s[1..])
      case None => None
      case Some((v, rest)) =>
        (match ReadItems(rest) case None => None case Some((vs, after)) => Some((Arr([v] + vs), after)))
    else if "{}" <= s then Some((Obj(map[]), s[2..]))
    else if s[0] == '{' then
      match ReadMember(s[1..])
      case None => None
      case Some((n, v, rest)) =>
        (match ReadMembers(rest, map[n := v]) case None => None case Some((m, after)) => Some((Obj(m), after)))
    else
      var n := NumeralLength(s);
      if n == 0 then None else Some((Num(s[..n]), s[n..]))
  }

  function ReadItems(s: string): (r: Option<(seq<Json>, string)>)
    ensures r.Some? ==> |r.value.1| < |s|
    decreases |s|, 1
  {
    if s == [] then None
    else if s[0] == ']' then Some(([], s[1..]))
    else if s[0] != ',' then None
    else
      match ReadValue(s[1..])
      case None => None
      case Some((v, rest)) =>
        match ReadItems(rest) case None => None case Some((vs, after)) => Some(([v] + vs, after))
  }

  function ReadMember(s: string): (r: Option<(string, Json, string)>)
    ensures r.Some? ==> |r.value.2| < |s|
    decreases |s|, 2
  {
    if s == [] || s[0] != '\"' then None else
    match ReadString(s[1..])
    case None => None
    case Some((n, rest)) =>
      if rest == [] || rest[0] != ':' then None else
      match ReadValue(rest[1..]) case None => None case Some((v, after)) => Some((n, v, after))
  }

  /** The remaining members of an object; a repeated name takes its last value. */
  function ReadMembers(s: string, sofar: Fields): (r: Option<(Fields, string)>)
    ensures r.Some? ==> |r.value.1| < |s|
    decreases |s|, 3
  {
    if s == [] then None
    else if s[0] == '}' then Some((sofar, s[1..]))
    else if s[0] != ',' then None
    else
      match ReadMember(s[1..])
      case None => None
      case Some((n, v, rest)) => ReadMembers(rest, sofar[n := v])
  }

  /** A whole document: one value and nothing after it. */
  function Unmarshal(s: string): Option<Json> {
    match ReadValue(s)
    case Some((v, rest)) => if rest == [] then Some(v) else None
    case None => None
  }

  // ---------- the round trip ----------

  lemma ReadHexEscape(code: nat)
    requires code < 0xD800 || 0xE000 <= code < 0x10000
    ensures var u := UnicodeEscape(code); |u| == 6 && ReadHex(u[2..6]) == Some(code as char)
  {
    var high, low := code / 256, code % 256;
    assert UnicodeEscape(code)[2..6] ==
      [HexDigit(high / 16), HexDigit(high % 16), HexDigit(low / 16), HexDigit(low % 16)];
  }

  lemma ReadCharEscaped(c: char, rest: string)
    ensures ReadChar(EscapeChar(c) + rest) == Some((c, rest))
    ensures EscapeChar(c)[0] != '\"'
  {
    var e := EscapeChar(c);
    var s := e + rest;
    if |e| == 1 {
      assert s[1..] == rest;
    } else if |e| == 2 {
      assert s[2..] == rest;
    } else {
      ReadHexEscape(c as int);
      assert s[2..6] == e[2..6] && s[6..] == rest;
    }
  }

  lemma {:induction false} ReadWrittenString(s: string, rest: string)
    ensures ReadString(WriteString(s, rest)) == Some((s, rest))
  {
    var w := WriteString(s, rest);
    if s == [] {
      assert w[1..] == rest;
    } else {
      ReadCharEscaped(s[0], WriteString(s[1..], rest));
      ReadWrittenString(s[1..], rest);
      assert [s[0]] + s[1..] == s;
    }
  }

  /** What may follow a value without being taken for more of it. */
  predicate Delimited(rest: string) {
    rest == [] || !NumeralChar(rest[0])
  }

  lemma {:induction false} NumeralEnds(n: string, rest: string)
    requires forall i | 0 <= i < |n| :: NumeralChar(n[i])
    requires Delimited(rest)
    ensures NumeralLength(n + rest) == |n|
  {
    if n == [] {
      assert n + rest == rest;
    } else {
      assert (n + rest)[1..] == n[1..] + rest;
      NumeralEnds(n[1..], rest);
    }
  }

  lemma WriteStart(j: Json, rest: string)
    ensures Write(j, rest) != [] && Write(j, rest)[0] != ']'
  {
  }

  lemma ReadWrittenAtom(j: Json, rest: string)
    requires Delimited(rest) && !j.Arr? && !j.Obj?
    ensures ReadValue(Write(j, rest)) == Some((j, rest))
  {
    var s := Write(j, rest);
    match j {
      case Null => assert s[4..] == rest;
      case Bool(b) => assert s[if b then 4 else 5..] == rest;
      case Num(n) =>
        NumeralEnds(n, rest);
        assert s[..|n|] == n && s[|n|..] == rest;
      case Str(t) =>
        assert s[1..] == WriteString(t, rest);
        ReadWrittenString(t, rest);
    }
  }

  lemma ReadArray(s: string, v: Json, tail: string, vs: seq<Json>, rest: string)
    requires s != [] && s[0] != ']'
    requires ReadValue(s) == Some((v, tail)) && ReadItems(tail) == Some((vs, rest))
    ensures ReadValue("[" + s) == Some((Arr([v] + vs), rest))
  {
    assert ("[" + s)[1..] == s;
  }

  lemma ReadObject(s: string, n: string, v: Json, tail: string, m: Fields, rest: string)
    requires s != [] && s[0] == '\"'
    requires ReadMember(s) == Some((n, v, tail)) && ReadMembers(tail, map[n := v]) == Some((m, rest))
    ensures ReadValue("{" + s) == Some((Obj(m), rest))
  {
    assert ("{" + s)[1..] == s;
  }

  lemma ReadMembersStep(s: string, sofar: Fields, n: string, v: Json, tail: string)
    requires ReadMember(s) == Some((n, v, tail))
    ensures ReadMembers("," + s, sofar) == ReadMembers(tail, sofar[n := v])
  {
    assert ("," + s)[1..] == s;
  }

  lemma {:induction false} ReadWritten(j: Json, rest: string)
    requires Delimited(rest)
    ensures ReadValue(Write(j, rest)) == Some((j, rest))
    decreases j
  {
    match j {
      case Arr(items) =>
        if items == [] {
          assert Write(j, rest)[2..] == rest;
        } else {
          ReadWrittenArray(j, rest);
        }
      case Obj(fields) =>
        if fields.Keys == {} {
          assert fields == map[];
          assert Write(j, rest)[2..] == rest;
        } else {
          ReadWrittenObject(j, rest);
        }
      case _ => ReadWrittenAtom(j, rest);
    }
  }

  lemma {:induction false} ReadWrittenArray(j: Json, rest: string)
    requires j.Arr? && j.items != []
    ensures ReadValue(Write(j, rest)) == Some((j, rest))
    decreases j, 1 + |j.items|
  {
    var tail := WriteItems(j, 1, rest);
    ReadWrittenItems(j, 1, rest);
    ReadWritten(j.items[0], tail);
    WriteStart(j.items[0], tail);
    ReadArray(Write(j.items[0], tail), j.items[0], tail, j.items[1..], rest);
    assert [j.items[0]] + j.items[1..] == j.items;
  }

  function Chosen(m: Fields, names: set<string>): Fields
    requires names <= m.Keys
  {
    map n | n in names :: m[n]
  }

  lemma {:induction false} ReadWrittenObject(j: Json, rest: string)
    requires j.Obj? && j.fields.Keys != {}
    ensures ReadValue(Write(j, rest)) == Some((j, rest))
    decreases j, 2 + |j.fields.Keys|
  {
    var k := First(j.fields.Keys);
    var v, others := j.fields[k], j.fields.Keys - {k};
    var tail := WriteMembers(j, others, rest);
    ReadWrittenMembers(j, map[k := v], others, rest);
    ReadWrittenMember(j, k, tail);
    assert map[k := v] + Chosen(j.fields, others) == j.fields;
    ReadObject(WriteMember(j, k, tail), k, v, tail, j.fields, rest);
  }

  lemma {:induction false} ReadWrittenItems(j: Json, from: nat, rest: string)
    requires j.Arr? && 0 < from <= |j.items|
    ensures ReadItems(WriteItems(j, from, rest)) == Some((j.items[from..], rest))
    ensures Delimited(WriteItems(j, from, rest))
    decreases j, |j.items| - from
  {
    var s := WriteItems(j, from, rest);
    if from == |j.items| {
      assert s[1..] == rest;
    } else {
      var tail := WriteItems(j, from + 1, rest);
      assert s[1..] == Write(j.items[from], tail);
      ReadWrittenItems(j, from + 1, rest);
      ReadWritten(j.items[from], tail);
      assert [j.items[from]] + j.items[from + 1..] == j.items[from..];
    }
  }

  lemma {:induction false} ReadWrittenMember(j: Json, name: string, rest: string)
    requires j.Obj? && name in j.fields && Delimited(rest)
    ensures ReadMember(WriteMember(j, name, rest)) == Some((name, j.fields[name], rest))
    decreases j, 0
  {
    var s := WriteMember(j, name, rest);
    var tail := Write(j.fields[name], rest);
    assert s[1..] == WriteString(name, ":" + tail);
    ReadWrittenString(name, ":" + tail);
    assert (":" + tail)[1..] == tail;
    ReadWritten(j.fields[name], rest);
  }

  lemma ChosenStep(m: Fields, sofar: Fields, names: set<string>, k: string)
    requires names <= m.Keys && k in names
    ensures sofar[k := m[k]] + Chosen(m, names - {k}) == sofar + Chosen(m, names)
  {
  }

  lemma ReadLastMember(sofar: Fields, rest: string)
    ensures ReadMembers("}" + rest, sofar) == Some((sofar, rest))
  {
    assert ("}" + rest)[1..] == rest;
  }

  lemma {:induction false} ReadWrittenMembers(j: Json, sofar: Fields, names: set<string>, rest: string)
    requires j.Obj? && names <= j.fields.Keys
    ensures ReadMembers(WriteMembers(j, names, rest), sofar) == Some((sofar + Chosen(j.fields, names), rest))
    ensures Delimited(WriteMembers(j, names, rest))
    decreases j, 1 + |names|
  {
    if names == {} {
      assert sofar + Chosen(j.fields, names) == sofar;
      ReadLastMember(sofar, rest);
    } else {
      var k := First(names);
      var v := j.fields[k];
      var tail := WriteMembers(j, names - {k}, rest);
      ReadWrittenMembers(j, sofar[k := v], names - {k}, rest);
      ReadWrittenMember(j, k, tail);
      ReadMembersStep(WriteMember(j, k, tail), sofar, k, v, tail);
      ChosenStep(j.fields, sofar, names, k);
    }
  }

  /** json.Unmarshal reads back exactly the value json.Marshal wrote. */
  lemma ReadBack(j: Json)
    ensures Unmarshal(Marshal(j)) == Some(j)
  {
    ReadWritten(j, []);
  }

  /** Two values share a text only when they are the same value. */
  lemma MarshalInjective(a: Json, b: Json)
    requires Marshal(a) == Marshal(b)
    ensures a == b
  {
    ReadBack(a);
    ReadBack(b);
  }
}
