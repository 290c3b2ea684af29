/**
 * How marshalled JSON reads: which characters are escaped and as what, and that the members of an object come in the
 * order of their names, separated by commas, each the quoted name, a colon and the value's own text (what json.Marshal
 * of Go 1.22 prints for maps).
 */
module JsonText {
  import opened Text
  import opened Json

  // ---------- characters ----------

  lemma HexDigitIs(d: nat)
    requires d < 16
    ensures HexDigit(d) == "0123456789abcdef"[d]
  {
    if d < 10 {
      assert "0123456789abcdef"[d] == '0' + d as char;
    } else {
      assert "0123456789abcdef"[d] == 'a' + (d - 10) as char;
    }
  }

  /** Quotes, backslashes and five control characters have escapes of two characters. */
  lemma ShortEscapes(c: char)
    ensures c == '\"' ==> EscapeChar(c) == "\\\""
    ensures c == '\\' ==> EscapeChar(c) == "\\\\"
    ensures c as int == 8 ==> EscapeChar(c) == "\\b"
    ensures c as int == 9 ==> EscapeChar(c) == "\\t"
    ensures c as int == 10 ==> EscapeChar(c) == "\\n"
    ensures c as int == 12 ==> EscapeChar(c) == "\\f"
    ensures c as int == 13 ==> EscapeChar(c) == "\\r"
  {
  }

  lemma Nibbles(n: nat)
    requires n < 0x10000
    ensures n / 256 / 16 == n / 4096 < 16 && n % 256 / 16 == n / 16 % 16 && n % 256 % 16 == n % 16
  {
  }

  lemma UnicodeEscapeIs(n: nat)
    requires n < 0x10000
    ensures var hex := "0123456789abcdef";
      UnicodeEscape(n) == "\\u" + [hex[n / 4096], hex[n / 256 % 16], hex[n / 16 % 16], hex[n % 16]]
  {
    Nibbles(n);
    HexDigitIs(n / 256 / 16);
    HexDigitIs(n / 256 % 16);
    HexDigitIs(n % 256 / 16);
    HexDigitIs(n % 256 % 16);
  }

  /**
   * The other control characters, the three characters that matter to HTML and the two line separators of JavaScript
   * are written as a backslash, a `u` and the four hexadecimal digits of their code.
   */
  lemma CodeEscapes(c: char)
    requires c as int !in {8, 9, 10, 12, 13}
    requires c as int < 32 || c in "<>&" || c as int == 0x2028 || c as int == 0x2029
    ensures var hex, n := "0123456789abcdef", c as int;
      EscapeChar(c) == "\\u" + [hex[n / 4096], hex[n / 256 % 16], hex[n / 16 % 16], hex[n % 16]]
  {
    UnicodeEscapeIs(c as int);
    assert EscapeChar(c) == UnicodeEscape(c as int);
  }

  /** All others, and only they, stand for themselves. */
  lemma PlainIff(c: char)
    ensures EscapeChar(c) == [c] <==>
      c as int >= 32 && c !in "\"\\<>&" && c as int != 0x2028 && c as int != 0x2029
  {
  }

  // ---------- strings ----------

  function Escaped(s: string): string {
    if s == [] then [] else EscapeChar(s[0]) + Escaped(s[1..])
  }

  function Quoted(s: string): string {
    "\"" + Escaped(s) + "\""
  }

  /** A string that needs no escapes is its own text. */
  lemma {:induction false} PlainText(s: string)
    requires forall c | c in s :: c as int >= 32 && c !in "\"\\<>&" && c as int != 0x2028 && c as int != 0x2029
    ensures Escaped(s) == s
  {
    if s != [] {
      assert s[0] in s;
      PlainIff(s[0]);
      assert forall c | c in s[1..] :: c in s;
      PlainText(s[1..]);
    }
  }

  lemma {:induction false} StringThen(s: string, rest: string)
    ensures WriteString(s, rest) == Escaped(s) + "\"" + rest
  {
    if s != [] { StringThen(s[1..], rest); }
  }

  // ---------- values ----------

  lemma Regroup(a: string, b: string, c: string, d: string)
    ensures a + (b + (c + d)) == a + b + c + d
  {
  }

  /** The text of a value does not depend on what follows it. */
  lemma {:induction false} ValueThen(j: Json, rest: string)
    ensures Write(j, rest) == Marshal(j) + rest
    decreases j, 9
  {
    match j {
      case Str(s) =>
        StringThen(s, rest);
        StringThen(s, []);
      case Arr(items) =>
        if items != [] {
          ItemsThen(j, rest);
          ItemsThen(j, []);
        }
      case Obj(fields) =>
        if fields.Keys != {} {
          MembersThen(j, rest);
          MembersThen(j, []);
        }
      case _ =>
    }
  }

  /** The items from `from` on, each behind a comma. */
  function CommaItems(items: seq<Json>, from: nat): string
    requires from <= |items|
    decreases |items| - from
  {
    if from == |items| then "" else "," + Marshal(items[from]) + CommaItems(items, from + 1)
  }

  lemma {:induction false} ItemsFrom(j: Json, from: nat, rest: string)
    requires j.Arr? && 0 < from <= |j.items|
    ensures WriteItems(j, from, rest) == CommaItems(j.items, from) + ("]" + rest)
    decreases j, 1, |j.items| - from
  {
    if from < |j.items| {
      var tail := WriteItems(j, from + 1, rest);
      ItemsFrom(j, from + 1, rest);
      ValueThen(j.items[from], tail);
      Regroup(",", Marshal(j.items[from]), CommaItems(j.items, from + 1), "]" + rest);
    }
  }

  lemma ItemsThen(j: Json, rest: string)
    requires j.Arr? && j.items != []
    ensures Write(j, rest) == "[" + Marshal(j.items[0]) + CommaItems(j.items, 1) + ("]" + rest)
    decreases j, 2
  {
    ItemsFrom(j, 1, rest);
    ValueThen(j.items[0], WriteItems(j, 1, rest));
    Regroup("[", Marshal(j.items[0]), CommaItems(j.items, 1), "]" + rest);
  }

  /** Texts, each behind a comma. */
  function Commas(names: seq<string>, text: string -> string): string {
    if names == [] then "" else "," + text(names[0]) + Commas(names[1..], text)
  }

  /** The text of an object's member: its quoted name, a colon, and the text of its value. */
  function Member(m: Fields): string -> string {
    n => if n in m then Quoted(n) + ":" + Marshal(m[n]) else ""
  }

  lemma MemberThen(j: Json, n: string, rest: string)
    requires j.Obj? && n in j.fields
    ensures WriteMember(j, n, rest) == Member(j.fields)(n) + rest
    decreases j, 1
  {
    ValueThen(j.fields[n], rest);
    StringThen(n, ":" + Write(j.fields[n], rest));
  }

  lemma CommasFirst(names: set<string>, text: string -> string)
    requires names != {}
    ensures var k := First(names);
      Commas(Listing(names), text) == "," + text(k) + Commas(Listing(names - {k}), text)
  {
    assert Listing(names)[1..] == Listing(names - {First(names)});
  }

  lemma {:induction false} MembersFrom(j: Json, names: set<string>, rest: string)
    requires j.Obj? && names <= j.fields.Keys
    ensures WriteMembers(j, names, rest) == Commas(Listing(names), Member(j.fields)) + ("}" + rest)
    decreases j, 2, |names|
  {
    if names != {} {
      var k := First(names);
      var tail := WriteMembers(j, names - {k}, rest);
      MembersFrom(j, names - {k}, rest);
      MemberThen(j, k, tail);
      CommasFirst(names, Member(j.fields));
      Regroup(",", Member(j.fields)(k), Commas(Listing(names - {k}), Member(j.fields)), "}" + rest);
    }
  }

  lemma MembersThen(j: Json, rest: string)
    requires j.Obj? && j.fields.Keys != {}
    ensures var k := First(j.fields.Keys);
      Write(j, rest) ==
        "{" + Member(j.fields)(k) + Commas(Listing(j.fields.Keys - {k}), Member(j.fields)) + ("}" + rest)
    decreases j, 3
  {
    var k := First(j.fields.Keys);
    var tail := WriteMembers(j, j.fields.Keys - {k}, rest);
    MembersFrom(j, j.fields.Keys - {k}, rest);
    MemberThen(j, k, tail);
    Regroup("{", Member(j.fields)(k), Commas(Listing(j.fields.Keys - {k}), Member(j.fields)), "}" + rest);
  }

  /** The one comes before the other: as its beginning, or by the first character in which they differ. */
  predicate ComesBefore(a: string, b: string) {
    a < b || exists k :: 0 <= k < |a| && k < |b| && a[..k] == b[..k] && a[k] < b[k]
  }

  lemma OrderedListing(names: seq<string>, all: set<string>)
    requires forall n :: n in names <==> n in all
    requires forall i, j | 0 <= i < j < |names| :: ComesBefore(names[i], names[j])
    ensures names == Listing(all)
  {
    forall i, j | 0 <= i < j < |names| ensures Less(names[i], names[j]) { LessIff(names[i], names[j]); }
    IncreasingIsListing(names, all);
  }

  lemma Colon(a: string, b: string, c: string)
    ensures a + (b + ":" + c) == a + b + ":" + c
  {
  }

  lemma ListedText(m: Fields, names: seq<string>)
    requires m != map[] && names == Listing(m.Keys)
    ensures |names| > 0 && names[0] in m
    ensures Marshal(Obj(m)) ==
      "{" + Quoted(names[0]) + ":" + Marshal(m[names[0]]) + Commas(names[1..], Member(m)) + "}"
  {
    var k := First(m.Keys);
    MembersThen(Obj(m), []);
    assert names == [k] + Listing(m.Keys - {k});
    assert names[1..] == Listing(m.Keys - {k});
    assert Member(m)(k) == Quoted(k) + ":" + Marshal(m[k]);
    Colon("{", Quoted(k), Marshal(m[k]));
  }

  /**
   * The text of an object: its members in the order of their names, a name before those it begins and otherwise by the
   * first character in which they differ.
   */
  lemma ObjectText(m: Fields, names: seq<string>)
    requires m != map[] && (forall n :: n in names <==> n in m)
    requires forall i, j | 0 <= i < j < |names| :: ComesBefore(names[i], names[j])
    ensures |names| > 0 && names[0] in m
    ensures Marshal(Obj(m)) ==
      "{" + Quoted(names[0]) + ":" + Marshal(m[names[0]]) + Commas(names[1..], Member(m)) + "}"
  {
    OrderedListing(names, m.Keys);
    ListedText(m, names);
  }

  /** The text of a list: its items in order. */
  lemma ArrayText(items: seq<Json>)
    requires items != []
    ensures Marshal(Arr(items)) == "[" + Marshal(items[0]) + CommaItems(items, 1) + ("]" + "")
  {
    ItemsThen(Arr(items), []);
  }

  lemma {:induction false} StringText(s: string)
    requires forall c | c in s :: c as int >= 32 && c !in "\"\\<>&" && c as int != 0x2028 && c as int != 0x2029
    ensures Marshal(Str(s)) == "\"" + s + "\"" && Quoted(s) == "\"" + s + "\""
  {
    PlainText(s);
    StringThen(s, []);
  }

  /** A name comes before those it begins. */
  lemma PrefixFirst(a: string, x: Json, b: string, y: Json)
    requires a < b
    ensures Marshal(Obj(map[b := y, a := x])) ==
      "{" + Quoted(a) + ":" + Marshal(x) + ("," + (Quoted(b) + ":" + Marshal(y)) + "") + "}"
  {
    var m: Fields := map[b := y, a := x];
    ObjectText(m, [a, b]);
    assert [a, b][1..] == [b] && [b][1..] == [];
  }
}
