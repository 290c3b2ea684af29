/** Padded base64 in the standard alphabet (section 4 of RFC 4648), as base64.StdEncoding writes and reads it. */
module Base64 {
  import opened Base

  type Sextet = d: nat | d < 64

  function Digit(c: char): Option<Sextet> {
    if 'A' <= c <= 'Z' then Some(c as int - 'A' as int)
    else if 'a' <= c <= 'z' then Some(c as int - 'a' as int + 26)
    else if '0' <= c <= '9' then Some(c as int - '0' as int + 52)
    else if c == '+' then Some(62)
    else if c == '/' then Some(63)
    else None
  }

  function Symbol(d: Sextet): (c: char)
    ensures Digit(c) == Some(d) && c != '=' && c != '\r' && c != '\n'
  {
    if d < 26 then 'A' + d as char
    else if d < 52 then 'a' + (d - 26) as char
    else if d < 62 then '0' + (d - 52) as char
    else if d == 62 then '+'
    else '/'
  }

  function Triple(x: byte, y: byte, z: byte): string {
    [Symbol(x / 4), Symbol(x % 4 * 16 + y / 16), Symbol(y % 16 * 4 + z / 64), Symbol(z % 64)]
  }

  /** Three bytes make four symbols; one or two left over make two or three, padded. */
  function Encode(b: Bytes): string {
    if b == [] then []
    else if |b| == 1 then [Symbol(b[0] / 4), Symbol(b[0] % 4 * 16), '=', '=']
    else if |b| == 2 then [Symbol(b[0] / 4), Symbol(b[0] % 4 * 16 + b[1] / 16), Symbol(b[1] % 16 * 4), '=']
    else Triple(b[0], b[1], b[2]) + Encode(b[3..])
  }

  function First(p: Sextet, q: Sextet): byte { p * 4 + q / 16 }

  function Second(q: Sextet, r: Sextet): byte { q % 16 * 16 + r / 4 }

  function Third(r: Sextet, t: Sextet): byte { r % 4 * 64 + t }

  /** Line breaks are skipped wherever they stand. */
  function Unbroken(s: string): string {
    if s == [] then [] else (if s[0] == '\r' || s[0] == '\n' then [] else [s[0]]) + Unbroken(s[1..])
  }

  /**
   * The bytes decoded before the first error, and whether there was none. Four symbols at a time; padding ends the
   * text, and what follows it is an error, though the padded group still counts. Bits under the padding are ignored.
   */
  function DecodeGroups(s: string): (Bytes, bool) {
    if s == [] then ([], true)
    else if |s| < 4 then ([], false)
    else match (Digit(s[0]), Digit(s[1]))
      case (Some(p), Some(q)) =>
        if s[2] == '=' then (if s[3] == '=' then ([First(p, q)], |s| == 4) else ([], false))
        else (match Digit(s[2])
          case None => ([], false)
          case Some(r) =>
            if s[3] == '=' then ([First(p, q), Second(q, r)], |s| == 4)
            else match Digit(s[3])
              case None => ([], false)
              case Some(t) =>
                var (rest, ok) := DecodeGroups(s[4..]);
                ([First(p, q), Second(q, r), Third(r, t)] + rest, ok))
      case _ => ([], false)
  }

  /** base64.StdEncoding.DecodeString: the bytes, and whether there was no error. */
  function Decode(s: string): (Bytes, bool) {
    DecodeGroups(Unbroken(s))
  }

  lemma Regrouped(x: byte, y: byte, z: byte)
    ensures First(x / 4, x % 4 * 16 + y / 16) == x && First(x / 4, x % 4 * 16) == x
    ensures Second(x % 4 * 16 + y / 16, y % 16 * 4 + z / 64) == y && Second(x % 4 * 16 + y / 16, y % 16 * 4) == y
    ensures Third(y % 16 * 4 + z / 64, z % 64) == z
  {
    assert x == x / 4 * 4 + x % 4;
    assert y == y / 16 * 16 + y % 16;
    assert z == z / 64 * 64 + z % 64;
  }

  lemma DecodeTriple(x: byte, y: byte, z: byte, s: string)
    ensures DecodeGroups(Triple(x, y, z) + s) == ([x, y, z] + DecodeGroups(s).0, DecodeGroups(s).1)
  {
    Regrouped(x, y, z);
    assert (Triple(x, y, z) + s)[4..] == s;
  }

  lemma DecodeOne(x: byte)
    ensures DecodeGroups(Encode([x])) == ([x], true)
  {
    var s := Encode([x]);
    Regrouped(x, 0, 0);
    assert s == [Symbol(x / 4), Symbol(x % 4 * 16), '=', '='];
  }

  lemma DecodeTwo(x: byte, y: byte)
    ensures DecodeGroups(Encode([x, y])) == ([x, y], true)
  {
    var s := Encode([x, y]);
    Regrouped(x, y, 0);
    assert s == [Symbol(x / 4), Symbol(x % 4 * 16 + y / 16), Symbol(y % 16 * 4), '='];
  }

  lemma {:induction false} GroupsBack(b: Bytes)
    ensures DecodeGroups(Encode(b)) == (b, true)
  {
    if b == [] {
    } else if |b| == 1 {
      DecodeOne(b[0]);
      assert b == [b[0]];
    } else if |b| == 2 {
      DecodeTwo(b[0], b[1]);
      assert b == [b[0], b[1]];
    } else {
      GroupsBack(b[3..]);
      DecodeTriple(b[0], b[1], b[2], Encode(b[3..]));
      assert b == [b[0], b[1], b[2]] + b[3..];
    }
  }

  predicate OneLine(s: string) {
    forall c | c in s :: c != '\r' && c != '\n'
  }

  lemma {:induction false} NothingSkipped(s: string)
    requires OneLine(s)
    ensures Unbroken(s) == s
  {
    if s != [] {
      assert s[0] in s;
      assert forall c | c in s[1..] :: c in s;
      NothingSkipped(s[1..]);
    }
  }

  lemma {:induction false} EncodedOneLine(b: Bytes)
    ensures OneLine(Encode(b))
  {
    if |b| >= 3 { EncodedOneLine(b[3..]); }
  }

  /** Decoding gives back what was encoded, whatever its length. */
  lemma DecodeEncoded(b: Bytes)
    ensures Decode(Encode(b)) == (b, true)
  {
    GroupsBack(b);
    EncodedOneLine(b);
    NothingSkipped(Encode(b));
  }

  // ---------- other texts ----------

  lemma Regroup<T>(a: seq<T>, b: seq<T>, c: seq<T>)
    ensures a + (b + c) == a + b + c
  {
  }

  lemma NoGroups(s: string)
    ensures Encode([]) + s == s && [] + DecodeGroups(s).0 == DecodeGroups(s).0
  {
  }

  lemma SplitOff(b: Bytes, d: Bytes)
    requires |b| >= 3
    ensures [b[0], b[1], b[2]] + (b[3..] + d) == b + d
  {
    assert b == [b[0], b[1], b[2]] + b[3..];
  }

  lemma GroupThen(b: Bytes, s: string)
    requires |b| >= 3
    ensures DecodeGroups(Encode(b) + s).0 == [b[0], b[1], b[2]] + DecodeGroups(Encode(b[3..]) + s).0
    ensures DecodeGroups(Encode(b) + s).1 == DecodeGroups(Encode(b[3..]) + s).1
  {
    Regroup(Triple(b[0], b[1], b[2]), Encode(b[3..]), s);
    DecodeTriple(b[0], b[1], b[2], Encode(b[3..]) + s);
  }

  /** Whole groups decode by themselves, whatever follows. */
  lemma {:induction false} GroupsThen(b: Bytes, s: string)
    requires |b| % 3 == 0
    ensures DecodeGroups(Encode(b) + s).0 == b + DecodeGroups(s).0
    ensures DecodeGroups(Encode(b) + s).1 == DecodeGroups(s).1
  {
    if b == [] {
      NoGroups(s);
    } else {
      GroupsThen(b[3..], s);
      var d, e := DecodeGroups(s).0, DecodeGroups(Encode(b[3..]) + s).0;
      assert e == b[3..] + d;
      SplitOff(b, d);
      GroupThen(b, s);
    }
  }

  /** An illegal character, or too short a group, ends the decoding with an error; the groups before it count. */
  lemma DecodedUpTo(b: Bytes, s: string)
    requires |b| % 3 == 0 && s != [] && (|s| < 4 || Digit(s[0]).None?) && OneLine(s)
    ensures Decode(Encode(b) + s) == (b, false)
  {
    EncodedOneLine(b);
    NothingSkipped(Encode(b) + s);
    GroupsThen(b, s);
    assert b + [] == b;
  }

  // ---------- the text itself ----------

  /** Table 1 of the standard, by character codes: the capitals, the small letters, the digits, `+` and `/`. */
  lemma SymbolIs(d: Sextet)
    ensures d < 26 ==> Symbol(d) as int == 65 + d
    ensures 26 <= d < 52 ==> Symbol(d) as int == 97 + d - 26
    ensures 52 <= d < 62 ==> Symbol(d) as int == 48 + d - 52
    ensures d == 62 ==> Symbol(d) == '+'
    ensures d == 63 ==> Symbol(d) == '/'
  {
  }

  lemma Cut(n: int, q: int, r: int)
    requires n == q * 64 + r && 0 <= r < 64
    ensures n / 64 == q && n % 64 == r
  {
  }

  lemma Deeper(n: nat)
    ensures n / 4096 == n / 64 / 64 && n / 262144 == n / 64 / 64 / 64
  {
  }

  /** The four digits of a number of 24 bits. */
  lemma Sextets(n: int, p: Sextet, q: Sextet, r: Sextet, t: Sextet)
    requires n == ((p * 64 + q) * 64 + r) * 64 + t
    ensures n / 262144 == p && n / 4096 % 64 == q && n / 64 % 64 == r && n % 64 == t
  {
    Cut(n, (p * 64 + q) * 64 + r, t);
    Cut(n / 64, p * 64 + q, r);
    Cut(n / 64 / 64, p, q);
    Deeper(n);
  }

  /** The number three bytes make. */
  function Bits(x: byte, y: byte, z: byte): (n: nat)
    ensures n < 0x100_0000
  {
    (x as int) * 65536 + (y as int) * 256 + z
  }

  lemma BitsCut(x: byte, y: byte, z: byte)
    ensures var n := Bits(x, y, z);
      && n / 262144 == x / 4 && n / 4096 % 64 == x % 4 * 16 + y / 16
      && n / 64 % 64 == y % 16 * 4 + z / 64 && n % 64 == z % 64
  {
    assert x == x / 4 * 4 + x % 4 && y == y / 16 * 16 + y % 16 && z == z / 64 * 64 + z % 64;
    Sextets(Bits(x, y, z), x / 4, x % 4 * 16 + y / 16, y % 16 * 4 + z / 64, z % 64);
  }

  /** The symbols of a number of 24 bits, padding in place of the last ones when fewer than three bytes are there. */
  function Symbols(n: nat, bytes: nat): string
    requires n < 0x100_0000
  {
    [Symbol(n / 262144), Symbol(n / 4096 % 64), if bytes > 1 then Symbol(n / 64 % 64) else '=',
     if bytes > 2 then Symbol(n % 64) else '=']
  }

  /** Padded with zero bits, the bytes are cut into numbers of 24 bits, and these into symbols of 6. */
  function Grouped(b: Bytes): string {
    if b == [] then []
    else if |b| <= 3 then
      Symbols(Bits(b[0], if |b| > 1 then b[1] else 0, if |b| > 2 then b[2] else 0), |b|)
    else Symbols(Bits(b[0], b[1], b[2]), 3) + Grouped(b[3..])
  }

  lemma OneIs(x: byte)
    ensures Encode([x]) == Symbols(Bits(x, 0, 0), 1)
  {
    BitsCut(x, 0, 0);
  }

  lemma TwoIs(x: byte, y: byte)
    ensures Encode([x, y]) == Symbols(Bits(x, y, 0), 2)
  {
    BitsCut(x, y, 0);
  }

  lemma TripleIs(x: byte, y: byte, z: byte)
    ensures Triple(x, y, z) == Symbols(Bits(x, y, z), 3)
  {
    BitsCut(x, y, z);
  }

  lemma {:induction false} EncodeIs(b: Bytes)
    ensures Encode(b) == Grouped(b)
  {
    if |b| == 1 {
      OneIs(b[0]);
      assert b == [b[0]];
    } else if |b| == 2 {
      TwoIs(b[0], b[1]);
      assert b == [b[0], b[1]];
    } else if |b| >= 3 {
      TripleIs(b[0], b[1], b[2]);
      EncodeIs(b[3..]);
      if |b| == 3 { assert b[3..] == [] && Encode(b) == Triple(b[0], b[1], b[2]) + []; }
    }
  }
}
