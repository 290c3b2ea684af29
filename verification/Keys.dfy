/**
 * Join keys (internal/keys/hash.go, and the key half of Handler.extractKey). A raw key is a text; its hash is
 * `sha` of that text, a parameter here.
 */
module Keys {
  import opened Base
  import opened Text
  import opened Json
  import opened JsonText

  /** The listed fields that the event has, with the event's values: what a composite key is made of. */
  function Restrict(fields: seq<string>, values: Fields): Fields {
    map f | f in fields && f in values :: values[f]
  }

  function RawComposite(m: Fields): string {
    if m == map[] then "" else Marshal(Obj(m))
  }

  // ---------- sort.Strings ----------

  function Insert(x: string, sorted: seq<string>): (r: seq<string>)
    ensures forall n :: n in r <==> n == x || n in sorted
  {
    if sorted == [] || Less(x, sorted[0]) then [x] + sorted else [sorted[0]] + Insert(x, sorted[1..])
  }

  lemma {:induction false} InsertIncreasing(x: string, sorted: seq<string>)
    requires Increasing(sorted) && x !in sorted
    ensures Increasing(Insert(x, sorted))
  {
    if sorted == [] {
    } else if Less(x, sorted[0]) {
      forall j | 0 < j < |sorted| ensures Less(x, sorted[j]) { LessTransitive(x, sorted[0], sorted[j]); }
    } else {
      LessTotal(x, sorted[0]);
      InsertIncreasing(x, sorted[1..]);
      var r := Insert(x, sorted[1..]);
      forall j | 0 <= j < |r| ensures Less(sorted[0], r[j]) {
        assert r[j] in r;
      }
    }
  }

  lemma {:induction false} NamesCount(names: seq<string>)
    requires forall i, j | 0 <= i < j < |names| :: names[i] != names[j]
    ensures |set n | n in names| == |names|
  {
    if names != [] {
      var init, last := names[..|names| - 1], names[|names| - 1];
      NamesCount(init);
      assert (set n | n in names) == (set n | n in init) + {last};
    }
  }

  /** sort.Strings on the duplicate-free names of a map: the one increasing listing of them. */
  method SortStrings(names: seq<string>) returns (sorted: seq<string>)
    requires forall i, j | 0 <= i < j < |names| :: names[i] != names[j]
    ensures sorted == Listing(set n | n in names)
    ensures |sorted| == |names| && forall n :: n in sorted <==> n in names
    ensures forall i, j | 0 <= i < j < |sorted| :: ComesBefore(sorted[i], sorted[j])
  {
    sorted := [];
    for i := 0 to |names|
      invariant Increasing(sorted)
      invariant forall n :: n in sorted <==> n in names[..i]
    {
      InsertIncreasing(names[i], sorted);
      sorted := Insert(names[i], sorted);
    }
    assert names[..|names|] == names;
    IncreasingIsListing(sorted, set n | n in names);
    NamesCount(names);
    forall i, j | 0 <= i < j < |sorted| ensures ComesBefore(sorted[i], sorted[j]) { LessIff(sorted[i], sorted[j]); }
  }

  /** The keys of a map, in whatever order `range` yields them. */
  method Names(m: Fields) returns (names: seq<string>)
    ensures forall i, j | 0 <= i < j < |names| :: names[i] != names[j]
    ensures (set n | n in names) == m.Keys
  {
    names := [];
    var todo := m.Keys;
    while todo != {}
      invariant todo <= m.Keys
      invariant forall n :: n in names <==> n in m && n !in todo
      invariant forall i, j | 0 <= i < j < |names| :: names[i] != names[j]
      decreases |todo|
    {
      var k :| k in todo;
      assert k !in names;
      names, todo := names + [k], todo - {k};
    }
  }

  method CopyInOrder(m: Fields, names: seq<string>) returns (out: Fields)
    requires forall n :: n in names <==> n in m
    ensures out == m
  {
    out := map[];
    for i := 0 to |names|
      invariant out.Keys == set n | n in names[..i]
      invariant forall n | n in out :: n in m && out[n] == m[n]
    {
      assert names[i] in names;
      out := out[names[i] := m[names[i]]];
    }
    assert names[..|names|] == names;
  }

  /** These are the names, each before the next: as its beginning, or by the first character in which they differ. */
  ghost predicate InOrder(names: seq<string>, all: set<string>) {
    && |names| == |all| && (forall n :: n in names <==> n in all)
    && forall i, j | 0 <= i < j < |names| :: ComesBefore(names[i], names[j])
  }

  /** The text is that of the object with these members in this order. */
  predicate Spells(m: Fields, names: seq<string>, raw: string) {
    names != [] && names[0] in m &&
    raw == "{" + Quoted(names[0]) + ":" + Marshal(m[names[0]]) + Commas(names[1..], Member(m)) + "}"
  }

  lemma CompositeText(m: Fields, names: seq<string>)
    requires m != map[] && InOrder(names, m.Keys)
    ensures Spells(m, names, RawComposite(m))
  {
    ObjectText(m, names);
  }

  /** Two composite keys are the same text exactly when the listed fields present, and their values, agree. */
  lemma CompositeKeyUnambiguous(a: Fields, b: Fields)
    ensures RawComposite(a) == RawComposite(b) <==> a == b
    ensures RawComposite(a) == "" <==> a == map[]
  {
    if RawComposite(a) == RawComposite(b) && a != map[] && b != map[] {
      MarshalInjective(Obj(a), Obj(b));
    }
  }

  lemma CompositeSpelt(m: Fields)
    ensures RawComposite(m) == "" <==> m == map[]
    ensures m != map[] ==> forall names | InOrder(names, m.Keys) :: Spells(m, names, RawComposite(m))
  {
    CompositeKeyUnambiguous(m, m);
    if m != map[] {
      forall names | InOrder(names, m.Keys) ensures Spells(m, names, RawComposite(m)) { CompositeText(m, names); }
    }
  }

  /** serializeComposite: names collected in whatever order the map yields them, sorted, and copied over. */
  method SerializeComposite(m: Fields) returns (raw: string)
    ensures raw == RawComposite(m)
    ensures raw == "" <==> m == map[]
    ensures m != map[] ==> forall names | InOrder(names, m.Keys) :: Spells(m, names, raw)
  {
    CompositeSpelt(m);
    if |m| == 0 {
      return "";
    }
    var names := Names(m);
    names := SortStrings(names);
    var out := CopyInOrder(m, names);
    raw := Marshal(Obj(out));
  }

  /** CompositeKey: a non-empty single value is its own raw key. */
  method CompositeKey(single: string, composite: Fields, sha: string -> Bytes) returns (hash: Bytes, raw: string)
    ensures raw == if single != "" then single else RawComposite(composite)
    ensures hash == sha(raw)
  {
    if single != "" {
      return sha(single), single;
    }
    raw := SerializeComposite(composite);
    hash := sha(raw);
  }

  method KeyFromFields(fields: seq<string>, values: Fields, sha: string -> Bytes) returns (hash: Bytes, raw: string)
    ensures raw == RawComposite(Restrict(fields, values))
    ensures hash == sha(raw)
  {
    var m: Fields := map[];
    for i := 0 to |fields|
      invariant m == Restrict(fields[..i], values)
    {
      if fields[i] in values {
        m := m[fields[i] := values[fields[i]]];
      }
    }
    assert fields[..|fields|] == fields;
    hash, raw := CompositeKey("", m, sha);
  }

  // ---------- what a key identifies ----------

  /** The Go type assertion `v, _ := m[field].(string)`: anything but a present string reads as "". */
  function FieldText(field: string, values: Fields): string {
    if field in values && values[field].Str? then values[field].s else ""
  }

  /** The key a processor configured with `field`, or else with `fields`, gives an event. */
  function RawKey(field: string, fields: seq<string>, values: Fields): string {
    if field != "" then FieldText(field, values) else RawComposite(Restrict(fields, values))
  }

  /** A composite key depends only on which fields are listed, not on their order or repetition. */
  lemma KeyIgnoresFieldOrder(fields: seq<string>, others: seq<string>, values: Fields)
    requires forall f :: f in fields <==> f in others
    ensures RawComposite(Restrict(fields, values)) == RawComposite(Restrict(others, values))
  {
    assert Restrict(fields, values) == Restrict(others, values);
  }

  predicate Collide(field: string, fields: seq<string>, a: Fields, b: Fields) {
    if field != "" then FieldText(field, a) == FieldText(field, b) else Restrict(fields, a) == Restrict(fields, b)
  }

  ghost predicate Injective(sha: string -> Bytes) {
    forall a, b :: sha(a) == sha(b) ==> a == b
  }

  /** With a collision-free hash, two events share a row exactly when their key fields agree. */
  lemma SameRowIff(field: string, fields: seq<string>, a: Fields, b: Fields, sha: string -> Bytes)
    requires Injective(sha)
    ensures sha(RawKey(field, fields, a)) == sha(RawKey(field, fields, b)) <==> Collide(field, fields, a, b)
  {
    CompositeKeyUnambiguous(Restrict(fields, a), Restrict(fields, b));
  }
}
