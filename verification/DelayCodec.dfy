/**
 * The members of the durable delay queue's ZSET (internal/delay/queue.go): a JSON object of three base64 strings.
 * What scheduleRedis writes, flushDueRedis reads back, and the set merges two joins exactly when they agree.
 */
module DelayCodec {
  import opened Base
  import opened Text
  import opened Json
  import opened JsonText
  import Base64
  import Protocol

  /** A delayed join as bytes: row hash, document and message key. */
  datatype DelayedJoin = DelayedJoin(hash: Bytes, joined: Bytes, key: Bytes)

  /** json.Marshal of a delayedItem: its fields in declaration order. */
  function Member(d: DelayedJoin): string {
    "{\"h\":\"" + WriteString(Base64.Encode(d.hash),
    ",\"j\":\"" + WriteString(Base64.Encode(d.joined),
    ",\"k\":\"" + WriteString(Base64.Encode(d.key), "}")))
  }

  predicate Plain(c: char) {
    c as int >= 32 && c !in "\"\\<>&" && c as int != 0x2028 && c as int != 0x2029
  }

  lemma SymbolPlain(d: Base64.Sextet)
    ensures Plain(Base64.Symbol(d)) && Plain('=')
  {
  }

  lemma {:induction false} EncodedPlain(b: Bytes)
    ensures forall c | c in Base64.Encode(b) :: Plain(c)
  {
    forall d: Base64.Sextet ensures Plain(Base64.Symbol(d)) && Plain('=') { SymbolPlain(d); }
    if |b| >= 3 { EncodedPlain(b[3..]); }
  }

  lemma NoEscapes(b: Bytes, rest: string)
    ensures WriteString(Base64.Encode(b), rest) == Base64.Encode(b) + "\"" + rest
  {
    EncodedPlain(b);
    PlainText(Base64.Encode(b));
    StringThen(Base64.Encode(b), rest);
  }

  /** The member's text: the three texts under `h`, `j` and `k`, in this order, with nothing to escape. */
  lemma MemberIs(d: DelayedJoin)
    ensures Member(d) == "{\"h\":\"" + (Base64.Encode(d.hash) + "\"" + (",\"j\":\"" + (Base64.Encode(d.joined) + "\"" +
      (",\"k\":\"" + (Base64.Encode(d.key) + "\"" + "}")))))
  {
    NoEscapes(d.hash, ",\"j\":\"" + WriteString(Base64.Encode(d.joined),
      ",\"k\":\"" + WriteString(Base64.Encode(d.key), "}")));
    NoEscapes(d.joined, ",\"k\":\"" + WriteString(Base64.Encode(d.key), "}"));
    NoEscapes(d.key, "}");
  }

  function AsFields(d: DelayedJoin): Fields {
    map["h" := Str(Base64.Encode(d.hash)), "j" := Str(Base64.Encode(d.joined)), "k" := Str(Base64.Encode(d.key))]
  }

  /** A string field of the object; an absent one, or null, is left "". */
  function TextField(m: Fields, name: string): Option<string> {
    if name !in m || m[name] == Null then Some("")
    else if m[name].Str? then Some(m[name].s)
    else None
  }

  /** The bytes under a name; what of them is no base64 is cut off, as the decoder's error is ignored. */
  function BytesField(m: Fields, name: string): Option<Bytes> {
    match TextField(m, name) case Some(s) => Some(Base64.Decode(s).0) case None => None
  }

  function FromFields(m: Fields): Option<DelayedJoin> {
    match (BytesField(m, "h"), BytesField(m, "j"), BytesField(m, "k"))
    case (Some(hash), Some(joined), Some(key)) => Some(DelayedJoin(hash, joined, key))
    case _ => None
  }

  /** What flushDueRedis makes of a member: nothing, when it is no object or a field is no string. */
  function Parse(member: string): Option<DelayedJoin> {
    match Unmarshal(member)
    case Some(Obj(m)) => FromFields(m)
    case _ => None
  }

  /**
   * A member is dropped without an attempt exactly if it is no object, or has something other than a string or null
   * under one of the three names. A name it does not have, or has with null, stands for no bytes.
   */
  lemma ParseIs(member: string)
    ensures Parse(member).None? <==>
      !exists m: Fields | Unmarshal(member) == Some(Obj(m)) ::
        forall n | n in ["h", "j", "k"] && n in m :: m[n] == Null || m[n].Str?
    ensures forall m: Fields, d | Unmarshal(member) == Some(Obj(m)) && Parse(member) == Some(d) ::
      && d.hash == Base64.Decode(if "h" in m && m["h"].Str? then m["h"].s else "").0
      && d.joined == Base64.Decode(if "j" in m && m["j"].Str? then m["j"].s else "").0
      && d.key == Base64.Decode(if "k" in m && m["k"].Str? then m["k"].s else "").0
  {
    if Unmarshal(member).Some? && Unmarshal(member).value.Obj? {
      var m := Unmarshal(member).value.fields;
      assert "h" in ["h", "j", "k"] && "j" in ["h", "j", "k"] && "k" in ["h", "j", "k"];
    }
  }

  lemma LeastIs(k: string, names: set<string>)
    requires k in names && forall n | n in names :: n == k || Less(k, n)
    ensures First(names) == k
  {
    FirstIsFirst(names);
    FirstUnique(k, First(names), names);
  }

  lemma LettersOrdered()
    ensures Less("h", "j") && Less("h", "k") && Less("j", "k")
  {
  }

  lemma OneLetter(c: char, rest: string)
    requires c in "hjk"
    ensures WriteString([c], rest) == [c] + "\"" + rest
  {
    assert [c][1..] == [];
  }

  lemma StringMember(o: Json, c: char, tail: string)
    requires c in "hjk" && o.Obj? && [c] in o.fields && o.fields[[c]].Str?
    ensures WriteMember(o, [c], tail) == "\"" + [c] + "\":\"" + WriteString(o.fields[[c]].s, tail)
  {
    OneLetter(c, ":" + Write(o.fields[[c]], tail));
  }

  lemma EndOfObject(o: Json)
    requires o.Obj?
    ensures WriteMembers(o, {}, []) == "}"
  {
  }

  lemma OnlyMember(o: Json, k: string)
    requires o.Obj? && k in o.fields
    ensures WriteMembers(o, {k}, []) == "," + WriteMember(o, k, "}")
  {
    LeastIs(k, {k});
    assert {k} - {k} == {};
    EndOfObject(o);
  }

  lemma Separated(member: string, c: char, rest: string)
    requires member == "\"" + [c] + "\":\"" + rest
    ensures "," + member == ",\"" + [c] + "\":\"" + rest
  {
  }

  lemma LastMember(o: Json)
    requires o.Obj? && "k" in o.fields && o.fields["k"].Str?
    ensures WriteMembers(o, {"k"}, []) == ",\"k\":\"" + WriteString(o.fields["k"].s, "}")
  {
    OnlyMember(o, "k");
    StringMember(o, 'k', "}");
    Separated(WriteMember(o, "k", "}"), 'k', WriteString(o.fields["k"].s, "}"));
  }

  lemma MiddleMember(o: Json)
    requires o.Obj? && "j" in o.fields && o.fields["j"].Str? && "k" in o.fields
    ensures WriteMembers(o, {"j", "k"}, []) == ",\"j\":\"" + WriteString(o.fields["j"].s, WriteMembers(o, {"k"}, []))
  {
    LettersOrdered();
    LeastIs("j", {"j", "k"});
    assert {"j", "k"} - {"j"} == {"k"};
    StringMember(o, 'j', WriteMembers(o, {"k"}, []));
  }

  lemma FirstMember(o: Json)
    requires o.Obj? && o.fields.Keys == {"h", "j", "k"} && o.fields["h"].Str?
    ensures Marshal(o) == "{\"h\":\"" + WriteString(o.fields["h"].s, WriteMembers(o, {"j", "k"}, []))
  {
    LettersOrdered();
    LeastIs("h", {"h", "j", "k"});
    assert {"h", "j", "k"} - {"h"} == {"j", "k"};
    StringMember(o, 'h', WriteMembers(o, {"j", "k"}, []));
  }

  /** The declaration order h, j, k is also the order of a map's names, so the member is a map's text too. */
  lemma MemberIsObject(d: DelayedJoin)
    ensures Member(d) == Marshal(Obj(AsFields(d)))
  {
    var o := Obj(AsFields(d));
    FirstMember(o);
    MiddleMember(o);
    LastMember(o);
  }

  lemma FieldsBack(d: DelayedJoin)
    ensures FromFields(AsFields(d)) == Some(d)
  {
    Base64.DecodeEncoded(d.hash);
    Base64.DecodeEncoded(d.joined);
    Base64.DecodeEncoded(d.key);
    assert BytesField(AsFields(d), "h") == Some(d.hash);
    assert BytesField(AsFields(d), "j") == Some(d.joined);
    assert BytesField(AsFields(d), "k") == Some(d.key);
  }

  lemma ParseObject(member: string, m: Fields)
    requires Unmarshal(member) == Some(Obj(m))
    ensures Parse(member) == FromFields(m)
  {
  }

  /** Three byte strings of any length come back as they went in. */
  lemma ParseMember(d: DelayedJoin)
    ensures Parse(Member(d)) == Some(d)
  {
    MemberIsObject(d);
    ReadBack(Obj(AsFields(d)));
    FieldsBack(d);
    ParseObject(Member(d), AsFields(d));
  }

  function DelayedOf(item: Protocol.Item, utf8: string -> Bytes): DelayedJoin {
    DelayedJoin(item.hash, utf8(item.text), item.msgKey)
  }

  ghost predicate Faithful(utf8: string -> Bytes) {
    forall a, b :: utf8(a) == utf8(b) ==> a == b
  }

  /** ZADD replaces a pending join instead of adding one exactly when hash, document and message key all agree. */
  lemma MergesIff(a: Protocol.Item, b: Protocol.Item, utf8: string -> Bytes)
    requires Faithful(utf8)
    ensures Member(DelayedOf(a, utf8)) == Member(DelayedOf(b, utf8)) <==> Protocol.SameMember(a, b)
  {
    ParseMember(DelayedOf(a, utf8));
    ParseMember(DelayedOf(b, utf8));
  }
}
