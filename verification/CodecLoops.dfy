/** The builder object and the parser's loop, each proved against the functions of Codec. */
module CodecLoops {
  import opened Decimal
  import opened Codec

  /** Builder.Set on a field list: replace the first occurrence, or append. */
  function SetField(fs: seq<Field>, tag: nat, value: string): seq<Field> {
    if fs == [] then [Field(tag, value)]
    else if fs[0].tag == tag then [Field(tag, value)] + fs[1..]
    else [fs[0]] + SetField(fs[1..], tag, value)
  }

  function Header(msgType: string, sender: string, target: string, seqNum: int, time: string): seq<Field> {
    [Field(35, msgType), Field(49, sender), Field(56, target), Field(34, Itoa(seqNum)), Field(52, time)]
  }

  function Count(fs: seq<Field>, tag: nat): nat {
    if fs == [] then 0 else (if fs[0].tag == tag then 1 else 0) + Count(fs[1..], tag)
  }

  lemma {:induction false} GetCons(f: Field, fs: seq<Field>, tag: nat)
    ensures Get([f] + fs, tag) == if HasTag(fs, tag) then Get(fs, tag) else if f.tag == tag then f.value else ""
    ensures !HasTag(fs, tag) ==> Get(fs, tag) == ""
  {
    if fs == [] {
      assert [f] + fs == [f] && [f][..0] == [];
    } else {
      var n := |fs| - 1;
      assert ([f] + fs)[..n + 1] == [f] + fs[..n];
      GetCons(f, fs[..n], tag);
      if fs[n].tag != tag && HasTag(fs, tag) {
        var i :| 0 <= i < |fs| && fs[i].tag == tag;
        assert fs[..n][i].tag == tag;
      }
      if HasTag(fs[..n], tag) {
        var i :| 0 <= i < n && fs[..n][i].tag == tag;
        assert fs[i].tag == tag;
      }
    }
  }

  /** Set is a map update: the tag reads as the new value unless it occurs twice, in which case the
      later occurrence still shadows it; every other tag reads as before. */
  lemma {:induction false} SetThenGet(fs: seq<Field>, tag: nat, value: string, other: nat)
    ensures Get(SetField(fs, tag, value), other)
            == if other == tag && Count(fs, tag) <= 1 then value else Get(fs, other)
    ensures HasTag(SetField(fs, tag, value), other) <==> other == tag || HasTag(fs, other)
  {
    if fs == [] {
      GetCons(Field(tag, value), [], other);
      assert [Field(tag, value)] + [] == [Field(tag, value)];
      if other == tag { assert [Field(tag, value)][0].tag == tag; }
    } else {
      var f, rest := fs[0], fs[1..];
      assert fs == [f] + rest;
      GetCons(f, rest, other);
      HasCons(f, rest, other);
      CountHas(rest, tag);
      if f.tag == tag {
        GetCons(Field(tag, value), rest, other);
        HasCons(Field(tag, value), rest, other);
      } else {
        SetThenGet(rest, tag, value, other);
        GetCons(f, SetField(rest, tag, value), other);
        HasCons(f, SetField(rest, tag, value), other);
      }
    }
  }

  lemma HasCons(f: Field, fs: seq<Field>, tag: nat)
    ensures HasTag([f] + fs, tag) <==> f.tag == tag || HasTag(fs, tag)
  {
    var s := [f] + fs;
    if HasTag(fs, tag) {
      var i :| 0 <= i < |fs| && fs[i].tag == tag;
      assert s[i + 1].tag == tag;
    }
    if f.tag == tag { assert s[0].tag == tag; }
    if HasTag(s, tag) && f.tag != tag {
      var i :| 0 <= i < |s| && s[i].tag == tag;
      assert fs[i - 1].tag == tag;
    }
  }

  lemma {:induction false} CountHas(fs: seq<Field>, tag: nat)
    ensures HasTag(fs, tag) <==> Count(fs, tag) > 0
  {
    if fs != [] {
      CountHas(fs[1..], tag);
      assert fs == [fs[0]] + fs[1..];
      HasCons(fs[0], fs[1..], tag);
    }
  }

  class Builder {
    var fields: seq<Field>

    constructor (msgType: string, sender: string, target: string, seqNum: int, time: string)
      ensures fields == Header(msgType, sender, target, seqNum, time)
    {
      fields := [];
      new;
      SetNew(fields, 35, msgType);
      Set(35, msgType);
      SetNew(fields, 49, sender);
      Set(49, sender);
      SetNew(fields, 56, target);
      Set(56, target);
      SetNew(fields, 34, Itoa(seqNum));
      Set(34, Itoa(seqNum));
      SetNew(fields, 52, time);
      Set(52, time);
    }

    method Set(tag: nat, value: string)
      modifies this
      ensures fields == SetField(old(fields), tag, value)
    {
      var i := 0;
      while i < |fields|
        invariant 0 <= i <= |fields| && fields == old(fields)
        invariant SetField(fields, tag, value) == fields[..i] + SetField(fields[i..], tag, value)
      {
        if fields[i].tag == tag {
          fields := fields[i := Field(tag, value)];
          return;
        }
        assert fields[i..][1..] == fields[i + 1..];
        assert fields[..i] + [fields[i]] == fields[..i + 1];
        i := i + 1;
      }
      fields := fields + [Field(tag, value)];
    }

    method Append(tag: nat, value: string)
      modifies this
      ensures fields == old(fields) + [Field(tag, value)]
    {
      fields := fields + [Field(tag, value)];
    }

    /** Serialises the non-empty fields, then frames them with length and checksum. */
    method Build() returns (frame: string)
      ensures frame == Codec.Build(fields)
    {
      var body := Body();
      var prefix := Prefix(body);
      var sum := CheckSum(prefix + body);
      frame := prefix + body + Print(Field(TAG_CHECK_SUM, Three(sum)));
    }

    method Body() returns (body: string)
      ensures body == Serialize(NonEmpty(fields))
    {
      body := "";
      var i := 0;
      while i < |fields|
        invariant 0 <= i <= |fields|
        invariant Serialize(NonEmpty(fields)) == body + Serialize(NonEmpty(fields[i..]))
      {
        NonEmptyStep(fields[i..]);
        assert fields[i..][1..] == fields[i + 1..];
        if fields[i].value != "" {
          var text := Print(fields[i]);
          Assoc(body, text, Serialize(NonEmpty(fields[i + 1..])));
          body := body + text;
        }
        i := i + 1;
      }
    }
  }

  lemma {:induction false} SetNew(fs: seq<Field>, tag: nat, value: string)
    requires !HasTag(fs, tag)
    ensures SetField(fs, tag, value) == fs + [Field(tag, value)]
  {
    if fs != [] {
      assert fs == [fs[0]] + fs[1..];
      HasCons(fs[0], fs[1..], tag);
      SetNew(fs[1..], tag, value);
    }
  }

  lemma NonEmptyStep(fs: seq<Field>)
    requires fs != []
    ensures Serialize(NonEmpty(fs))
            == (if fs[0].value == "" then "" else Print(fs[0])) + Serialize(NonEmpty(fs[1..]))
  {
    assert fs[0].value != "" ==> ([fs[0]] + NonEmpty(fs[1..]))[1..] == NonEmpty(fs[1..]);
  }

  method CheckSum(s: string) returns (c: nat)
    ensures c == Sum(s) % 256
  {
    var sum: nat := 0;
    var i := 0;
    while i < |s|
      invariant 0 <= i <= |s| && sum == Sum(s[..i])
    {
      assert s[..i + 1][..i] == s[..i];
      sum := sum + s[i] as nat;
      i := i + 1;
    }
    assert s[..|s|] == s;
    c := sum % 256;
  }

  /** One field up to its SOH. */
  method NextField(input: string) returns (r: RawField)
    ensures r == ReadField(input)
  {
    var idx := 0;
    while idx < |input| && input[idx] != SOH
      invariant 0 <= idx <= IndexOf(input, SOH)
    {
      idx := idx + 1;
    }
    if idx == |input| { return NoField; }
    match ParseTagValue(input[..idx])
    case None => r := BadField(input[idx + 1..]);
    case Some(f) => r := RawField(f, input[idx + 1..]);
  }

  method NextTaken(data: string) returns (r: Option<(seq<Field>, string)>)
    ensures r == TakeField(data)
  {
    var next := NextField(data);
    if !next.RawField? { return None; }
    if DataTag(next.f.tag) == 0 { return Some(([next.f], next.rest)); }
    match ParseData(next.f, next.rest)
    case None => r := None;
    case Some((d, after)) => r := Some(([next.f, d], after));
  }

  /** parseFields: consume the body field by field, data fields by their announced length. */
  method ReadFields(data: string) returns (r: Option<seq<Field>>)
    ensures r == ParseFields(data)
  {
    var fields: seq<Field> := [];
    var remaining := data;
    PrependEmpty(ParseFields(data));
    while remaining != ""
      invariant ParseFields(data) == Prepend(fields, ParseFields(remaining))
      decreases |remaining|
    {
      var next := NextTaken(remaining);
      if next.None? { return None; }
      PrependTwice(fields, next.value.0, ParseFields(next.value.1));
      fields, remaining := fields + next.value.0, next.value.1;
    }
    PrependEmpty(Some(fields));
    r := Some(fields);
  }

  lemma PrependEmpty(r: Option<seq<Field>>)
    ensures Prepend([], r) == r
    ensures r.Some? ==> Prepend(r.value, Some([])) == r
  {
    if r.Some? { assert [] + r.value == r.value && r.value + [] == r.value; }
  }

  lemma PrependTwice(a: seq<Field>, b: seq<Field>, r: Option<seq<Field>>)
    ensures Prepend(a, Prepend(b, r)) == Prepend(a + b, r)
  {
    if r.Some? { assert a + (b + r.value) == (a + b) + r.value; }
  }
}
