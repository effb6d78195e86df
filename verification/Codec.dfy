/** FIX 4.4 tag=value frames: the builder, the parser, and the proof that each undoes the other. */
module Codec {
  import opened Decimal

  const SOH: char := 1 as char
  const TAG_BEGIN_STRING := 8
  const TAG_BODY_LENGTH := 9
  const TAG_CHECK_SUM := 10
  const TAG_MSG_TYPE := 35
  const BEGIN_STRING: string := "FIX.4.4"
  const DEFAULT_MAX_BODY := 1_048_576

  datatype Field = Field(tag: nat, value: string)

  /** The ordered fields of a message; Message.Fields is derived by Get. */
  type Message = seq<Field>

  /** Message.Fields[tag]: filled in order, so the last occurrence wins; "" when absent. */
  function Get(m: Message, tag: nat): string {
    if m == [] then ""
    else if m[|m| - 1].tag == tag then m[|m| - 1].value
    else Get(m[..|m| - 1], tag)
  }

  function GetInt(m: Message, tag: nat): int {
    match Atoi(Get(m, tag)) case None => 0 case Some(n) => n
  }

  /** lengthDataTags: the data tag announced by a length tag, 0 when the tag announces none. */
  function DataTag(tag: nat): nat {
    match tag
    case 90 => 91 case 93 => 89 case 95 => 96 case 212 => 213
    case 348 => 349 case 350 => 351 case 352 => 353 case 354 => 355
    case 356 => 357 case 358 => 359 case 360 => 361 case 362 => 363
    case 364 => 365 case 445 => 446 case 618 => 619 case 621 => 622
    case _ => 0
  }

  // ── Printing ───────────────────────────────────────────────────────────────

  function Print(f: Field): string {
    Itoa(f.tag) + "=" + f.value + [SOH]
  }

  function Serialize(fs: seq<Field>): string {
    if fs == [] then "" else Print(fs[0]) + Serialize(fs[1..])
  }

  function NonEmpty(fs: seq<Field>): seq<Field> {
    if fs == [] then []
    else if fs[0].value == "" then NonEmpty(fs[1..])
    else [fs[0]] + NonEmpty(fs[1..])
  }

  function Sum(s: string): nat {
    if s == "" then 0 else Sum(s[..|s| - 1]) + s[|s| - 1] as nat
  }

  /** %03d of a checksum. */
  function Three(c: nat): (s: string)
    requires c < 256
    ensures |s| == 3 && AllDigits(s)
  {
    [Digit(c / 100), Digit(c / 10 % 10), Digit(c % 10)]
  }

  function LengthField(body: string): Field {
    Field(TAG_BODY_LENGTH, Itoa(|body|))
  }

  function Prefix(body: string): string {
    Print(Field(TAG_BEGIN_STRING, BEGIN_STRING)) + Print(LengthField(body))
  }

  function SumField(body: string): Field {
    Field(TAG_CHECK_SUM, Three(Sum(Prefix(body) + body) % 256))
  }

  /** 8=FIX.4.4, 9=length, the non-empty fields, 10=checksum. */
  function Build(fs: seq<Field>): string {
    var body := Serialize(NonEmpty(fs));
    Prefix(body) + body + Print(SumField(body))
  }

  // ── Parsing ────────────────────────────────────────────────────────────────

  /** Position of the first c, or |s| when there is none. */
  function IndexOf(s: string, c: char): (i: nat)
    ensures i <= |s|
    ensures forall k :: 0 <= k < i ==> s[k] != c
    ensures i < |s| ==> s[i] == c
  {
    if s == "" || s[0] == c then 0 else 1 + IndexOf(s[1..], c)
  }

  /** tag=value: the tag a positive integer without sign or leading zeros; the value may be empty. */
  function ParseTagValue(pair: string): Option<Field> {
    var eq := IndexOf(pair, '=');
    if eq == |pair| then None
    else
      var tagText := pair[..eq];
      if !AllDigits(tagText) || tagText[0] == '0' then None
      else
        match Atoi(tagText)
        case None => None
        case Some(tag) => if tag < 0 then None else Some(Field(tag, pair[eq + 1..]))
  }

  /** The data field that must follow length field f, and the text after it. */
  function ParseData(f: Field, rest: string): (r: Option<(Field, string)>)
    ensures r.Some? ==> |r.value.1| < |rest|
  {
    var prefix := Itoa(DataTag(f.tag)) + "=";
    match Atoi(f.value)
    case None => None
    case Some(n) =>
      if n < 0 || !(prefix <= rest) then None
      else
        var data := rest[|prefix|..];
        if n >= |data| || data[n] != SOH then None
        else Some((Field(DataTag(f.tag), data[..n]), data[n + 1..]))
  }

  /** One field, or a length field together with the data field it announces. */
  function TakeField(data: string): (r: Option<(seq<Field>, string)>)
    ensures r.Some? ==> |r.value.1| < |data|
  {
    match ReadField(data)
    case NoField => None
    case BadField(_) => None
    case RawField(f, rest) =>
      if DataTag(f.tag) == 0 then Some(([f], rest))
      else
        match ParseData(f, rest)
        case None => None
        case Some((d, after)) => Some(([f, d], after))
  }

  function ParseFields(data: string): Option<seq<Field>>
    decreases |data|
  {
    if data == "" then Some([])
    else
      match TakeField(data)
      case None => None
      case Some((taken, rest)) => Prepend(taken, ParseFields(rest))
  }

  function Prepend(fs: seq<Field>, r: Option<seq<Field>>): Option<seq<Field>> {
    match r case None => None case Some(gs) => Some(fs + gs)
  }

  /** What reading one frame yields: a message, a well-framed message with another BeginString,
      a garbled frame, or the end of the input; rest is the unread input. */
  datatype Read =
    | Received(msg: Message, rest: string)
    | OtherVersion(msg: Message, rest: string)
    | Garbled(rest: string)
    | Incomplete

  datatype RawField = RawField(f: Field, rest: string) | BadField(rest: string) | NoField

  function ReadField(input: string): (r: RawField)
    ensures r.RawField? ==> |r.rest| < |input|
  {
    var idx := IndexOf(input, SOH);
    if idx == |input| then NoField
    else
      match ParseTagValue(input[..idx])
      case None => BadField(input[idx + 1..])
      case Some(f) => RawField(f, input[idx + 1..])
  }

  function ReadMessage(max: nat, input: string): Read {
    match ReadField(input)
    case NoField => Incomplete
    case BadField(rest) => Garbled(rest)
    case RawField(begin, rest) =>
      if begin.tag != TAG_BEGIN_STRING || !("FIX" <= begin.value) then Garbled(rest) else ReadLength(max, begin, rest)
  }

  function ReadLength(max: nat, begin: Field, input: string): Read {
    match ReadField(input)
    case NoField => Incomplete
    case BadField(rest) => Garbled(rest)
    case RawField(length, rest) =>
      if length.tag != TAG_BODY_LENGTH || !AllDigits(length.value) then Garbled(rest)
      else
        match Atoi(length.value)
        case None => Garbled(rest)
        case Some(n) =>
          if n <= 0 || n > max then Garbled(rest)
          else if n > |rest| then Incomplete
          else ReadBody(begin, length, rest[..n], rest[n..])
  }

  function ReadBody(begin: Field, length: Field, body: string, rest: string): Read
    requires body != ""
  {
    if body[|body| - 1] != SOH then Garbled(rest)
    else
      match ParseFields(body)
      case None => Garbled(rest)
      case Some(fs) =>
        if fs == [] || fs[0].tag != TAG_MSG_TYPE || HasTag(fs, TAG_CHECK_SUM) then Garbled(rest)
        else
          match ReadField(rest)
          case NoField => Incomplete
          case BadField(after) => Garbled(after)
          case RawField(sum, after) =>
            if sum.tag != TAG_CHECK_SUM || |sum.value| != 3 || !AllDigits(sum.value)
               || Value(sum.value) != Sum(Print(begin) + Print(length) + body) % 256 then Garbled(after)
            else
              var msg := [begin, length] + fs + [sum];
              if begin.value != BEGIN_STRING then OtherVersion(msg, after) else Received(msg, after)
  }

  predicate HasTag(fs: seq<Field>, tag: nat) {
    exists i :: 0 <= i < |fs| && fs[i].tag == tag
  }

  // ── What can be carried ────────────────────────────────────────────────────

  predicate NoSOH(s: string) {
    forall i :: 0 <= i < |s| ==> s[i] != SOH
  }

  /** Field lists that survive the wire: tags are positive int64s, SOH occurs only inside the data
      field that directly follows its length field, and every length field announces such a field. */
  predicate Carriable(fs: seq<Field>) {
    fs == [] ||
    (1 <= fs[0].tag <= MAX_INT64 && NoSOH(fs[0].value) &&
     if DataTag(fs[0].tag) == 0 then Carriable(fs[1..])
     else
       |fs| >= 2 && fs[1].tag == DataTag(fs[0].tag) && Atoi(fs[0].value) == Some(|fs[1].value|)
       && Carriable(fs[2..]))
  }

  /** Builder fields whose frame a parser limited to max body bytes reads back. */
  predicate Sendable(max: nat, fs: seq<Field>) {
    var kept := NonEmpty(fs);
    Carriable(kept) && kept != [] && kept[0].tag == TAG_MSG_TYPE && !HasTag(kept, TAG_CHECK_SUM)
    && |Serialize(kept)| <= max
  }

  /** The message a parser reads from Build(fs). */
  function Wire(fs: seq<Field>): Message {
    var kept := NonEmpty(fs);
    var body := Serialize(kept);
    [Field(TAG_BEGIN_STRING, BEGIN_STRING), LengthField(body)] + kept + [SumField(body)]
  }

  // ── Lemmas: one field ──────────────────────────────────────────────────────

  lemma {:induction false} IndexOfFirst(a: string, c: char, b: string)
    requires forall k :: 0 <= k < |a| ==> a[k] != c
    ensures IndexOf(a + [c] + b, c) == |a|
  {
    var s := a + [c] + b;
    assert s[|a|] == c;
    assert forall k :: 0 <= k < |a| ==> s[k] == a[k];
  }

  lemma ParsePrintedPair(f: Field)
    requires 1 <= f.tag <= MAX_INT64
    ensures ParseTagValue(Itoa(f.tag) + "=" + f.value) == Some(f)
  {
    var t := Itoa(f.tag);
    ValueOfText(f.tag);
    AtoiOfItoa(f.tag);
    assert forall k :: 0 <= k < |t| ==> IsDigit(t[k]) && t[k] != '=';
    IndexOfFirst(t, '=', f.value);
    var pair := t + "=" + f.value;
    assert pair[..|t|] == t && pair[|t| + 1..] == f.value;
  }

  lemma ParsedPairPrints(pair: string, f: Field)
    requires ParseTagValue(pair) == Some(f)
    ensures Itoa(f.tag) + "=" + f.value == pair
    ensures 1 <= f.tag <= MAX_INT64
  {
    var eq := IndexOf(pair, '=');
    var t := pair[..eq];
    TextOfValue(t);
    assert pair == t + [pair[eq]] + pair[eq + 1..];
    assert f.tag == Value(t);
    assert Text(0) == ['0'];
  }

  lemma ReadPrintedField(f: Field, rest: string)
    requires 1 <= f.tag <= MAX_INT64 && NoSOH(f.value)
    ensures ReadField(Print(f) + rest) == RawField(f, rest)
  {
    var pair := Itoa(f.tag) + "=" + f.value;
    var t := Itoa(f.tag);
    assert forall k :: 0 <= k < |t| ==> IsDigit(t[k]) && t[k] != SOH;
    IndexOfFirst(pair, SOH, rest);
    ParsePrintedPair(f);
    var input := Print(f) + rest;
    assert input == pair + [SOH] + rest;
    assert input[..|pair|] == pair && input[|pair| + 1..] == rest;
  }

  lemma ReadFieldExact(input: string, f: Field, rest: string)
    requires ReadField(input) == RawField(f, rest)
    ensures input == Print(f) + rest
    ensures 1 <= f.tag <= MAX_INT64 && NoSOH(f.value)
  {
    var idx := IndexOf(input, SOH);
    ParsedPairPrints(input[..idx], f);
    assert input == input[..idx] + [SOH] + input[idx + 1..];
    assert NoSOH(f.value) by {
      forall i | 0 <= i < |f.value| ensures f.value[i] != SOH {
        assert f.value[i] == input[..idx][|Itoa(f.tag)| + 1 + i];
      }
    }
  }

  // ── Lemmas: a body ─────────────────────────────────────────────────────────

  lemma ParsePrintedData(f: Field, d: Field, rest: string)
    requires DataTag(f.tag) != 0 && d.tag == DataTag(f.tag) && Atoi(f.value) == Some(|d.value|)
    ensures ParseData(f, Print(d) + rest) == Some((d, rest))
  {
    var prefix := Itoa(d.tag) + "=";
    var text := Print(d) + rest;
    assert text == prefix + (d.value + [SOH] + rest);
    assert text[..|prefix|] == prefix;
    var data := text[|prefix|..];
    assert data == d.value + [SOH] + rest;
    assert data[..|d.value|] == d.value && data[|d.value| + 1..] == rest;
  }

  lemma ParsedDataPrints(f: Field, text: string, d: Field, rest: string)
    requires ParseData(f, text) == Some((d, rest))
    ensures text == Print(d) + rest
    ensures d.tag == DataTag(f.tag) && Atoi(f.value) == Some(|d.value|)
  {
    var prefix := Itoa(DataTag(f.tag)) + "=";
    var data := text[|prefix|..];
    assert text == prefix + data;
    assert data == d.value + [SOH] + rest;
    Assoc(prefix, d.value + [SOH], rest);
    Assoc(prefix, d.value, [SOH]);
  }

  lemma TakePrinted(fs: seq<Field>)
    requires fs != [] && Carriable(fs)
    ensures TakeField(Serialize(fs))
            == if DataTag(fs[0].tag) == 0 then Some((fs[..1], Serialize(fs[1..])))
               else Some((fs[..2], Serialize(fs[2..])))
  {
    assert fs[..1] == [fs[0]] && (|fs| > 1 ==> fs[..2] == [fs[0], fs[1]]);
    ReadPrintedField(fs[0], Serialize(fs[1..]));
    if DataTag(fs[0].tag) != 0 {
      assert fs[1..][1..] == fs[2..];
      ParsePrintedData(fs[0], fs[1], Serialize(fs[2..]));
    }
  }

  lemma ParseStep(data: string, taken: seq<Field>, rest: string, fs: seq<Field>)
    requires TakeField(data) == Some((taken, rest)) && ParseFields(rest) == Some(fs)
    ensures ParseFields(data) == Some(taken + fs)
  {
  }

  /** Every carriable field list is read back from its own text. */
  lemma {:induction false} ParseSerialized(fs: seq<Field>)
    requires Carriable(fs)
    ensures ParseFields(Serialize(fs)) == Some(fs)
  {
    if fs == [] {
    } else {
      TakePrinted(fs);
      var k := if DataTag(fs[0].tag) == 0 then 1 else 2;
      ParseSerialized(fs[k..]);
      ParseStep(Serialize(fs), fs[..k], Serialize(fs[k..]), fs[k..]);
      assert fs == fs[..k] + fs[k..];
    }
  }

  lemma TakenPrints(data: string, taken: seq<Field>, rest: string)
    requires TakeField(data) == Some((taken, rest))
    ensures taken != [] && 1 <= taken[0].tag <= MAX_INT64 && NoSOH(taken[0].value)
    ensures if DataTag(taken[0].tag) == 0 then |taken| == 1 && data == Print(taken[0]) + rest
            else |taken| == 2 && taken[1].tag == DataTag(taken[0].tag) && Atoi(taken[0].value) == Some(|taken[1].value|)
                 && data == Print(taken[0]) + (Print(taken[1]) + rest)
  {
    var RawField(f, after) := ReadField(data);
    ReadFieldExact(data, f, after);
    if DataTag(f.tag) != 0 {
      ParsedDataPrints(f, after, taken[1], rest);
    }
  }

  /** Every accepted body is exactly the text of the fields it was read as, and those are carriable. */
  lemma {:induction false} ParsedSerializes(data: string, fs: seq<Field>)
    requires ParseFields(data) == Some(fs)
    ensures Serialize(fs) == data && Carriable(fs)
    decreases |data|
  {
    if data != "" {
      var (taken, rest) := TakeField(data).value;
      var gs := ParseFields(rest).value;
      ParsedSerializes(rest, gs);
      TakenPrints(data, taken, rest);
      assert fs == taken + gs;
      if |taken| == 1 {
        assert fs[1..] == gs;
      } else {
        assert fs[2..] == gs && fs[1..][1..] == gs;
      }
    }
  }

  // ── Lemmas: a frame ────────────────────────────────────────────────────────

  lemma ThreeReads(c: nat)
    requires c < 256
    ensures Value(Three(c)) == c && NoSOH(Three(c))
  {
    var s := Three(c);
    assert s[..2][..1] == [s[0]] && s[..1][..0] == "";
    assert Value(s[..1]) == c / 100;
    assert s[..2][..1] == s[..1];
    assert Value(s[..2]) == 10 * (c / 100) + c / 10 % 10;
  }

  lemma {:induction false} SerializedEndsWithSOH(fs: seq<Field>)
    requires fs != []
    ensures Serialize(fs) != "" && Serialize(fs)[|Serialize(fs)| - 1] == SOH
  {
    if |fs| == 1 {
      assert fs[1..] == [];
    } else {
      SerializedEndsWithSOH(fs[1..]);
    }
  }

  lemma {:induction false} SerializeConcat(a: seq<Field>, b: seq<Field>)
    ensures Serialize(a + b) == Serialize(a) + Serialize(b)
  {
    if a == [] {
      assert a + b == b;
    } else {
      var f, more := a[0], a[1..];
      assert a == [f] + more && a + b == [f] + (more + b);
      SerializeConcat(more, b);
      SerializeCons(f, more);
      SerializeCons(f, more + b);
      Prefixed(Print(f), Serialize(more), Serialize(b), Serialize(more + b));
    }
  }

  lemma Prefixed(p: string, a: string, b: string, ab: string)
    requires ab == a + b
    ensures p + ab == p + a + b
  {
    Assoc(p, a, b);
  }

  lemma Assoc(a: string, b: string, c: string)
    ensures (a + b) + c == a + (b + c)
  {
  }

  lemma SerializeCons(f: Field, fs: seq<Field>)
    ensures Serialize([f] + fs) == Print(f) + Serialize(fs)
  {
    assert ([f] + fs)[1..] == fs;
  }

  lemma SerializeAround(a: Field, b: Field, fs: seq<Field>, c: Field)
    ensures Serialize([a, b] + fs + [c]) == Print(a) + (Print(b) + (Serialize(fs) + Print(c)))
  {
    SerializeConcat(fs, [c]);
    SerializeCons(c, []);
    SerializeCons(b, fs + [c]);
    SerializeCons(a, [b] + (fs + [c]));
    assert [a, b] + fs + [c] == [a] + ([b] + (fs + [c]));
    assert [c] + [] == [c] && Print(c) + "" == Print(c);
  }

  lemma AcceptedBody(begin: Field, length: Field, body: string, tail: string)
      returns (fs: seq<Field>, sum: Field)
    requires body != ""
    requires var r := ReadBody(begin, length, body, tail); r.Received? || r.OtherVersion?
    ensures var r := ReadBody(begin, length, body, tail);
            r.msg == [begin, length] + fs + [sum] && ReadField(tail) == RawField(sum, r.rest)
            && (r.Received? <==> begin.value == BEGIN_STRING)
    ensures ParseFields(body) == Some(fs)
    ensures fs != [] && fs[0].tag == TAG_MSG_TYPE && !HasTag(fs, TAG_CHECK_SUM)
    ensures sum.tag == TAG_CHECK_SUM && |sum.value| == 3 && AllDigits(sum.value)
    ensures Value(sum.value) == Sum(Print(begin) + Print(length) + body) % 256
  {
    fs := ParseFields(body).value;
    sum := ReadField(tail).f;
  }

  lemma AcceptedLength(max: nat, begin: Field, input: string)
      returns (length: Field, body: string, tail: string)
    requires var r := ReadLength(max, begin, input); r.Received? || r.OtherVersion?
    ensures ReadField(input) == RawField(length, body + tail)
    ensures length.tag == TAG_BODY_LENGTH && AllDigits(length.value) && Atoi(length.value) == Some(|body|)
    ensures body != "" && |body| <= max && ReadLength(max, begin, input) == ReadBody(begin, length, body, tail)
  {
    var raw := ReadField(input);
    length := raw.f;
    var n := Atoi(length.value).value;
    body, tail := raw.rest[..n], raw.rest[n..];
    Split(raw.rest, n);
  }

  lemma Split(s: string, n: nat)
    requires n <= |s|
    ensures s == s[..n] + s[n..]
  {
  }

  /** A frame of this version or another: its length is that of its body, its body starts with the message
      type and holds no checksum, and its checksum is the byte sum of all before it. */
  predicate WellFramed(max: nat, begin: Field, length: Field, fs: seq<Field>, sum: Field) {
    begin.tag == TAG_BEGIN_STRING && "FIX" <= begin.value && NoSOH(begin.value)
    && length.tag == TAG_BODY_LENGTH && AllDigits(length.value) && Atoi(length.value) == Some(|Serialize(fs)|)
    && |Serialize(fs)| <= max
    && fs != [] && Carriable(fs) && fs[0].tag == TAG_MSG_TYPE && !HasTag(fs, TAG_CHECK_SUM)
    && sum.tag == TAG_CHECK_SUM && |sum.value| == 3 && AllDigits(sum.value)
    && Value(sum.value) == Sum(Print(begin) + Print(length) + Serialize(fs)) % 256
  }

  /** What an accepted frame consists of. */
  lemma Accepted(max: nat, input: string)
      returns (begin: Field, length: Field, fs: seq<Field>, sum: Field)
    requires var r := ReadMessage(max, input); r.Received? || r.OtherVersion?
    ensures var r := ReadMessage(max, input);
            r.msg == [begin, length] + fs + [sum]
            && input == Print(begin) + (Print(length) + (Serialize(fs) + (Print(sum) + r.rest)))
            && (r.Received? <==> begin.value == BEGIN_STRING)
    ensures WellFramed(max, begin, length, fs, sum)
  {
    var raw := ReadField(input);
    begin := raw.f;
    var rest, body, tail := raw.rest, "", "";
    length, body, tail := AcceptedLength(max, begin, rest);
    fs, sum := AcceptedBody(begin, length, body, tail);
    ParsedSerializes(body, fs);
    ReadFieldExact(input, begin, rest);
    ReadFieldExact(rest, length, body + tail);
    ReadFieldExact(tail, sum, ReadMessage(max, input).rest);
  }

  /** Printing the fields of a frame that was read gives back exactly the bytes consumed. */
  lemma ReadIsExact(max: nat, input: string)
    ensures var r := ReadMessage(max, input);
            r.Received? || r.OtherVersion? ==> input == Serialize(r.msg) + r.rest
  {
    var r := ReadMessage(max, input);
    if r.Received? || r.OtherVersion? {
      var begin, length, fs, sum := Accepted(max, input);
      SerializeAround(begin, length, fs, sum);
      Regroup(Print(begin), Print(length), Serialize(fs), Print(sum), r.rest);
    }
  }

  lemma Regroup(a: string, b: string, c: string, d: string, e: string)
    ensures (a + (b + (c + d))) + e == a + (b + (c + (d + e)))
    ensures (a + b + c + d) + e == a + (b + (c + (d + e)))
  {
    Assoc(c, d, e);
    Assoc(b, c + d, e);
    Assoc(a, b + (c + d), e);
    Assoc(a + b + c, d, e);
    Assoc(a + b, c, d + e);
    Assoc(a, b, c + (d + e));
  }

  lemma ReadTwo(max: nat, input: string, begin: Field, rest1: string, length: Field, body: string, tail: string)
    requires ReadField(input) == RawField(begin, rest1) && ReadField(rest1) == RawField(length, body + tail)
    requires begin.tag == TAG_BEGIN_STRING && "FIX" <= begin.value
    requires length.tag == TAG_BODY_LENGTH && AllDigits(length.value) && Atoi(length.value) == Some(|body|)
    requires 0 < |body| <= max
    ensures ReadMessage(max, input) == ReadBody(begin, length, body, tail)
  {
    assert (body + tail)[..|body|] == body && (body + tail)[|body|..] == tail;
  }

  lemma LengthReads(body: string)
    ensures AllDigits(LengthField(body).value) && NoSOH(LengthField(body).value)
    ensures |body| <= MAX_INT64 ==> Atoi(LengthField(body).value) == Some(|body|)
  {
    var t := LengthField(body).value;
    ValueOfText(|body|);
    assert forall k :: 0 <= k < |t| ==> IsDigit(t[k]) && t[k] != SOH;
  }

  lemma DigitsHoldNoSOH(t: string)
    requires AllDigits(t)
    ensures NoSOH(t)
  {
    assert forall k :: 0 <= k < |t| ==> IsDigit(t[k]) && t[k] != SOH;
  }

  lemma FramedBody(max: nat, begin: Field, length: Field, fs: seq<Field>, sum: Field, rest: string)
    requires WellFramed(max, begin, length, fs, sum)
    ensures var body, msg := Serialize(fs), [begin, length] + fs + [sum];
            body != ""
            && ReadBody(begin, length, body, Print(sum) + rest)
               == if begin.value == BEGIN_STRING then Received(msg, rest) else OtherVersion(msg, rest)
  {
    SerializedEndsWithSOH(fs);
    DigitsHoldNoSOH(sum.value);
    ReadPrintedField(sum, rest);
    ParseSerialized(fs);
  }

  /** Every frame, followed by anything, is read as its fields, leaving the rest unread. */
  lemma FramedIsRead(max: nat, begin: Field, length: Field, fs: seq<Field>, sum: Field, rest: string)
    requires WellFramed(max, begin, length, fs, sum)
    ensures var msg := [begin, length] + fs + [sum];
            ReadMessage(max, Print(begin) + (Print(length) + (Serialize(fs) + (Print(sum) + rest))))
            == if begin.value == BEGIN_STRING then Received(msg, rest) else OtherVersion(msg, rest)
  {
    var body, tail := Serialize(fs), Print(sum) + rest;
    FramedBody(max, begin, length, fs, sum, rest);
    ReadPrintedField(begin, Print(length) + (body + tail));
    DigitsHoldNoSOH(length.value);
    ReadPrintedField(length, body + tail);
    ReadTwo(max, Print(begin) + (Print(length) + (body + tail)), begin, Print(length) + (body + tail), length, body,
      tail);
  }

  lemma ReadSendable(max: nat, fs: seq<Field>, rest: string)
    requires max <= MAX_INT64 && Sendable(max, fs)
    ensures ReadMessage(max, Build(fs) + rest) == Received(Wire(fs), rest)
  {
    var kept := NonEmpty(fs);
    var body := Serialize(kept);
    var begin, length, sum := Field(TAG_BEGIN_STRING, BEGIN_STRING), LengthField(body), SumField(body);
    Regroup(Print(begin), Print(length), body, Print(sum), rest);
    LengthReads(body);
    ThreeReads(Sum(Prefix(body) + body) % 256);
    FramedIsRead(max, begin, length, kept, sum, rest);
  }

  /** A built frame followed by anything is read back as its own non-empty fields between tags 8, 9
      and 10, leaving the rest of the stream unread, exactly when the fields are sendable. */
  lemma ReadBuilt(max: nat, fs: seq<Field>, rest: string)
    requires max <= MAX_INT64
    ensures ReadMessage(max, Build(fs) + rest) == Received(Wire(fs), rest) <==> Sendable(max, fs)
  {
    if Sendable(max, fs) {
      ReadSendable(max, fs, rest);
    }
    if ReadMessage(max, Build(fs) + rest) == Received(Wire(fs), rest) {
      var w := Wire(fs);
      var _, _, gs, _ := Accepted(max, Build(fs) + rest);
      assert gs == w[2..|w| - 1] == NonEmpty(fs);
    }
  }

  lemma {:induction false} NonEmptyConcat(a: seq<Field>, b: seq<Field>)
    ensures NonEmpty(a + b) == NonEmpty(a) + NonEmpty(b)
  {
    if a == [] {
      assert a + b == b;
    } else {
      assert (a + b)[1..] == a[1..] + b;
      NonEmptyConcat(a[1..], b);
    }
  }

  lemma {:induction false} CarriableOn(fs: seq<Field>)
    requires fs != [] && Carriable(fs)
    ensures if DataTag(fs[0].tag) == 0 then Carriable(fs[1..])
            else |fs| >= 2 && fs[1].tag == DataTag(fs[0].tag) && DataTag(fs[1].tag) == 0 && Carriable(fs[2..])
  {
  }

  /** A length field that its data field does not follow spoils the list. */
  lemma {:induction false} Orphaned(fs: seq<Field>, i: nat)
    requires i < |fs| && DataTag(fs[i].tag) != 0 && (i + 1 < |fs| ==> fs[i + 1].tag != DataTag(fs[i].tag))
    ensures !Carriable(fs)
    decreases i
  {
    if Carriable(fs) {
      CarriableOn(fs);
      if i > 0 {
        var k := if DataTag(fs[0].tag) == 0 then 1 else 2;
        Orphaned(fs[k..], i - k);
      }
    }
  }

  /** The failing family: an empty data field is left out and its length field stays, so the frame is not
      read back, whatever comes before and after. */
  lemma {:induction false} EmptyDataIsLost(max: nat, pre: seq<Field>, f: Field, post: seq<Field>, rest: string)
    requires max <= MAX_INT64 && DataTag(f.tag) != 0 && f.value != ""
    requires var next := NonEmpty(post); next == [] || next[0].tag != DataTag(f.tag)
    ensures var fs := pre + [f, Field(DataTag(f.tag), "")] + post;
            ReadMessage(max, Build(fs) + rest) != Received(Wire(fs), rest)
  {
    var pair := [f, Field(DataTag(f.tag), "")];
    NonEmptyConcat(pre + pair, post);
    NonEmptyConcat(pre, pair);
    assert pair[1..][1..] == [] && NonEmpty(pair[1..]) == [] && NonEmpty(pair) == [f];
    Orphaned(NonEmpty(pre) + [f] + NonEmpty(post), |NonEmpty(pre)|);
    ReadBuilt(max, pre + pair + post, rest);
  }
}
