/** What a peer reads from the frames that answer a ResendRequest. */
module Retransmit {
  import opened Decimal
  import opened Codec
  import opened CodecLoops
  import opened Resend

  // ── Reading fields of concatenated messages ────────────────────────────────

  lemma {:induction false} GetConcat(a: seq<Field>, b: seq<Field>, tag: nat)
    ensures Get(a + b, tag) == if HasTag(b, tag) then Get(b, tag) else Get(a, tag)
  {
    if b == [] {
      assert a + b == a;
    } else {
      var n := |b| - 1;
      assert (a + b)[..|a| + n] == a + b[..n];
      GetConcat(a, b[..n], tag);
      HasSnoc(b, tag);
    }
  }

  lemma HasSnoc(b: seq<Field>, tag: nat)
    requires b != []
    ensures HasTag(b, tag) <==> b[|b| - 1].tag == tag || HasTag(b[..|b| - 1], tag)
  {
    var init := b[..|b| - 1];
    if HasTag(init, tag) {
      var i :| 0 <= i < |init| && init[i].tag == tag;
      assert b[i].tag == tag;
    }
    if HasTag(b, tag) && b[|b| - 1].tag != tag {
      var i :| 0 <= i < |b| && b[i].tag == tag;
      assert init[i].tag == tag;
    }
  }

  /** Dropping empty fields changes no reading of a tag that occurs at most once. */
  lemma {:induction false} GetNonEmpty(fs: seq<Field>, tag: nat)
    requires Count(fs, tag) <= 1
    ensures Get(NonEmpty(fs), tag) == Get(fs, tag)
    ensures HasTag(NonEmpty(fs), tag) ==> HasTag(fs, tag)
  {
    if fs != [] {
      var f, rest := fs[0], fs[1..];
      assert fs == [f] + rest;
      GetNonEmpty(rest, tag);
      GetCons(f, rest, tag);
      HasCons(f, rest, tag);
      CountHas(rest, tag);
      if f.value != "" {
        GetCons(f, NonEmpty(rest), tag);
        HasCons(f, NonEmpty(rest), tag);
        GetAbsent(NonEmpty(rest), tag);
      }
    }
  }

  lemma GetAbsent(fs: seq<Field>, tag: nat)
    ensures !HasTag(fs, tag) ==> Get(fs, tag) == ""
  {
    GetCons(Field(0, ""), fs, tag);
  }

  /** Tags 8, 9 and 10 aside, the received message reads like the fields that were built. */
  lemma {:induction false} GetWire(fs: seq<Field>, tag: nat)
    requires Count(fs, tag) <= 1 && tag != 8 && tag != 9 && tag != 10
    ensures Get(Wire(fs), tag) == Get(fs, tag)
  {
    var kept := NonEmpty(fs);
    var w := Wire(fs);
    var head, tail := [w[0], w[1]], [w[|w| - 1]];
    assert w == head + kept + tail;
    GetConcat(head + kept, tail, tag);
    GetConcat(head, kept, tag);
    GetNonEmpty(fs, tag);
    assert !HasTag(tail, tag) && !HasTag(head, tag);
    GetAbsent(head, tag);
    GetAbsent(kept, tag);
  }

  // ── The frames ─────────────────────────────────────────────────────────────

  lemma {:induction false} BusinessHas(m: Message, tag: nat)
    requires Rewritten(tag)
    ensures Count(Business(m), tag) == 0 && !HasTag(Business(m), tag)
  {
    if m == [] {
    } else {
      BusinessHas(m[1..], tag);
      if !Rewritten(m[0].tag) {
        assert ([m[0]] + Business(m[1..]))[1..] == Business(m[1..]);
        HasCons(m[0], Business(m[1..]), tag);
      }
    }
  }

  lemma {:induction false} CountConcat(a: seq<Field>, b: seq<Field>, tag: nat)
    ensures Count(a + b, tag) == Count(a, tag) + Count(b, tag)
  {
    if a == [] {
      assert a + b == b;
    } else {
      assert (a + b)[1..] == a[1..] + b;
      CountConcat(a[1..], b, tag);
    }
  }

  function Prologue(msgType: string, sender: string, target: string, n: int, time: string, orig: string): seq<Field> {
    Header(msgType, sender, target, n, time) + [Field(43, "Y"), Field(122, orig)]
  }

  lemma PrologueReads(msgType: string, sender: string, target: string, n: int, time: string, orig: string,
        rest: seq<Field>, tag: nat)
    requires tag in {35, 49, 56, 34, 52, 43, 122} && Count(rest, tag) == 0
    ensures var fs := Prologue(msgType, sender, target, n, time, orig) + rest;
            Count(fs, tag) <= 1
            && Get(fs, tag) == match tag
                               case 35 => msgType case 49 => sender case 56 => target
                               case 34 => Itoa(n) case 52 => time case 43 => "Y" case _ => orig
  {
    var p := Prologue(msgType, sender, target, n, time, orig);
    CountConcat(p, rest, tag);
    CountHas(rest, tag);
    GetConcat(p, rest, tag);
    SevenTags(p, tag);
  }

  lemma SevenTags(p: seq<Field>, tag: nat)
    requires |p| == 7 && p[0].tag == 35 && p[1].tag == 49 && p[2].tag == 56 && p[3].tag == 34
    requires p[4].tag == 52 && p[5].tag == 43 && p[6].tag == 122
    requires tag in {35, 49, 56, 34, 52, 43, 122}
    ensures Count(p, tag) == 1
    ensures exists i :: 0 <= i < 7 && p[i].tag == tag && Get(p, tag) == p[i].value
  {
    var i: nat := if tag == 35 then 0 else if tag == 49 then 1 else if tag == 56 then 2 else if tag == 34 then 3
             else if tag == 52 then 4 else if tag == 43 then 5 else 6;
    assert p[i].tag == tag;
    OnlyAt(p, tag, i);
  }

  lemma {:induction false} OnlyAt(p: seq<Field>, tag: nat, i: nat)
    requires i < |p| && p[i].tag == tag && forall k :: 0 <= k < |p| && k != i ==> p[k].tag != tag
    ensures Count(p, tag) == 1 && Get(p, tag) == p[i].value
  {
    var f, rest := p[0], p[1..];
    assert p == [f] + rest;
    GetCons(f, rest, tag);
    CountHas(rest, tag);
    if i == 0 {
      assert !HasTag(rest, tag);
    } else {
      OnlyAt(rest, tag, i - 1);
    }
  }

  lemma PrologueTag(msgType: string, sender: string, target: string, n: int, time: string, orig: string,
        rest: seq<Field>, tag: nat)
    requires tag in {35, 49, 56, 34, 52, 43, 122} && Count(rest, tag) == 0
    ensures Get(Wire(Prologue(msgType, sender, target, n, time, orig) + rest), tag)
            == match tag
               case 35 => msgType case 49 => sender case 56 => target
               case 34 => Itoa(n) case 52 => time case 43 => "Y" case _ => orig
  {
    PrologueReads(msgType, sender, target, n, time, orig, rest, tag);
    GetWire(Prologue(msgType, sender, target, n, time, orig) + rest, tag);
  }

  /** The peer reads the header and duplicate fields of a frame that starts with them. */
  lemma PrologueWire(msgType: string, sender: string, target: string, n: int, time: string, orig: string,
        rest: seq<Field>)
    requires forall tag :: Rewritten(tag) ==> Count(rest, tag) == 0
    ensures var m := Wire(Prologue(msgType, sender, target, n, time, orig) + rest);
            Get(m, 35) == msgType && Get(m, 49) == sender && Get(m, 56) == target
            && Get(m, 34) == Itoa(n) && Get(m, 52) == time && Get(m, 43) == "Y" && Get(m, 122) == orig
  {
    PrologueTag(msgType, sender, target, n, time, orig, rest, 35);
    PrologueTag(msgType, sender, target, n, time, orig, rest, 49);
    PrologueTag(msgType, sender, target, n, time, orig, rest, 56);
    PrologueTag(msgType, sender, target, n, time, orig, rest, 34);
    PrologueTag(msgType, sender, target, n, time, orig, rest, 52);
    PrologueTag(msgType, sender, target, n, time, orig, rest, 43);
    PrologueTag(msgType, sender, target, n, time, orig, rest, 122);
  }

  /** A replay names its peers and number, is flagged as a duplicate, and keeps the message type. */
  lemma ReplayReads(stored: Message, sender: string, target: string, n: int, time: string)
    ensures var m := Wire(ResendFrame(stored, sender, target, n, time));
            Get(m, 35) == Get(stored, 35) && Get(m, 49) == sender && Get(m, 56) == target
            && Get(m, 34) == Itoa(n) && Get(m, 52) == time && Get(m, 43) == "Y" && Get(m, 122) == Get(stored, 52)
  {
    var rest := Business(stored);
    forall tag | Rewritten(tag) ensures Count(rest, tag) == 0 { BusinessHas(stored, tag); }
    assert ResendFrame(stored, sender, target, n, time)
        == Prologue(Get(stored, 35), sender, target, n, time, Get(stored, 52)) + rest;
    PrologueWire(Get(stored, 35), sender, target, n, time, Get(stored, 52), rest);
  }

  /** A GapFill names its peers, the first number it covers and the number to expect next. */
  lemma GapFillReads(sender: string, target: string, from: int, next: int, time: string)
    requires IsInt64(next)
    ensures var m := Wire(GapFillFrame(sender, target, from, next, time));
            Get(m, 35) == "4" && Get(m, 49) == sender && Get(m, 56) == target && Get(m, 34) == Itoa(from)
            && Get(m, 52) == time && Get(m, 43) == "Y" && Get(m, 122) == time
            && Get(m, 123) == "Y" && GetInt(m, 36) == next
  {
    var rest := [Field(123, "Y"), Field(36, Itoa(next))];
    forall tag | Rewritten(tag) ensures Count(rest, tag) == 0 {
      CountHas(rest, tag);
    }
    assert GapFillFrame(sender, target, from, next, time) == Prologue("4", sender, target, from, time, time) + rest;
    PrologueWire("4", sender, target, from, time, time, rest);
    GapFillTail(sender, target, from, next, time);
  }

  lemma GapFillTail(sender: string, target: string, from: int, next: int, time: string)
    requires IsInt64(next)
    ensures var m := Wire(GapFillFrame(sender, target, from, next, time)); Get(m, 123) == "Y" && GetInt(m, 36) == next
  {
    var fs := GapFillFrame(sender, target, from, next, time);
    OnlyAt(fs, 123, 7);
    OnlyAt(fs, 36, 8);
    GetWire(fs, 123);
    GetWire(fs, 36);
    AtoiOfItoa(next);
  }

  // ── What a retransmission keeps ────────────────────────────────────────────

  lemma {:induction false} BusinessConcat(a: seq<Field>, b: seq<Field>)
    ensures Business(a + b) == Business(a) + Business(b)
  {
    if a == [] {
      assert a + b == b;
    } else {
      assert (a + b)[1..] == a[1..] + b;
      BusinessConcat(a[1..], b);
    }
  }

  lemma {:induction false} AllRewritten(fs: seq<Field>)
    requires forall i :: 0 <= i < |fs| ==> Rewritten(fs[i].tag)
    ensures Business(NonEmpty(fs)) == []
  {
    if fs != [] {
      AllRewritten(fs[1..]);
      if fs[0].value != "" { assert ([fs[0]] + NonEmpty(fs[1..]))[1..] == NonEmpty(fs[1..]); }
    }
  }

  lemma {:induction false} BusinessOfBusiness(m: Message)
    ensures Business(NonEmpty(Business(m))) == NonEmpty(Business(m))
  {
    if m != [] {
      BusinessOfBusiness(m[1..]);
      if !Rewritten(m[0].tag) {
        assert ([m[0]] + Business(m[1..]))[1..] == Business(m[1..]);
        if m[0].value != "" {
          assert ([m[0]] + NonEmpty(Business(m[1..])))[1..] == NonEmpty(Business(m[1..]));
        }
      }
    }
  }

  lemma BusinessOfWire(fs: seq<Field>)
    ensures Business(Wire(fs)) == Business(NonEmpty(fs))
  {
    var w := Wire(fs);
    var head, tail := [w[0], w[1]], [w[|w| - 1]];
    assert w == head + NonEmpty(fs) + tail;
    BusinessConcat(head + NonEmpty(fs), tail);
    BusinessConcat(head, NonEmpty(fs));
    assert head[1..][1..] == [] && tail[1..] == [];
  }

  lemma BusinessAfter(p: seq<Field>, rest: seq<Field>)
    requires forall i :: 0 <= i < |p| ==> Rewritten(p[i].tag)
    ensures Business(NonEmpty(p + rest)) == Business(NonEmpty(rest))
  {
    NonEmptyConcat(p, rest);
    BusinessConcat(NonEmpty(p), NonEmpty(rest));
    AllRewritten(p);
    assert [] + Business(NonEmpty(rest)) == Business(NonEmpty(rest));
  }

  /** The peer receives every non-empty business field of the stored message, in order and unchanged. */
  lemma ReplayKeepsBusiness(stored: Message, sender: string, target: string, n: int, time: string)
    ensures Business(Wire(ResendFrame(stored, sender, target, n, time))) == NonEmpty(Business(stored))
  {
    var p := Prologue(Get(stored, 35), sender, target, n, time, Get(stored, 52));
    var fs := ResendFrame(stored, sender, target, n, time);
    assert fs == p + Business(stored);
    BusinessOfWire(fs);
    BusinessAfter(p, Business(stored));
    BusinessOfBusiness(stored);
  }

  lemma {:induction false} BusinessCarriable(fs: seq<Field>)
    requires Carriable(fs)
    ensures Carriable(Business(fs))
    decreases |fs|
  {
    if fs != [] {
      if DataTag(fs[0].tag) == 0 {
        BusinessCarriable(fs[1..]);
        if !Rewritten(fs[0].tag) {
          assert Business(fs)[1..] == Business(fs[1..]);
        }
      } else {
        BusinessCarriable(fs[2..]);
        assert fs[1..][1..] == fs[2..];
        assert Business(fs[1..]) == [fs[1]] + Business(fs[2..]);
        assert Business(fs) == [fs[0]] + ([fs[1]] + Business(fs[2..]));
        assert Business(fs)[2..] == Business(fs[2..]);
      }
    }
  }

  /** No empty values. */
  predicate Filled(fs: seq<Field>) {
    forall i :: 0 <= i < |fs| ==> fs[i].value != ""
  }

  lemma {:induction false} FilledStays(fs: seq<Field>)
    requires Filled(fs)
    ensures NonEmpty(fs) == fs && Filled(Business(fs))
  {
    if fs != [] {
      FilledStays(fs[1..]);
      assert fs == [fs[0]] + fs[1..];
    }
  }

  lemma {:induction false} NonEmptyFilled(fs: seq<Field>)
    ensures Filled(NonEmpty(fs))
  {
    if fs != [] { NonEmptyFilled(fs[1..]); }
  }

  /** Plain fields in front of a carriable list. */
  lemma {:induction false} CarriableAfter(p: seq<Field>, fs: seq<Field>)
    requires Carriable(fs)
    requires forall i :: 0 <= i < |p| ==> 1 <= p[i].tag <= MAX_INT64 && DataTag(p[i].tag) == 0 && NoSOH(p[i].value)
    ensures Carriable(p + fs)
  {
    if p == [] {
      assert p + fs == fs;
    } else {
      CarriableAfter(p[1..], fs);
      assert (p + fs)[1..] == p[1..] + fs;
    }
  }

  predicate CleanText(s: string) {
    s != "" && NoSOH(s)
  }

  lemma PrologueCarriable(msgType: string, sender: string, target: string, n: nat, time: string, orig: string,
        rest: seq<Field>)
    requires CleanText(msgType) && CleanText(sender) && CleanText(target) && CleanText(time) && CleanText(orig)
    requires Carriable(rest) && Filled(rest)
    ensures var fs := Prologue(msgType, sender, target, n, time, orig) + rest; Carriable(fs) && NonEmpty(fs) == fs
  {
    var p := Prologue(msgType, sender, target, n, time, orig);
    DigitsClean(n);
    CarriableAfter(p, rest);
    assert Filled(p);
    FilledStays(p + rest);
  }

  lemma NoCheckSum(p: seq<Field>, rest: seq<Field>)
    requires !HasTag(rest, TAG_CHECK_SUM) && forall i :: 0 <= i < |p| ==> p[i].tag != TAG_CHECK_SUM
    ensures !HasTag(p + rest, TAG_CHECK_SUM)
  {
  }

  lemma StoredBusiness(fs: seq<Field>)
    requires Carriable(NonEmpty(fs))
    ensures var rest := Business(Wire(fs)); Carriable(rest) && Filled(rest) && !HasTag(rest, TAG_CHECK_SUM)
  {
    BusinessOfWire(fs);
    BusinessCarriable(NonEmpty(fs));
    NonEmptyFilled(fs);
    FilledStays(NonEmpty(fs));
    BusinessHas(Wire(fs), TAG_CHECK_SUM);
  }

  /** A retransmission is well formed; only its length can keep it from being read. */
  lemma ReplayFits(max: nat, fs: seq<Field>, sender: string, target: string, n: nat, time: string)
    requires Sendable(DEFAULT_MAX_BODY, fs)
    requires CleanText(sender) && CleanText(target) && CleanText(time)
    requires CleanText(Get(Wire(fs), 35)) && CleanText(Get(Wire(fs), 52))
    ensures var frame := ResendFrame(Wire(fs), sender, target, n, time);
            NonEmpty(frame) == frame && (Sendable(max, frame) <==> |Serialize(frame)| <= max)
  {
    var stored := Wire(fs);
    var rest := Business(stored);
    StoredBusiness(fs);
    var p := Prologue(Get(stored, 35), sender, target, n, time, Get(stored, 52));
    assert ResendFrame(stored, sender, target, n, time) == p + rest;
    PrologueCarriable(Get(stored, 35), sender, target, n, time, Get(stored, 52), rest);
    NoCheckSum(p, rest);
  }

  // ── How much a retransmission grows ────────────────────────────────────────

  predicate AllBusiness(fs: seq<Field>) {
    forall i :: 0 <= i < |fs| ==> !Rewritten(fs[i].tag)
  }

  lemma {:induction false} BusinessIsAll(fs: seq<Field>)
    requires AllBusiness(fs)
    ensures Business(fs) == fs && AllBusiness(NonEmpty(fs))
    ensures forall tag :: Rewritten(tag) ==> Count(fs, tag) == 0
  {
    if fs != [] {
      BusinessIsAll(fs[1..]);
      assert fs == [fs[0]] + fs[1..];
    }
  }

  lemma HeaderTag(h: seq<Field>, extra: seq<Field>, tag: nat, i: nat)
    requires i < |h| && h[i].tag == tag && forall k :: 0 <= k < |h| && k != i ==> h[k].tag != tag
    requires Count(extra, tag) == 0 && tag != 8 && tag != 9 && tag != 10
    ensures Get(Wire(h + extra), tag) == h[i].value
  {
    OnlyAt(h, tag, i);
    CountConcat(h, extra, tag);
    CountHas(extra, tag);
    GetConcat(h, extra, tag);
    GetWire(h + extra, tag);
  }

  /** What is read back of a frame as the session sends it. */
  lemma {:induction false} SentReads(t: string, sender: string, target: string, n: int, was: string, extra: seq<Field>)
    requires AllBusiness(extra)
    ensures var m := Wire(Header(t, sender, target, n, was) + extra);
            Get(m, 35) == t && Get(m, 52) == was && Business(m) == NonEmpty(extra)
  {
    var h := Header(t, sender, target, n, was);
    BusinessIsAll(extra);
    HeaderTag(h, extra, 35, 0);
    HeaderTag(h, extra, 52, 4);
    BusinessOfWire(h + extra);
    BusinessAfter(h, extra);
    BusinessIsAll(NonEmpty(extra));
  }

  /** The duplicate flag and the original sending time. */
  function Growth(was: string): nat {
    |Serialize([Field(43, "Y"), Field(122, was)])|
  }

  lemma {:induction false} SameWidth(h: seq<Field>, g: seq<Field>)
    requires |h| == |g| == 5 && h[..4] == g[..4] && h[4].tag == g[4].tag
    ensures |Serialize(g)| + |h[4].value| == |Serialize(h)| + |g[4].value|
  {
    assert h == h[..4] + [h[4]] && g == h[..4] + [g[4]];
    SerializeConcat(h[..4], [h[4]]);
    SerializeConcat(h[..4], [g[4]]);
    assert [h[4]][1..] == [] && [g[4]][1..] == [];
  }

  lemma {:induction false} Grows(t: string, sender: string, target: string, n: int, was: string, now: string,
                                 rest: seq<Field>)
    ensures var stored := Header(t, sender, target, n, was) + rest;
            var frame := Prologue(t, sender, target, n, now, was) + rest;
            |Serialize(frame)| + |was| == |Serialize(stored)| + Growth(was) + |now|
  {
    var h, g := Header(t, sender, target, n, was), Header(t, sender, target, n, now);
    var more := [Field(43, "Y"), Field(122, was)];
    SerializeConcat(h, rest);
    SerializeConcat(g + more, rest);
    SerializeConcat(g, more);
    SameWidth(h, g);
  }

  /** A frame as the session sends it, whose body was read back from the store, can be retransmitted if and
      only if its own body leaves room for the duplicate flag and the original sending time; the two times
      have the same length when they have the same format. */
  lemma {:induction false} ReplaySendable(max: nat, t: string, sender: string, target: string, n: nat, was: string,
                                          now: string, extra: seq<Field>)
    requires CleanText(t) && CleanText(sender) && CleanText(target) && CleanText(was) && CleanText(now)
    requires AllBusiness(extra) && Sendable(DEFAULT_MAX_BODY, Header(t, sender, target, n, was) + extra)
    ensures var stored := Header(t, sender, target, n, was) + extra;
            Sendable(max, ResendFrame(Wire(stored), sender, target, n, now))
            <==> |Serialize(NonEmpty(stored))| + Growth(was) + |now| <= max + |was|
  {
    var h := Header(t, sender, target, n, was);
    SentReads(t, sender, target, n, was, extra);
    ReplayFits(max, h + extra, sender, target, n, now);
    var frame := ResendFrame(Wire(h + extra), sender, target, n, now);
    assert frame == Prologue(t, sender, target, n, now, was) + NonEmpty(extra);
    Grows(t, sender, target, n, was, now, NonEmpty(extra));
    NonEmptyConcat(h, extra);
    DigitsClean(n);
    assert Filled(h);
    FilledStays(h);
  }

  lemma DigitsClean(n: nat)
    ensures CleanText(Itoa(n))
  {
    var t := Itoa(n);
    assert forall k :: 0 <= k < |t| ==> IsDigit(t[k]) && t[k] != SOH;
  }
}
