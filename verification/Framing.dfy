/** Append-only logs of length-prefixed records: big-endian numbers, and the scan that finds the intact
    records at the front of a byte string. */
module Framing {
  import opened Decimal

  type Byte = b: nat | b < 256
  type Bytes = seq<Byte>
  type Word32 = x: nat | x < 0x1_0000_0000

  function Pow256(k: nat): (p: nat)
    ensures p >= 1
  {
    if k == 0 then 1 else 256 * Pow256(k - 1)
  }

  /** The k low bytes of x, most significant first. */
  function BigEndian(k: nat, x: nat): (s: Bytes)
    ensures |s| == k
  {
    if k == 0 then [] else BigEndian(k - 1, x / 256) + [x % 256]
  }

  function Unsigned(s: Bytes): nat {
    if s == [] then 0 else 256 * Unsigned(s[..|s| - 1]) + s[|s| - 1]
  }

  lemma {:induction false} UnsignedOfBigEndian(k: nat, x: nat)
    requires x < Pow256(k)
    ensures Unsigned(BigEndian(k, x)) == x
  {
    if k > 0 {
      UnsignedOfBigEndian(k - 1, x / 256);
      assert BigEndian(k, x)[..k - 1] == BigEndian(k - 1, x / 256);
    }
  }

  lemma WordWidths()
    ensures Pow256(4) == 0x1_0000_0000 && Pow256(8) == 0x1_0000_0000_0000_0000
  {
    assert Pow256(2) == 65536;
    assert Pow256(4) == 65536 * Pow256(2);
    assert Pow256(6) == 65536 * Pow256(4);
    assert Pow256(8) == 65536 * Pow256(6);
  }

  /** The records at the front of s that `read` accepts, and the offset where they end. `read` gives
      a record and the number of bytes it occupies. */
  function Scan<T>(read: Bytes -> Option<(T, nat)>, s: Bytes): (seq<T>, nat)
    decreases |s|
  {
    match read(s)
    case None => ([], 0)
    case Some((r, n)) =>
      if 0 < n <= |s| then
        var (rest, k) := Scan(read, s[n..]);
        ([r] + rest, n + k)
      else ([], 0)
  }

  function Encode<T>(enc: T -> Bytes, rs: seq<T>): Bytes {
    if rs == [] then [] else enc(rs[0]) + Encode(enc, rs[1..])
  }

  /** `read` finds r in front of anything that follows its encoding. */
  ghost predicate Finds<T(!new)>(read: Bytes -> Option<(T, nat)>, enc: T -> Bytes, r: T) {
    enc(r) != [] && forall rest :: read(enc(r) + rest) == Some((r, |enc(r)|))
  }

  lemma {:induction false} ScanEncoded<T(!new)>(read: Bytes -> Option<(T, nat)>, enc: T -> Bytes, rs: seq<T>,
        tail: Bytes)
    requires forall i :: 0 <= i < |rs| ==> Finds(read, enc, rs[i])
    requires read(tail).None?
    ensures Scan(read, Encode(enc, rs) + tail) == (rs, |Encode(enc, rs)|)
  {
    if rs == [] {
      assert [] + tail == tail;
    } else {
      var rest := Encode(enc, rs[1..]) + tail;
      assert Finds(read, enc, rs[0]) && rs == [rs[0]] + rs[1..];
      assert Encode(enc, rs) + tail == enc(rs[0]) + rest;
      assert (enc(rs[0]) + rest)[|enc(rs[0])|..] == rest;
      assert read(enc(rs[0]) + rest) == Some((rs[0], |enc(rs[0])|));
      ScanEncoded(read, enc, rs[1..], tail);
    }
  }

  lemma {:induction false} EncodeConcat<T>(enc: T -> Bytes, a: seq<T>, b: seq<T>)
    ensures Encode(enc, a + b) == Encode(enc, a) + Encode(enc, b)
  {
    if a == [] {
      assert a + b == b;
    } else {
      assert (a + b)[1..] == a[1..] + b;
      EncodeConcat(enc, a[1..], b);
    }
  }

  lemma EncodeSnoc<T>(enc: T -> Bytes, rs: seq<T>, r: T)
    ensures Encode(enc, rs + [r]) == Encode(enc, rs) + enc(r)
  {
    EncodeConcat(enc, rs, [r]);
    assert [r][1..] == [];
  }

  lemma Assoc(a: Bytes, b: Bytes, c: Bytes)
    ensures a + b + c == a + (b + c)
  {
  }

  /** A record that is not read ends the scan, whatever follows it. */
  lemma ScanStops<T(!new)>(read: Bytes -> Option<(T, nat)>, enc: T -> Bytes, before: seq<T>, r: T, rest: seq<T>)
    requires forall i :: 0 <= i < |before| ==> Finds(read, enc, before[i])
    requires read(enc(r) + Encode(enc, rest)).None?
    ensures Scan(read, Encode(enc, before + [r] + rest)).0 == before
  {
    ScanEncoded(read, enc, before, enc(r) + Encode(enc, rest));
    EncodeSnoc(enc, before, r);
    EncodeConcat(enc, before + [r], rest);
    Assoc(Encode(enc, before), enc(r), Encode(enc, rest));
  }
}
