/** Answering a ResendRequest: stored application messages are replayed, everything else is
    covered by SequenceReset-GapFill. */
module Resend {
  import opened Decimal
  import opened Codec
  import opened CodecLoops

  /** One emitted frame: the replay of a stored message, or a GapFill from `from` up to NewSeqNo `next`. */
  datatype Tile = Replay(n: int) | Fill(from: int, next: int)

  predicate IsAdmin(t: string) {
    t == "A" || t == "0" || t == "1" || t == "2" || t == "3" || t == "4" || t == "5"
  }

  /** storedMessage: the frame saved under n, parsed back; None when absent or unreadable. */
  function Stored(frames: map<nat, seq<Field>>, n: int): Option<Message> {
    if n !in frames then None
    else
      match ReadMessage(DEFAULT_MAX_BODY, Build(frames[n]))
      case Received(m, _) => Some(m)
      case _ => None
  }

  predicate Replayable(frames: map<nat, seq<Field>>, n: int) {
    Stored(frames, n).Some? && !IsAdmin(Get(Stored(frames, n).value, 35))
  }

  function Flush(gapStart: int, next: int): seq<Tile> {
    if gapStart == 0 then [] else [Fill(gapStart, next)]
  }

  /** Which numbers are replayed, as a function of the store. */
  function Can(frames: map<nat, seq<Field>>): int -> bool {
    n => Replayable(frames, n)
  }

  /** The tiles still to be emitted when the loop stands at n with an open gap at gapStart (0 = none). */
  function Tiles(can: int -> bool, n: int, end: int, gapStart: int): seq<Tile>
    decreases if n <= end then end - n + 1 else 0
  {
    if n > end then Flush(gapStart, end + 1)
    else if can(n) then Flush(gapStart, n) + [Replay(n)] + Tiles(can, n + 1, end, 0)
    else Tiles(can, n + 1, end, if gapStart == 0 then n else gapStart)
  }

  function ClampBegin(begin: int): int {
    if begin < 1 then 1 else begin
  }

  function ClampEnd(end: int, last: int): int {
    if end == 0 || end > last then last else end
  }

  // ── What the answer must be ────────────────────────────────────────────────

  function Start(t: Tile): int {
    match t case Replay(n) => n case Fill(from, _) => from
  }

  function Next(t: Tile): int {
    match t case Replay(n) => n + 1 case Fill(_, next) => next
  }

  predicate Sound(can: int -> bool, t: Tile) {
    match t
    case Replay(n) => can(n)
    case Fill(from, next) => forall n :: from <= n < next ==> !can(n)
  }

  /** Every number of [lo, hi) is covered exactly once, in order: a stored application message by its
      replay, any other number inside one GapFill; no two GapFills touch, so each is maximal. */
  predicate Tiling(can: int -> bool, ts: seq<Tile>, lo: int, hi: int) {
    if ts == [] then lo == hi
    else
      Start(ts[0]) == lo && lo < Next(ts[0]) && Sound(can, ts[0])
      && (ts[0].Fill? && |ts| > 1 ==> ts[1].Replay?)
      && Tiling(can, ts[1..], Next(ts[0]), hi)
  }

  lemma {:induction false} TilesFrom(can: int -> bool, n: int, end: int, gapStart: int)
    requires 1 <= n <= end + 1
    requires gapStart != 0 ==> 1 <= gapStart < n && forall k :: gapStart <= k < n ==> !can(k)
    ensures Tiling(can, Tiles(can, n, end, gapStart), if gapStart == 0 then n else gapStart, end + 1)
    decreases end + 1 - n
  {
    var ts := Tiles(can, n, end, gapStart);
    if n == end + 1 {
      if gapStart != 0 { assert ts[1..] == []; }
    } else if can(n) {
      TilesFrom(can, n + 1, end, 0);
      var rest := [Replay(n)] + Tiles(can, n + 1, end, 0);
      assert rest[1..] == Tiles(can, n + 1, end, 0);
      if gapStart == 0 {
        assert ts == rest;
      } else {
        assert ts == [Fill(gapStart, n)] + rest;
        assert ts[1..] == rest;
      }
    } else {
      TilesFrom(can, n + 1, end, if gapStart == 0 then n else gapStart);
    }
  }

  lemma {:induction false} TilingGrows(can: int -> bool, ts: seq<Tile>, lo: int, hi: int)
    requires Tiling(can, ts, lo, hi)
    ensures lo <= hi && (ts != [] ==> lo < hi && Next(ts[0]) <= hi)
  {
    if ts != [] { TilingGrows(can, ts[1..], Next(ts[0]), hi); }
  }

  lemma FirstTileForced(can: int -> bool, a: seq<Tile>, b: seq<Tile>, lo: int, hi: int)
    requires Tiling(can, a, lo, hi) && Tiling(can, b, lo, hi) && a != [] && b != []
    ensures a[0].Replay? ==> b[0] == a[0]
    ensures a[0].Fill? ==> b[0].Fill? && Next(b[0]) <= Next(a[0])
  {
    if a[0].Fill? {
      assert !can(lo);
      TilingGrows(can, b, lo, hi);
      if a[1..] != [] {
        assert a[1..][0] == a[1];
        assert can(Next(a[0]));
      }
    }
  }

  lemma {:induction false} TilingUnique(can: int -> bool, a: seq<Tile>, b: seq<Tile>, lo: int, hi: int)
    requires Tiling(can, a, lo, hi) && Tiling(can, b, lo, hi)
    ensures a == b
  {
    TilingGrows(can, a, lo, hi);
    TilingGrows(can, b, lo, hi);
    if a != [] && b != [] {
      FirstTileForced(can, a, b, lo, hi);
      FirstTileForced(can, b, a, lo, hi);
      TilingUnique(can, a[1..], b[1..], Next(a[0]), hi);
      assert a == [a[0]] + a[1..] && b == [b[0]] + b[1..];
    }
  }

  /** The answer to ResendRequest(begin, end) is the one and only tiling of the clamped range. */
  lemma AnswerIsTheTiling(can: int -> bool, last: int, begin: int, end: int, other: seq<Tile>)
    ensures var lo, hi := ClampBegin(begin), ClampEnd(end, last);
            var ts := Tiles(can, lo, hi, 0);
            if lo > hi then ts == []
            else Tiling(can, ts, lo, hi + 1) && (Tiling(can, other, lo, hi + 1) ==> other == ts)
  {
    var lo, hi := ClampBegin(begin), ClampEnd(end, last);
    if lo <= hi {
      var ts := Tiles(can, lo, hi, 0);
      TilesFrom(can, lo, hi, 0);
      if Tiling(can, other, lo, hi + 1) {
        TilingUnique(can, other, ts, lo, hi + 1);
      }
    }
  }

  // ── The frames ─────────────────────────────────────────────────────────────

  /** Header and session fields a retransmission rewrites. */
  predicate Rewritten(tag: nat) {
    tag == 8 || tag == 9 || tag == 10 || tag == 35 || tag == 49 || tag == 56 || tag == 34 || tag == 52
    || tag == 43 || tag == 122
  }

  function Business(m: Message): seq<Field> {
    if m == [] then []
    else if Rewritten(m[0].tag) then Business(m[1..])
    else [m[0]] + Business(m[1..])
  }

  function ResendFrame(m: Message, sender: string, target: string, n: int, time: string): seq<Field> {
    Header(Get(m, 35), sender, target, n, time) + [Field(43, "Y"), Field(122, Get(m, 52))] + Business(m)
  }

  function GapFillFrame(sender: string, target: string, from: int, next: int, time: string): seq<Field> {
    Header("4", sender, target, from, time)
    + [Field(43, "Y"), Field(122, time), Field(123, "Y"), Field(36, Itoa(next))]
  }

  function FrameOf(frames: map<nat, seq<Field>>, t: Tile, sender: string, target: string, time: string): seq<Field> {
    match t
    case Fill(from, next) => GapFillFrame(sender, target, from, next, time)
    case Replay(n) =>
      match Stored(frames, n)
      case Some(m) => ResendFrame(m, sender, target, n, time)
      case None => []
  }

  /** How many of n queue insertions in a row succeed, when the next insertion is number `tries`. */
  function QueueAccepts(queueOk: nat -> bool, tries: nat, n: nat): (k: nat)
    ensures k <= n
    decreases n
  {
    if n == 0 || !queueOk(tries) then 0 else 1 + QueueAccepts(queueOk, tries + 1, n - 1)
  }

  lemma {:induction false} QueueAcceptsSplit(queueOk: nat -> bool, tries: nat, k: nat, n: nat)
    requires k <= n && forall i :: tries <= i < tries + k ==> queueOk(i)
    ensures QueueAccepts(queueOk, tries, n) == k + QueueAccepts(queueOk, tries + k, n - k)
    decreases k
  {
    if k > 0 { QueueAcceptsSplit(queueOk, tries + 1, k - 1, n - 1); }
  }

  lemma Regroup(a: seq<Tile>, b: seq<Tile>, c: seq<Tile>, d: seq<Tile>)
    ensures a + (b + c + d) == a + b + (c + d) == a + b + c + d
    ensures b == [] ==> a + b == a
  {
  }

  /** The resend loop over [lo, hi]: each frame goes to the queue, and the first refusal ends it. */
  method Answer(can: int -> bool, lo: int, hi: int, queueOk: nat -> bool, tries: nat)
    returns (out: seq<Tile>, all: bool)
    ensures var ts := Tiles(can, lo, hi, 0);
            out == ts[..QueueAccepts(queueOk, tries, |ts|)] && (all <==> |out| == |ts|)
  {
    ghost var ts := Tiles(can, lo, hi, 0);
    out, all := [], false;
    var gapStart := 0;
    var n := lo;
    while n <= hi
      invariant lo <= n && ts == out + Tiles(can, n, hi, gapStart)
      invariant forall i :: tries <= i < tries + |out| ==> queueOk(i)
      decreases hi + 1 - n
    {
      if !can(n) {
        if gapStart == 0 { gapStart := n; }
      } else {
        ghost var rest := Tiles(can, n + 1, hi, 0);
        Regroup(out, Flush(gapStart, n), [Replay(n)], rest);
        if gapStart != 0 {
          if !queueOk(tries + |out|) { QueueAcceptsSplit(queueOk, tries, |out|, |ts|); return; }
          out := out + [Fill(gapStart, n)];
          gapStart := 0;
        }
        if !queueOk(tries + |out|) { QueueAcceptsSplit(queueOk, tries, |out|, |ts|); return; }
        out := out + [Replay(n)];
      }
      n := n + 1;
    }
    QueueAcceptsSplit(queueOk, tries, |out|, |ts|);
    if gapStart != 0 {
      if !queueOk(tries + |out|) { return; }
      out := out + [Fill(gapStart, hi + 1)];
    }
    all := true;
  }
}
