/** Where a receiver stands while it reads an answer with messages already buffered, and what it delivers.
    A frame acts only on its own number; after it the buffered messages are taken as long as the next one is
    there, each leading to a number of its own. */
module Positions {
  import opened Codec
  import opened Resend
  import opened Session
  import opened GapRepair

  /** What taking a buffered message does: the number expected next and what is delivered. */
  datatype Turn = Turn(next: nat, gives: seq<Delivery>)

  predicate Forward(turns: map<nat, Turn>) {
    forall k :: k in turns ==> k < turns[k].next
  }

  predicate NoneCan(can: int -> bool, lo: int, hi: int) {
    forall n :: lo <= n < hi ==> !can(n)
  }

  /** A buffered GapFill skips only numbers the sender cannot replay, and nothing leads beyond hi. */
  predicate Truthful(can: int -> bool, turns: map<nat, Turn>, hi: int) {
    forall k :: k in turns ==>
      k < turns[k].next <= hi && (turns[k].next == k + 1 || NoneCan(can, k, turns[k].next))
  }

  // ── Runs of buffered messages ──────────────────────────────────────────────

  /** Where taking buffered messages from p on stops. */
  function RunEnd(turns: map<nat, Turn>, p: int, hi: int): int
    requires Forward(turns)
    decreases if p < hi then hi - p else 0
  {
    if p < hi && p in turns then RunEnd(turns, turns[p].next, hi) else p
  }

  /** What taking them up to hi delivers. */
  function RunGives(turns: map<nat, Turn>, p: int, hi: int): seq<Delivery>
    requires Forward(turns)
    decreases if p < hi then hi - p else 0
  {
    if p < hi && p in turns then turns[p].gives + RunGives(turns, turns[p].next, hi) else []
  }

  lemma RunStep(turns: map<nat, Turn>, p: int, hi: int)
    requires Forward(turns) && p in turns && p < hi
    ensures RunEnd(turns, p, hi) == RunEnd(turns, turns[p].next, hi)
    ensures RunGives(turns, p, hi) == turns[p].gives + RunGives(turns, turns[p].next, hi)
  {
  }

  /** The buffered messages lead from lo to hi. */
  predicate Spanned(turns: map<nat, Turn>, lo: int, hi: int)
    requires Forward(turns)
    decreases if lo < hi then hi - lo else 0
  {
    lo == hi || (lo < hi && lo in turns && Spanned(turns, turns[lo].next, hi))
  }

  lemma {:induction false} RunEndStops(turns: map<nat, Turn>, can: int -> bool, p: int, hi: int)
    requires Truthful(can, turns, hi) && p <= hi
    ensures Forward(turns)
    ensures var q := RunEnd(turns, p, hi);
            p <= q <= hi && q !in turns && Spanned(turns, p, q) && RunGives(turns, p, hi) == RunGives(turns, p, q)
    decreases if p < hi then hi - p else 0
  {
    if p < hi && p in turns { RunEndStops(turns, can, turns[p].next, hi); }
  }

  /** The way from lo stops at p for good. */
  lemma {:induction false} SpannedStops(turns: map<nat, Turn>, lo: int, p: int, hi: int)
    requires Forward(turns) && Spanned(turns, lo, p) && p !in turns && p < hi
    ensures !Spanned(turns, lo, hi)
    decreases if lo < p then p - lo else 0
  {
    if lo < p { SpannedStops(turns, turns[lo].next, p, hi); }
  }

  lemma {:induction false} SpannedSplit(turns: map<nat, Turn>, lo: int, mid: int, hi: int)
    requires Forward(turns) && Spanned(turns, lo, mid) && Spanned(turns, lo, hi) && mid <= hi
    ensures Spanned(turns, mid, hi) && RunGives(turns, lo, hi) == RunGives(turns, lo, mid) + RunGives(turns, mid, hi)
    decreases if lo < mid then mid - lo else 0
  {
    if lo < mid {
      SpannedSplit(turns, turns[lo].next, mid, hi);
      var a, b, c := turns[lo].gives, RunGives(turns, turns[lo].next, mid), RunGives(turns, mid, hi);
      assert a + (b + c) == a + b + c;
    } else {
      assert [] + RunGives(turns, mid, hi) == RunGives(turns, mid, hi);
    }
  }

  /** No step leads across a number where the sender's answer goes on with a replay. */
  lemma {:induction false} SpannedThrough(turns: map<nat, Turn>, can: int -> bool, lo: int, mid: int, p: int, hi: int)
    requires Truthful(can, turns, hi) && lo <= mid <= p <= hi && (mid == hi || can(mid))
    requires Forward(turns) && Spanned(turns, lo, p)
    ensures Spanned(turns, lo, mid)
    decreases if lo < mid then mid - lo else 0
  {
    if lo < mid {
      SpannedThrough(turns, can, turns[lo].next, mid, p, hi);
    }
  }

  // ── The answer ─────────────────────────────────────────────────────────────

  /** The number expected after the frames of ts, starting from p. */
  function Position(turns: map<nat, Turn>, ts: seq<Tile>, p: int, hi: int): int
    requires Forward(turns)
  {
    if ts == [] then p
    else Position(turns, ts[1..], if p == Start(ts[0]) then RunEnd(turns, Next(ts[0]), hi) else p, hi)
  }

  /** What they deliver. */
  function Gives(turns: map<nat, Turn>, ts: seq<Tile>, msgs: seq<Message>, epoch: nat, p: int, hi: int): seq<Delivery>
    requires Forward(turns) && |ts| == |msgs|
  {
    if ts == [] then []
    else if p == Start(ts[0]) then
      Handed(epoch, ts[0], msgs[0]) + RunGives(turns, Next(ts[0]), hi)
      + Gives(turns, ts[1..], msgs[1..], epoch, RunEnd(turns, Next(ts[0]), hi), hi)
    else Gives(turns, ts[1..], msgs[1..], epoch, p, hi)
  }

  /** No GapFill starts at a buffered number unless the buffer leads through all it covers. */
  predicate Aligned(turns: map<nat, Turn>, ts: seq<Tile>)
    requires Forward(turns)
  {
    ts == []
    || ((ts[0].Fill? && ts[0].from in turns ==> Spanned(turns, ts[0].from, ts[0].next)) && Aligned(turns, ts[1..]))
  }

  /** What the application is due: from the buffer what is buffered, the rest as it is sent again. */
  function Due(turns: map<nat, Turn>, ts: seq<Tile>, msgs: seq<Message>, epoch: nat): seq<Delivery>
    requires Forward(turns) && |ts| == |msgs|
  {
    if ts == [] then []
    else
      (if Start(ts[0]) in turns then RunGives(turns, Start(ts[0]), Next(ts[0])) else Handed(epoch, ts[0], msgs[0]))
      + Due(turns, ts[1..], msgs[1..], epoch)
  }

  lemma {:induction false} PositionStuck(turns: map<nat, Turn>, can: int -> bool, ts: seq<Tile>, p: int, lo: int,
        hi: int)
    requires Forward(turns) && Tiling(can, ts, lo, hi) && p < lo
    ensures Position(turns, ts, p, hi) == p
  {
    if ts != [] { PositionStuck(turns, can, ts[1..], p, Next(ts[0]), hi); }
  }

  /** The answer goes on with a replay, or ends. */
  lemma TileEnds(turns: map<nat, Turn>, can: int -> bool, ts: seq<Tile>, p: int, lo: int, hi: int)
    requires Tiling(can, ts, lo, hi) && ts != [] && Truthful(can, turns, hi) && Forward(turns)
    requires Spanned(turns, lo, p) && lo < Next(ts[0]) <= p <= hi
    ensures Spanned(turns, lo, Next(ts[0])) && Spanned(turns, Next(ts[0]), p)
    ensures RunGives(turns, lo, p) == RunGives(turns, lo, Next(ts[0])) + RunGives(turns, Next(ts[0]), p)
  {
    var next := Next(ts[0]);
    if ts[0].Replay? {
      assert turns[lo].next == next;
    } else {
      if ts[1..] != [] { assert ts[1..][0] == ts[1] && can(next); }
      SpannedThrough(turns, can, lo, next, p, hi);
    }
    SpannedSplit(turns, lo, next, p);
  }

  /** From anywhere the buffer leads to, the whole answer is got past if and only if it is aligned. */
  lemma {:induction false} PositionReachesEnd(turns: map<nat, Turn>, can: int -> bool, ts: seq<Tile>, p: int,
                                              lo: int, hi: int)
    requires Tiling(can, ts, lo, hi) && Truthful(can, turns, hi) && Forward(turns)
    requires lo <= p <= hi && p !in turns && Spanned(turns, lo, p)
    ensures Position(turns, ts, p, hi) == hi <==> Aligned(turns, ts)
  {
    if ts != [] {
      var next := Next(ts[0]);
      TilingGrows(can, ts, lo, hi);
      if p == lo {
        RunEndStops(turns, can, next, hi);
        PositionReachesEnd(turns, can, ts[1..], RunEnd(turns, next, hi), next, hi);
      } else if next <= p {
        TileEnds(turns, can, ts, p, lo, hi);
        PositionReachesEnd(turns, can, ts[1..], p, next, hi);
      } else {
        PositionStuck(turns, can, ts[1..], p, next, hi);
        SpannedStops(turns, lo, p, next);
      }
    }
  }

  lemma Regroup(a: seq<Delivery>, b: seq<Delivery>, c: seq<Delivery>)
    ensures a + b + c == a + (b + c)
  {
  }

  /** An aligned answer and the buffer together give each application message once and in order. */
  lemma {:induction false} GivesWhatIsDue(turns: map<nat, Turn>, can: int -> bool, ts: seq<Tile>, msgs: seq<Message>,
                                          epoch: nat, p: int, lo: int, hi: int)
    requires Tiling(can, ts, lo, hi) && Truthful(can, turns, hi) && Forward(turns) && |ts| == |msgs|
    requires lo <= p <= hi && p !in turns && Spanned(turns, lo, p) && Aligned(turns, ts)
    ensures RunGives(turns, lo, p) + Gives(turns, ts, msgs, epoch, p, hi) == Due(turns, ts, msgs, epoch)
    decreases |ts|
  {
    if ts != [] {
      var next := Next(ts[0]);
      TilingGrows(can, ts, lo, hi);
      if p == lo {
        var q := RunEnd(turns, next, hi);
        RunEndStops(turns, can, next, hi);
        GivesWhatIsDue(turns, can, ts[1..], msgs[1..], epoch, q, next, hi);
        Regroup(Handed(epoch, ts[0], msgs[0]), RunGives(turns, next, hi),
                Gives(turns, ts[1..], msgs[1..], epoch, q, hi));
      } else if next <= p {
        TileEnds(turns, can, ts, p, lo, hi);
        GivesWhatIsDue(turns, can, ts[1..], msgs[1..], epoch, p, next, hi);
        Regroup(RunGives(turns, lo, next), RunGives(turns, next, p), Gives(turns, ts[1..], msgs[1..], epoch, p, hi));
      } else {
        SpannedStops(turns, lo, p, next);
        assert false;
      }
    }
  }
}
