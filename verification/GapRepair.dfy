/** Gap repair end to end: a receiver missing messages from `begin` on is fed, through the wire, the
    frames that answer its ResendRequest(begin, 0). */
module GapRepair {
  import opened Decimal
  import opened Codec
  import opened Resend
  import opened Retransmit
  import opened Session

  // ── The wire ───────────────────────────────────────────────────────────────

  function Bytes(frames: seq<seq<Field>>): string {
    if frames == [] then "" else Build(frames[0]) + Bytes(frames[1..])
  }

  /** The messages a parser reads one after the other, up to the first it cannot read. */
  function ReadAll(max: nat, input: string): seq<Message>
    decreases |input|
  {
    match ReadMessage(max, input)
    case Received(m, rest) =>
      ReadIsExact(max, input);
      ReadShrinks(max, input);
      [m] + ReadAll(max, rest)
    case _ => []
  }

  lemma ReadShrinks(max: nat, input: string)
    ensures var r := ReadMessage(max, input); r.Received? ==> |r.rest| < |input|
  {
    if ReadMessage(max, input).Received? {
      var _, _, _, _ := Accepted(max, input);
      ReadIsExact(max, input);
      SerializedEndsWithSOH(ReadMessage(max, input).msg);
    }
  }

  function Wires(frames: seq<seq<Field>>): seq<Message> {
    if frames == [] then [] else [Wire(frames[0])] + Wires(frames[1..])
  }

  predicate AllSendable(max: nat, frames: seq<seq<Field>>) {
    frames == [] || (Sendable(max, frames[0]) && AllSendable(max, frames[1..]))
  }

  /** Sendable frames written back to back are read as exactly the messages they carry. */
  lemma {:induction false} StreamIsRead(max: nat, frames: seq<seq<Field>>)
    requires max <= MAX_INT64 && AllSendable(max, frames)
    ensures ReadAll(max, Bytes(frames)) == Wires(frames)
  {
    if frames == [] {
      assert ReadMessage(max, "") == Incomplete;
    } else {
      ReadSendable(max, frames[0], Bytes(frames[1..]));
      StreamIsRead(max, frames[1..]);
    }
  }

  // ── The receiver ───────────────────────────────────────────────────────────

  ghost function Feed(w: World, at: Clock, s: State, msgs: seq<Message>): (State, Outcome)
    requires KeyedByNumber(s.inb.pending)
    decreases |msgs|
  {
    if msgs == [] then (s, Continue)
    else
      KeyedAfter(w, at, s, msgs[0]);
      var (next, o) := Dispatch(w, at, s, msgs[0]);
      if o.Continue? then Feed(w, at, next, msgs[1..]) else (next, o)
  }

  /** The checks an in-order retransmission must pass: duplicate and sending times, type, dictionary. */
  predicate Passes(w: World, at: Clock, m: Message) {
    CheckPossDup(w, m).None? && Get(m, 52) != "" && CheckSendingTime(w, at, m).None?
    && ValidMsgType(Get(m, 35)) && w.dictionary(m).None?
  }

  ghost predicate AllStoresWork(w: World) {
    (forall k :: w.storeOk(k)) && (forall k :: w.queueOk(k))
  }

  function Cleared(resendTo: int, inSeq: int): int {
    if resendTo != 0 && inSeq > resendTo then 0 else resendTo
  }

  // ── Empty buffer ───────────────────────────────────────────────────────────

  lemma DrainEmpty(w: World, at: Clock, s: State)
    requires s.inb.pending == map[]
    ensures KeyedByNumber(s.inb.pending) && Drain(w, at, s) == (s, Continue)
  {
  }

  lemma ConsumeWorks(w: World, s: State)
    requires AllStoresWork(w) && !s.closed
    ensures var (t, ok) := Consumed(w, s, true);
            ok && t == s.(inb := s.inb.(inSeq := s.inb.inSeq + 1, pending := DropBelow(s.inb.pending, s.inb.inSeq + 1),
                                       resendTo := Cleared(s.inb.resendTo, s.inb.inSeq + 1)),
                          writes := s.writes + 1, nextIn := s.inb.inSeq + 1)
  {
    assert w.storeOk(s.writes);
  }

  /** What the message carrying tile t must read like, checks included. */
  predicate Carries(w: World, at: Clock, peer: string, t: Tile, m: Message) {
    Get(m, 49) == peer && Get(m, 56) == w.self && Atoi(Get(m, 34)) == Some(Start(t)) && IsPossDup(m) && Passes(w, at, m)
    && match t
       case Replay(_) => !IsAdmin(Get(m, 35))
       case Fill(_, next) => Get(m, 35) == "4" && Get(m, 123) == "Y" && GetInt(m, 36) == next
  }

  /** A receiver that expects n and has no finished request outstanding. */
  predicate Waiting(w: World, s: State, n: int) {
    Live(s) && !s.closed && s.target != "" && w.self != "" && s.inb.inSeq == n
    && (s.inb.resendTo == 0 || s.inb.resendTo >= n)
  }

  /** Retransmission of the expected number: consumed once and handed to the application. */
  lemma ReplayStep(w: World, at: Clock, s: State, m: Message, n: int)
    requires AllStoresWork(w) && Waiting(w, s, n) && s.inb.pending == map[] && n >= 1
    requires Carries(w, at, s.target, Replay(n), m)
    ensures KeyedByNumber(s.inb.pending)
    ensures var (t, o) := Dispatch(w, at, s, m);
            o == Continue && Waiting(w, t, n + 1) && t.target == s.target
            && t.inb == s.inb.(inSeq := t.inb.inSeq, resendTo := Cleared(s.inb.resendTo, n + 1),
                               handled := s.inb.handled + [Delivery(s.inb.epoch, n, m)])
  {
    ConsumeWorks(w, s);
    assert DropBelow(map[], n + 1) == map[];
    assert DecideFor(w, at, s, m, n) == Consume(true, ToHandler);
    DrainEmpty(w, at, DispatchOne(w, at, s, m).0);
  }

  /** GapFill from the expected number: the receiver jumps to NewSeqNo and delivers nothing. */
  lemma {:induction false} FillStep(w: World, at: Clock, s: State, m: Message, n: int, next: int)
    requires AllStoresWork(w) && Waiting(w, s, n) && s.inb.pending == map[] && 1 <= n < next
    requires Carries(w, at, s.target, Fill(n, next), m)
    ensures KeyedByNumber(s.inb.pending)
    ensures var (t, o) := Dispatch(w, at, s, m);
            o == Continue && Waiting(w, t, next) && t.target == s.target
            && t.inb == s.inb.(inSeq := t.inb.inSeq, resendTo := Cleared(s.inb.resendTo, next))
  {
    ConsumeWorks(w, s);
    assert DropBelow(map[], n + 1) == map[] && DropBelow(map[], next) == map[];
    assert DecideFor(w, at, s, m, n) == Consume(true, NewSeqNo(next));
    assert w.storeOk(s.writes + 1);
    DrainEmpty(w, at, DispatchOne(w, at, s, m).0);
  }

  // ── Whole answer ───────────────────────────────────────────────────────────

  predicate AllCarry(w: World, at: Clock, peer: string, ts: seq<Tile>, msgs: seq<Message>) {
    if ts == [] then msgs == []
    else msgs != [] && Carries(w, at, peer, ts[0], msgs[0]) && AllCarry(w, at, peer, ts[1..], msgs[1..])
  }

  function Deliveries(epoch: nat, ts: seq<Tile>, msgs: seq<Message>): seq<Delivery>
    requires |ts| == |msgs|
  {
    if ts == [] then []
    else Handed(epoch, ts[0], msgs[0]) + Deliveries(epoch, ts[1..], msgs[1..])
  }

  lemma FeedStep(w: World, at: Clock, s: State, msgs: seq<Message>)
    requires msgs != [] && KeyedByNumber(s.inb.pending)
    ensures var (r, o) := Dispatch(w, at, s, msgs[0]);
            KeyedByNumber(r.inb.pending) && (o == Continue ==> Feed(w, at, s, msgs) == Feed(w, at, r, msgs[1..]))
  {
    KeyedAfter(w, at, s, msgs[0]);
  }

  function Handed(epoch: nat, t: Tile, m: Message): seq<Delivery> {
    if t.Replay? then [Delivery(epoch, t.n, m)] else []
  }

  lemma TileStep(w: World, at: Clock, s: State, t: Tile, m: Message)
    requires AllStoresWork(w) && Waiting(w, s, Start(t)) && s.inb.pending == map[] && 1 <= Start(t) < Next(t)
    requires Carries(w, at, s.target, t, m)
    ensures KeyedByNumber(s.inb.pending)
    ensures var (r, o) := Dispatch(w, at, s, m);
            o == Continue && Waiting(w, r, Next(t)) && r.target == s.target
            && r.inb == s.inb.(inSeq := r.inb.inSeq, resendTo := Cleared(s.inb.resendTo, Next(t)),
                               handled := s.inb.handled + Handed(s.inb.epoch, t, m))
  {
    match t {
      case Replay(n) => ReplayStep(w, at, s, m, n);
      case Fill(from, next) =>
        FillStep(w, at, s, m, from, next);
        assert s.inb.handled + [] == s.inb.handled;
    }
  }

  /** The inbound state after a repair up to hi that delivered ds. */
  predicate Repaired(before: Inbound, after: Inbound, hi: int, ds: seq<Delivery>) {
    after.inSeq == hi && after.pending == before.pending && after.resendTo == Cleared(before.resendTo, hi)
    && after.epoch == before.epoch && after.handled == before.handled + ds && after.asked == before.asked
  }

  lemma RepairedTwice(i: Inbound, j: Inbound, k: Inbound, mid: int, hi: int, ds: seq<Delivery>, es: seq<Delivery>)
    requires mid <= hi && Repaired(i, j, mid, ds) && Repaired(j, k, hi, es)
    ensures Repaired(i, k, hi, ds + es)
  {
    assert i.handled + ds + es == i.handled + (ds + es);
  }

  lemma {:induction false} TilesRepair(w: World, at: Clock, s: State, can: int -> bool, ts: seq<Tile>,
        msgs: seq<Message>, lo: int, hi: int)
    requires AllStoresWork(w) && Waiting(w, s, lo) && s.inb.pending == map[] && 1 <= lo
    requires Tiling(can, ts, lo, hi) && |ts| == |msgs| && AllCarry(w, at, s.target, ts, msgs)
    ensures KeyedByNumber(s.inb.pending)
    ensures var (t, o) := Feed(w, at, s, msgs);
            o == Continue && Repaired(s.inb, t.inb, hi, Deliveries(s.inb.epoch, ts, msgs))
    decreases |ts|
  {
    if ts == [] {
      assert s.inb.handled + [] == s.inb.handled;
    } else {
      TileStep(w, at, s, ts[0], msgs[0]);
      FeedStep(w, at, s, msgs);
      var r := Dispatch(w, at, s, msgs[0]).0;
      TilingGrows(can, ts, lo, hi);
      TilesRepair(w, at, r, can, ts[1..], msgs[1..], Next(ts[0]), hi);
      RepairedTwice(s.inb, r.inb, Feed(w, at, r, msgs[1..]).0.inb, Next(ts[0]), hi,
                    Handed(s.inb.epoch, ts[0], msgs[0]), Deliveries(s.inb.epoch, ts[1..], msgs[1..]));
    }
  }

  // ── From stored frames to the wire ─────────────────────────────────────────

  /** Who answers (peer), to whom (self), from which store, at what time. */
  datatype Answering = Answering(frames: map<nat, seq<Field>>, peer: string, self: string, time: string)

  function Framed(a: Answering, t: Tile): seq<Field> {
    FrameOf(a.frames, t, a.peer, a.self, a.time)
  }

  function FramesOf(a: Answering, ts: seq<Tile>): seq<seq<Field>> {
    if ts == [] then [] else [Framed(a, ts[0])] + FramesOf(a, ts[1..])
  }

  /** Every frame fits the receiver's parser and passes its time, type and dictionary checks. */
  predicate Answerable(w: World, at: Clock, max: nat, a: Answering, ts: seq<Tile>) {
    ts == []
    || (Sendable(max, Framed(a, ts[0])) && Passes(w, at, Wire(Framed(a, ts[0]))) && Answerable(w, at, max, a, ts[1..]))
  }

  lemma TileCarried(w: World, at: Clock, a: Answering, t: Tile)
    requires w.self == a.self && 1 <= Start(t) < Next(t) <= MAX_INT64 && Sound(Can(a.frames), t)
    requires Passes(w, at, Wire(Framed(a, t)))
    ensures Carries(w, at, a.peer, t, Wire(Framed(a, t)))
  {
    match t
    case Replay(n) =>
      assert Can(a.frames)(n);
      ReplayReads(Stored(a.frames, n).value, a.peer, a.self, n, a.time);
      AtoiOfItoa(n);
    case Fill(from, next) =>
      GapFillReads(a.peer, a.self, from, next, a.time);
      AtoiOfItoa(from);
  }

  lemma {:induction false} TilesCarried(w: World, at: Clock, max: nat, a: Answering, ts: seq<Tile>, lo: int, hi: int)
    requires w.self == a.self && 1 <= lo && hi <= MAX_INT64
    requires Tiling(Can(a.frames), ts, lo, hi) && Answerable(w, at, max, a, ts)
    ensures |Wires(FramesOf(a, ts))| == |ts| && AllCarry(w, at, a.peer, ts, Wires(FramesOf(a, ts)))
    ensures AllSendable(max, FramesOf(a, ts))
  {
    if ts != [] {
      TilingGrows(Can(a.frames), ts, lo, hi);
      TileCarried(w, at, a, ts[0]);
      TilesCarried(w, at, max, a, ts[1..], Next(ts[0]), hi);
      UnfoldFrames(a, ts);
    }
  }

  lemma UnfoldFrames(a: Answering, ts: seq<Tile>)
    requires ts != []
    ensures var fs := FramesOf(a, ts); fs != [] && fs[0] == Framed(a, ts[0]) && fs[1..] == FramesOf(a, ts[1..])
    ensures var ms := Wires(FramesOf(a, ts));
            ms != [] && ms[0] == Wire(Framed(a, ts[0])) && ms[1..] == Wires(FramesOf(a, ts[1..]))
  {
    assert FramesOf(a, ts)[1..] == FramesOf(a, ts[1..]);
  }

  /** What the application must see: the stored application messages of [n, hi), once each, in order. */
  function Expected(can: int -> bool, replay: int -> Message, epoch: nat, n: int, hi: int): seq<Delivery>
    decreases if n < hi then hi - n else 0
  {
    if n >= hi then []
    else if can(n) then [Delivery(epoch, n, replay(n))] + Expected(can, replay, epoch, n + 1, hi)
    else Expected(can, replay, epoch, n + 1, hi)
  }

  /** The retransmission of number n as the receiver reads it. */
  function Replayed(a: Answering): int -> Message {
    n => Wire(Framed(a, Replay(n)))
  }

  lemma {:induction false} ExpectedSkips(can: int -> bool, replay: int -> Message, epoch: nat, n: int, next: int,
        hi: int)
    requires n <= next <= hi && forall k :: n <= k < next ==> !can(k)
    ensures Expected(can, replay, epoch, n, hi) == Expected(can, replay, epoch, next, hi)
    decreases next - n
  {
    if n < next { ExpectedSkips(can, replay, epoch, n + 1, next, hi); }
  }

  lemma ExpectedTile(can: int -> bool, replay: int -> Message, epoch: nat, t: Tile, m: Message, hi: int)
    requires Sound(can, t) && Start(t) < Next(t) <= hi && (t.Replay? ==> m == replay(t.n))
    ensures Expected(can, replay, epoch, Start(t), hi)
            == Handed(epoch, t, m) + Expected(can, replay, epoch, Next(t), hi)
  {
    if t.Fill? { ExpectedSkips(can, replay, epoch, Start(t), Next(t), hi); }
  }

  lemma {:induction false} DeliveriesAreExpected(a: Answering, epoch: nat, ts: seq<Tile>, lo: int, hi: int)
    requires Tiling(Can(a.frames), ts, lo, hi)
    ensures |Wires(FramesOf(a, ts))| == |ts|
    ensures Deliveries(epoch, ts, Wires(FramesOf(a, ts))) == Expected(Can(a.frames), Replayed(a), epoch, lo, hi)
  {
    if ts != [] {
      TilingGrows(Can(a.frames), ts, lo, hi);
      DeliveriesAreExpected(a, epoch, ts[1..], Next(ts[0]), hi);
      UnfoldFrames(a, ts);
      ExpectedTile(Can(a.frames), Replayed(a), epoch, ts[0], Wire(Framed(a, ts[0])), hi);
    }
  }

  /** A receiver that expects `begin`, with an empty buffer, reads from the wire the answer to its
      ResendRequest(begin, 0). It ends expecting the sender's next number, has delivered exactly the
      stored application messages from begin on, once each and in order, and no request is
      outstanding any more. */
  lemma GapIsRepaired(w: World, at: Clock, s: State, a: Answering, outSeq: nat, max: nat)
    requires AllStoresWork(w) && Waiting(w, s, s.inb.inSeq) && s.inb.pending == map[]
    requires 1 <= s.inb.inSeq <= outSeq <= MAX_INT64 && max <= MAX_INT64
    requires s.target == a.peer && w.self == a.self
    requires Answerable(w, at, max, a, Tiles(Can(a.frames), ClampBegin(s.inb.inSeq), ClampEnd(0, outSeq - 1), 0))
    ensures KeyedByNumber(s.inb.pending)
    ensures var ts := Tiles(Can(a.frames), ClampBegin(s.inb.inSeq), ClampEnd(0, outSeq - 1), 0);
            var (t, o) := Feed(w, at, s, ReadAll(max, Bytes(FramesOf(a, ts))));
            o == Continue && t.inb.inSeq == outSeq
            && t.inb.handled == s.inb.handled + Expected(Can(a.frames), Replayed(a), s.inb.epoch, s.inb.inSeq, outSeq)
            && (s.inb.resendTo < outSeq ==> t.inb.resendTo == 0)
  {
    var lo := s.inb.inSeq;
    var ts := Tiles(Can(a.frames), lo, outSeq - 1, 0);
    TilesFrom(Can(a.frames), lo, outSeq - 1, 0);
    TilesCarried(w, at, max, a, ts, lo, outSeq);
    StreamIsRead(max, FramesOf(a, ts));
    DeliveriesAreExpected(a, s.inb.epoch, ts, lo, outSeq);
    TilesRepair(w, at, s, Can(a.frames), ts, Wires(FramesOf(a, ts)), lo, outSeq);
  }
}
