/** Gap repair when messages from beyond the gap are already buffered. A GapFill whose own number has
    been consumed from the buffer is taken for a duplicate and dropped, so the repair completes exactly
    when no GapFill starts at a buffered number without the buffer leading through all it covers. */
module BufferedRepair {
  import opened Decimal
  import opened Codec
  import opened Resend
  import opened Session
  import opened SessionGaps
  import opened GapRepair
  import opened Positions

  // ── Taking a buffered message ──────────────────────────────────────────────

  /** Consumed in order, the message does not end the session. */
  predicate Steady(w: World, at: Clock, peer: string, m: Message) {
    !LacksIdentity(m) && !ForeignIdentity(w, peer, m) && !IsPlainReset(m) && !IsResetLogon(m)
    && match DecideInOrder(w, at, m)
       case Nothing(o) => o.Continue?
       case Reject(_, _, _, o) => o.Continue?
       case Logout => false
       case RejectAndLogout(_) => false
       case _ => true
  }

  /** What the session buffers is steady unless its sending time is out of bounds. */
  lemma BufferedIsSteady(w: World, at: Clock, peer: string, m: Message)
    requires Bufferable(w, peer, m)
    ensures Steady(w, at, peer, m) <==> !DecideInOrder(w, at, m).RejectAndLogout?
  {
  }

  predicate SteadyAt(w: World, at: Clock, peer: string, buffer: map<nat, Message>, k: nat) {
    k in buffer ==> Steady(w, at, peer, buffer[k])
  }

  /** Every buffered message numbered from p on is steady. */
  ghost predicate SteadyFrom(w: World, at: Clock, peer: string, buffer: map<nat, Message>, p: int) {
    forall k: nat :: k >= p ==> SteadyAt(w, at, peer, buffer, k)
  }

  /** A GapFill leads to its NewSeqNo if that is ahead, anything else to the next number. */
  function Lands(w: World, at: Clock, m: Message, p: nat): nat {
    match DecideInOrder(w, at, m)
    case NewSeqNo(k) => if k > p + 1 then k else p + 1
    case _ => p + 1
  }

  function TurnOf(w: World, at: Clock, epoch: nat, m: Message, p: nat): Turn {
    Turn(Lands(w, at, m, p), if DecideInOrder(w, at, m).ToHandler? then [Delivery(epoch, p, m)] else [])
  }

  function TurnsOf(w: World, at: Clock, epoch: nat, buffer: map<nat, Message>): map<nat, Turn> {
    map k | k in buffer :: TurnOf(w, at, epoch, buffer[k], k)
  }

  predicate Below(buffer: map<nat, Message>, hi: int) {
    forall k :: k in buffer ==> k < hi
  }

  /** The receiver expects p and holds what is left of the buffer from p on. */
  predicate Holding(w: World, s: State, buffer: map<nat, Message>, p: int) {
    Live(s) && !s.closed && s.inb.inSeq == p && p >= 1 && s.inb.pending == DropBelow(buffer, p)
  }

  lemma {:induction false} QueueAcceptsAll(w: World, tries: nat, n: nat)
    requires AllStoresWork(w)
    ensures QueueAccepts(w.queueOk, tries, n) == n
    decreases n
  {
    if n > 0 { QueueAcceptsAll(w, tries + 1, n - 1); }
  }

  lemma SteadyPerform(w: World, at: Clock, s: State, m: Message, n: int, r: Reply)
    requires AllStoresWork(w) && Live(s) && !s.closed
    requires r.Nothing? || r.Reject? || r.Heartbeat? || r.ServeResend? || r.ToHandler?
    ensures var (t, o) := Perform(w, at, s, m, n, r);
            Live(t) && !t.closed && t.target == s.target && t.inb.inSeq == s.inb.inSeq && t.inb.pending == s.inb.pending
            && t.inb.epoch == s.inb.epoch
            && t.inb.handled == s.inb.handled + (if r.ToHandler? then [Delivery(s.inb.epoch, n, m)] else [])
            && o == match r case Nothing(o') => o' case Reject(_, _, _, o') => o' case _ => Continue
  {
    assert w.storeOk(s.writes) && w.queueOk(s.tries);
    if r.ServeResend? {
      QueueAcceptsAll(w, s.tries, |Tiles(Can(s.out.frames), ClampBegin(GetInt(m, 7)), ClampEnd(GetInt(m, 16),
                      s.out.outSeq - 1), 0)|);
    }
  }

  lemma DropTwice(buffer: map<nat, Message>, p: nat, q: nat)
    requires p < q
    ensures DropBelow(DropBelow(buffer, p) - {p}, q) == DropBelow(buffer, q)
  {
  }

  /** What one message of the answer or the buffer did to the inbound side. */
  predicate Went(s: State, t: State, q: nat, ds: seq<Delivery>) {
    Live(t) && !t.closed && t.target == s.target && t.inb.inSeq == q && t.inb.pending == DropBelow(s.inb.pending, q)
    && t.inb.epoch == s.inb.epoch && t.inb.handled == s.inb.handled + ds
  }

  lemma {:induction false} NewSeqNoWent(w: World, at: Clock, s: State, p: nat, k: int)
    requires AllStoresWork(w) && Live(s) && !s.closed && s.inb.inSeq == p + 1
    ensures var t := ApplyNewSeqNo(w, at, s, k, p);
            Live(t) && !t.closed && t.target == s.target && t.inb.epoch == s.inb.epoch && t.inb.handled == s.inb.handled
            && t.inb.inSeq == (if k > p + 1 then k else p + 1)
            && t.inb.pending == (if k < p + 1 then s.inb.pending else DropBelow(s.inb.pending, k))
  {
    assert w.storeOk(s.writes) && w.queueOk(s.tries);
  }

  /** An in-order message that is steady leads where its turn says. */
  lemma {:induction false} SteadyStep(w: World, at: Clock, s: State, peer: string, m: Message, p: nat)
    requires AllStoresWork(w) && Live(s) && !s.closed && s.inb.inSeq == p && p >= 1
    requires Atoi(Get(m, 34)) == Some(p) && s.target == peer && Steady(w, at, peer, m)
    ensures var (t, o) := DispatchOne(w, at, s, m); var turn := TurnOf(w, at, s.inb.epoch, m, p);
            o == Continue && Went(s, t, turn.next, turn.gives)
  {
    var r := DecideInOrder(w, at, m);
    assert DecideFor(w, at, s, m, p) == Consume(true, r);
    DispatchIs(w, at, s, m, p, Consume(true, r));
    ConsumeWorks(w, s);
    var moved := Consumed(w, s, true).0;
    if r.NewSeqNo? {
      NewSeqNoWent(w, at, moved, p, r.newSeq);
      DropLater(s.inb.pending, p + 1, Lands(w, at, m, p));
      assert s.inb.handled + [] == s.inb.handled;
    } else {
      SteadyPerform(w, at, moved, m, p, r);
    }
  }

  lemma DropLater(buffer: map<nat, Message>, p: int, q: int)
    requires p <= q
    ensures DropBelow(DropBelow(buffer, p), q) == DropBelow(buffer, q)
  {
  }

  // ── The drain ──────────────────────────────────────────────────────────────

  /** One turn of the drain loop. */
  lemma {:induction false} DrainTurn(w: World, at: Clock, s: State, peer: string, buffer: map<nat, Message>, p: nat)
    returns (t: State)
    requires AllStoresWork(w) && Holding(w, s, buffer, p) && p in buffer && KeyedByNumber(s.inb.pending)
    requires s.target == peer && Steady(w, at, peer, buffer[p])
    ensures var turn := TurnOf(w, at, s.inb.epoch, buffer[p], p);
            Holding(w, t, buffer, turn.next) && t.inb.handled == s.inb.handled + turn.gives
    ensures t.target == s.target && t.inb.epoch == s.inb.epoch
    ensures KeyedByNumber(t.inb.pending) && Drain(w, at, s) == Drain(w, at, t)
  {
    var popped := s.(inb := s.inb.(pending := s.inb.pending - {p}));
    assert s.inb.pending[p] == buffer[p];
    SteadyStep(w, at, popped, peer, buffer[p], p);
    DropTwice(buffer, p, Lands(w, at, buffer[p], p));
    t := DispatchOne(w, at, popped, buffer[p]).0;
    DrainOnce(w, at, s, t);
  }

  lemma DrainStops(w: World, at: Clock, s: State, buffer: map<nat, Message>, p: nat)
    requires KeyedByNumber(s.inb.pending) && Holding(w, s, buffer, p) && p !in buffer
    ensures Drain(w, at, s) == (s, Continue)
  {
  }

  lemma Chained(a: seq<Delivery>, b: seq<Delivery>, c: seq<Delivery>)
    ensures a + b + c == a + (b + c)
  {
  }

  /** The drain takes the buffered messages from p on as far as they lead, and delivers what they give. */
  lemma {:induction false} DrainRuns(w: World, at: Clock, s: State, peer: string, buffer: map<nat, Message>, p: nat,
                                     hi: int, turns: map<nat, Turn>)
    returns (t: State)
    requires AllStoresWork(w) && Holding(w, s, buffer, p) && Below(buffer, hi)
    requires KeyedByNumber(s.inb.pending) && s.target == peer && SteadyFrom(w, at, peer, buffer, p)
    requires turns == TurnsOf(w, at, s.inb.epoch, buffer)
    ensures Drain(w, at, s) == (t, Continue) && t.target == peer && t.inb.epoch == s.inb.epoch
    ensures Holding(w, t, buffer, RunEnd(turns, p, hi)) && t.inb.handled == s.inb.handled + RunGives(turns, p, hi)
    decreases if p < hi then hi - p else 0
  {
    if p in buffer {
      assert SteadyAt(w, at, peer, buffer, p);
      var next := DrainTurn(w, at, s, peer, buffer, p);
      RunStep(turns, p, hi);
      var q := turns[p].next;
      t := DrainRuns(w, at, next, peer, buffer, q, hi, turns);
      Chained(s.inb.handled, turns[p].gives, RunGives(turns, q, hi));
    } else {
      DrainStops(w, at, s, buffer, p);
      t := s;
      assert s.inb.handled + [] == s.inb.handled;
    }
  }

  // ── One frame of the answer ────────────────────────────────────────────────

  lemma CarriedIsSteady(w: World, at: Clock, peer: string, t: Tile, m: Message)
    requires Carries(w, at, peer, t, m) && peer != "" && w.self != "" && 1 <= Start(t) < Next(t)
    ensures Steady(w, at, peer, m)
    ensures forall epoch :: TurnOf(w, at, epoch, m, Start(t)) == Turn(Next(t), Handed(epoch, t, m))
  {
  }

  lemma DispatchThenDrain(w: World, at: Clock, s: State, m: Message, r: State)
    requires KeyedByNumber(s.inb.pending) && DispatchOne(w, at, s, m) == (r, Continue)
    ensures KeyedByNumber(r.inb.pending) && Dispatch(w, at, s, m) == Drain(w, at, r)
  {
    DispatchKeyed(w, at, s, m);
  }

  /** The frame that carries the expected number, and the buffered messages after it. */
  lemma {:induction false} TileAt(w: World, at: Clock, s: State, t: Tile, m: Message, buffer: map<nat, Message>,
        hi: int, turns: map<nat, Turn>)
    returns (r: State)
    requires AllStoresWork(w) && Holding(w, s, buffer, Start(t)) && s.target != "" && w.self != "" && Start(t) < Next(t)
    requires Carries(w, at, s.target, t, m) && Below(buffer, hi) && KeyedByNumber(s.inb.pending)
    requires SteadyFrom(w, at, s.target, buffer, Start(t)) && turns == TurnsOf(w, at, s.inb.epoch, buffer)
    ensures Dispatch(w, at, s, m) == (r, Continue) && r.target == s.target && r.inb.epoch == s.inb.epoch
    ensures Holding(w, r, buffer, RunEnd(turns, Next(t), hi))
    ensures r.inb.handled == s.inb.handled + (Handed(s.inb.epoch, t, m) + RunGives(turns, Next(t), hi))
  {
    CarriedIsSteady(w, at, s.target, t, m);
    SteadyStep(w, at, s, s.target, m, Start(t));
    DropLater(buffer, Start(t), Next(t));
    var next := DispatchOne(w, at, s, m).0;
    DispatchThenDrain(w, at, s, m, next);
    r := DrainRuns(w, at, next, s.target, buffer, Next(t), hi, turns);
    Chained(s.inb.handled, Handed(s.inb.epoch, t, m), RunGives(turns, Next(t), hi));
  }

  /** A frame whose number was already consumed is a duplicate and changes nothing. */
  lemma TileBelow(w: World, at: Clock, s: State, t: Tile, m: Message)
    requires Live(s) && s.inb.inSeq !in s.inb.pending && KeyedByNumber(s.inb.pending) && s.target != "" && w.self != ""
    requires Carries(w, at, s.target, t, m) && 1 <= Start(t) < s.inb.inSeq
    ensures Dispatch(w, at, s, m) == (s, Continue)
  {
    assert DecideFor(w, at, s, m, Start(t)) == Just(Nothing(Continue));
    DispatchIs(w, at, s, m, Start(t), Just(Nothing(Continue)));
    DispatchThenDrain(w, at, s, m, s);
  }

  /** A receiver that lacks a number nothing in the buffer supplies. */
  predicate Lacking(w: World, s: State, p: int) {
    Live(s) && !s.closed && s.target != "" && w.self != "" && s.inb.inSeq == p && p >= 1 && p !in s.inb.pending
  }

  /** A frame ahead of the missing number leaves it missing. */
  lemma {:induction false} TileAbove(w: World, at: Clock, s: State, t: Tile, m: Message, p: int)
    requires AllStoresWork(w) && Lacking(w, s, p) && KeyedByNumber(s.inb.pending)
    requires Carries(w, at, s.target, t, m) && p < Start(t)
    ensures var (r, o) := Dispatch(w, at, s, m);
            r.inb.inSeq == p && r.inb.handled == s.inb.handled
            && (o == Continue ==> Lacking(w, r, p) && r.target == s.target)
  {
    var n := Start(t);
    var a := DecideFor(w, at, s, m, n);
    assert a == DecideHigh(m, BufferFull(s.inb, m, n), n in s.inb.pending);
    DispatchIs(w, at, s, m, n, a);
    assert w.storeOk(s.writes) && w.queueOk(s.tries);
    var (r, o) := DispatchOne(w, at, s, m);
    assert o == Continue ==> Lacking(w, r, p) && r.target == s.target;
    if o == Continue { DispatchThenDrain(w, at, s, m, r); }
  }

  // ── The whole answer ───────────────────────────────────────────────────────

  lemma {:induction false} FeedLacking(w: World, at: Clock, s: State, can: int -> bool, ts: seq<Tile>,
                                       msgs: seq<Message>, p: int, lo: int, hi: int)
    requires AllStoresWork(w) && Lacking(w, s, p) && KeyedByNumber(s.inb.pending) && p < lo
    requires Tiling(can, ts, lo, hi) && AllCarry(w, at, s.target, ts, msgs)
    ensures Feed(w, at, s, msgs).0.inb.inSeq == p
    decreases |ts|
  {
    if ts != [] {
      TileAbove(w, at, s, ts[0], msgs[0], p);
      FeedStep(w, at, s, msgs);
      var (r, o) := Dispatch(w, at, s, msgs[0]);
      if o == Continue { FeedLacking(w, at, r, can, ts[1..], msgs[1..], p, Next(ts[0]), hi); }
    }
  }

  /** A receiver that holds the buffer and lacks the number p. */
  ghost predicate Held(w: World, at: Clock, s: State, buffer: map<nat, Message>, p: int, hi: int,
        turns: map<nat, Turn>) {
    AllStoresWork(w) && Holding(w, s, buffer, p) && p !in buffer && s.target != "" && w.self != ""
    && KeyedByNumber(s.inb.pending) && SteadyFrom(w, at, s.target, buffer, p) && Below(buffer, hi)
    && turns == TurnsOf(w, at, s.inb.epoch, buffer)
  }

  lemma {:induction false} FeedOne(w: World, at: Clock, s: State, can: int -> bool, ts: seq<Tile>, msgs: seq<Message>,
                                   buffer: map<nat, Message>, p: int, lo: int, hi: int, turns: map<nat, Turn>)
    returns (r: State, q: int, ds: seq<Delivery>)
    requires Held(w, at, s, buffer, p, hi, turns) && Truthful(can, turns, hi)
    requires Tiling(can, ts, lo, hi) && ts != [] && AllCarry(w, at, s.target, ts, msgs) && 1 <= lo <= p <= hi
    ensures Held(w, at, r, buffer, q, hi, turns) && r.target == s.target && q <= hi && r.inb.epoch == s.inb.epoch
    ensures q == if p == lo then RunEnd(turns, Next(ts[0]), hi) else p
    ensures ds == if p == lo then Handed(s.inb.epoch, ts[0], msgs[0]) + RunGives(turns, Next(ts[0]), hi) else []
    ensures r.inb.handled == s.inb.handled + ds && Feed(w, at, s, msgs) == Feed(w, at, r, msgs[1..])
  {
    FeedStep(w, at, s, msgs);
    TilingGrows(can, ts, lo, hi);
    if p == lo {
      r := TileAt(w, at, s, ts[0], msgs[0], buffer, hi, turns);
      RunEndStops(turns, can, Next(ts[0]), hi);
      q, ds := RunEnd(turns, Next(ts[0]), hi), Handed(s.inb.epoch, ts[0], msgs[0]) + RunGives(turns, Next(ts[0]), hi);
    } else {
      TileBelow(w, at, s, ts[0], msgs[0]);
      r, q, ds := s, p, [];
    }
  }

  /** The receiver ends at the position that the answer and the buffer determine; if it never falls behind
      the answer, it has delivered what they give. */
  lemma {:induction false} FeedPosition(w: World, at: Clock, s: State, can: int -> bool, ts: seq<Tile>,
                                        msgs: seq<Message>, buffer: map<nat, Message>, p: int, lo: int, hi: int,
                                        turns: map<nat, Turn>)
    requires Held(w, at, s, buffer, p, hi, turns) && Truthful(can, turns, hi)
    requires Tiling(can, ts, lo, hi) && |ts| == |msgs| && AllCarry(w, at, s.target, ts, msgs) && lo >= 1 && p <= hi
    ensures var (t, o) := Feed(w, at, s, msgs);
            t.inb.inSeq == Position(turns, ts, p, hi)
            && (t.inb.inSeq == hi ==>
                  o == Continue && t.inb.handled == s.inb.handled + Gives(turns, ts, msgs, s.inb.epoch, p, hi))
    decreases |ts|
  {
    if ts == [] {
      assert s.inb.handled + [] == s.inb.handled;
    } else if p < lo {
      TilingGrows(can, ts, lo, hi);
      FeedLacking(w, at, s, can, ts, msgs, p, lo, hi);
      PositionStuck(turns, can, ts, p, lo, hi);
    } else {
      var r, q, ds := FeedOne(w, at, s, can, ts, msgs, buffer, p, lo, hi, turns);
      FeedPosition(w, at, r, can, ts[1..], msgs[1..], buffer, q, Next(ts[0]), hi, turns);
      var more := Gives(turns, ts[1..], msgs[1..], s.inb.epoch, q, hi);
      Chained(s.inb.handled, ds, more);
      assert [] + more == more;
    }
  }

  lemma {:induction false} AnswerRepairs(w: World, at: Clock, s: State, can: int -> bool, ts: seq<Tile>,
                                         msgs: seq<Message>, lo: nat, hi: int, turns: map<nat, Turn>)
    requires Held(w, at, s, s.inb.pending, lo, hi, turns) && Truthful(can, turns, hi) && lo <= hi
    requires Tiling(can, ts, lo, hi) && |ts| == |msgs| && AllCarry(w, at, s.target, ts, msgs) && Forward(turns)
    ensures var (t, o) := Feed(w, at, s, msgs);
            (t.inb.inSeq == hi <==> Aligned(turns, ts))
            && (Aligned(turns, ts) ==>
                  o == Continue && t.inb.handled == s.inb.handled + Due(turns, ts, msgs, s.inb.epoch))
  {
    FeedPosition(w, at, s, can, ts, msgs, s.inb.pending, lo, lo, hi, turns);
    PositionReachesEnd(turns, can, ts, lo, lo, hi);
    if Aligned(turns, ts) {
      GivesWhatIsDue(turns, can, ts, msgs, s.inb.epoch, lo, lo, hi);
      assert [] + Gives(turns, ts, msgs, s.inb.epoch, lo, hi) == Gives(turns, ts, msgs, s.inb.epoch, lo, hi);
    }
  }

  lemma {:induction false} TheAnswer(w: World, at: Clock, a: Answering, lo: nat, outSeq: nat, max: nat)
    returns (ts: seq<Tile>, msgs: seq<Message>)
    requires w.self == a.self && 1 <= lo <= outSeq <= MAX_INT64 && max <= MAX_INT64
    requires Answerable(w, at, max, a, Tiles(Can(a.frames), ClampBegin(lo), ClampEnd(0, outSeq - 1), 0))
    ensures ts == Tiles(Can(a.frames), ClampBegin(lo), ClampEnd(0, outSeq - 1), 0) && |ts| == |msgs|
    ensures msgs == Wires(FramesOf(a, ts)) && msgs == ReadAll(max, Bytes(FramesOf(a, ts)))
    ensures Tiling(Can(a.frames), ts, lo, outSeq) && AllCarry(w, at, a.peer, ts, msgs)
  {
    ts := Tiles(Can(a.frames), lo, outSeq - 1, 0);
    TilesFrom(Can(a.frames), lo, outSeq - 1, 0);
    TilesCarried(w, at, max, a, ts, lo, outSeq);
    StreamIsRead(max, FramesOf(a, ts));
    msgs := Wires(FramesOf(a, ts));
  }

  lemma TruthfulBelow(w: World, at: Clock, epoch: nat, buffer: map<nat, Message>, can: int -> bool, hi: int)
    requires Truthful(can, TurnsOf(w, at, epoch, buffer), hi)
    ensures Below(buffer, hi) && Forward(TurnsOf(w, at, epoch, buffer))
  {
    forall k | k in buffer ensures k < hi { assert k in TurnsOf(w, at, epoch, buffer); }
  }

  /** With messages from beyond the gap buffered, the answer to ResendRequest(begin, 0) brings the
      receiver to the sender's next number if and only if no GapFill of that answer starts at a buffered
      number without the buffer leading through all it covers. It then has delivered, once each and in
      order, the buffered application messages and the others as they were sent again. */
  lemma {:induction false} RepairedIffAligned(w: World, at: Clock, s: State, a: Answering, outSeq: nat, max: nat)
    returns (ts: seq<Tile>, msgs: seq<Message>, turns: map<nat, Turn>)
    requires AllStoresWork(w) && Lacking(w, s, s.inb.inSeq) && KeyedByNumber(s.inb.pending)
    requires s.inb.inSeq <= outSeq <= MAX_INT64 && max <= MAX_INT64 && s.target == a.peer && w.self == a.self
    requires DropBelow(s.inb.pending, s.inb.inSeq) == s.inb.pending
    requires SteadyFrom(w, at, s.target, s.inb.pending, s.inb.inSeq)
    requires Truthful(Can(a.frames), TurnsOf(w, at, s.inb.epoch, s.inb.pending), outSeq)
    requires Answerable(w, at, max, a, Tiles(Can(a.frames), ClampBegin(s.inb.inSeq), ClampEnd(0, outSeq - 1), 0))
    ensures ts == Tiles(Can(a.frames), ClampBegin(s.inb.inSeq), ClampEnd(0, outSeq - 1), 0)
    ensures msgs == Wires(FramesOf(a, ts)) && |ts| == |msgs|
    ensures turns == TurnsOf(w, at, s.inb.epoch, s.inb.pending) && Forward(turns)
    ensures var (t, o) := Feed(w, at, s, ReadAll(max, Bytes(FramesOf(a, ts))));
            (t.inb.inSeq == outSeq <==> Aligned(turns, ts))
            && (Aligned(turns, ts) ==>
                  o == Continue && t.inb.handled == s.inb.handled + Due(turns, ts, msgs, s.inb.epoch))
  {
    turns := TurnsOf(w, at, s.inb.epoch, s.inb.pending);
    TruthfulBelow(w, at, s.inb.epoch, s.inb.pending, Can(a.frames), outSeq);
    ts, msgs := TheAnswer(w, at, a, s.inb.inSeq, outSeq, max);
    AnswerRepairs(w, at, s, Can(a.frames), ts, msgs, s.inb.inSeq, outSeq, turns);
  }
}
