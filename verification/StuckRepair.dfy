/** Two sessions that get stuck. In the first the receiver expects 1 and has buffered 2; the peer replays 1
    and covers 2 and 3 by one GapFill. The replay lets the drain consume 2, so the GapFill arrives below the
    expected number, is dropped as a duplicate, and 3 stays missing. In the second a message without a sender
    is the last of a requested gap, and the next gap is not asked for. */
module StuckRepair {
  import opened Decimal
  import opened Codec
  import opened CodecLoops
  import opened Resend
  import opened Retransmit
  import opened Session
  import opened SessionSafety
  import opened SessionGaps
  import opened GapRepair
  import opened Positions
  import opened BufferedRepair

  // ── The situation ──────────────────────────────────────────────────────────

  const MAX: nat := 1000

  /** Everything is accepted, nothing fails, and every time is the same. */
  function Everything(): World {
    World("R", false, false, 0, NoRegistry, (t: string) => Some(0), (m: Message) => None,
          (a: string, b: string) => true,
          (t: string) => true, (k: nat) => true, (k: nat) => true)
  }

  function Order(): seq<Field> {
    Header("D", "S", "R", 1, "t")
  }

  function Heartbeat(): Message {
    Header("0", "S", "R", 2, "t")
  }

  /** The peer has sent an order as 1 and heartbeats as 2 and 3. */
  function Peer(): Answering {
    Answering(map[1 := Order()], "S", "R", "t")
  }

  /** 1 was lost, 2 arrived and was buffered, and the gap was asked for. */
  function Receiver(): State {
    Initial().(phase := LoggedOn, target := "S", inb := Inbound(1, map[2 := Heartbeat()], 2, 0, [], [Request(0, 1, 2)]))
  }

  function Answer(): seq<Tile> {
    Tiles(Can(Peer().frames), ClampBegin(1), ClampEnd(0, 3), 0)
  }

  // ── Reading a header ───────────────────────────────────────────────────────

  lemma {:induction false} HeaderGets(t: string, sender: string, target: string, n: int, time: string, tag: nat)
    ensures Get(Header(t, sender, target, n, time), tag)
         == if tag == 35 then t else if tag == 49 then sender else if tag == 56 then target
            else if tag == 34 then Itoa(n)
            else if tag == 52 then time else ""
  {
    var e := [Field(52, time)];
    var d := [Field(34, Itoa(n))] + e;
    var c := [Field(56, target)] + d;
    var b := [Field(49, sender)] + c;
    assert Header(t, sender, target, n, time) == [Field(35, t)] + b && e == [Field(52, time)] + [];
    GetFirst(Field(52, time), [], tag);
    GetFirst(Field(34, Itoa(n)), e, tag);
    GetFirst(Field(56, target), d, tag);
    GetFirst(Field(49, sender), c, tag);
    GetFirst(Field(35, t), b, tag);
  }

  /** With every tag at most once, a field reads as itself and hides nothing behind it. */
  lemma {:induction false} GetFirst(f: Field, fs: seq<Field>, tag: nat)
    ensures HasTag([f] + fs, tag) <==> f.tag == tag || HasTag(fs, tag)
    ensures Get([f] + fs, tag) == if HasTag(fs, tag) then Get(fs, tag) else if f.tag == tag then f.value else ""
    ensures !HasTag(fs, tag) ==> Get(fs, tag) == ""
  {
    GetCons(f, fs, tag);
    HasCons(f, fs, tag);
  }

  lemma {:induction false} HeaderOnce(t: string, sender: string, target: string, n: int, time: string, tag: nat)
    ensures Count(Header(t, sender, target, n, time), tag) <= 1
  {
    var h := Header(t, sender, target, n, time);
    assert h[1..][1..] == h[2..] && h[2..][1..] == h[3..] && h[3..][1..] == h[4..] && h[4..][1..] == [];
    assert Count(h[4..], tag) == if tag == 52 then 1 else 0;
    assert Count(h[3..], tag) == Count(h[4..], tag) + if tag == 34 then 1 else 0;
    assert Count(h[2..], tag) == Count(h[3..], tag) + if tag == 56 then 1 else 0;
    assert Count(h[1..], tag) == Count(h[2..], tag) + if tag == 49 then 1 else 0;
  }

  // ── Short frames ───────────────────────────────────────────────────────────

  predicate Short(f: Field) {
    1 <= f.tag < 1000 && DataTag(f.tag) == 0 && f.tag != 10 && 1 <= |f.value| <= 9 && NoSOH(f.value)
  }

  predicate AllShort(fs: seq<Field>) {
    forall i :: 0 <= i < |fs| ==> Short(fs[i])
  }

  lemma {:induction false} ShortLength(fs: seq<Field>)
    requires AllShort(fs)
    ensures |Serialize(fs)| <= 14 * |fs|
  {
    if fs != [] {
      assert Short(fs[0]);
      ThreeDigits(fs[0].tag);
      ShortLength(fs[1..]);
    }
  }

  lemma ThreeDigits(n: nat)
    requires n < 1000
    ensures |Itoa(n)| <= 3
  {
    assert n >= 10 ==> |Text(n)| == |Text(n / 10)| + 1;
    assert n >= 100 ==> |Text(n / 10)| == |Text(n / 10 / 10)| + 1;
  }

  lemma ShortSendable(fs: seq<Field>, max: nat)
    requires AllShort(fs) && fs != [] && fs[0].tag == 35 && 14 * |fs| <= max
    ensures Sendable(max, fs)
  {
    FilledStays(fs);
    CarriableAfter(fs, []);
    assert fs + [] == fs;
    ShortLength(fs);
  }

  lemma {:induction false} NoBusiness(m: Message)
    requires forall i :: 0 <= i < |m| ==> Rewritten(m[i].tag)
    ensures Business(m) == []
  {
    if m != [] { NoBusiness(m[1..]); }
  }

  lemma OneDigit(n: nat)
    requires n < 10
    ensures |Itoa(n)| == 1 && NoSOH(Itoa(n))
  {
  }

  // ── The answer ─────────────────────────────────────────────────────────────

  lemma {:induction false} ShortHeader(t: string, n: nat, more: seq<Field>)
    requires 1 <= |t| <= 9 && NoSOH(t) && n < 10 && AllShort(more) && |more| <= 10
    ensures Sendable(MAX, Header(t, "S", "R", n, "t") + more)
  {
    OneDigit(n);
    var h := Header(t, "S", "R", n, "t");
    assert AllShort(h);
    ShortSendable(h + more, MAX);
  }

  lemma WiderSendable(max: nat, wider: nat, fs: seq<Field>)
    requires Sendable(max, fs) && max <= wider
    ensures Sendable(wider, fs)
  {
  }

  lemma {:induction false} OrderIsSendable()
    ensures Sendable(DEFAULT_MAX_BODY, Order()) && NonEmpty(Order()) == Order()
  {
    ShortHeader("D", 1, []);
    assert Order() + [] == Order();
    WiderSendable(MAX, DEFAULT_MAX_BODY, Order());
    OneDigit(1);
    assert Filled(Order());
    FilledStays(Order());
  }

  lemma {:induction false} OrderReads()
    ensures Get(Wire(Order()), 35) == "D" && Get(Wire(Order()), 52) == "t"
  {
    HeaderGets("D", "S", "R", 1, "t", 35);
    HeaderGets("D", "S", "R", 1, "t", 52);
    HeaderOnce("D", "S", "R", 1, "t", 35);
    HeaderOnce("D", "S", "R", 1, "t", 52);
    GetWire(Order(), 35);
    GetWire(Order(), 52);
  }

  lemma {:induction false} OrderIsStored()
    ensures Stored(Peer().frames, 1) == Some(Wire(Order())) && Can(Peer().frames)(1)
  {
    OrderIsSendable();
    OrderReads();
    ReadsBack(Peer().frames, 1);
  }

  lemma {:induction false} ReadsBack(frames: map<nat, seq<Field>>, n: nat)
    requires n in frames && Sendable(DEFAULT_MAX_BODY, frames[n])
    ensures Stored(frames, n) == Some(Wire(frames[n]))
  {
    ReadSendable(DEFAULT_MAX_BODY, frames[n], "");
    assert Build(frames[n]) + "" == Build(frames[n]);
  }

  lemma {:induction false} AnswerIs()
    ensures Answer() == [Replay(1), Fill(2, 4)]
  {
    OrderIsStored();
    TilesAre(Can(Peer().frames));
  }

  lemma {:induction false} TilesAre(can: int -> bool)
    requires can(1) && !can(2) && !can(3)
    ensures Tiles(can, 1, 3, 0) == [Replay(1), Fill(2, 4)]
  {
    assert Tiles(can, 4, 3, 2) == [Fill(2, 4)];
    assert Tiles(can, 2, 3, 0) == Tiles(can, 3, 3, 2) == [Fill(2, 4)];
  }

  lemma PassesAll(m: Message)
    requires Get(m, 122) != "" && Get(m, 52) != "" && ValidMsgType(Get(m, 35))
    ensures Passes(Everything(), Clock(0, "t"), m)
  {
  }

  lemma {:induction false} OrderHasNoBusiness()
    ensures Business(Wire(Order())) == []
  {
    OrderIsSendable();
    var w, h := Wire(Order()), Order();
    assert |w| == 8 && w[0].tag == 8 && w[1].tag == 9 && w[7].tag == 10;
    assert w[2] == h[0] && w[3] == h[1] && w[4] == h[2] && w[5] == h[3] && w[6] == h[4];
    NoBusiness(w);
  }

  // ── An order that can be sent and not resent ──────────────────────────────

  /** An order with a Text field. */
  function Worded(text: string): seq<Field> {
    Order() + [Field(58, text)]
  }

  lemma {:induction false} WordedLength(text: string)
    ensures |Serialize(Worded(text))| == |Serialize(Order())| + 4 + |text|
  {
    SerializeConcat(Order(), [Field(58, text)]);
    assert [Field(58, text)][1..] == [];
    assert Text(58) == Text(5) + "8";
  }

  lemma {:induction false} WordedSendable(text: string, max: nat)
    requires CleanText(text) && |Serialize(Worded(text))| <= max
    ensures Sendable(max, Worded(text)) && NonEmpty(Worded(text)) == Worded(text)
  {
    OneDigit(1);
    var fs := Worded(text);
    assert Filled(fs);
    FilledStays(fs);
    CarriableAfter(fs, []);
    assert fs + [] == fs;
  }

  /** An order whose body is exactly as long as a logged-on receiver accepts: it is received, and its
      retransmission, which also carries the duplicate flag and the original sending time, is not. */
  lemma {:induction false} ReplayOutgrows() returns (text: string)
    ensures |Serialize(Worded(text))| == DEFAULT_MAX_BODY && Sendable(DEFAULT_MAX_BODY, Worded(text))
    ensures !Sendable(DEFAULT_MAX_BODY, ResendFrame(Wire(Worded(text)), "S", "R", 1, "t"))
  {
    ShortOrder();
    text := seq(DEFAULT_MAX_BODY - 4 - |Serialize(Order())|, i => 'x');
    WordedLength(text);
    WordedSendable(text, DEFAULT_MAX_BODY);
    WordedReplay(text);
  }

  lemma {:induction false} ShortOrder()
    ensures |Serialize(Order())| <= 70
  {
    OneDigit(1);
    assert AllShort(Order());
    ShortLength(Order());
  }

  lemma {:induction false} WordedReplay(text: string)
    requires |Serialize(Worded(text))| == DEFAULT_MAX_BODY && Sendable(DEFAULT_MAX_BODY, Worded(text))
    requires NonEmpty(Worded(text)) == Worded(text)
    ensures !Sendable(DEFAULT_MAX_BODY, ResendFrame(Wire(Worded(text)), "S", "R", 1, "t"))
  {
    var extra := [Field(58, text)];
    assert AllBusiness(extra);
    ReplaySendable(DEFAULT_MAX_BODY, "D", "S", "R", 1, "t", "t", extra);
  }

  lemma {:induction false} ReplayPasses() returns (fs: seq<Field>)
    ensures fs == Framed(Peer(), Replay(1)) && Sendable(MAX, fs) && Passes(Everything(), Clock(0, "t"), Wire(fs))
  {
    OrderIsStored();
    OrderReads();
    OrderHasNoBusiness();
    fs := ReplayedPasses(Wire(Order()));
  }

  lemma {:induction false} ReplayedPasses(stored: Message) returns (fs: seq<Field>)
    requires Get(stored, 35) == "D" && Get(stored, 52) == "t" && Business(stored) == []
    ensures fs == ResendFrame(stored, "S", "R", 1, "t") && Sendable(MAX, fs)
    ensures Passes(Everything(), Clock(0, "t"), Wire(fs))
  {
    fs := Header("D", "S", "R", 1, "t") + [Field(43, "Y"), Field(122, "t")];
    assert fs == ResendFrame(stored, "S", "R", 1, "t");
    ShortHeader("D", 1, [Field(43, "Y"), Field(122, "t")]);
    ReplayedChecked(stored, fs);
  }

  lemma {:induction false} ReplayedChecked(stored: Message, fs: seq<Field>)
    requires Get(stored, 35) == "D" && Get(stored, 52) == "t" && fs == ResendFrame(stored, "S", "R", 1, "t")
    ensures Passes(Everything(), Clock(0, "t"), Wire(fs))
  {
    ReplayReads(stored, "S", "R", 1, "t");
    PassesAll(Wire(fs));
  }

  lemma {:induction false} FillPasses()
    ensures Sendable(MAX, Framed(Peer(), Fill(2, 4)))
    ensures Passes(Everything(), Clock(0, "t"), Wire(Framed(Peer(), Fill(2, 4))))
  {
    OneDigit(4);
    ShortHeader("4", 2, [Field(43, "Y"), Field(122, "t"), Field(123, "Y"), Field(36, Itoa(4))]);
    GapFillReads("S", "R", 2, 4, "t");
    PassesAll(Wire(Framed(Peer(), Fill(2, 4))));
  }

  lemma {:induction false} AnswerIsAnswerable()
    ensures Answerable(Everything(), Clock(0, "t"), MAX, Peer(), Answer())
  {
    AnswerIs();
    var _ := ReplayPasses();
    FillPasses();
    assert [Replay(1), Fill(2, 4)][1..] == [Fill(2, 4)] && [Fill(2, 4)][1..] == [];
  }

  // ── The receiver ───────────────────────────────────────────────────────────

  lemma {:induction false} HeartbeatIsSteady()
    ensures Atoi(Get(Heartbeat(), 34)) == Some(2) && Steady(Everything(), Clock(0, "t"), "S", Heartbeat())
    ensures TurnOf(Everything(), Clock(0, "t"), 0, Heartbeat(), 2) == Turn(3, [])
  {
    HeaderGets("0", "S", "R", 2, "t", 35);
    HeaderGets("0", "S", "R", 2, "t", 49);
    HeaderGets("0", "S", "R", 2, "t", 56);
    HeaderGets("0", "S", "R", 2, "t", 34);
    HeaderGets("0", "S", "R", 2, "t", 52);
    HeaderGets("0", "S", "R", 2, "t", 43);
    AtoiOfItoa(2);
  }

  /** Taking the heartbeat leads to 3 and delivers nothing. */
  function Turns(): map<nat, Turn> {
    map[2 := Turn(3, [])]
  }

  lemma {:induction false} BufferIsSteady()
    ensures SteadyFrom(Everything(), Clock(0, "t"), "S", Receiver().inb.pending, 1)
    ensures KeyedByNumber(Receiver().inb.pending)
    ensures TurnsOf(Everything(), Clock(0, "t"), 0, Receiver().inb.pending) == Turns()
  {
    HeartbeatIsSteady();
  }

  lemma {:induction false} StuckAtThree(ts: seq<Tile>)
    requires ts == [Replay(1), Fill(2, 4)]
    ensures Position(Turns(), ts, 1, 4) == 3 && !Aligned(Turns(), ts)
  {
    assert ts[1..] == [Fill(2, 4)] && ts[1..][1..] == [];
    assert RunEnd(Turns(), 2, 4) == RunEnd(Turns(), 3, 4) == 3;
    assert Position(Turns(), ts[1..], 3, 4) == 3;
    assert !Spanned(Turns(), 3, 4) && !Spanned(Turns(), 2, 4);
  }

  /** Every condition of the repair theorem holds. */
  lemma {:induction false} RepairIsTried()
    ensures var w, at, s, a := Everything(), Clock(0, "t"), Receiver(), Peer();
            AllStoresWork(w) && Lacking(w, s, s.inb.inSeq) && KeyedByNumber(s.inb.pending)
            && s.inb.inSeq <= 4 <= MAX_INT64
            && MAX <= MAX_INT64 && s.target == a.peer && w.self == a.self
            && DropBelow(s.inb.pending, s.inb.inSeq) == s.inb.pending
            && SteadyFrom(w, at, s.target, s.inb.pending, s.inb.inSeq)
            && Truthful(Can(a.frames), TurnsOf(w, at, s.inb.epoch, s.inb.pending), 4)
            && Answerable(w, at, MAX, a, Answer())
  {
    AnswerIsAnswerable();
    BufferIsSteady();
    assert DropBelow(Receiver().inb.pending, 1) == Receiver().inb.pending;
    assert Truthful(Can(Peer().frames), Turns(), 4);
  }

  lemma {:induction false} ReceiverHolds()
    ensures Held(Everything(), Clock(0, "t"), Receiver(), Receiver().inb.pending, 1, 4, Turns())
  {
    BufferIsSteady();
    RepairIsTried();
  }

  lemma {:induction false} StuckFeed(w: World, at: Clock, s: State, can: int -> bool, ts: seq<Tile>, msgs: seq<Message>)
    requires Held(w, at, s, s.inb.pending, 1, 4, Turns()) && ts == [Replay(1), Fill(2, 4)] && |ts| == |msgs|
    requires Tiling(can, ts, 1, 4) && AllCarry(w, at, s.target, ts, msgs)
    ensures Feed(w, at, s, msgs).0.inb.inSeq == 3
  {
    StuckAtThree(ts);
    assert Truthful(can, Turns(), 4);
    FeedPosition(w, at, s, can, ts, msgs, s.inb.pending, 1, 1, 4, Turns());
  }

  /** The answer is not aligned with the buffer, and the receiver, having read the whole answer, still
      expects 3 although the peer's next number is 4. */
  lemma {:induction false} RepairGetsStuck()
    ensures KeyedByNumber(Receiver().inb.pending) && !Aligned(Turns(), Answer())
    ensures TurnsOf(Everything(), Clock(0, "t"), 0, Receiver().inb.pending) == Turns()
    ensures Feed(Everything(), Clock(0, "t"), Receiver(), ReadAll(MAX, Bytes(FramesOf(Peer(), Answer())))).0.inb.inSeq
            == 3
  {
    BufferIsSteady();
    AnswerIsAnswerable();
    AnswerIs();
    ReceiverHolds();
    var ts, msgs := TheAnswer(Everything(), Clock(0, "t"), Peer(), 1, 4, MAX);
    StuckAtThree(ts);
    StuckFeed(Everything(), Clock(0, "t"), Receiver(), Can(Peer().frames), ts, msgs);
  }

  // ── A gap nobody asks for ──────────────────────────────────────────────────

  /** 1 has been repaired, 2 is the last number asked for. */
  function Waiter(): State {
    Initial().(phase := LoggedOn, target := "S", inb := Inbound(2, map[], 2, 0, [], [Request(0, 1, 2)]))
  }

  lemma {:induction false} SmallMessage(m: Message)
    requires |m| <= 5 && forall i :: 0 <= i < |m| ==> |m[i].value| <= 9
    ensures !BufferFull(Waiter().inb.(inSeq := 3), m, 5)
  {
    SmallSize(m);
  }

  lemma {:induction false} SmallSize(m: Message)
    requires forall i :: 0 <= i < |m| ==> |m[i].value| <= 9
    ensures Size(m) <= 25 * |m|
  {
    if m != [] { SmallSize(m[1..]); }
  }

  lemma {:induction false} WaiterIsGood()
    ensures Good(Waiter())
  {
    WeightDrop(map[], 1);
  }

  /** 2 arrives without a sender, so the finished request stays marked; then 5 arrives. 3 and 4 are missing,
      and whatever happens next, as long as 3 is expected nothing is asked for. */
  lemma {:induction false} GapIsNotAskedFor(events: seq<Event>) returns (t: State, u: State)
    ensures t == DispatchOne(Everything(), Clock(0, "t"), Waiter(), Header("0", "", "R", 2, "t")).0
    ensures u == DispatchOne(Everything(), Clock(0, "t"), t, Header("D", "S", "R", 5, "t")).0
    ensures Stale(t.inb) && !u.closed && u.inb.inSeq == 3 && 5 in u.inb.pending && u.out == t.out
    ensures u.inb.asked == [Request(0, 1, 2)] && KeyedByNumber(u.inb.pending)
    ensures var v := Run(Everything(), u, events).inb; SamePlace(u.inb, v) ==> v.asked == [Request(0, 1, 2)]
  {
    var m1, m2 := Header("0", "", "R", 2, "t"), Header("D", "S", "R", 5, "t");
    HeaderGets("0", "", "R", 2, "t", 49);
    HeaderGets("0", "", "R", 2, "t", 34);
    HeaderGets("D", "S", "R", 5, "t", 35);
    HeaderGets("D", "S", "R", 5, "t", 49);
    HeaderGets("D", "S", "R", 5, "t", 56);
    HeaderGets("D", "S", "R", 5, "t", 34);
    AtoiOfItoa(2);
    AtoiOfItoa(5);
    OneDigit(5);
    SmallMessage(m2);
    t, u := NamelessThenFive(m1, m2, events);
  }

  lemma {:induction false} NamelessThenFive(m1: Message, m2: Message, events: seq<Event>) returns (t: State, u: State)
    requires LacksIdentity(m1) && Atoi(Get(m1, 34)) == Some(2)
    requires Get(m2, 49) == "S" && Get(m2, 56) == "R" && Get(m2, 35) == "D" && Atoi(Get(m2, 34)) == Some(5)
    requires !BufferFull(Waiter().inb.(inSeq := 3), m2, 5)
    ensures t == DispatchOne(Everything(), Clock(0, "t"), Waiter(), m1).0
    ensures u == DispatchOne(Everything(), Clock(0, "t"), t, m2).0
    ensures Stale(t.inb) && !u.closed && u.inb.inSeq == 3 && 5 in u.inb.pending && u.out == t.out
    ensures u.inb.asked == [Request(0, 1, 2)] && KeyedByNumber(u.inb.pending)
    ensures var v := Run(Everything(), u, events).inb; SamePlace(u.inb, v) ==> v.asked == [Request(0, 1, 2)]
  {
    WaiterIsGood();
    NamelessArrives(m1);
    t, u := ResendSuppressed(Everything(), Clock(0, "t"), Waiter(), m1, m2, 5, events);
  }

  lemma {:induction false} NamelessArrives(m: Message)
    requires LacksIdentity(m) && Atoi(Get(m, 34)) == Some(2)
    ensures DispatchOne(Everything(), Clock(0, "t"), Waiter(), m).0.inb == Waiter().inb.(inSeq := 3)
  {
    assert DropBelow(map[], 3) == map[];
  }
}
