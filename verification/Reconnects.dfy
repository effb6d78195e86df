/** One session over all its connections: each Logon resumes the store where the last connection left it. */
module Reconnects {
  import opened Codec
  import opened Decimal
  import opened Session
  import opened SessionSafety

  /** What the registry's store holds between connections. */
  datatype Stored = Stored(nextIn: nat, nextOut: nat, frames: map<nat, seq<Field>>)

  /** A connection: what it is given apart from the store, what happens on it, and whether the store is reset
      when it is handed back. A process killed after some store write is a world that refuses all later ones. */
  datatype Connection = Connection(w: World, events: seq<Event>, wiped: bool)

  /** The store, how often it was reset, and all that was queued and delivered, by reset and number. */
  datatype Line = Line(store: Stored, resets: nat, sent: seq<Sent>, handled: seq<Delivery>)

  // ── On one connection ──────────────────────────────────────────────────────

  predicate OutSince(st: Stored, o: Outbound, epoch: nat) {
    && (forall i :: 0 <= i < |o.sent| ==>
          o.sent[i].epoch > 1 || (o.sent[i].epoch == 1 && st.nextOut <= o.sent[i].n))
    && (epoch == 1 ==> st.nextOut <= o.outSeq
                       && forall k :: k in st.frames && k < st.nextOut ==> k in o.frames && o.frames[k] == st.frames[k])
  }

  predicate InSince(st: Stored, i: Inbound, nextIn: nat) {
    && 1 <= nextIn <= i.inSeq
    && (forall j :: 0 <= j < |i.handled| ==>
          i.handled[j].epoch > 1 || (i.handled[j].epoch == 1 && st.nextIn <= i.handled[j].n))
    && (forall j :: 0 <= j < |i.handled| ==>
          i.handled[j].epoch < i.epoch || (i.handled[j].epoch == i.epoch && i.handled[j].n < nextIn))
    && (i.epoch == 1 ==> st.nextIn <= nextIn)
  }

  /** Since the store was taken up: what was queued or delivered before its first reset is numbered from where
      the store stood, what it held below that is still there, its next outbound number is the session's, and
      all that was delivered lies below its next inbound number. */
  predicate Since(st: Stored, s: State) {
    s.inb.epoch >= 1 && s.out.outSeq == s.nextOut && OutSince(st, s.out, s.inb.epoch)
    && InSince(st, s.inb, s.nextIn)
  }

  lemma SendSince(w: World, at: Clock, st: Stored, s: State, target: string, msgType: string, extra: seq<Field>)
    requires Since(st, s)
    ensures Since(st, SendTo(w, at, s, target, msgType, extra))
  {
  }

  lemma SetInSeqSince(w: World, st: Stored, s: State, n: nat)
    requires Since(st, s) && n >= s.inb.inSeq
    ensures Since(st, SetInSeq(w, s, n).0)
  {
  }

  lemma DeliverSince(st: Stored, s: State, m: Message, n: int)
    requires Since(st, s) && n < s.nextIn && (s.inb.epoch == 1 ==> st.nextIn <= n)
    ensures Since(st, Deliver(s, m, n))
  {
  }

  lemma NewSeqNoSince(w: World, at: Clock, st: Stored, s: State, newSeq: int, n: int)
    requires Since(st, s)
    ensures Since(st, ApplyNewSeqNo(w, at, s, newSeq, n))
  {
    SendSince(w, at, st, s, s.target, "3", RejectFields(n, 0, "", REQUIRED_TAG_MISSING));
    SendSince(w, at, st, s, s.target, "3", RejectFields(n, 0, "4", VALUE_INCORRECT));
    if newSeq >= s.inb.inSeq { SetInSeqSince(w, st, s, newSeq); }
  }

  lemma LogoutSince(w: World, at: Clock, st: Stored, s: State)
    requires Since(st, s)
    ensures Since(st, SendLogout(w, at, s)) && Since(st, HandleLogout(w, at, s))
  {
    SendSince(w, at, st, s.(phase := LoggingOut), s.target, "5", []);
  }

  lemma PerformSince(w: World, at: Clock, st: Stored, s: State, m: Message, n: int, r: Reply)
    requires Since(st, s)
    requires r.ToHandler? ==> n < s.nextIn && (s.inb.epoch == 1 ==> st.nextIn <= n)
    ensures Since(st, Perform(w, at, s, m, n, r).0)
  {
    match r
    case Nothing(_) =>
    case Reject(tag, refType, reason, _) =>
      SendSince(w, at, st, s, s.target, "3", RejectFields(n, tag, refType, reason));
    case RejectAndLogout(refType) =>
      SendSince(w, at, st, s, s.target, "3", RejectFields(n, 0, refType, SENDING_TIME_ACCURACY));
      LogoutSince(w, at, st, SendReject(w, at, s, n, 0, refType, SENDING_TIME_ACCURACY));
    case Logout => LogoutSince(w, at, st, s);
    case Heartbeat(id) => SendSince(w, at, st, s, s.target, "0", [Field(112, id)]);
    case ServeResend => ReplaySince(w, st, s, m);
    case NewSeqNo(newSeq) => NewSeqNoSince(w, at, st, s, newSeq, n);
    case ToHandler => DeliverSince(st, s, m, n);
  }

  lemma ReplaySince(w: World, st: Stored, s: State, m: Message)
    requires Since(st, s)
    ensures Since(st, HandleResendRequest(w, s, m))
  {
  }

  lemma AskSince(w: World, at: Clock, st: Stored, s: State, n: int)
    requires Since(st, s)
    ensures Since(st, RequestResend(w, at, s, n))
  {
    var i := s.inb;
    if i.resendTo == 0 {
      SendSince(w, at, st, s.(inb := i.(resendTo := n, asked := i.asked + [Request(i.epoch, i.inSeq, n)])),
                s.target, "2", [Field(7, Itoa(i.inSeq)), Field(16, Itoa(0))]);
    }
  }

  /** The number is stored as received before anything is done about its message. */
  lemma ConsumedSince(w: World, st: Stored, s: State, clear: bool)
    requires Since(st, s)
    ensures var (moved, ok) := Consumed(w, s, clear);
            Since(st, moved) && (ok ==> s.inb.inSeq < moved.nextIn)
            && (moved.inb.epoch == 1 ==> st.nextIn <= s.inb.inSeq)
  {
    SetInSeqSince(w, st, s, s.inb.inSeq + 1);
  }

  lemma ConsumeSince(w: World, at: Clock, st: Stored, s: State, m: Message, clear: bool, r: Reply)
    requires Since(st, s)
    ensures Since(st, Act(w, at, s, m, s.inb.inSeq, Consume(clear, r)).0)
  {
    ConsumedSince(w, st, s, clear);
    var (moved, ok) := Consumed(w, s, clear);
    if ok { PerformSince(w, at, st, moved, m, s.inb.inSeq, r); }
  }

  /** A reset empties the store; what was queued and delivered belongs to the epochs before. */
  lemma AnewSince(st: Stored, s: State, t: State)
    requires Since(st, s) && t.inb.epoch == s.inb.epoch + 1 && t.out.sent == s.out.sent
    requires t.inb.handled == s.inb.handled && 1 <= t.nextIn <= t.inb.inSeq && t.out.outSeq == t.nextOut
    ensures Since(st, t)
  {
  }

  lemma StartOverSince(w: World, at: Clock, st: Stored, s: State)
    requires Since(st, s)
    ensures Since(st, ResetSession(w, at, s))
  {
    var (moved, ok) := SetInSeq(w, ResetOutbound(s.(inb := s.inb.(pending := map[]))), 2);
    AnewSince(st, s, moved);
    if ok {
      var ready := moved.(inb := moved.inb.(resendTo := 0));
      SendSince(w, at, st, ready, ready.target, "A", [Field(98, "0"), Field(141, "Y")]);
    }
  }

  lemma ActSince(w: World, at: Clock, st: Stored, s: State, m: Message, n: int, a: Action)
    requires Since(st, s) && Sensible(s.inb, n, a)
    ensures Since(st, Act(w, at, s, m, n, a).0)
  {
    match a
    case Just(r) => PerformSince(w, at, st, s, m, n, r);
    case Consume(clear, r) => ConsumeSince(w, at, st, s, m, clear, r);
    case AskOnly => AskSince(w, at, st, s, n);
    case BufferAndAsk => AskSince(w, at, st, Buffer(s, m, n), n);
    case ReplayAndAsk =>
      ReplaySince(w, st, s, m);
      AskSince(w, at, st, HandleResendRequest(w, s, m), n);
    case StartOver => StartOverSince(w, at, st, s);
  }

  lemma RejectLogonSince(w: World, at: Clock, st: Stored, s: State, m: Message)
    requires Since(st, s)
    ensures Since(st, RejectLogon(w, at, s, m).0)
  {
    SendSince(w, at, st, s, Get(m, 49), "5", []);
  }

  lemma WelcomeSince(w: World, at: Clock, st: Stored, s: State, m: Message, n: int, reset: bool)
    requires Since(st, s) && n >= s.inb.inSeq
    ensures Since(st, Welcome(w, at, s, m, n, reset).0)
  {
    SetInSeqSince(w, st, s, n + 1);
    var gap := n > s.inb.inSeq;
    var (moved, ok) := if gap then (s, true) else SetInSeq(w, s, n + 1);
    if ok {
      var ready := moved.(target := Get(m, 49), phase := LoggedOn);
      var extra := [Field(98, "0")] + if reset then [Field(141, "Y")] else [];
      SendSince(w, at, st, ready, ready.target, "A", extra);
      AskSince(w, at, st, Send(w, at, ready, "A", extra), n);
    }
  }

  lemma AdmitSince(w: World, at: Clock, st: Stored, s: State, m: Message, n: int, reset: bool)
    requires Since(st, s)
    ensures Since(st, Admit(w, at, s, m, n, reset).0)
  {
    AnewSince(st, s, SetInSeq(w, ResetOutbound(s), 1).0);
    var (ready, ok) := if reset then SetInSeq(w, ResetOutbound(s), 1) else (s, true);
    if ok {
      if n < ready.inb.inSeq {
        RejectLogonSince(w, at, st, ready, m);
      } else {
        WelcomeSince(w, at, st, ready, m, n, reset);
      }
    }
  }

  // ── Before and after the store is taken up ─────────────────────────────────

  predicate Offers(w: World, st: Stored) {
    w.registry == Holds(st.nextIn, st.nextOut, st.frames) && st.nextIn >= 1
  }

  /** No Logon has been accepted yet. */
  predicate Untouched(s: State) {
    s.inb.epoch == 0 && s.out.sent == [] && s.inb.handled == [] && !Live(s)
  }

  predicate Underway(st: Stored, s: State) {
    Untouched(s) || Since(st, s)
  }

  /** A step touches the store only after taking it up, and a step that goes on is ready for the next. */
  predicate Holding(st: Stored, r: (State, Outcome)) {
    (r.0.inb.epoch == 0 || Since(st, r.0)) && (r.1.Continue? ==> Underway(st, r.0))
  }

  lemma LogonHolding(w: World, at: Clock, st: Stored, s: State, m: Message, n: int)
    requires Offers(w, st) && Underway(st, s) && !Live(s)
    ensures Holding(st, HandleLogon(w, at, s, m, n))
  {
    var reset := Get(m, 141) == "Y" || w.resetOnLogon;
    if Since(st, s) {
      RejectLogonSince(w, at, st, s, m);
      if !LogonRefused(w, at, m) && w.dictionary(m).Some? {
        var v := w.dictionary(m).value;
        var extra := RejectFields(n, v.tag, "A", v.reason);
        SendSince(w, at, st, s, Get(m, 49), "3", extra);
        RejectLogonSince(w, at, st, SendTo(w, at, s, Get(m, 49), "3", extra), m);
      }
    } else {
      AdmitSince(w, at, st, AcquireStore(w, s), m, n, reset);
    }
  }

  lemma OneHolding(w: World, at: Clock, st: Stored, s: State, m: Message)
    requires Offers(w, st) && Underway(st, s)
    ensures Holding(st, DispatchOne(w, at, s, m))
  {
    if Since(st, s) { RejectLogonSince(w, at, st, s, m); }
    if Numbered(s, m) {
      var n := Atoi(Get(m, 34)).value;
      if Live(s) {
        DecisionIsSensible(w, at, s, m, n);
        ActSince(w, at, st, s, m, n, DecideFor(w, at, s, m, n));
      } else {
        LogonHolding(w, at, st, s, m, n);
      }
    }
  }

  lemma {:induction false} DrainHolding(w: World, at: Clock, st: Stored, s: State)
    requires Offers(w, st) && Underway(st, s) && KeyedByNumber(s.inb.pending)
    ensures Holding(st, Drain(w, at, s))
    decreases |s.inb.pending|
  {
    var n := s.inb.inSeq;
    if n in s.inb.pending {
      var popped := s.(inb := s.inb.(pending := s.inb.pending - {n}));
      OneHolding(w, at, st, popped, s.inb.pending[n]);
      PopShrinks(w, at, s);
      var (next, o) := DispatchOne(w, at, popped, s.inb.pending[n]);
      if o.Continue? { DrainHolding(w, at, st, next); }
    }
  }

  lemma HappenHolding(w: World, st: Stored, s: State, e: Event)
    requires Offers(w, st) && Underway(st, s) && KeyedByNumber(s.inb.pending)
    ensures var (next, on) := Happen(w, s, e); (next.inb.epoch == 0 || Since(st, next)) && (on ==> Underway(st, next))
  {
    match e
    case Arrives(at, m) =>
      OneHolding(w, at, st, s, m);
      DispatchKeyed(w, at, s, m);
      var (next, o) := DispatchOne(w, at, s, m);
      if o.Continue? { DrainHolding(w, at, st, next); }
      var last := Dispatch(w, at, s, m).0;
      if Since(st, last) { LogoutSince(w, at, st, last); }
    case Sends(at, msgType, extra) => if Since(st, s) { SendSince(w, at, st, s, s.target, msgType, extra); }
    case LogsOut(at) => if Since(st, s) { LogoutSince(w, at, st, s); }
  }

  /** Over every run of a connection: the store is left alone, or what holds since it was taken up holds. */
  lemma {:induction false} RunSince(w: World, st: Stored, s: State, events: seq<Event>)
    requires Offers(w, st) && Underway(st, s) && KeyedByNumber(s.inb.pending)
    ensures var t := Run(w, s, events); t.inb.epoch == 0 || Since(st, t)
    decreases |events|
  {
    if events != [] {
      HappenHolding(w, st, s, events[0]);
      HappenKeyed(w, s, events[0]);
      var (next, on) := Happen(w, s, events[0]);
      if on { RunSince(w, st, next, events[1..]); }
    }
  }

  // ── Over all connections ───────────────────────────────────────────────────

  /** The epochs of a connection counted from the resets before it: its first one continues the last of those. */
  function SentFrom(resets: nat, sent: seq<Sent>): (r: seq<Sent>)
    ensures |r| == |sent|
    ensures forall i :: 0 <= i < |sent| && sent[i].epoch >= 1 ==>
              r[i] == Sent(resets + sent[i].epoch - 1, sent[i].n, sent[i].fields)
  {
    seq(|sent|, i requires 0 <= i < |sent| =>
      Sent(if sent[i].epoch == 0 then resets else resets + sent[i].epoch - 1, sent[i].n, sent[i].fields))
  }

  function HandledFrom(resets: nat, handled: seq<Delivery>): (r: seq<Delivery>)
    ensures |r| == |handled|
    ensures forall i :: 0 <= i < |handled| && handled[i].epoch >= 1 ==>
              r[i] == Delivery(resets + handled[i].epoch - 1, handled[i].n, handled[i].msg)
  {
    seq(|handled|, i requires 0 <= i < |handled| =>
      Delivery(if handled[i].epoch == 0 then resets else resets + handled[i].epoch - 1, handled[i].n, handled[i].msg))
  }

  function Given(l: Line, c: Connection): World {
    c.w.(registry := Holds(l.store.nextIn, l.store.nextOut, l.store.frames))
  }

  function Left(l: Line, c: Connection, t: State): Line
    requires t.inb.epoch >= 1
  {
    var sent := l.sent + SentFrom(l.resets, t.out.sent);
    var handled := l.handled + HandledFrom(l.resets, t.inb.handled);
    if c.wiped then Line(Stored(1, 1, map[]), l.resets + t.inb.epoch, sent, handled)
    else Line(Stored(t.nextIn, t.nextOut, t.out.frames), l.resets + t.inb.epoch - 1, sent, handled)
  }

  /** A connection whose Logon never took up the store leaves it alone. */
  ghost function After(l: Line, c: Connection): Line {
    var t := Run(Given(l, c), Initial(), c.events);
    if t.inb.epoch == 0 then l else Left(l, c, t)
  }

  ghost function Life(l: Line, cs: seq<Connection>): Line
    decreases |cs|
  {
    if cs == [] then l else Life(After(l, cs[0]), cs[1..])
  }

  /** Over the whole life of the session: numbers are queued and delivered in strictly increasing order
      between resets, each frame queued since the last reset is still stored under its number, and all that
      was delivered since then lies below the number the next Logon resumes from. */
  predicate LineOk(l: Line) {
    l.store.nextIn >= 1 && OutboundOk(Outbound(l.store.nextOut, l.store.frames, l.sent, []), l.resets)
    && InOrder(l.handled, l.resets, l.store.nextIn)
  }

  lemma {:induction false} JoinSent(st: Stored, resets: nat, sent: seq<Sent>, o: Outbound, epoch: nat)
    requires OutboundOk(Outbound(st.nextOut, st.frames, sent, []), resets)
    requires epoch >= 1 && OutSince(st, o, epoch) && OutboundOk(o, epoch)
    ensures OutboundOk(Outbound(o.outSeq, o.frames, sent + SentFrom(resets, o.sent), []), resets + epoch - 1)
  {
    var all := sent + SentFrom(resets, o.sent);
    assert forall i :: 0 <= i < |o.sent| ==> all[|sent| + i] == SentFrom(resets, o.sent)[i];
  }

  lemma {:induction false} JoinHandled(st: Stored, resets: nat, handled: seq<Delivery>, i: Inbound, nextIn: nat)
    requires InOrder(handled, resets, st.nextIn)
    requires i.epoch >= 1 && InSince(st, i, nextIn) && InOrder(i.handled, i.epoch, i.inSeq)
    ensures InOrder(handled + HandledFrom(resets, i.handled), resets + i.epoch - 1, nextIn)
  {
    var all := handled + HandledFrom(resets, i.handled);
    assert forall j :: 0 <= j < |i.handled| ==> all[|handled| + j] == HandledFrom(resets, i.handled)[j];
  }

  lemma {:induction false} AfterKeeps(l: Line, c: Connection)
    requires LineOk(l)
    ensures LineOk(After(l, c))
  {
    var w := Given(l, c);
    InitialIsGood();
    RunIsSafe(w, Initial(), c.events);
    RunSince(w, l.store, Initial(), c.events);
    var t := Run(w, Initial(), c.events);
    if t.inb.epoch != 0 { LeftOk(l, c, t); }
  }

  lemma {:induction false} LeftOk(l: Line, c: Connection, t: State)
    requires LineOk(l) && Since(l.store, t)
    requires OutboundOk(t.out, t.inb.epoch) && InOrder(t.inb.handled, t.inb.epoch, t.inb.inSeq)
    ensures LineOk(Left(l, c, t))
  {
    JoinSent(l.store, l.resets, l.sent, t.out, t.inb.epoch);
    JoinHandled(l.store, l.resets, l.handled, t.inb, t.nextIn);
  }

  /** Over any sequence of connections, however each of them ends: no number is queued twice and no message is
      delivered twice between resets, and what was queued can still be retransmitted. */
  lemma {:induction false} LifeIsSafe(l: Line, cs: seq<Connection>)
    requires LineOk(l)
    ensures LineOk(Life(l, cs))
    decreases |cs|
  {
    if cs != [] {
      AfterKeeps(l, cs[0]);
      LifeIsSafe(After(l, cs[0]), cs[1..]);
    }
  }

  lemma FromFreshStore(cs: seq<Connection>)
    ensures LineOk(Life(Line(Stored(1, 1, map[]), 0, [], []), cs))
  {
    LifeIsSafe(Line(Stored(1, 1, map[]), 0, [], []), cs);
  }
}
