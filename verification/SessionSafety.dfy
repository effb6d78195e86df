/** What every inbound frame keeps: exactly-once in-order delivery, the bounded buffer, one
    ResendRequest per gap, and outbound numbers that are stored before use and never repeat. */
module SessionSafety {
  import opened Decimal
  import opened Codec
  import opened Session

  // ── Invariants ─────────────────────────────────────────────────────────────

  /** Deliveries are strictly ordered by (epoch, number) and all lie below bound in this epoch. */
  predicate InOrder(handled: seq<Delivery>, epoch: nat, bound: int) {
    && (forall i, j :: 0 <= i < j < |handled| ==>
          handled[i].epoch < handled[j].epoch || (handled[i].epoch == handled[j].epoch && handled[i].n < handled[j].n))
    && forall i :: 0 <= i < |handled| ==>
         handled[i].epoch < epoch || (handled[i].epoch == epoch && handled[i].n < bound)
  }

  ghost predicate Sized(pending: map<nat, Message>) {
    |pending| <= MAX_PENDING && Weight(pending) <= MAX_PENDING_BYTES
  }

  predicate Ahead(pending: map<nat, Message>, inSeq: nat) {
    forall k :: k in pending ==> inSeq <= k <= inSeq + MAX_AHEAD
  }

  /** Each request starts above everything its predecessor had grown to cover, and all but an outstanding
      one are behind the expected number. */
  predicate AskedInOrder(asked: seq<Request>, resendTo: int, epoch: nat, inSeq: nat) {
    && (forall a, b :: 0 <= a < b < |asked| ==>
          asked[a].epoch < asked[b].epoch || (asked[a].epoch == asked[b].epoch && asked[a].to < asked[b].begin))
    && (forall a :: 0 <= a < |asked| ==> asked[a].epoch <= epoch)
    && (forall a :: 0 <= a < |asked| && asked[a].epoch == epoch ==>
          asked[a].to < inSeq || (a == |asked| - 1 && resendTo != 0 && asked[a].to == resendTo))
  }

  /** Something is waited for only after a request of this epoch, from the expected number or below. */
  predicate Outstanding(asked: seq<Request>, resendTo: int, epoch: nat, inSeq: nat) {
    resendTo != 0 ==> asked != [] && asked[|asked| - 1].epoch == epoch && asked[|asked| - 1].begin <= inSeq
  }

  /** What holds for good, also on a connection that was closed in the middle of a step. */
  ghost predicate Lasting(i: Inbound) {
    && i.inSeq >= 1
    && Sized(i.pending)
    && InOrder(i.handled, i.epoch, i.inSeq)
    && AskedInOrder(i.asked, i.resendTo, i.epoch, i.inSeq)
  }

  ghost predicate InboundOk(i: Inbound) {
    Lasting(i) && Ahead(i.pending, i.inSeq) && Outstanding(i.asked, i.resendTo, i.epoch, i.inSeq)
  }

  /** Queued frames carry strictly increasing numbers within an epoch, all below the next one, and
      each is the frame the store holds under its number. */
  predicate OutboundOk(o: Outbound, epoch: nat) {
    && (forall i, j :: 0 <= i < j < |o.sent| ==>
          o.sent[i].epoch < o.sent[j].epoch || (o.sent[i].epoch == o.sent[j].epoch && o.sent[i].n < o.sent[j].n))
    && (forall i :: 0 <= i < |o.sent| ==> o.sent[i].epoch <= epoch)
    && forall i :: 0 <= i < |o.sent| && o.sent[i].epoch == epoch ==>
         o.sent[i].n < o.outSeq && o.sent[i].n in o.frames && o.frames[o.sent[i].n] == o.sent[i].fields
  }

  /** Nothing has happened yet on a connection that has not logged on. */
  predicate Fresh(s: State) {
    s.phase.Connected? ==> s.inb == Initial().inb && s.out.sent == []
  }

  ghost predicate Ok(s: State) {
    Lasting(s.inb) && OutboundOk(s.out, s.inb.epoch) && (s.closed || InboundOk(s.inb))
  }

  /** A step on the inbound side keeps what lasts, and keeps the rest if it was there. */
  ghost predicate Keeps(i: Inbound, j: Inbound) {
    Lasting(j) && (InboundOk(i) ==> InboundOk(j))
  }

  predicate WorldOk(w: World) {
    w.registry.Holds? ==> w.registry.nextIn >= 1
  }

  // ── Weight ─────────────────────────────────────────────────────────────────

  lemma RemoveKey(m: map<nat, Message>, k: nat)
    requires k in m
    ensures |m - {k}| == |m| - 1
  {
    assert (m - {k}).Keys == m.Keys - {k};
  }

  lemma {:induction false} WeightPick(m: map<nat, Message>, k: nat)
    requires k in m
    ensures Weight(m) == Size(m[k]) + Weight(m - {k})
    decreases |m|
  {
    var c :| c in m.Keys && Weight(m) == Size(m[c]) + Weight(m - {c});
    if c != k {
      RemoveKey(m, c);
      RemoveKey(m, k);
      WeightPick(m - {c}, k);
      WeightPick(m - {k}, c);
      assert m - {c} - {k} == m - {k} - {c};
    }
  }

  lemma WeightInsert(m: map<nat, Message>, k: nat, v: Message)
    requires k !in m
    ensures Weight(m[k := v]) == Size(v) + Weight(m) && |m[k := v]| == |m| + 1
  {
    WeightPick(m[k := v], k);
    assert m[k := v] - {k} == m;
    assert m[k := v].Keys == m.Keys + {k};
  }

  lemma {:induction false} WeightDrop(m: map<nat, Message>, n: int)
    ensures Weight(DropBelow(m, n)) <= Weight(m) && |DropBelow(m, n)| <= |m|
    decreases |m|
  {
    if k :| k in m && k < n {
      WeightPick(m, k);
      RemoveKey(m, k);
      var less := m - {k};
      WeightDrop(less, n);
      assert DropBelow(less, n) == DropBelow(m, n);
    } else {
      assert DropBelow(m, n) == m;
    }
  }

  // ── Inbound steps ──────────────────────────────────────────────────────────

  function Advance(i: Inbound, n: nat): Inbound {
    i.(inSeq := n, pending := DropBelow(i.pending, n))
  }

  lemma AdvanceKeeps(i: Inbound, n: nat)
    requires Lasting(i) && n >= i.inSeq
    ensures Keeps(i, Advance(i, n)) && InOrder(i.handled, i.epoch, i.inSeq)
  {
    WeightDrop(i.pending, n);
  }

  lemma WidenKeeps(i: Inbound, n: int)
    requires Lasting(i) && i.resendTo != 0 && n > i.resendTo && n > i.inSeq
    ensures Keeps(i, i.(resendTo := n, asked := Widen(i.asked, i.inSeq, i.resendTo, n)))
  {
    var asked := Widen(i.asked, i.inSeq, i.resendTo, n);
    assert forall a :: 0 <= a < |asked| - 1 ==> asked[a] == i.asked[a];
    assert |asked| == |i.asked|;
  }

  lemma AskKeeps(i: Inbound, n: int)
    requires Lasting(i) && i.resendTo == 0 && n != 0
    ensures Keeps(i, i.(resendTo := n, asked := i.asked + [Request(i.epoch, i.inSeq, n)]))
  {
  }

  lemma BufferKeeps(s: State, m: Message, n: int)
    requires Lasting(s.inb) && n > s.inb.inSeq && n !in s.inb.pending && !BufferFull(s.inb, m, n)
    ensures Keeps(s.inb, s.inb.(pending := s.inb.pending[n := m]))
  {
    WeightInsert(s.inb.pending, n, m);
  }

  lemma DeliverKeeps(i: Inbound, m: Message, n: int)
    requires Lasting(i) && InOrder(i.handled, i.epoch, n) && n < i.inSeq
    ensures Keeps(i, i.(handled := i.handled + [Delivery(i.epoch, n, m)]))
  {
  }

  /** A new epoch with any expected number; what was handled and asked for before is history. */
  lemma AnewKeeps(i: Inbound, j: Inbound)
    requires Lasting(i) && j.inSeq >= 1 && j.epoch == i.epoch + 1 && j.handled == i.handled && j.asked == i.asked
    requires Sized(j.pending)
    ensures Lasting(j) && (j.pending == map[] && j.resendTo == 0 ==> InboundOk(j))
  {
  }

  lemma EmptySized(n: int)
    ensures DropBelow(map[], n) == map[] && Sized(map[])
  {
    WeightDrop(map[], n);
  }

  // ── Outbound steps ─────────────────────────────────────────────────────────

  lemma SendOut(w: World, at: Clock, s: State, target: string, msgType: string, extra: seq<Field>)
    requires OutboundOk(s.out, s.inb.epoch)
    ensures OutboundOk(SendTo(w, at, s, target, msgType, extra).out, s.inb.epoch)
  {
  }

  lemma SendKeeps(w: World, at: Clock, s: State, target: string, msgType: string, extra: seq<Field>)
    requires Ok(s)
    ensures Ok(SendTo(w, at, s, target, msgType, extra))
  {
  }

  lemma RejectKeeps(w: World, at: Clock, s: State, refSeq: int, refTag: nat, refType: string, reason: string)
    requires Ok(s)
    ensures Ok(SendReject(w, at, s, refSeq, refTag, refType, reason))
  {
    SendKeeps(w, at, s, s.target, "3", RejectFields(refSeq, refTag, refType, reason));
  }

  lemma LogoutKeeps(w: World, at: Clock, s: State)
    requires Ok(s)
    ensures Ok(SendLogout(w, at, s)) && Ok(HandleLogout(w, at, s))
  {
    SendKeeps(w, at, s.(phase := LoggingOut), s.target, "5", []);
  }

  lemma ReplayKeeps(w: World, s: State, m: Message)
    requires Ok(s)
    ensures Ok(HandleResendRequest(w, s, m))
  {
    var r := HandleResendRequest(w, s, m);
    assert !r.closed ==> !s.closed && InboundOk(r.inb) && OutboundOk(r.out, r.inb.epoch);
  }

  lemma RejectLogonKeeps(w: World, at: Clock, s: State, m: Message)
    requires Ok(s)
    ensures Ok(RejectLogon(w, at, s, m).0)
  {
    SendKeeps(w, at, s, Get(m, 49), "5", []);
  }

  lemma AskingKeeps(w: World, at: Clock, s: State, n: int)
    requires Ok(s) && n > s.inb.inSeq
    ensures Ok(RequestResend(w, at, s, n))
  {
    var i := s.inb;
    if i.resendTo == 0 {
      AskKeeps(i, n);
      SendKeeps(w, at, s.(inb := i.(resendTo := n, asked := i.asked + [Request(i.epoch, i.inSeq, n)])), s.target,
                "2", [Field(7, Itoa(i.inSeq)), Field(16, Itoa(0))]);
    } else if n > i.resendTo {
      WidenKeeps(i, n);
    }
  }

  lemma SetInSeqKeeps(w: World, s: State, n: nat)
    requires Ok(s) && n >= s.inb.inSeq
    ensures Ok(SetInSeq(w, s, n).0)
  {
    AdvanceKeeps(s.inb, n);
  }

  lemma NewSeqNoKeeps(w: World, at: Clock, s: State, newSeq: int, n: int)
    requires Ok(s)
    ensures Ok(ApplyNewSeqNo(w, at, s, newSeq, n))
  {
    if newSeq <= 0 {
      RejectKeeps(w, at, s, n, 0, "", REQUIRED_TAG_MISSING);
    } else if newSeq < s.inb.inSeq {
      RejectKeeps(w, at, s, n, 0, "4", VALUE_INCORRECT);
    } else {
      SetInSeqKeeps(w, s, newSeq);
      ClearKeeps(SetInSeq(w, s, newSeq).0);
    }
  }

  lemma {:induction false} StartOverKeeps(w: World, at: Clock, s: State)
    requires Ok(s)
    ensures Ok(ResetSession(w, at, s))
  {
    EmptySized(2);
    var (moved, ok) := SetInSeq(w, ResetOutbound(s.(inb := s.inb.(pending := map[]))), 2);
    AnewKeeps(s.inb, moved.inb);
    OutboundAnew(s.out, s.inb.epoch, 1, map[]);
    if ok {
      var ready := moved.(inb := moved.inb.(resendTo := 0));
      AnewKeeps(s.inb, ready.inb);
      SendKeeps(w, at, ready, ready.target, "A", [Field(98, "0"), Field(141, "Y")]);
    }
  }

  // ── Dispatch ───────────────────────────────────────────────────────────────

  lemma PerformKeeps(w: World, at: Clock, s: State, m: Message, n: int, r: Reply)
    requires Ok(s)
    requires r.ToHandler? ==> n < s.inb.inSeq && InOrder(s.inb.handled, s.inb.epoch, n)
    ensures Ok(Perform(w, at, s, m, n, r).0)
  {
    match r
    case Nothing(_) =>
    case Reject(tag, refType, reason, _) => RejectKeeps(w, at, s, n, tag, refType, reason);
    case RejectAndLogout(refType) =>
      RejectKeeps(w, at, s, n, 0, refType, SENDING_TIME_ACCURACY);
      LogoutKeeps(w, at, SendReject(w, at, s, n, 0, refType, SENDING_TIME_ACCURACY));
    case Logout => LogoutKeeps(w, at, s);
    case Heartbeat(id) => SendKeeps(w, at, s, s.target, "0", [Field(112, id)]);
    case ServeResend => ReplayKeeps(w, s, m);
    case NewSeqNo(newSeq) => NewSeqNoKeeps(w, at, s, newSeq, n);
    case ToHandler => DeliverKeeps(s.inb, m, n);
  }

  lemma ClearKeeps(s: State)
    requires Ok(s)
    ensures Ok(ClearResend(s))
  {
  }

  lemma {:induction false} ConsumedKeeps(w: World, s: State, clear: bool)
    requires Ok(s)
    ensures Ok(Consumed(w, s, clear).0)
  {
    ConsumedInbound(w, s, clear);
    ConsumedMoves(w, s, clear);
  }

  lemma {:induction false} ConsumedInbound(w: World, s: State, clear: bool)
    requires Lasting(s.inb)
    ensures Keeps(s.inb, Consumed(w, s, clear).0.inb)
  {
    ConsumedIs(w, s, clear);
    PassedKeeps(s.inb, Consumed(w, s, clear).0.inb);
  }

  /** The expected number is behind, and the gap with it when it was the last one missing. */
  predicate Passed(i: Inbound, j: Inbound) {
    j.inSeq == i.inSeq + 1 && j.pending == DropBelow(i.pending, i.inSeq + 1) && j.epoch == i.epoch
    && j.handled == i.handled
    && j.asked == i.asked && (j.resendTo == i.resendTo || (j.resendTo == 0 && i.inSeq >= i.resendTo))
  }

  lemma {:induction false} PassedKeeps(i: Inbound, j: Inbound)
    requires Lasting(i) && Passed(i, j)
    ensures Keeps(i, j)
  {
    WeightDrop(i.pending, i.inSeq + 1);
    AskedPassed(i.asked, i.resendTo, i.epoch, i.inSeq, j.resendTo);
  }

  lemma AskedPassed(asked: seq<Request>, resendTo: int, epoch: nat, inSeq: nat, after: int)
    requires AskedInOrder(asked, resendTo, epoch, inSeq) && (after == resendTo || (after == 0 && inSeq >= resendTo))
    ensures AskedInOrder(asked, after, epoch, inSeq + 1)
    ensures Outstanding(asked, resendTo, epoch, inSeq) ==> Outstanding(asked, after, epoch, inSeq + 1)
  {
  }

  lemma ConsumedIs(w: World, s: State, clear: bool)
    ensures Passed(s.inb, Consumed(w, s, clear).0.inb)
  {
  }

  lemma ConsumedMoves(w: World, s: State, clear: bool)
    ensures var r := Consumed(w, s, clear).0;
            r.inb.inSeq == s.inb.inSeq + 1 && r.inb.handled == s.inb.handled && r.inb.epoch == s.inb.epoch
            && r.out == s.out && (s.closed ==> r.closed)
  {
  }

  lemma ConsumeKeeps(w: World, at: Clock, s: State, m: Message, clear: bool, r: Reply)
    requires Ok(s)
    ensures Ok(Act(w, at, s, m, s.inb.inSeq, Consume(clear, r)).0)
  {
    ConsumedKeeps(w, s, clear);
    ConsumedMoves(w, s, clear);
    var (moved, ok) := Consumed(w, s, clear);
    if ok { PerformKeeps(w, at, moved, m, s.inb.inSeq, r); }
  }

  /** Actions the decision can return for a message numbered n. */
  predicate Sensible(i: Inbound, n: int, a: Action) {
    match a
    case Just(r) => !r.ToHandler?
    case Consume(_, _) => n == i.inSeq
    case StartOver => true
    case _ => n > i.inSeq
  }

  lemma DecisionIsSensible(w: World, at: Clock, s: State, m: Message, n: int)
    ensures Sensible(s.inb, n, DecideFor(w, at, s, m, n))
    ensures DecideFor(w, at, s, m, n).BufferAndAsk? ==> !BufferFull(s.inb, m, n) && n !in s.inb.pending
  {
  }

  lemma ActKeeps(w: World, at: Clock, s: State, m: Message, n: int, a: Action)
    requires Ok(s) && Sensible(s.inb, n, a)
    requires a.BufferAndAsk? ==> !BufferFull(s.inb, m, n) && n !in s.inb.pending
    ensures Ok(Act(w, at, s, m, n, a).0)
  {
    match a
    case Just(r) => PerformKeeps(w, at, s, m, n, r);
    case Consume(clear, r) => ConsumeKeeps(w, at, s, m, clear, r);
    case AskOnly => AskingKeeps(w, at, s, n);
    case BufferAndAsk =>
      BufferKeeps(s, m, n);
      AskingKeeps(w, at, Buffer(s, m, n), n);
    case ReplayAndAsk =>
      ReplayKeeps(w, s, m);
      AskingKeeps(w, at, HandleResendRequest(w, s, m), n);
    case StartOver => StartOverKeeps(w, at, s);
  }

  /** Nothing is buffered or asked for on an open connection. */
  predicate Blank(s: State) {
    !s.closed ==> s.inb.pending == map[] && s.inb.resendTo == 0
  }

  lemma {:induction false} ReadyKeeps(w: World, s: State)
    requires Ok(s) && Blank(s)
    ensures Ok(SetInSeq(w, ResetOutbound(s), 1).0)
  {
    EmptySized(1);
    WeightDrop(s.inb.pending, 1);
    AnewKeeps(s.inb, SetInSeq(w, ResetOutbound(s), 1).0.inb);
    OutboundAnew(s.out, s.inb.epoch, 1, map[]);
  }

  lemma WelcomeKeeps(w: World, at: Clock, s: State, m: Message, n: int, reset: bool)
    requires Ok(s) && n >= s.inb.inSeq
    ensures Ok(Welcome(w, at, s, m, n, reset).0)
  {
    if n > s.inb.inSeq { WelcomeAhead(w, at, s, m, n, reset); } else { WelcomeInOrder(w, at, s, m, n, reset); }
  }

  lemma {:induction false} WelcomeAhead(w: World, at: Clock, s: State, m: Message, n: int, reset: bool)
    requires Ok(s) && n > s.inb.inSeq
    ensures Ok(Welcome(w, at, s, m, n, reset).0)
  {
    AckKeeps(w, at, s, m, reset);
    AskingKeeps(w, at, Acked(w, at, s, m, reset), n);
  }

  lemma {:induction false} WelcomeInOrder(w: World, at: Clock, s: State, m: Message, n: int, reset: bool)
    requires Ok(s) && n == s.inb.inSeq
    ensures Ok(Welcome(w, at, s, m, n, reset).0)
  {
    WelcomeMoves(w, at, s, m, n, reset);
    PassedKeeps(s.inb, Welcome(w, at, s, m, n, reset).0.inb);
    var (moved, ok) := SetInSeq(w, s, n + 1);
    SendOut(w, at, moved.(target := Get(m, 49), phase := LoggedOn), Get(m, 49), "A",
            [Field(98, "0")] + if reset then [Field(141, "Y")] else []);
  }

  lemma WelcomeMoves(w: World, at: Clock, s: State, m: Message, n: int, reset: bool)
    requires n == s.inb.inSeq
    ensures var r := Welcome(w, at, s, m, n, reset).0; Passed(s.inb, r.inb) && (s.closed ==> r.closed)
  {
  }

  function Acked(w: World, at: Clock, s: State, m: Message, reset: bool): State {
    Send(w, at, s.(target := Get(m, 49), phase := LoggedOn), "A",
         [Field(98, "0")] + if reset then [Field(141, "Y")] else [])
  }

  lemma AckKeeps(w: World, at: Clock, s: State, m: Message, reset: bool)
    requires Ok(s)
    ensures Ok(Acked(w, at, s, m, reset)) && Acked(w, at, s, m, reset).inb == s.inb
  {
    SendKeeps(w, at, s.(target := Get(m, 49), phase := LoggedOn), Get(m, 49), "A",
              [Field(98, "0")] + if reset then [Field(141, "Y")] else []);
  }

  lemma AdmitKeeps(w: World, at: Clock, s: State, m: Message, n: int, reset: bool)
    requires Ok(s) && Blank(s)
    ensures Ok(Admit(w, at, s, m, n, reset).0)
  {
    ReadyKeeps(w, s);
    var (ready, ok) := if reset then SetInSeq(w, ResetOutbound(s), 1) else (s, true);
    if ok {
      if n < ready.inb.inSeq { RejectLogonKeeps(w, at, ready, m); } else { WelcomeKeeps(w, at, ready, m, n, reset); }
    }
  }

  lemma {:induction false} ResumeKeeps(w: World, s: State)
    requires WorldOk(w) && Ok(s) && Blank(s)
    ensures Ok(AcquireStore(w, s)) && Blank(AcquireStore(w, s))
  {
    if w.registry.Holds? {
      AnewKeeps(s.inb, AcquireStore(w, s).inb);
      OutboundAnew(s.out, s.inb.epoch, w.registry.nextOut, w.registry.frames);
    }
  }

  lemma OutboundAnew(o: Outbound, epoch: nat, outSeq: nat, frames: map<nat, seq<Field>>)
    requires OutboundOk(o, epoch)
    ensures OutboundOk(o.(outSeq := outSeq, frames := frames), epoch + 1)
  {
  }

  lemma LogonKeeps(w: World, at: Clock, s: State, m: Message, n: int)
    requires WorldOk(w) && Ok(s) && Blank(s)
    ensures Ok(HandleLogon(w, at, s, m, n).0)
  {
    var reset := Get(m, 141) == "Y" || w.resetOnLogon;
    if LogonRefused(w, at, m) {
      RejectLogonKeeps(w, at, s, m);
    } else if w.dictionary(m).Some? {
      var v := w.dictionary(m).value;
      var rejected := SendTo(w, at, s, Get(m, 49), "3", RejectFields(n, v.tag, "A", v.reason));
      SendKeeps(w, at, s, Get(m, 49), "3", RejectFields(n, v.tag, "A", v.reason));
      RejectLogonKeeps(w, at, if w.silentLogon then s else rejected, m);
    } else if (reset && n != 1) || HeldAlready(w, s) {
      RejectLogonKeeps(w, at, s, m);
    } else {
      ResumeKeeps(w, s);
      AdmitKeeps(w, at, AcquireStore(w, s), m, n, reset);
    }
  }

  /** An open connection waits for its Logon or is logged on. */
  predicate Begun(s: State) {
    !s.closed ==> Fresh(s) && !s.phase.Disconnected?
  }

  /** Every frame, whatever it holds and however it is answered, keeps the invariants. */
  lemma DispatchOneKeeps(w: World, at: Clock, s: State, m: Message)
    requires WorldOk(w) && Ok(s) && Begun(s)
    ensures Ok(DispatchOne(w, at, s, m).0)
  {
    RejectLogonKeeps(w, at, s, m);
    if Numbered(s, m) {
      var n := Atoi(Get(m, 34)).value;
      if Live(s) {
        DecisionIsSensible(w, at, s, m, n);
        ActKeeps(w, at, s, m, n, DecideFor(w, at, s, m, n));
      } else { LogonKeeps(w, at, s, m, n); }
    }
  }

  // ── Phases ─────────────────────────────────────────────────────────────────

  /** After a step that goes on, an open connection is logged on or still waiting for its Logon. */
  predicate GoesOn(s: State, r: (State, Outcome)) {
    (s.closed ==> r.0.closed)
    && (!r.0.closed && r.1.Continue? ==> Fresh(r.0) && !r.0.phase.Disconnected? && (Live(s) ==> Live(r.0)))
  }

  lemma PerformGoesOn(w: World, at: Clock, s: State, m: Message, n: int, r: Reply)
    requires Live(s)
    ensures GoesOn(s, Perform(w, at, s, m, n, r))
  {
  }

  lemma {:induction false} ActGoesOn(w: World, at: Clock, s: State, m: Message, n: int, a: Action)
    requires Live(s)
    ensures GoesOn(s, Act(w, at, s, m, n, a))
  {
    match a
    case Just(r) => PerformGoesOn(w, at, s, m, n, r);
    case Consume(clear, r) =>
      var moved := Consumed(w, s, clear).0;
      if Live(moved) { PerformGoesOn(w, at, moved, m, n, r); }
    case _ =>
  }

  lemma {:induction false} DispatchGoesOn(w: World, at: Clock, s: State, m: Message)
    ensures GoesOn(s, DispatchOne(w, at, s, m))
  {
    if Numbered(s, m) {
      var n := Atoi(Get(m, 34)).value;
      if Live(s) {
        ActGoesOn(w, at, s, m, n, DecideFor(w, at, s, m, n));
      } else {
        LogonGoesOn(w, at, s, m, n);
      }
    }
  }

  lemma {:induction false} LogonGoesOn(w: World, at: Clock, s: State, m: Message, n: int)
    requires !Live(s)
    ensures GoesOn(s, HandleLogon(w, at, s, m, n))
  {
    AdmitGoesOn(w, at, AcquireStore(w, s), m, n, Get(m, 141) == "Y" || w.resetOnLogon);
  }

  lemma {:induction false} AdmitGoesOn(w: World, at: Clock, s: State, m: Message, n: int, reset: bool)
    requires !Live(s)
    ensures GoesOn(s, Admit(w, at, s, m, n, reset))
  {
  }

  // ── Whole runs ─────────────────────────────────────────────────────────────

  ghost predicate Good(s: State) {
    KeyedByNumber(s.inb.pending) && Ok(s) && Begun(s)
  }

  /** The drain stops with the expected number not in the buffer. */
  lemma {:induction false} DrainKeeps(w: World, at: Clock, s: State)
    requires WorldOk(w) && Good(s)
    ensures var (r, o) := Drain(w, at, s);
            KeyedByNumber(r.inb.pending) && Ok(r) && (o.Continue? ==> Good(r) && r.inb.inSeq !in r.inb.pending)
    decreases |s.inb.pending|
  {
    var n := s.inb.inSeq;
    if n in s.inb.pending {
      var m := s.inb.pending[n];
      var popped := s.(inb := s.inb.(pending := s.inb.pending - {n}));
      PopKeeps(s);
      OneKeepsGood(w, at, popped, m);
      PopShrinks(w, at, s);
      var (next, o) := DispatchOne(w, at, popped, m);
      if o.Continue? { DrainKeeps(w, at, next); }
    }
  }

  lemma PopKeeps(s: State)
    requires Good(s) && s.inb.inSeq in s.inb.pending
    ensures Good(s.(inb := s.inb.(pending := s.inb.pending - {s.inb.inSeq})))
  {
    PopInbound(s.inb);
  }

  lemma PopInbound(i: Inbound)
    requires Lasting(i) && i.inSeq in i.pending
    ensures Keeps(i, i.(pending := i.pending - {i.inSeq}))
  {
    WeightPick(i.pending, i.inSeq);
    RemoveKey(i.pending, i.inSeq);
  }

  lemma OneKeepsGood(w: World, at: Clock, s: State, m: Message)
    requires WorldOk(w) && Good(s)
    ensures var (r, o) := DispatchOne(w, at, s, m);
            KeyedByNumber(r.inb.pending) && Ok(r) && (o.Continue? ==> Good(r))
  {
    DispatchGoesOn(w, at, s, m);
    DispatchKeyed(w, at, s, m);
    DispatchOneKeeps(w, at, s, m);
  }

  /** One inbound message, drain included: the invariants hold afterwards, and when the session goes
      on the expected number is not in the buffer. */
  lemma DispatchKeeps(w: World, at: Clock, s: State, m: Message)
    requires WorldOk(w) && Good(s)
    ensures var (r, o) := Dispatch(w, at, s, m);
            Ok(r) && (o.Continue? ==> Good(r) && r.inb.inSeq !in r.inb.pending)
  {
    OneKeepsGood(w, at, s, m);
    var (next, o) := DispatchOne(w, at, s, m);
    if o.Continue? { DrainKeeps(w, at, next); }
  }

  /** Between messages all buffered numbers lie in (inSeq, inSeq + 4096], at most 64 of them, weighing
      at most 256 KiB. */
  lemma BufferAfterDispatch(w: World, at: Clock, s: State, m: Message)
    requires WorldOk(w) && Good(s)
    ensures var (r, o) := Dispatch(w, at, s, m);
            o.Continue? && !r.closed ==>
              (forall k :: k in r.inb.pending ==> r.inb.inSeq < k <= r.inb.inSeq + 4096)
              && |r.inb.pending| <= 64 && Weight(r.inb.pending) <= 262144
  {
    DispatchKeeps(w, at, s, m);
    StrictlyAhead(Dispatch(w, at, s, m).0);
  }

  lemma StrictlyAhead(s: State)
    requires Ok(s)
    ensures !s.closed && s.inb.inSeq !in s.inb.pending ==>
              (forall k :: k in s.inb.pending ==> s.inb.inSeq < k <= s.inb.inSeq + 4096)
              && |s.inb.pending| <= 64 && Weight(s.inb.pending) <= 262144
  {
  }

  /** A message from the peer; a frame sent by the application or the heartbeat loop, which hold the
      session once it is logged on; or Logout(). */
  datatype Event =
    | Arrives(at: Clock, m: Message)
    | Sends(at: Clock, msgType: string, extra: seq<Field>)
    | LogsOut(at: Clock)

  /** What an event leaves, and whether the read loop goes on: it ends at the first message that is not
      answered with Continue. */
  ghost function Happen(w: World, s: State, e: Event): (State, bool)
    requires KeyedByNumber(s.inb.pending)
  {
    match e
    case Arrives(at, m) =>
      var (next, o) := Dispatch(w, at, s, m);
      (if o.Fatal? then SendLogout(w, at, next) else next, o.Continue?)
    case Sends(at, msgType, extra) => (if Live(s) then Send(w, at, s, msgType, extra) else s, true)
    case LogsOut(at) => (SendLogout(w, at, s), true)
  }

  lemma {:induction false} HappenKeyed(w: World, s: State, e: Event)
    requires KeyedByNumber(s.inb.pending)
    ensures KeyedByNumber(Happen(w, s, e).0.inb.pending)
  {
    if e.Arrives? { KeyedAfter(w, e.at, s, e.m); }
  }

  ghost function Run(w: World, s: State, events: seq<Event>): State
    requires KeyedByNumber(s.inb.pending)
    decreases |events|
  {
    if events == [] then s
    else
      HappenKeyed(w, s, events[0]);
      var (next, on) := Happen(w, s, events[0]);
      if on then Run(w, next, events[1..]) else next
  }

  lemma {:induction false} HappenKeeps(w: World, s: State, e: Event)
    requires WorldOk(w) && Good(s)
    ensures var (next, on) := Happen(w, s, e); Ok(next) && (on ==> Good(next))
  {
    match e
    case Arrives(at, m) =>
      DispatchKeeps(w, at, s, m);
      LogoutKeeps(w, at, Dispatch(w, at, s, m).0);
    case Sends(at, msgType, extra) => SendKeepsGood(w, at, s, msgType, extra);
    case LogsOut(at) => LogoutKeepsGood(w, at, s);
  }

  /** Over every run of a connection, its closing and whatever is still read after that included: deliveries
      to the application are strictly ordered by (epoch, number), every ResendRequest begins above all its
      predecessors had covered, every queued frame is the one stored under its number, numbers never
      repeating within an epoch, and the buffer stays within 64 messages and 256 KiB. As long as the
      connection is open the buffered numbers also lie within 4096 of the expected one. */
  lemma {:induction false} RunIsSafe(w: World, s: State, events: seq<Event>)
    requires WorldOk(w) && Good(s)
    ensures Ok(Run(w, s, events))
    decreases |events|
  {
    if events != [] {
      HappenKeeps(w, s, events[0]);
      var (next, on) := Happen(w, s, events[0]);
      if on { RunIsSafe(w, next, events[1..]); }
    }
  }

  lemma SendKeepsGood(w: World, at: Clock, s: State, msgType: string, extra: seq<Field>)
    requires Good(s)
    ensures Live(s) ==> Good(Send(w, at, s, msgType, extra))
  {
    SendKeeps(w, at, s, s.target, msgType, extra);
  }

  lemma LogoutKeepsGood(w: World, at: Clock, s: State)
    requires Good(s)
    ensures Good(SendLogout(w, at, s))
  {
    LogoutKeeps(w, at, s);
  }

  lemma InitialIsGood()
    ensures Good(Initial())
  {
    WeightDrop(map[], 1);
  }
}
