/** When a sequence gap is asked for. A number consumed by a message without identity does not close
    the gap it finishes; from then on a new gap is not requested. Also what the buffer can hold. */
module SessionGaps {
  import opened Decimal
  import opened Codec
  import opened Resend
  import opened Session
  import opened SessionSafety

  /** A request is still marked outstanding although everything it covered has been received. */
  predicate Stale(i: Inbound) {
    i.resendTo != 0 && i.inSeq > i.resendTo
  }

  lemma PerformStale(w: World, at: Clock, s: State, m: Message, n: int, r: Reply)
    requires !Stale(s.inb) && !s.closed
    ensures var t := Perform(w, at, s, m, n, r).0; t.closed || !Stale(t.inb)
  {
  }

  /** Exactly when an inbound message leaves a finished request marked outstanding. */
  lemma BecomesStale(w: World, at: Clock, s: State, m: Message)
    requires Live(s) && !s.closed && !Stale(s.inb) && s.inb.inSeq >= 1 && Numbered(s, m)
    ensures var n := Atoi(Get(m, 34)).value;
            var (t, o) := DispatchOne(w, at, s, m);
            o.Continue? && !t.closed ==>
              (Stale(t.inb) <==> LacksIdentity(m) && n == s.inb.inSeq && n == s.inb.resendTo)
  {
    var n := Atoi(Get(m, 34)).value;
    var a := DecideFor(w, at, s, m, n);
    DecisionIsSensible(w, at, s, m, n);
    match a
    case Just(r) => PerformStale(w, at, s, m, n, r);
    case Consume(clear, r) =>
      var (moved, ok) := Consumed(w, s, clear);
      if clear && ok { PerformStale(w, at, moved, m, n, r); }
    case _ =>
  }

  // ── What was asked for ─────────────────────────────────────────────────────

  /** The expected number lies in a gap that was asked for in this epoch. */
  predicate Covered(i: Inbound) {
    exists k :: 0 <= k < |i.asked| && i.asked[k].epoch == i.epoch && i.asked[k].begin <= i.inSeq <= i.asked[k].to
  }

  /** What is waited for was asked for. */
  predicate Tracked(i: Inbound) {
    i.resendTo != 0 ==> Covered(i)
  }

  /** The last request is still being answered. */
  predicate Pending(i: Inbound) {
    i.asked != [] && i.asked[|i.asked| - 1].to == i.resendTo != 0 && i.inSeq <= i.resendTo
  }

  /** What is marked outstanding is still being answered. */
  predicate Honest(i: Inbound) {
    i.resendTo != 0 ==> Pending(i)
  }

  predicate AsksOk(i: Inbound) {
    i.inSeq >= 1 && AskedInOrder(i.asked, i.resendTo, i.epoch, i.inSeq)
    && Outstanding(i.asked, i.resendTo, i.epoch, i.inSeq)
  }

  lemma CoveredIsPending(i: Inbound)
    requires AsksOk(i)
    ensures (Covered(i) <==> Pending(i)) && (Tracked(i) <==> Honest(i))
  {
    if Pending(i) {
      var k := |i.asked| - 1;
      assert i.asked[k].epoch == i.epoch && i.asked[k].begin <= i.inSeq <= i.asked[k].to;
    }
  }

  lemma PerformHonest(w: World, at: Clock, s: State, m: Message, n: int, r: Reply)
    requires Honest(s.inb) && !s.closed
    ensures var t := Perform(w, at, s, m, n, r).0; t.closed || Honest(t.inb)
  {
  }

  lemma {:induction false} ConsumedHonest(w: World, s: State, clear: bool)
    requires Honest(s.inb) && s.inb.inSeq >= 1
    ensures var (t, ok) := Consumed(w, s, clear); ok ==> (Honest(t.inb) <==> clear || s.inb.inSeq != s.inb.resendTo)
  {
  }

  lemma {:induction false} ActHonest(w: World, at: Clock, s: State, m: Message, n: int, a: Action)
    requires Honest(s.inb) && !s.closed && Sensible(s.inb, n, a) && s.inb.inSeq >= 1
    requires a.Consume? && !a.clear ==> a.r.Reject?
    ensures var t := Act(w, at, s, m, n, a).0;
            !t.closed ==> (Honest(t.inb) <==> !(a.Consume? && !a.clear && n == s.inb.resendTo))
  {
    match a
    case Just(r) => PerformHonest(w, at, s, m, n, r);
    case Consume(clear, r) =>
      ConsumedHonest(w, s, clear);
      var (moved, ok) := Consumed(w, s, clear);
      if ok && (clear || n != s.inb.resendTo) { PerformHonest(w, at, moved, m, n, r); }
    case _ =>
  }

  lemma {:induction false} OneHonest(w: World, at: Clock, s: State, m: Message)
    requires Honest(s.inb) && !s.closed && s.inb.inSeq >= 1 && Live(s) && Numbered(s, m)
    ensures var n := Atoi(Get(m, 34)).value;
            var t := DispatchOne(w, at, s, m).0;
            !t.closed ==> (Honest(t.inb) <==> !(LacksIdentity(m) && n == s.inb.inSeq && n == s.inb.resendTo))
  {
    var n := Atoi(Get(m, 34)).value;
    DecisionIsSensible(w, at, s, m, n);
    ActHonest(w, at, s, m, n, DecideFor(w, at, s, m, n));
  }

  lemma AsksOkOf(s: State)
    requires Ok(s) && !s.closed
    ensures AsksOk(s.inb)
  {
  }

  /** As long as what is waited for was asked for, exactly one kind of message can end that: one without
      identity that carries the last number asked for. */
  lemma {:induction false} StaysTracked(w: World, at: Clock, s: State, m: Message)
    requires WorldOk(w) && Good(s) && Live(s) && !s.closed && Tracked(s.inb) && Numbered(s, m)
    ensures var n := Atoi(Get(m, 34)).value;
            var t := DispatchOne(w, at, s, m).0;
            !t.closed ==> (Tracked(t.inb) <==> !(LacksIdentity(m) && n == s.inb.inSeq && n == s.inb.resendTo))
  {
    AsksOkOf(s);
    CoveredIsPending(s.inb);
    OneHonest(w, at, s, m);
    DispatchOneKeeps(w, at, s, m);
    var t := DispatchOne(w, at, s, m).0;
    if !t.closed {
      AsksOkOf(t);
      CoveredIsPending(t.inb);
    }
  }

  /** The message reveals a gap: its number is ahead and it is neither fatal nor a Logout. */
  predicate Reveals(a: Action) {
    a.AskOnly? || a.BufferAndAsk? || a.ReplayAndAsk?
  }

  /** What asking for the numbers up to n leaves. */
  function AskedFor(i: Inbound, n: int): Inbound {
    if i.resendTo == 0 then i.(resendTo := n, asked := i.asked + [Request(i.epoch, i.inSeq, n)])
    else if n > i.resendTo then i.(resendTo := n, asked := Widen(i.asked, i.inSeq, i.resendTo, n))
    else i
  }

  lemma {:induction false} AskingCovers(i: Inbound, n: int)
    requires InboundOk(i) && n > i.inSeq
    ensures AsksOk(AskedFor(i, n)) && (Pending(AskedFor(i, n)) <==> Honest(i))
  {
    if i.resendTo == 0 { AskKeeps(i, n); } else if n > i.resendTo { WidenKeeps(i, n); }
  }

  lemma {:induction false} RevealedAsks(w: World, at: Clock, s: State, m: Message, n: int, a: Action)
    requires Reveals(a)
    ensures var t, j := Act(w, at, s, m, n, a).0.inb, AskedFor(s.inb, n);
            t.asked == j.asked && t.resendTo == j.resendTo && t.epoch == j.epoch && t.inSeq == j.inSeq
  {
  }

  /** When a message reveals a gap, the expected number lies in a gap that was asked for afterwards, by a
      request sent now or by an earlier one, if and only if what was waited for before had been asked for. */
  lemma {:induction false} GapIsCovered(w: World, at: Clock, s: State, m: Message, n: int)
    requires Good(s) && !s.closed && n > s.inb.inSeq && Reveals(DecideFor(w, at, s, m, n))
    ensures Covered(Act(w, at, s, m, n, DecideFor(w, at, s, m, n)).0.inb) <==> Tracked(s.inb)
  {
    AsksOkOf(s);
    CoveredIsPending(s.inb);
    AskingCovers(s.inb, n);
    CoveredIsPending(AskedFor(s.inb, n));
    RevealedAsks(w, at, s, m, n, DecideFor(w, at, s, m, n));
  }

  // ── What the buffer holds ──────────────────────────────────────────────────

  /** Of a known identity, and neither a reset nor a ResendRequest nor a Logout: those act at once. */
  predicate Bufferable(w: World, peer: string, m: Message) {
    !LacksIdentity(m) && !ForeignIdentity(w, peer, m) && !IsPlainReset(m) && !IsResetLogon(m)
    && Get(m, 35) != "2" && Get(m, 35) != "5"
  }

  predicate Stocked(w: World, s: State) {
    !s.closed ==> forall k :: k in s.inb.pending ==> Bufferable(w, s.target, s.inb.pending[k])
  }

  lemma {:induction false} ActStocked(w: World, at: Clock, s: State, m: Message, n: int, a: Action)
    requires Stocked(w, s) && !s.closed && (a.BufferAndAsk? ==> Bufferable(w, s.target, m) && n > s.inb.inSeq)
    ensures Stocked(w, Act(w, at, s, m, n, a).0)
  {
    var t := Act(w, at, s, m, n, a).0;
    ActBuffer(w, at, s, m, n, a);
    ActTarget(w, at, s, m, n, a);
    if a.BufferAndAsk? {
    } else {
      ActKeepsLess(w, at, s, m, n, a);
    }
  }

  lemma {:induction false} ActTarget(w: World, at: Clock, s: State, m: Message, n: int, a: Action)
    ensures Act(w, at, s, m, n, a).0.target == s.target
  {
    match a
    case Just(r) => PerformTarget(w, at, s, m, n, r);
    case Consume(clear, r) => PerformTarget(w, at, Consumed(w, s, clear).0, m, n, r);
    case _ =>
  }

  lemma {:induction false} PerformTarget(w: World, at: Clock, s: State, m: Message, n: int, r: Reply)
    ensures Perform(w, at, s, m, n, r).0.target == s.target
  {
  }

  lemma {:induction false} ActKeepsLess(w: World, at: Clock, s: State, m: Message, n: int, a: Action)
    requires !a.BufferAndAsk?
    ensures Submap(Act(w, at, s, m, n, a).0.inb.pending, s.inb.pending)
  {
    match a
    case Just(r) => PerformBuffer(w, at, s, m, n, r);
    case Consume(clear, r) => PerformBuffer(w, at, Consumed(w, s, clear).0, m, n, r);
    case _ =>
  }

  lemma {:induction false} OneStocked(w: World, at: Clock, s: State, m: Message)
    requires Good(s) && Stocked(w, s)
    ensures Stocked(w, DispatchOne(w, at, s, m).0)
  {
    DispatchGoesOn(w, at, s, m);
    if !s.closed && Numbered(s, m) {
      var n := Atoi(Get(m, 34)).value;
      if Live(s) {
        DecisionIsSensible(w, at, s, m, n);
        ActStocked(w, at, s, m, n, DecideFor(w, at, s, m, n));
      } else {
        LogonBuffer(w, at, s, m, n);
      }
    }
  }

  lemma {:induction false} DrainStocked(w: World, at: Clock, s: State)
    requires WorldOk(w) && Good(s) && Stocked(w, s)
    ensures Stocked(w, Drain(w, at, s).0)
    decreases |s.inb.pending|
  {
    var n := s.inb.inSeq;
    if n in s.inb.pending {
      var popped := s.(inb := s.inb.(pending := s.inb.pending - {n}));
      PopKeeps(s);
      PopShrinks(w, at, s);
      OneKeepsGood(w, at, popped, s.inb.pending[n]);
      OneStocked(w, at, popped, s.inb.pending[n]);
      var (next, o) := DispatchOne(w, at, popped, s.inb.pending[n]);
      if o.Continue? { DrainStocked(w, at, next); }
    }
  }

  lemma {:induction false} DispatchStocked(w: World, at: Clock, s: State, m: Message)
    requires WorldOk(w) && Good(s) && Stocked(w, s)
    ensures Stocked(w, Dispatch(w, at, s, m).0)
  {
    OneKeepsGood(w, at, s, m);
    OneStocked(w, at, s, m);
    var (next, o) := DispatchOne(w, at, s, m);
    if o.Continue? { DrainStocked(w, at, next); }
  }

  /** Over every run, as long as the connection is open, only such messages are buffered. */
  lemma {:induction false} RunStocked(w: World, s: State, events: seq<Event>)
    requires WorldOk(w) && Good(s) && Stocked(w, s)
    ensures Stocked(w, Run(w, s, events))
    decreases |events|
  {
    if events != [] {
      HappenKeeps(w, s, events[0]);
      HappenStocked(w, s, events[0]);
      var (next, on) := Happen(w, s, events[0]);
      if on { RunStocked(w, next, events[1..]); }
    }
  }

  lemma {:induction false} HappenStocked(w: World, s: State, e: Event)
    requires WorldOk(w) && Good(s) && Stocked(w, s)
    ensures Stocked(w, Happen(w, s, e).0)
  {
    if e.Arrives? { DispatchStocked(w, e.at, s, e.m); }
  }

  // ── Runs without nameless messages ─────────────────────────────────────────

  predicate AllNamed(events: seq<Event>) {
    events == [] || ((events[0].Arrives? ==> !LacksIdentity(events[0].m)) && AllNamed(events[1..]))
  }

  predicate TrackedSoFar(w: World, s: State) {
    (!s.closed ==> Honest(s.inb)) && Stocked(w, s)
  }

  lemma {:induction false} LogonHonest(w: World, at: Clock, s: State, m: Message, n: int)
    requires WorldOk(w) && s.inb.resendTo == 0 && s.inb.inSeq >= 1
    ensures Honest(HandleLogon(w, at, s, m, n).0.inb)
  {
    AdmitHonest(w, at, AcquireStore(w, s), m, n, Get(m, 141) == "Y" || w.resetOnLogon);
  }

  lemma {:induction false} AdmitHonest(w: World, at: Clock, s: State, m: Message, n: int, reset: bool)
    requires s.inb.resendTo == 0 && s.inb.inSeq >= 1
    ensures Honest(Admit(w, at, s, m, n, reset).0.inb)
  {
  }

  lemma {:induction false} OneTracked(w: World, at: Clock, s: State, m: Message)
    requires WorldOk(w) && Good(s) && TrackedSoFar(w, s) && (!s.closed ==> !LacksIdentity(m))
    ensures TrackedSoFar(w, DispatchOne(w, at, s, m).0)
  {
    OneStocked(w, at, s, m);
    DispatchGoesOn(w, at, s, m);
    if !s.closed && Numbered(s, m) {
      if Live(s) { OneHonest(w, at, s, m); } else { LogonHonest(w, at, s, m, Atoi(Get(m, 34)).value); }
    }
  }

  lemma {:induction false} DrainTracked(w: World, at: Clock, s: State)
    requires WorldOk(w) && Good(s) && TrackedSoFar(w, s)
    ensures TrackedSoFar(w, Drain(w, at, s).0)
    decreases |s.inb.pending|
  {
    var n := s.inb.inSeq;
    if n in s.inb.pending {
      var popped := s.(inb := s.inb.(pending := s.inb.pending - {n}));
      PopKeeps(s);
      PopShrinks(w, at, s);
      OneKeepsGood(w, at, popped, s.inb.pending[n]);
      OneTracked(w, at, popped, s.inb.pending[n]);
      var (next, o) := DispatchOne(w, at, popped, s.inb.pending[n]);
      if o.Continue? { DrainTracked(w, at, next); }
    }
  }

  lemma {:induction false} DispatchTracked(w: World, at: Clock, s: State, m: Message)
    requires WorldOk(w) && Good(s) && TrackedSoFar(w, s) && !LacksIdentity(m)
    ensures TrackedSoFar(w, Dispatch(w, at, s, m).0)
  {
    OneKeepsGood(w, at, s, m);
    OneTracked(w, at, s, m);
    var (next, o) := DispatchOne(w, at, s, m);
    if o.Continue? { DrainTracked(w, at, next); }
  }

  lemma {:induction false} RunTracked(w: World, s: State, events: seq<Event>)
    requires WorldOk(w) && Good(s) && TrackedSoFar(w, s) && AllNamed(events)
    ensures TrackedSoFar(w, Run(w, s, events))
    decreases |events|
  {
    if events != [] {
      HappenKeeps(w, s, events[0]);
      HappenTracked(w, s, events[0]);
      var (next, on) := Happen(w, s, events[0]);
      if on { RunTracked(w, next, events[1..]); }
    }
  }

  lemma {:induction false} HappenTracked(w: World, s: State, e: Event)
    requires WorldOk(w) && Good(s) && TrackedSoFar(w, s) && (e.Arrives? ==> !LacksIdentity(e.m))
    ensures TrackedSoFar(w, Happen(w, s, e).0)
  {
    if e.Arrives? { DispatchTracked(w, e.at, s, e.m); }
  }

  /** Over every run of a new connection in which all messages name sender and target: whatever is waited
      for has been asked for. */
  lemma {:induction false} NamedRunsAsk(w: World, events: seq<Event>)
    requires WorldOk(w) && AllNamed(events)
    ensures var t := Run(w, Initial(), events); !t.closed ==> Tracked(t.inb)
  {
    InitialIsGood();
    RunTracked(w, Initial(), events);
    RunIsSafe(w, Initial(), events);
    var t := Run(w, Initial(), events);
    if !t.closed {
      AsksOkOf(t);
      CoveredIsPending(t.inb);
    }
  }

  // ── What is never asked for ────────────────────────────────────────────────

  /** Something is waited for that the last request did not cover. */
  predicate Unasked(i: Inbound) {
    i.asked != [] && i.asked[|i.asked| - 1].to < i.inSeq <= i.resendTo && i.resendTo != 0
  }

  predicate SamePlace(i: Inbound, j: Inbound) {
    j.epoch == i.epoch && j.inSeq == i.inSeq
  }

  /** The place never moves back, and while it does not move nothing more is asked for. */
  predicate Onward(i: Inbound, j: Inbound) {
    (j.epoch > i.epoch || (j.epoch == i.epoch && j.inSeq >= i.inSeq))
    && (Unasked(i) && SamePlace(i, j) ==> j.asked == i.asked && j.resendTo >= i.resendTo)
  }

  lemma OnwardTwice(i: Inbound, j: Inbound, k: Inbound)
    requires Onward(i, j) && Onward(j, k)
    ensures Onward(i, k)
  {
  }

  lemma PopOnward(i: Inbound, rest: map<nat, Message>, j: Inbound)
    requires Onward(i.(pending := rest), j)
    ensures Onward(i, j)
  {
  }

  lemma {:induction false} PerformOnward(w: World, at: Clock, s: State, m: Message, n: int, r: Reply)
    ensures Onward(s.inb, Perform(w, at, s, m, n, r).0.inb)
  {
  }

  lemma {:induction false} ActOnward(w: World, at: Clock, s: State, m: Message, n: int, a: Action)
    ensures Onward(s.inb, Act(w, at, s, m, n, a).0.inb)
  {
    match a
    case Just(r) => PerformOnward(w, at, s, m, n, r);
    case Consume(clear, r) => PerformOnward(w, at, Consumed(w, s, clear).0, m, n, r);
    case _ =>
  }

  lemma {:induction false} AdmitOnward(w: World, at: Clock, s: State, m: Message, n: int, reset: bool)
    ensures Onward(s.inb, Admit(w, at, s, m, n, reset).0.inb)
  {
    var (ready, ok) := if reset then SetInSeq(w, ResetOutbound(s), 1) else (s, true);
    if ok && n >= ready.inb.inSeq {
      WelcomeOnward(w, at, ready, m, n, reset);
      OnwardTwice(s.inb, ready.inb, Welcome(w, at, ready, m, n, reset).0.inb);
    }
  }

  lemma {:induction false} WelcomeOnward(w: World, at: Clock, s: State, m: Message, n: int, reset: bool)
    requires n >= s.inb.inSeq
    ensures Onward(s.inb, Welcome(w, at, s, m, n, reset).0.inb)
  {
  }

  lemma {:induction false} OneOnward(w: World, at: Clock, s: State, m: Message)
    ensures Onward(s.inb, DispatchOne(w, at, s, m).0.inb)
  {
    if Numbered(s, m) {
      var n := Atoi(Get(m, 34)).value;
      if Live(s) {
        ActOnward(w, at, s, m, n, DecideFor(w, at, s, m, n));
      } else {
        AdmitOnward(w, at, AcquireStore(w, s), m, n, Get(m, 141) == "Y" || w.resetOnLogon);
      }
    }
  }

  lemma {:induction false} DrainOnward(w: World, at: Clock, s: State)
    requires KeyedByNumber(s.inb.pending)
    ensures Onward(s.inb, Drain(w, at, s).0.inb)
    decreases |s.inb.pending|
  {
    var n := s.inb.inSeq;
    if n in s.inb.pending {
      var popped := s.(inb := s.inb.(pending := s.inb.pending - {n}));
      OneOnward(w, at, popped, s.inb.pending[n]);
      PopShrinks(w, at, s);
      var (next, o) := DispatchOne(w, at, popped, s.inb.pending[n]);
      PopOnward(s.inb, s.inb.pending - {n}, next.inb);
      if o.Continue? {
        DrainOnward(w, at, next);
        DrainOnce(w, at, s, next);
        OnwardTwice(s.inb, next.inb, Drain(w, at, next).0.inb);
      }
    }
  }

  lemma {:induction false} DispatchOnward(w: World, at: Clock, s: State, m: Message)
    requires KeyedByNumber(s.inb.pending)
    ensures Onward(s.inb, Dispatch(w, at, s, m).0.inb)
  {
    OneOnward(w, at, s, m);
    DispatchKeyed(w, at, s, m);
    var (next, o) := DispatchOne(w, at, s, m);
    if o.Continue? {
      DrainOnward(w, at, next);
      OnwardTwice(s.inb, next.inb, Drain(w, at, next).0.inb);
    }
  }

  /** Over every run: as long as the expected number stays missing, it is not asked for. */
  lemma {:induction false} NeverAsked(w: World, s: State, events: seq<Event>)
    requires KeyedByNumber(s.inb.pending)
    ensures Onward(s.inb, Run(w, s, events).inb)
    decreases |events|
  {
    if events != [] {
      HappenKeyed(w, s, events[0]);
      HappenOnward(w, s, events[0]);
      var (next, on) := Happen(w, s, events[0]);
      if on {
        NeverAsked(w, next, events[1..]);
        OnwardTwice(s.inb, next.inb, Run(w, next, events[1..]).inb);
      }
    }
  }

  lemma {:induction false} HappenOnward(w: World, s: State, e: Event)
    requires KeyedByNumber(s.inb.pending)
    ensures Onward(s.inb, Happen(w, s, e).0.inb)
  {
    if e.Arrives? { DispatchOnward(w, e.at, s, e.m); }
  }

  /** The failing family: the expected number is the last one covered by the outstanding request and
      arrives without identity; the next message, further ahead, is then buffered but nothing is
      asked, although the expected number is missing. Whatever happens after that, as long as this number
      is expected it is not asked for. */
  lemma {:induction false} ResendSuppressed(w: World, at: Clock, s: State, m1: Message, m2: Message, n: int,
                                            events: seq<Event>)
    returns (t: State, u: State)
    requires Good(s) && Live(s) && !s.closed && s.inb.resendTo == s.inb.inSeq
    requires forall k :: w.storeOk(k)
    requires forall k :: w.queueOk(k)
    requires LacksIdentity(m1) && Atoi(Get(m1, 34)) == Some(s.inb.inSeq)
    requires !LacksIdentity(m2) && !ForeignIdentity(w, s.target, m2) && !IsAdmin(Get(m2, 35))
    requires Atoi(Get(m2, 34)) == Some(n) && n > s.inb.inSeq + 1
    requires var i := DispatchOne(w, at, s, m1).0.inb; n !in i.pending && !BufferFull(i, m2, n)
    ensures t == DispatchOne(w, at, s, m1).0 && u == DispatchOne(w, at, t, m2).0
    ensures Stale(t.inb) && !u.closed && u.inb.inSeq == s.inb.inSeq + 1 && n in u.inb.pending && u.out == t.out
    ensures u.inb.asked == s.inb.asked && !Covered(u.inb) && KeyedByNumber(u.inb.pending)
    ensures var v := Run(w, u, events).inb; SamePlace(u.inb, v) ==> v.asked == s.inb.asked
  {
    t := DispatchOne(w, at, s, m1).0;
    Nameless(w, at, s, m1);
    FurtherAhead(w, at, t, m2, n);
    u := DispatchOne(w, at, t, m2).0;
    AsksOkOf(s);
    LeftUncovered(s.inb, u.inb);
    DispatchKeyed(w, at, s, m1);
    DispatchKeyed(w, at, t, m2);
    NeverAsked(w, u, events);
  }

  lemma LeftUncovered(i: Inbound, j: Inbound)
    requires AsksOk(i) && i.resendTo == i.inSeq
    requires j.asked == i.asked && j.epoch == i.epoch && j.inSeq == i.inSeq + 1 && j.resendTo > j.inSeq
    ensures !Covered(j) && Unasked(j)
  {
  }

  lemma {:induction false} Nameless(w: World, at: Clock, s: State, m: Message)
    requires Live(s) && !s.closed && s.inb.inSeq >= 1 && s.inb.resendTo == s.inb.inSeq
    requires w.storeOk(s.writes) && w.storeOk(s.writes + 1) && w.queueOk(s.tries)
    requires LacksIdentity(m) && Atoi(Get(m, 34)) == Some(s.inb.inSeq)
    ensures var t := DispatchOne(w, at, s, m).0;
            Live(t) && !t.closed && t.target == s.target
            && t.inb == s.inb.(inSeq := s.inb.inSeq + 1, pending := DropBelow(s.inb.pending, s.inb.inSeq + 1))
  {
    var a := DecideFor(w, at, s, m, s.inb.inSeq);
    DispatchIs(w, at, s, m, s.inb.inSeq, a);
    Rejected(w, at, s, m, a.r);
  }

  lemma {:induction false} Rejected(w: World, at: Clock, s: State, m: Message, r: Reply)
    requires Live(s) && !s.closed && r.Reject?
    requires w.storeOk(s.writes) && w.storeOk(s.writes + 1) && w.queueOk(s.tries)
    ensures var t := Act(w, at, s, m, s.inb.inSeq, Consume(false, r)).0;
            Live(t) && !t.closed && t.target == s.target
            && t.inb == s.inb.(inSeq := s.inb.inSeq + 1, pending := DropBelow(s.inb.pending, s.inb.inSeq + 1))
  {
  }

  lemma {:induction false} FurtherAhead(w: World, at: Clock, t: State, m: Message, n: int)
    requires Live(t) && !t.closed && Stale(t.inb) && n > t.inb.inSeq >= 1 && Atoi(Get(m, 34)) == Some(n)
    requires !LacksIdentity(m) && !ForeignIdentity(w, t.target, m) && !IsAdmin(Get(m, 35))
    requires n !in t.inb.pending && !BufferFull(t.inb, m, n)
    ensures var u := DispatchOne(w, at, t, m).0;
            u == t.(inb := t.inb.(pending := t.inb.pending[n := m], resendTo := n))
  {
  }
}
