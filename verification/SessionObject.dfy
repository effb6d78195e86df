/** The session as the source runs it: fields updated in place, the drain loop, the loop that discards
    passed numbers from the buffer. Every method is proved against its function in Session. */
module SessionObject {
  import opened Decimal
  import opened Codec
  import opened CodecLoops
  import opened Resend
  import opened Session
  import opened SessionSafety

  /** The bytes held by a buffer, summed key by key. */
  method WeightOf(pending: map<nat, Message>) returns (bytes: nat)
    ensures bytes == Weight(pending)
  {
    bytes := 0;
    var rest := pending;
    while rest.Keys != {}
      invariant bytes + Weight(rest) == Weight(pending)
      decreases |rest|
    {
      var k :| k in rest.Keys;
      WeightPick(rest, k);
      RemoveKey(rest, k);
      bytes := bytes + Size(rest[k]);
      rest := rest - {k};
    }
    assert rest == map[];
  }

  class Endpoint {
    const w: World
    var phase: Phase
    var closed: bool
    var target: string
    var inSeq: nat
    var pending: map<nat, Message>
    var resendTo: int
    var outSeq: nat
    var frames: map<nat, seq<Field>>
    var nextIn: nat
    var nextOut: nat
    var epoch: nat
    var handled: seq<Delivery>
    var asked: seq<Request>
    var sent: seq<Sent>
    var replayed: seq<Tile>
    var writes: nat
    var tries: nat

    function View(): State
      reads this
    {
      State(phase, closed, target, Inbound(inSeq, pending, resendTo, epoch, handled, asked),
            Outbound(outSeq, frames, sent, replayed), nextIn, nextOut, writes, tries)
    }

    constructor (w: World)
      ensures View() == Initial() && this.w == w
    {
      this.w := w;
      phase, closed, target := Connected, false, "";
      inSeq, pending, resendTo, outSeq, frames, nextIn, nextOut := 1, map[], 0, 1, map[], 1, 1;
      epoch, handled, asked, sent, replayed, writes, tries := 0, [], [], [], [], 0, 0;
    }

    method Shut()
      modifies this
      ensures View() == Close(old(View()))
    {
      if !closed { closed, phase := true, Disconnected; }
    }

    /** The queue either takes the frame or the connection closes. */
    method Enqueue(n: int, fields: seq<Field>)
      modifies this
      ensures var was := old(View()).(tries := old(tries) + 1);
              View() == if w.queueOk(old(tries))
                        then was.(out := was.out.(sent := was.out.sent + [Sent(epoch, n, fields)]))
                        else Close(was)
    {
      var queued := w.queueOk(tries);
      tries := tries + 1;
      if queued { sent := sent + [Sent(epoch, n, fields)]; } else { Shut(); }
    }

    /** The store either keeps the frame under its number or the connection closes. */
    method Persist(n: nat, fields: seq<Field>) returns (ok: bool)
      modifies this
      ensures var was := old(View()).(writes := old(writes) + 1);
              ok == w.storeOk(old(writes))
              && View() == if ok
                           then was.(out := was.out.(outSeq := n + 1, frames := was.out.frames[n := fields]),
                                     nextOut := n + 1)
                           else Close(was)
    {
      ok := w.storeOk(writes);
      writes := writes + 1;
      if ok { frames, nextOut, outSeq := frames[n := fields], n + 1, n + 1; } else { Shut(); }
    }

    /** Number, store, queue. */
    method Transmit(at: Clock, to: string, msgType: string, extra: seq<Field>)
      modifies this
      ensures View() == SendTo(w, at, old(View()), to, msgType, extra)
    {
      var n := outSeq;
      var fields := Header(msgType, w.self, to, n, at.text) + extra;
      var ok := Persist(n, fields);
      if ok { Enqueue(n, fields); }
    }

    method TransmitReject(at: Clock, refSeq: int, refTag: nat, refType: string, reason: string)
      modifies this
      ensures View() == SendReject(w, at, old(View()), refSeq, refTag, refType, reason)
    {
      Transmit(at, target, "3", RejectFields(refSeq, refTag, refType, reason));
    }

    method ServeResendRequest(m: Message)
      modifies this
      ensures View() == HandleResendRequest(w, old(View()), m)
    {
      var lo, hi := ClampBegin(GetInt(m, 7)), ClampEnd(GetInt(m, 16), outSeq - 1);
      var out, all := Answer(Can(frames), lo, hi, w.queueOk, tries);
      replayed := replayed + out;
      tries := tries + |out|;
      if !all {
        tries := tries + 1;
        Shut();
      }
    }

    /** Discard what is passed from the buffer. */
    method Discard(n: nat)
      modifies `pending
      ensures pending == DropBelow(old(pending), n)
    {
      var keys := pending.Keys;
      while keys != {}
        invariant pending == map k | k in old(pending) && (k >= n || k in keys) :: old(pending)[k]
        decreases |keys|
      {
        var k :| k in keys;
        keys := keys - {k};
        if k < n { pending := pending - {k}; }
      }
    }

    /** Advance, discard, persist. */
    method MoveTo(n: nat) returns (ok: bool)
      modifies this
      ensures (View(), ok) == SetInSeq(w, old(View()), n)
    {
      inSeq := n;
      Discard(n);
      ok := w.storeOk(writes);
      writes := writes + 1;
      if ok { nextIn := n; } else { Shut(); }
    }

    method CloseGap()
      modifies this
      ensures View() == ClearResend(old(View()))
    {
      if resendTo != 0 && inSeq > resendTo { resendTo := 0; }
    }

    method ConsumeNumber(clear: bool) returns (ok: bool)
      modifies this
      ensures (View(), ok) == Consumed(w, old(View()), clear)
    {
      ok := MoveTo(inSeq + 1);
      if ok && clear { CloseGap(); }
    }

    method AskForResend(at: Clock, n: int)
      modifies this
      ensures View() == RequestResend(w, at, old(View()), n)
    {
      if resendTo != 0 {
        if n > resendTo { resendTo, asked := n, Widen(asked, inSeq, resendTo, n); }
        return;
      }
      resendTo, asked := n, asked + [Request(epoch, inSeq, n)];
      Transmit(at, target, "2", [Field(7, Itoa(inSeq)), Field(16, Itoa(0))]);
    }

    method JumpTo(at: Clock, newSeq: int, n: int)
      modifies this
      ensures View() == ApplyNewSeqNo(w, at, old(View()), newSeq, n)
    {
      if newSeq <= 0 {
        TransmitReject(at, n, 0, "", REQUIRED_TAG_MISSING);
      } else if newSeq < inSeq {
        TransmitReject(at, n, 0, "4", VALUE_INCORRECT);
      } else {
        var ok := MoveTo(newSeq);
        if ok { CloseGap(); }
      }
    }

    method ForgetOutbound()
      modifies this
      ensures View() == ResetOutbound(old(View()))
    {
      outSeq, frames, nextIn, nextOut, epoch := 1, map[], 1, 1, epoch + 1;
    }

    method Restart(at: Clock)
      modifies this
      ensures View() == ResetSession(w, at, old(View()))
    {
      pending := map[];
      ForgetOutbound();
      var ok := MoveTo(2);
      if !ok { return; }
      resendTo := 0;
      Transmit(at, target, "A", [Field(98, "0"), Field(141, "Y")]);
    }

    method AnswerWith(at: Clock, m: Message, n: int, r: Reply) returns (o: Outcome)
      modifies this
      ensures (View(), o) == Perform(w, at, old(View()), m, n, r)
    {
      o := Continue;
      match r {
        case Nothing(out) => o := out;
        case Reject(tag, refType, reason, out) =>
          TransmitReject(at, n, tag, refType, reason);
          o := out;
        case RejectAndLogout(refType) =>
          TransmitReject(at, n, 0, refType, SENDING_TIME_ACCURACY);
          if phase.LoggedOn? {
            phase := LoggingOut;
            Transmit(at, target, "5", []);
          }
          o := Stop;
        case Logout =>
          if !phase.LoggingOut? {
            phase := LoggingOut;
            Transmit(at, target, "5", []);
          }
          o := Stop;
        case Heartbeat(id) => Transmit(at, target, "0", [Field(112, id)]);
        case ServeResend => ServeResendRequest(m);
        case NewSeqNo(newSeq) => JumpTo(at, newSeq, n);
        case ToHandler => handled := handled + [Delivery(epoch, n, m)];
      }
    }

    method Carry(at: Clock, m: Message, n: int, a: Action) returns (o: Outcome)
      modifies this
      ensures (View(), o) == Act(w, at, old(View()), m, n, a)
    {
      o := Continue;
      match a {
        case Just(r) => o := AnswerWith(at, m, n, r);
        case Consume(clear, r) =>
          var ok := ConsumeNumber(clear);
          if !ok { return Fatal; }
          o := AnswerWith(at, m, n, r);
        case AskOnly => AskForResend(at, n);
        case BufferAndAsk =>
          if n >= 0 { pending := pending[n := m]; }
          AskForResend(at, n);
        case ReplayAndAsk =>
          ServeResendRequest(m);
          AskForResend(at, n);
        case StartOver => Restart(at);
      }
    }

    method RefuseLogon(at: Clock, m: Message) returns (o: Outcome)
      modifies this
      ensures (View(), o) == RejectLogon(w, at, old(View()), m)
    {
      if !w.silentLogon { Transmit(at, Get(m, 49), "5", []); }
      o := Stop;
    }

    method Resume()
      modifies this
      ensures View() == AcquireStore(w, old(View()))
    {
      if w.registry.Holds? {
        frames, outSeq, nextOut := w.registry.frames, w.registry.nextOut, w.registry.nextOut;
        inSeq, nextIn, epoch := w.registry.nextIn, w.registry.nextIn, epoch + 1;
      }
    }

    method Greet(at: Clock, m: Message, n: int, reset: bool) returns (o: Outcome)
      requires n >= inSeq
      modifies this
      ensures (View(), o) == Welcome(w, at, old(View()), m, n, reset)
    {
      var gap := n > inSeq;
      if !gap {
        var ok := MoveTo(n + 1);
        if !ok { return Fatal; }
      }
      target, phase := Get(m, 49), LoggedOn;
      Transmit(at, target, "A", [Field(98, "0")] + if reset then [Field(141, "Y")] else []);
      if gap { AskForResend(at, n); }
      o := Continue;
    }

    method AdmitLogon(at: Clock, m: Message, n: int, reset: bool) returns (o: Outcome)
      modifies this
      ensures (View(), o) == Admit(w, at, old(View()), m, n, reset)
    {
      if reset {
        ForgetOutbound();
        var ok := MoveTo(1);
        if !ok { return Fatal; }
      }
      if n < inSeq { o := RefuseLogon(at, m); } else { o := Greet(at, m, n, reset); }
    }

    method LogOn(at: Clock, m: Message, n: int) returns (o: Outcome)
      modifies this
      ensures (View(), o) == HandleLogon(w, at, old(View()), m, n)
    {
      var reset := Get(m, 141) == "Y" || w.resetOnLogon;
      if LogonRefused(w, at, m) { o := RefuseLogon(at, m); return; }
      var v := w.dictionary(m);
      if v.Some? {
        if !w.silentLogon {
          Transmit(at, Get(m, 49), "3", RejectFields(n, v.value.tag, "A", v.value.reason));
        }
        o := RefuseLogon(at, m);
        return;
      }
      if (reset && n != 1) || HeldAlready(w, View()) { o := RefuseLogon(at, m); return; }
      Resume();
      o := AdmitLogon(at, m, n, reset);
    }

    method TakeOne(at: Clock, m: Message) returns (o: Outcome)
      modifies this
      ensures (View(), o) == DispatchOne(w, at, old(View()), m)
    {
      var live := phase.LoggedOn? || phase.LoggingOut?;
      if !Numbered(View(), m) {
        if live { return Fatal; }
        o := RefuseLogon(at, m);
        return;
      }
      var n := Atoi(Get(m, 34)).value;
      if live {
        var bytes := WeightOf(pending);
        var full := |pending| >= MAX_PENDING || bytes + Size(m) > MAX_PENDING_BYTES || n - inSeq > MAX_AHEAD;
        o := Carry(at, m, n, Decide(w, at, target, inSeq, m, n, full, n in pending));
      } else if Get(m, 35) != "A" {
        o := RefuseLogon(at, m);
      } else {
        o := LogOn(at, m, n);
      }
    }

    /** One inbound frame, then every buffered one whose turn has come. */
    method Take(at: Clock, m: Message) returns (o: Outcome)
      requires KeyedByNumber(pending)
      modifies this
      ensures KeyedByNumber(pending) && (View(), o) == Dispatch(w, at, old(View()), m)
    {
      DispatchKeyed(w, at, View(), m);
      ghost var first := View();
      o := TakeOne(at, m);
      while o.Continue? && inSeq in pending
        invariant KeyedByNumber(pending)
        invariant Dispatch(w, at, first, m) == if o.Continue? then Drain(w, at, View()) else (View(), o)
        decreases o.Continue?, |pending|
      {
        PopShrinks(w, at, View());
        var next := pending[inSeq];
        pending := pending - {inSeq};
        o := TakeOne(at, next);
      }
    }
  }
}
