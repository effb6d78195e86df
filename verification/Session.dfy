/** The FIX 4.4 session: inbound sequence checks with a bounded out-of-order buffer, gap detection,
    SequenceReset, in-session reset, and outbound numbering with a store. Every function takes one
    state to the next; SessionObject proves the imperative form against them. */
module Session {
  import opened Decimal
  import opened Codec
  import opened CodecLoops
  import opened Resend

  const MAX_PENDING := 64
  const MAX_PENDING_BYTES := 256 * 1024
  const MAX_AHEAD := 4096

  const REQUIRED_TAG_MISSING: string := "1"
  const VALUE_MISSING: string := "4"
  const VALUE_INCORRECT: string := "5"
  const INCORRECT_DATA_FORMAT: string := "6"
  const COMP_ID_PROBLEM: string := "9"
  const SENDING_TIME_ACCURACY: string := "10"
  const INVALID_MSG_TYPE: string := "11"

  datatype Violation = Violation(tag: nat, reason: string)

  /** The store a Logon resumes: none configured, held by another connection, or its sequence state. */
  datatype Registry = NoRegistry | Busy | Holds(nextIn: nat, nextOut: nat, frames: map<nat, seq<Field>>)

  /** What the session is given: its CompID and policy, the dictionary, the credentials, the time
      parser, and which of its successive store writes and queue insertions succeed. */
  datatype World = World(
    self: string,
    resetOnLogon: bool,
    silentLogon: bool,
    maxLatency: int,
    registry: Registry,
    parseTime: string -> Option<int>,
    dictionary: Message -> Option<Violation>,
    authenticate: (string, string) -> bool,
    supports: string -> bool,
    storeOk: nat -> bool,
    queueOk: nat -> bool)

  /** The clock reading a frame is processed at, and its text. */
  datatype Clock = Clock(now: int, text: string)

  datatype Phase = Connected | LoggedOn | LoggingOut | Disconnected

  /** A message handed to the application, with its number and the reset epoch it belongs to. */
  datatype Delivery = Delivery(epoch: nat, n: int, msg: Message)
  /** A frame that was numbered, stored and queued. */
  datatype Sent = Sent(epoch: nat, n: int, fields: seq<Field>)
  /** A ResendRequest from begin, and the highest number its gap has grown to. */
  datatype Request = Request(epoch: nat, begin: int, to: int)

  /** Owned by the read loop: the next expected number, the buffer, the outstanding request. */
  datatype Inbound = Inbound(
    inSeq: nat,
    pending: map<nat, Message>,
    resendTo: int,
    epoch: nat,
    handled: seq<Delivery>,
    asked: seq<Request>)

  /** Guarded by the send lock: the next number, the stored frames, what was queued. */
  datatype Outbound = Outbound(
    outSeq: nat,
    frames: map<nat, seq<Field>>,
    sent: seq<Sent>,
    replayed: seq<Tile>)

  datatype State = State(
    phase: Phase,
    closed: bool,
    target: string,
    inb: Inbound,
    out: Outbound,
    nextIn: nat,
    nextOut: nat,
    writes: nat,
    tries: nat)

  function Initial(): State {
    State(Connected, false, "", Inbound(1, map[], 0, 0, [], []), Outbound(1, map[], [], []), 1, 1, 0, 0)
  }

  /** nil, io.EOF, or an error that ends the session with a Logout. */
  datatype Outcome = Continue | Stop | Fatal

  // ── Sending ────────────────────────────────────────────────────────────────

  function Close(s: State): State {
    if s.closed then s else s.(closed := true, phase := Disconnected)
  }

  /** A closed connection stays closed; an open one keeps its phase until it closes. */
  predicate Stays(s: State, r: State) {
    (s.closed ==> r.closed) && (r.closed || r.phase == s.phase)
  }

  /** SendWithSeq: number, store, then queue; a frame the store refuses is never queued. */
  function SendTo(w: World, at: Clock, s: State, target: string, msgType: string, extra: seq<Field>): (r: State)
    ensures r.inb == s.inb && r.nextIn == s.nextIn && r.target == s.target && Stays(s, r)
  {
    var n := s.out.outSeq;
    var fields := Header(msgType, w.self, target, n, at.text) + extra;
    if !w.storeOk(s.writes) then Close(s.(writes := s.writes + 1))
    else
      var out := s.out.(outSeq := n + 1, frames := s.out.frames[n := fields]);
      var saved := s.(writes := s.writes + 1, nextOut := n + 1, tries := s.tries + 1);
      if w.queueOk(s.tries) then saved.(out := out.(sent := out.sent + [Sent(s.inb.epoch, n, fields)]))
      else Close(saved.(out := out))
  }

  function Send(w: World, at: Clock, s: State, msgType: string, extra: seq<Field>): (r: State)
    ensures r.inb == s.inb
  {
    SendTo(w, at, s, s.target, msgType, extra)
  }

  function RejectFields(refSeq: int, refTag: nat, refType: string, reason: string): seq<Field> {
    [Field(45, Itoa(refSeq))] + (if refTag > 0 then [Field(371, Itoa(refTag))] else [])
    + [Field(372, refType), Field(373, reason)]
  }

  function SendReject(w: World, at: Clock, s: State, refSeq: int, refTag: nat, refType: string,
        reason: string): (r: State)
    ensures r.inb == s.inb
  {
    Send(w, at, s, "3", RejectFields(refSeq, refTag, refType, reason))
  }

  function SendLogout(w: World, at: Clock, s: State): (r: State)
    ensures r.inb == s.inb
  {
    if s.phase.LoggedOn? then Send(w, at, s.(phase := LoggingOut), "5", []) else s
  }

  /** Replays and gap fills go to the queue without a new number and without touching the store. */
  function HandleResendRequest(w: World, s: State, m: Message): (r: State)
    ensures r.inb == s.inb
    ensures r.out.outSeq == s.out.outSeq && r.out.frames == s.out.frames && r.out.sent == s.out.sent
    ensures r.nextOut == s.nextOut
  {
    var ts := Tiles(Can(s.out.frames), ClampBegin(GetInt(m, 7)), ClampEnd(GetInt(m, 16), s.out.outSeq - 1), 0);
    var k := QueueAccepts(w.queueOk, s.tries, |ts|);
    var queued := s.(out := s.out.(replayed := s.out.replayed + ts[..k]));
    if k == |ts| then queued.(tries := s.tries + k) else Close(queued.(tries := s.tries + k + 1))
  }

  // ── Receiving ──────────────────────────────────────────────────────────────

  predicate Submap(a: map<nat, Message>, b: map<nat, Message>) {
    forall k :: k in a ==> k in b && a[k] == b[k]
  }

  function DropBelow(pending: map<nat, Message>, n: int): map<nat, Message> {
    map k | k in pending && k >= n :: pending[k]
  }

  /** setInSeq: advance, drop buffered messages below, persist; false when the store refuses. */
  function SetInSeq(w: World, s: State, n: nat): (State, bool) {
    var moved := s.(inb := s.inb.(inSeq := n, pending := DropBelow(s.inb.pending, n)), writes := s.writes + 1);
    if w.storeOk(s.writes) then (moved.(nextIn := n), true) else (Close(moved), false)
  }

  function ClearResend(s: State): State {
    if s.inb.resendTo != 0 && s.inb.inSeq > s.inb.resendTo then s.(inb := s.inb.(resendTo := 0)) else s
  }

  /** The expected number is used up; a gap it finishes is closed when asked. */
  function Consumed(w: World, s: State, clear: bool): (State, bool) {
    var r := SetInSeq(w, s, s.inb.inSeq + 1);
    if clear && r.1 then (ClearResend(r.0), true) else r
  }

  function ResetOutbound(s: State): State {
    s.(out := s.out.(outSeq := 1, frames := map[]), nextIn := 1, nextOut := 1,
       inb := s.inb.(epoch := s.inb.epoch + 1))
  }

  /** The gap of the last request grows while it is being answered. When all it asked for has been received
      nobody was asked for the new numbers. */
  function Widen(asked: seq<Request>, inSeq: nat, resendTo: int, n: int): seq<Request> {
    if asked == [] || asked[|asked| - 1].to != resendTo || resendTo < inSeq then asked
    else asked[..|asked| - 1] + [asked[|asked| - 1].(to := n)]
  }

  /** requestResend: one request per gap; a later message only widens the gap it covers. */
  function RequestResend(w: World, at: Clock, s: State, n: int): (r: State)
    ensures r.inb.pending == s.inb.pending && r.inb.inSeq == s.inb.inSeq
  {
    var i := s.inb;
    if i.resendTo != 0 then
      if n > i.resendTo then s.(inb := i.(resendTo := n, asked := Widen(i.asked, i.inSeq, i.resendTo, n))) else s
    else
      Send(w, at, s.(inb := i.(resendTo := n, asked := i.asked + [Request(i.epoch, i.inSeq, n)])),
           "2", [Field(7, Itoa(i.inSeq)), Field(16, Itoa(0))])
  }

  /** SequenceReset: move forward to NewSeqNo, never back. */
  function ApplyNewSeqNo(w: World, at: Clock, s: State, newSeq: int, n: int): State {
    if newSeq <= 0 then SendReject(w, at, s, n, 0, "", REQUIRED_TAG_MISSING)
    else if newSeq < s.inb.inSeq then SendReject(w, at, s, n, 0, "4", VALUE_INCORRECT)
    else
      var (moved, ok) := SetInSeq(w, s, newSeq);
      if ok then ClearResend(moved) else moved
  }

  /** Logon with ResetSeqNumFlag inside a session: both directions start over. */
  function ResetSession(w: World, at: Clock, s: State): State {
    var (moved, ok) := SetInSeq(w, ResetOutbound(s.(inb := s.inb.(pending := map[]))), 2);
    if !ok then moved
    else Send(w, at, moved.(inb := moved.inb.(resendTo := 0)), "A", [Field(98, "0"), Field(141, "Y")])
  }

  function HandleLogout(w: World, at: Clock, s: State): (r: State)
    ensures r.inb == s.inb
  {
    if s.phase.LoggingOut? then s else Send(w, at, s.(phase := LoggingOut), "5", [])
  }

  function Deliver(s: State, m: Message, n: int): State {
    s.(inb := s.inb.(handled := s.inb.handled + [Delivery(s.inb.epoch, n, m)]))
  }

  // ── Checks ─────────────────────────────────────────────────────────────────

  function CheckPossDup(w: World, m: Message): Option<string> {
    var orig := Get(m, 122);
    if orig == "" then Some(REQUIRED_TAG_MISSING)
    else
      match (w.parseTime(orig), w.parseTime(Get(m, 52)))
      case (Some(o), Some(t)) => if o > t then Some(SENDING_TIME_ACCURACY) else None
      case _ => Some(INCORRECT_DATA_FORMAT)
  }

  function CheckSendingTime(w: World, at: Clock, m: Message): Option<string> {
    if w.maxLatency <= 0 then None
    else
      match w.parseTime(Get(m, 52))
      case None => Some(INCORRECT_DATA_FORMAT)
      case Some(t) =>
        var latency := if t > at.now then t - at.now else at.now - t;
        if latency > w.maxLatency then Some(SENDING_TIME_ACCURACY) else None
  }

  predicate IsPossDup(m: Message) {
    Get(m, 43) == "Y"
  }

  predicate AlphaNumeric(c: char) {
    '0' <= c <= '9' || 'A' <= c <= 'Z' || 'a' <= c <= 'z'
  }

  predicate ValidMsgType(t: string) {
    1 <= |t| <= 2 && forall i :: 0 <= i < |t| ==> AlphaNumeric(t[i])
  }

  /** Sender or target identifier missing or empty. */
  predicate LacksIdentity(m: Message) {
    Get(m, 49) == "" || Get(m, 56) == ""
  }

  predicate ForeignIdentity(w: World, target: string, m: Message) {
    Get(m, 49) != target || Get(m, 56) != w.self
  }

  predicate IsPlainReset(m: Message) {
    Get(m, 35) == "4" && Get(m, 123) != "Y"
  }

  predicate IsResetLogon(m: Message) {
    Get(m, 35) == "A" && Get(m, 141) == "Y"
  }

  predicate Live(s: State) {
    s.phase.LoggedOn? || s.phase.LoggingOut?
  }

  // ── The buffer ─────────────────────────────────────────────────────────────

  function Size(m: Message): nat {
    if m == [] then 0 else |m[0].value| + 16 + Size(m[1..])
  }

  /** Bytes held by the buffered messages. */
  ghost function Weight(pending: map<nat, Message>): nat
    decreases |pending|
  {
    if k :| k in pending then
      assert |pending - {k}| < |pending| by { assert (pending - {k}).Keys == pending.Keys - {k}; }
      Size(pending[k]) + Weight(pending - {k})
    else 0
  }

  ghost predicate BufferFull(i: Inbound, m: Message, n: int) {
    |i.pending| >= MAX_PENDING || Weight(i.pending) + Size(m) > MAX_PENDING_BYTES || n - i.inSeq > MAX_AHEAD
  }

  // ── Deciding ───────────────────────────────────────────────────────────────

  /** What is done about one message, apart from its number. */
  datatype Reply =
    | Nothing(o: Outcome)
    | Reject(tag: nat, refType: string, reason: string, o: Outcome)
    | RejectAndLogout(refType: string)
    | Logout
    | Heartbeat(id: string)
    | ServeResend
    | NewSeqNo(newSeq: int)
    | ToHandler

  /** Reply only; or consume the expected number first, with or without closing a finished gap; or
      ask for the gap the message reveals; or start both directions over. */
  datatype Action =
    | Just(r: Reply)
    | Consume(clear: bool, r: Reply)
    | AskOnly
    | BufferAndAsk
    | ReplayAndAsk
    | StartOver

  function DictionaryReply(v: Violation, t: string): Reply {
    Reject(v.tag, t, v.reason, Continue)
  }

  function PossDupReply(m: Message, reason: string): Reply {
    if reason == SENDING_TIME_ACCURACY then RejectAndLogout(Get(m, 35)) else Reject(122, Get(m, 35), reason, Continue)
  }

  /** A number already consumed: serve a ResendRequest again, accept a Logout, ignore a flagged
      duplicate, and treat anything else as fatal. */
  function DecideLow(w: World, at: Clock, m: Message): Reply {
    if Get(m, 35) == "2" then
      if w.dictionary(m).Some? then DictionaryReply(w.dictionary(m).value, "2")
      else if CheckSendingTime(w, at, m).Some? then Reject(0, "", CheckSendingTime(w, at, m).value, Continue)
      else if IsPossDup(m) && CheckPossDup(w, m).Some? then PossDupReply(m, CheckPossDup(w, m).value)
      else ServeResend
    else if Get(m, 35) == "5" then Logout
    else if !IsPossDup(m) then Nothing(Fatal)
    else if CheckPossDup(w, m).Some? then PossDupReply(m, CheckPossDup(w, m).value)
    else Nothing(Continue)
  }

  /** A number ahead of the expected one: buffer it within bounds and ask for the gap. */
  function DecideHigh(m: Message, full: bool, buffered: bool): Action {
    if Get(m, 35) == "5" then Just(Logout)
    else if Get(m, 35) == "2" then ReplayAndAsk
    else if full then Just(Nothing(Fatal))
    else if buffered then AskOnly
    else BufferAndAsk
  }

  /** What is done with an in-order message once its number is consumed. */
  function DecideInOrder(w: World, at: Clock, m: Message): Reply {
    var t := Get(m, 35);
    if IsPossDup(m) && CheckPossDup(w, m).Some? then PossDupReply(m, CheckPossDup(w, m).value)
    else if Get(m, 52) == "" then Reject(0, "", REQUIRED_TAG_MISSING, Continue)
    else if CheckSendingTime(w, at, m).Some? then
      var reason := CheckSendingTime(w, at, m).value;
      if reason == SENDING_TIME_ACCURACY then RejectAndLogout(t) else Reject(0, t, reason, Continue)
    else if !ValidMsgType(t) then Reject(0, t, INVALID_MSG_TYPE, Continue)
    else if !IsAdmin(t) && !w.supports(t) then ToHandler
    else if w.dictionary(m).Some? then DictionaryReply(w.dictionary(m).value, t)
    else if t == "A" || t == "0" || t == "3" then Nothing(Continue)
    else if t == "5" then Logout
    else if t == "1" then Heartbeat(Get(m, 112))
    else if t == "2" then ServeResend
    else if t == "4" then NewSeqNo(GetInt(m, 36))
    else ToHandler
  }

  /** A message numbered n on a live session that expects inSeq. Identity defects consume the number
      without closing a finished gap. */
  function Decide(w: World, at: Clock, target: string, inSeq: nat, m: Message, n: int, full: bool,
        buffered: bool): Action {
    if LacksIdentity(m) then
      var tag := if Get(m, 49) == "" then 49 else 56;
      var r := Reject(tag, Get(m, 35), if HasTag(m, tag) then VALUE_MISSING else REQUIRED_TAG_MISSING, Continue);
      if n == inSeq then Consume(false, r) else Just(r)
    else if ForeignIdentity(w, target, m) then Just(Reject(0, Get(m, 35), COMP_ID_PROBLEM, Fatal))
    else if IsPlainReset(m) then
      Just(if w.dictionary(m).Some? then DictionaryReply(w.dictionary(m).value, "4") else NewSeqNo(GetInt(m, 36)))
    else if IsResetLogon(m) then
      if n == 1 then StartOver else Just(Reject(0, "", VALUE_INCORRECT, Continue))
    else if n < inSeq then Just(DecideLow(w, at, m))
    else if n > inSeq then DecideHigh(m, full, buffered)
    else Consume(true, DecideInOrder(w, at, m))
  }

  // ── Performing ─────────────────────────────────────────────────────────────

  function Perform(w: World, at: Clock, s: State, m: Message, n: int, r: Reply): (State, Outcome) {
    match r
    case Nothing(o) => (s, o)
    case Reject(tag, refType, reason, o) => (SendReject(w, at, s, n, tag, refType, reason), o)
    case RejectAndLogout(refType) =>
      (SendLogout(w, at, SendReject(w, at, s, n, 0, refType, SENDING_TIME_ACCURACY)), Stop)
    case Logout => (HandleLogout(w, at, s), Stop)
    case Heartbeat(id) => (Send(w, at, s, "0", [Field(112, id)]), Continue)
    case ServeResend => (HandleResendRequest(w, s, m), Continue)
    case NewSeqNo(newSeq) => (ApplyNewSeqNo(w, at, s, newSeq, n), Continue)
    case ToHandler => (Deliver(s, m, n), Continue)
  }

  function Buffer(s: State, m: Message, n: nat): State {
    s.(inb := s.inb.(pending := s.inb.pending[n := m]))
  }

  function Act(w: World, at: Clock, s: State, m: Message, n: int, a: Action): (State, Outcome) {
    match a
    case Just(r) => Perform(w, at, s, m, n, r)
    case Consume(clear, r) =>
      var (moved, ok) := Consumed(w, s, clear);
      if !ok then (moved, Fatal) else Perform(w, at, moved, m, n, r)
    case AskOnly => (RequestResend(w, at, s, n), Continue)
    case BufferAndAsk => (RequestResend(w, at, if n >= 0 then Buffer(s, m, n) else s, n), Continue)
    case ReplayAndAsk => (RequestResend(w, at, HandleResendRequest(w, s, m), n), Continue)
    case StartOver => (ResetSession(w, at, s), Continue)
  }

  function RejectLogon(w: World, at: Clock, s: State, m: Message): (r: (State, Outcome))
    ensures r.0.inb == s.inb && r.1 == Stop
  {
    if w.silentLogon then (s, Stop) else (SendTo(w, at, s, Get(m, 49), "5", []), Stop)
  }

  /** The numbers of the acquired store are taken up: a new epoch of this connection's history. */
  function AcquireStore(w: World, s: State): State {
    match w.registry
    case Holds(nextIn, nextOut, frames) =>
      s.(inb := s.inb.(inSeq := nextIn, epoch := s.inb.epoch + 1), out := s.out.(outSeq := nextOut, frames := frames),
         nextIn := nextIn, nextOut := nextOut)
    case _ => s
  }

  /** Acquire refuses: another connection holds the session, or this one took it at an earlier Logon. */
  predicate HeldAlready(w: World, s: State) {
    w.registry.Busy? || (w.registry.Holds? && s.inb.epoch > 0)
  }

  predicate LogonRefused(w: World, at: Clock, m: Message) {
    Get(m, 49) == "" || Get(m, 56) != w.self || !w.authenticate(Get(m, 49), Get(m, 554))
    || CheckSendingTime(w, at, m).Some?
    || (Get(m, 8013) != "" && Get(m, 8013) != "Y" && Get(m, 8013) != "N")
  }

  function HandleLogon(w: World, at: Clock, s: State, m: Message, n: int): (State, Outcome) {
    var reset := Get(m, 141) == "Y" || w.resetOnLogon;
    if LogonRefused(w, at, m) then RejectLogon(w, at, s, m)
    else if w.dictionary(m).Some? then
      var v := w.dictionary(m).value;
      RejectLogon(w, at, if w.silentLogon then s
                         else SendTo(w, at, s, Get(m, 49), "3", RejectFields(n, v.tag, "A", v.reason)), m)
    else if (reset && n != 1) || HeldAlready(w, s) then RejectLogon(w, at, s, m)
    else Admit(w, at, AcquireStore(w, s), m, n, reset)
  }

  /** An acceptable Logon on the resumed store: reset if asked, then check its number. */
  function Admit(w: World, at: Clock, s: State, m: Message, n: int, reset: bool): (State, Outcome) {
    var (ready, ok) := if reset then SetInSeq(w, ResetOutbound(s), 1) else (s, true);
    if !ok then (ready, Fatal)
    else if n < ready.inb.inSeq then RejectLogon(w, at, ready, m)
    else Welcome(w, at, ready, m, n, reset)
  }

  function Welcome(w: World, at: Clock, s: State, m: Message, n: int, reset: bool): (State, Outcome)
    requires n >= s.inb.inSeq
  {
    var gap := n > s.inb.inSeq;
    var (moved, ok) := if gap then (s, true) else SetInSeq(w, s, n + 1);
    if !ok then (moved, Fatal)
    else
      var acked := Send(w, at, moved.(target := Get(m, 49), phase := LoggedOn), "A",
                        [Field(98, "0")] + if reset then [Field(141, "Y")] else []);
      (if gap then RequestResend(w, at, acked, n) else acked, Continue)
  }

  /** A SequenceReset-Reset may carry MsgSeqNum 0; every other number must be positive. */
  predicate Numbered(s: State, m: Message) {
    match Atoi(Get(m, 34))
    case None => false
    case Some(n) => n > 0 || (n == 0 && Live(s) && IsPlainReset(m))
  }

  ghost function DecideFor(w: World, at: Clock, s: State, m: Message, n: int): Action {
    Decide(w, at, s.target, s.inb.inSeq, m, n, BufferFull(s.inb, m, n), n in s.inb.pending)
  }

  ghost function DispatchOne(w: World, at: Clock, s: State, m: Message): (State, Outcome) {
    if !Numbered(s, m) then
      if Live(s) then (s, Fatal) else RejectLogon(w, at, s, m)
    else
      var n := Atoi(Get(m, 34)).value;
      if Live(s) then Act(w, at, s, m, n, DecideFor(w, at, s, m, n))
      else if Get(m, 35) != "A" then RejectLogon(w, at, s, m)
      else HandleLogon(w, at, s, m, n)
  }

  /** Buffered messages sit under their own number. */
  predicate KeyedByNumber(pending: map<nat, Message>) {
    forall k :: k in pending ==> Atoi(Get(pending[k], 34)) == Some(k)
  }

  /** One dispatch adds at most the message itself, and only when its number is ahead. */
  predicate BufferStep(before: Inbound, after: Inbound, m: Message, n: int) {
    Submap(after.pending, before.pending) || (n > before.inSeq && after.pending == before.pending[n := m])
  }

  lemma PerformBuffer(w: World, at: Clock, s: State, m: Message, n: int, r: Reply)
    ensures Submap(Perform(w, at, s, m, n, r).0.inb.pending, s.inb.pending)
  {
  }

  lemma ActBuffer(w: World, at: Clock, s: State, m: Message, n: int, a: Action)
    requires a.BufferAndAsk? ==> n > s.inb.inSeq
    ensures BufferStep(s.inb, Act(w, at, s, m, n, a).0.inb, m, n)
  {
    match a
    case Just(r) => PerformBuffer(w, at, s, m, n, r);
    case Consume(clear, r) =>
      var (moved, ok) := Consumed(w, s, clear);
      PerformBuffer(w, at, moved, m, n, r);
    case _ =>
  }

  lemma AdmitBuffer(w: World, at: Clock, s: State, m: Message, n: int, reset: bool)
    ensures Submap(Admit(w, at, s, m, n, reset).0.inb.pending, s.inb.pending)
  {
  }

  lemma LogonBuffer(w: World, at: Clock, s: State, m: Message, n: int)
    ensures Submap(HandleLogon(w, at, s, m, n).0.inb.pending, s.inb.pending)
  {
    AdmitBuffer(w, at, AcquireStore(w, s), m, n, Get(m, 141) == "Y" || w.resetOnLogon);
  }

  lemma DispatchBuffer(w: World, at: Clock, s: State, m: Message)
    ensures var after := DispatchOne(w, at, s, m).0.inb;
            match Atoi(Get(m, 34))
            case None => after == s.inb
            case Some(n) => BufferStep(s.inb, after, m, n)
  {
    if Numbered(s, m) {
      var n := Atoi(Get(m, 34)).value;
      ActBuffer(w, at, s, m, n, DecideFor(w, at, s, m, n));
      LogonBuffer(w, at, s, m, n);
    }
  }

  /** The drain loop: as long as the expected number is buffered, dispatch it. */
  ghost function Drain(w: World, at: Clock, s: State): (State, Outcome)
    requires KeyedByNumber(s.inb.pending)
    decreases |s.inb.pending|
  {
    var n := s.inb.inSeq;
    if n !in s.inb.pending then (s, Continue)
    else
      var m := s.inb.pending[n];
      var popped := s.(inb := s.inb.(pending := s.inb.pending - {n}));
      var (next, o) := DispatchOne(w, at, popped, m);
      if !o.Continue? then (next, o)
      else
        PopShrinks(w, at, s);
        Drain(w, at, next)
  }

  lemma PopShrinks(w: World, at: Clock, s: State)
    requires KeyedByNumber(s.inb.pending) && s.inb.inSeq in s.inb.pending
    ensures var n := s.inb.inSeq;
            var next := DispatchOne(w, at, s.(inb := s.inb.(pending := s.inb.pending - {n})), s.inb.pending[n]).0;
            KeyedByNumber(next.inb.pending) && |next.inb.pending| < |s.inb.pending|
  {
    var n := s.inb.inSeq;
    var rest := s.inb.pending - {n};
    var popped := s.(inb := s.inb.(pending := rest));
    var after := DispatchOne(w, at, popped, s.inb.pending[n]).0.inb;
    DispatchBuffer(w, at, popped, s.inb.pending[n]);
    assert Submap(after.pending, rest);
    ShrinksTo(after.pending, s.inb.pending, n);
  }

  lemma ShrinksTo(a: map<nat, Message>, b: map<nat, Message>, n: nat)
    requires n in b && Submap(a, b - {n})
    ensures |a| < |b|
  {
    Smaller(a.Keys, b.Keys - {n});
  }

  lemma {:induction false} Smaller(a: set<nat>, b: set<nat>)
    requires a <= b
    ensures |a| <= |b|
    decreases a
  {
    if x :| x in a {
      Smaller(a - {x}, b - {x});
    } else {
      assert a == {};
    }
  }

  lemma DispatchKeyed(w: World, at: Clock, s: State, m: Message)
    requires KeyedByNumber(s.inb.pending)
    ensures KeyedByNumber(DispatchOne(w, at, s, m).0.inb.pending)
  {
    DispatchBuffer(w, at, s, m);
  }

  ghost function Dispatch(w: World, at: Clock, s: State, m: Message): (State, Outcome)
    requires KeyedByNumber(s.inb.pending)
  {
    var (next, o) := DispatchOne(w, at, s, m);
    if !o.Continue? then (next, o)
    else
      DispatchKeyed(w, at, s, m);
      Drain(w, at, next)
  }

  lemma {:induction false} KeyedDrain(w: World, at: Clock, s: State)
    requires KeyedByNumber(s.inb.pending)
    ensures KeyedByNumber(Drain(w, at, s).0.inb.pending)
    decreases |s.inb.pending|
  {
    var n := s.inb.inSeq;
    if n in s.inb.pending {
      PopShrinks(w, at, s);
      var (next, o) := DispatchOne(w, at, s.(inb := s.inb.(pending := s.inb.pending - {n})), s.inb.pending[n]);
      if o.Continue? { KeyedDrain(w, at, next); }
    }
  }

  lemma KeyedAfter(w: World, at: Clock, s: State, m: Message)
    requires KeyedByNumber(s.inb.pending)
    ensures KeyedByNumber(Dispatch(w, at, s, m).0.inb.pending)
  {
    DispatchKeyed(w, at, s, m);
    var (next, o) := DispatchOne(w, at, s, m);
    if o.Continue? { KeyedDrain(w, at, next); }
  }

  /** A numbered message on a live session is dispatched by its action. */
  lemma DispatchIs(w: World, at: Clock, s: State, m: Message, n: int, a: Action)
    requires Live(s) && n > 0 && Atoi(Get(m, 34)) == Some(n) && DecideFor(w, at, s, m, n) == a
    ensures DispatchOne(w, at, s, m) == Act(w, at, s, m, n, a)
  {
  }

  lemma DrainOnce(w: World, at: Clock, s: State, t: State)
    requires KeyedByNumber(s.inb.pending) && s.inb.inSeq in s.inb.pending
    requires DispatchOne(w, at, s.(inb := s.inb.(pending := s.inb.pending - {s.inb.inSeq})), s.inb.pending[s.inb.inSeq])
             == (t, Continue)
    ensures KeyedByNumber(t.inb.pending) && Drain(w, at, s) == Drain(w, at, t)
  {
    PopShrinks(w, at, s);
  }
}
