/** The core's write-ahead input log: framed records behind a header, opened by a scan that removes a torn
    tail and checks the record numbers. */
module EventLog {
  import opened Decimal
  import opened Framing

  /** "FXPEVL01" */
  const MAGIC: Bytes := [70, 88, 80, 69, 86, 76, 48, 49]
  const MAX_RECORD := 0x40_0000
  const MAX_UINT64 := 0xffff_ffff_ffff_ffff

  datatype Time = Time(seconds: int, nanos: int)

  datatype Record = Record(n: nat, at: Time, symbol: string, kind: nat, payload: Bytes)

  /** The foreign parts: the record codec, the message codecs by kind, and the checksum. */
  datatype Codecs = Codecs(
    encode: Record -> Bytes,
    decode: Bytes -> Option<Record>,
    encodeMsg: (nat, Msg) -> Bytes,
    decodeMsg: (nat, Bytes) -> Option<Msg>,
    crc: Bytes -> Word32)

  /** A request message; only its symbol matters here. */
  datatype Msg = Msg(symbol: string, body: Bytes)

  datatype Input =
    | New(m: Msg)
    | Cancel(m: Msg)
    | Replace(m: Msg)
    | Tick
    | Subscribe
    | MassCancel(m: Msg)
    | SessionControl(m: Msg)

  /** Decoding inverts encoding. */
  ghost predicate RoundTrips(c: Codecs) {
    (forall r :: c.decode(c.encode(r)) == Some(r)) && (forall k, m :: c.decodeMsg(k, c.encodeMsg(k, m)) == Some(m))
  }

  // ── Inputs ─────────────────────────────────────────────────────────────────

  function Kind(i: Input): nat {
    match i
    case New(_) => 1
    case Cancel(_) => 2
    case Replace(_) => 3
    case Tick => 4
    case Subscribe => 5
    case MassCancel(_) => 6
    case SessionControl(_) => 7
  }

  function Payload(c: Codecs, i: Input): Bytes {
    match i
    case Tick => []
    case Subscribe => []
    case _ => c.encodeMsg(Kind(i), i.m)
  }

  function WithMsg(kind: nat, m: Msg): Option<Input> {
    if kind == 1 then Some(New(m))
    else if kind == 2 then Some(Cancel(m))
    else if kind == 3 then Some(Replace(m))
    else if kind == 6 then Some(MassCancel(m))
    else if kind == 7 then Some(SessionControl(m))
    else None
  }

  /** The input a record holds; None when its kind, payload, symbol or clock is wrong. */
  function DecodeInput(c: Codecs, r: Record): Option<Input> {
    if !(0 <= r.at.nanos < 1_000_000_000) then None
    else if r.kind == 4 then if r.payload == [] then Some(Tick) else None
    else if r.kind == 5 then if r.payload == [] then Some(Subscribe) else None
    else
      match c.decodeMsg(r.kind, r.payload)
      case None => None
      case Some(m) => if r.kind != 7 && m.symbol != r.symbol then None else WithMsg(r.kind, m)
  }

  function RecordOf(c: Codecs, n: nat, symbol: string, at: Time, i: Input): Record {
    Record(n, at, symbol, Kind(i), Payload(c, i))
  }

  /** The request names the symbol it is filed under, and the clock is within a second. */
  predicate Replayable(symbol: string, at: Time, i: Input) {
    0 <= at.nanos < 1_000_000_000
    && (i.New? || i.Cancel? || i.Replace? || i.MassCancel? ==> i.m.symbol == symbol)
  }

  /** What was logged is read back as the same input if and only if it is replayable: append itself does
      not check. */
  lemma DecodedIffReplayable(c: Codecs, n: nat, symbol: string, at: Time, i: Input)
    requires RoundTrips(c)
    ensures DecodeInput(c, RecordOf(c, n, symbol, at, i)) == Some(i) <==> Replayable(symbol, at, i)
    ensures DecodeInput(c, RecordOf(c, n, symbol, at, i)).None? <==> !Replayable(symbol, at, i)
  {
    if !i.Tick? && !i.Subscribe? {
      assert c.decodeMsg(Kind(i), c.encodeMsg(Kind(i), i.m)) == Some(i.m);
    }
  }

  // ── Frames ─────────────────────────────────────────────────────────────────

  /** Length, body, checksum over both. */
  function FrameBytes(body: Bytes, crc: Bytes -> Word32): Bytes {
    BigEndian(4, |body|) + body + BigEndian(4, crc(BigEndian(4, |body|) + body))
  }

  function Enc(c: Codecs): Record -> Bytes {
    (r: Record) => FrameBytes(c.encode(r), c.crc)
  }

  /** A frame is refused before anything is written when the body is empty or too long. */
  predicate Frameable(c: Codecs, r: Record) {
    0 < |c.encode(r)| <= MAX_RECORD
  }

  function ReadBody(c: Codecs, s: Bytes): Option<Bytes> {
    if |s| < 4 then None
    else
      var n := Unsigned(s[..4]);
      if n == 0 || n > MAX_RECORD || |s| < n + 8 then None
      else if c.crc(s[..4] + s[4..4 + n]) != Unsigned(s[4 + n..n + 8]) then None
      else Some(s[4..4 + n])
  }

  function ReadOne(c: Codecs, s: Bytes): Option<(Record, nat)> {
    match ReadBody(c, s)
    case None => None
    case Some(body) =>
      match c.decode(body)
      case None => None
      case Some(r) => Some((r, |body| + 8))
  }

  function ReadFrame(c: Codecs): Bytes -> Option<(Record, nat)> {
    (s: Bytes) => ReadOne(c, s)
  }

  lemma Pieces(a: Bytes, b: Bytes, d: Bytes, rest: Bytes)
    requires |a| == 4 && |d| == 4
    ensures var s := a + b + d + rest; s[..4] == a && s[4..4 + |b|] == b && s[4 + |b|..|b| + 8] == d
  {
  }

  lemma BodyFound(c: Codecs, body: Bytes, rest: Bytes)
    requires 0 < |body| <= MAX_RECORD
    ensures ReadBody(c, FrameBytes(body, c.crc) + rest) == Some(body) && |FrameBytes(body, c.crc)| == |body| + 8
  {
    var a := BigEndian(4, |body|);
    WordWidths();
    UnsignedOfBigEndian(4, |body|);
    UnsignedOfBigEndian(4, c.crc(a + body));
    Pieces(a, body, BigEndian(4, c.crc(a + body)), rest);
  }

  lemma BodyTorn(c: Codecs, body: Bytes, k: nat)
    requires 0 < |body| <= MAX_RECORD && k < |FrameBytes(body, c.crc)|
    ensures ReadBody(c, FrameBytes(body, c.crc)[..k]).None?
  {
    var e, a := FrameBytes(body, c.crc), BigEndian(4, |body|);
    BodyFound(c, body, []);
    if k >= 4 {
      WordWidths();
      UnsignedOfBigEndian(4, |body|);
      Pieces(a, body, BigEndian(4, c.crc(a + body)), []);
      assert e + [] == e && e[..k][..4] == e[..4];
    }
  }

  lemma FrameFound(c: Codecs, r: Record)
    requires RoundTrips(c) && Frameable(c, r)
    ensures Finds(ReadFrame(c), Enc(c), r)
  {
    var body := c.encode(r);
    assert c.decode(body) == Some(r);
    forall rest ensures ReadFrame(c)(Enc(c)(r) + rest) == Some((r, |Enc(c)(r)|)) { BodyFound(c, body, rest); }
    BodyFound(c, body, []);
  }

  /** A frame cut short anywhere is not read. */
  lemma FrameTorn(c: Codecs, r: Record, k: nat)
    requires Frameable(c, r) && k < |Enc(c)(r)|
    ensures ReadFrame(c)(Enc(c)(r)[..k]).None?
  {
    BodyTorn(c, c.encode(r), k);
  }

  // ── The log ────────────────────────────────────────────────────────────────

  /** How a log file is laid out: magic, one configuration record, then the input records. */
  datatype Layout = Layout(
    magic: Bytes,
    config: Record,
    frameable: Record -> bool,
    enc: Record -> Bytes,
    read: Bytes -> Option<(Record, nat)>)

  datatype Log = Log(file: Bytes, next: nat, failed: bool)

  datatype Opening = Opened(log: Log, records: seq<Record>) | Refused

  function Header(l: Layout): Bytes {
    l.magic + l.enc(l.config)
  }

  predicate Numbered(rs: seq<Record>, from: nat) {
    forall i :: 0 <= i < |rs| ==> rs[i].n == from + i
  }

  /** An empty file gets its header; then magic, configuration and record numbers are checked and the
      file is cut after the last intact record. */
  function OpenLog(l: Layout, file: Bytes): Opening {
    if file == [] then if l.frameable(l.config) then OpenHeaded(l, Header(l)) else Refused
    else OpenHeaded(l, file)
  }

  function OpenHeaded(l: Layout, file: Bytes): Opening {
    var m := |l.magic|;
    if |file| < m || file[..m] != l.magic then Refused
    else
      match l.read(file[m..])
      case None => Refused
      case Some((r, n)) =>
        if r != l.config || m + n > |file| then Refused
        else OpenRecords(l, file[..m + n], file[m + n..])
  }

  function OpenRecords(l: Layout, head: Bytes, body: Bytes): Opening {
    var (rs, good) := Scan(l.read, body);
    if !Numbered(rs, 1) || |rs| >= MAX_UINT64 || good > |body| then Refused
    else Opened(Log(head + body[..good], |rs| + 1, false), rs)
  }

  /** Append: refused without a trace when failed, unframeable or out of numbers. */
  predicate Accepts(l: Layout, log: Log, r: Record) {
    !log.failed && l.frameable(r) && log.next < MAX_UINT64
  }

  function Append(l: Layout, log: Log, r: Record): Log {
    Log(log.file + l.enc(r), log.next + 1, false)
  }

  // ── Crash and reopen ───────────────────────────────────────────────────────

  ghost predicate ReadsBack(l: Layout, r: Record) {
    l.frameable(r) ==> Finds(l.read, l.enc, r) && forall k: nat :: k < |l.enc(r)| ==> l.read(l.enc(r)[..k]).None?
  }

  ghost predicate Sound(l: Layout) {
    (forall r :: ReadsBack(l, r)) && l.read([]).None? && l.frameable(l.config) && l.magic != []
  }

  /** The log holds exactly these records, numbered from 1. */
  ghost predicate Holds(l: Layout, log: Log, rs: seq<Record>) {
    !log.failed && log.file == Header(l) + Encode(l.enc, rs) && log.next == |rs| + 1 <= MAX_UINT64 && Numbered(rs, 1)
    && forall i :: 0 <= i < |rs| ==> l.frameable(rs[i])
  }

  lemma HeaderRead(l: Layout, rest: Bytes)
    requires Sound(l)
    ensures OpenHeaded(l, Header(l) + rest) == OpenRecords(l, Header(l), rest) && Header(l) + rest != []
  {
    var m, e, file := |l.magic|, l.enc(l.config), Header(l) + rest;
    assert ReadsBack(l, l.config);
    assert file[..m] == l.magic && file[m..] == e + rest;
    assert file[..m + |e|] == Header(l) && file[m + |e|..] == rest;
  }

  /** Records followed by anything that is not an intact record: exactly the records are found, and the
      file is cut exactly where they end. */
  lemma OpenAfter(l: Layout, rs: seq<Record>, tail: Bytes)
    requires Sound(l) && l.read(tail).None? && Numbered(rs, 1) && |rs| < MAX_UINT64
    requires forall i :: 0 <= i < |rs| ==> l.frameable(rs[i])
    ensures OpenLog(l, Header(l) + Encode(l.enc, rs) + tail)
         == Opened(Log(Header(l) + Encode(l.enc, rs), |rs| + 1, false), rs)
  {
    forall i | 0 <= i < |rs| ensures Finds(l.read, l.enc, rs[i]) { assert ReadsBack(l, rs[i]); }
    ScanEncoded(l.read, l.enc, rs, tail);
    var body := Encode(l.enc, rs) + tail;
    Assoc(Header(l), Encode(l.enc, rs), tail);
    HeaderRead(l, body);
    assert body[..|Encode(l.enc, rs)|] == Encode(l.enc, rs);
  }

  /** After a crash at byte k of an append, opening finds the acknowledged records, or those and the one
      in flight when all of it was written. */
  lemma CrashInAppend(l: Layout, log: Log, rs: seq<Record>, r: Record, k: nat)
    requires Sound(l) && Holds(l, log, rs) && Accepts(l, log, r) && r.n == log.next && k <= |l.enc(r)|
    ensures var all := if k < |l.enc(r)| then rs else rs + [r];
            var after := if k < |l.enc(r)| then log else Append(l, log, r);
            OpenLog(l, log.file + l.enc(r)[..k]) == Opened(after, all) && Holds(l, after, all)
  {
    assert ReadsBack(l, r);
    if k < |l.enc(r)| {
      OpenAfter(l, rs, l.enc(r)[..k]);
    } else {
      assert l.enc(r)[..k] == l.enc(r);
      AppendHolds(l, log, rs, r);
      OpenAfter(l, rs + [r], []);
      assert log.file + l.enc(r) + [] == log.file + l.enc(r);
    }
  }

  lemma AppendHolds(l: Layout, log: Log, rs: seq<Record>, r: Record)
    requires Holds(l, log, rs) && Accepts(l, log, r) && r.n == log.next
    ensures Holds(l, Append(l, log, r), rs + [r])
  {
    EncodeSnoc(l.enc, rs, r);
    Assoc(Header(l), Encode(l.enc, rs), l.enc(r));
  }

  /** A file cut inside its header can be opened if and only if nothing or all of the header is there. */
  lemma CutHeader(l: Layout, k: nat)
    requires Sound(l) && k <= |Header(l)|
    ensures OpenLog(l, Header(l)[..k]).Opened? <==> k == 0 || k == |Header(l)|
  {
    var h, m, e := Header(l), |l.magic|, l.enc(l.config);
    assert ReadsBack(l, l.config);
    OpenAfter(l, [], []);
    assert h + Encode(l.enc, []) + [] == h && h[..|h|] == h;
    if m <= k < |h| { assert h[..k][m..] == e[..k - m]; }
  }

  /** The layout of the source, for any foreign codecs. */
  function SourceLayout(c: Codecs, config: Record): Layout {
    Layout(MAGIC, config, r => Frameable(c, r), Enc(c), ReadFrame(c))
  }

  lemma SourceIsSound(c: Codecs, config: Record)
    requires RoundTrips(c) && Frameable(c, config)
    ensures Sound(SourceLayout(c, config))
  {
    var l := SourceLayout(c, config);
    forall r ensures ReadsBack(l, r) {
      if Frameable(c, r) {
        FrameFound(c, r);
        forall k: nat | k < |Enc(c)(r)| ensures ReadFrame(c)(Enc(c)(r)[..k]).None? { FrameTorn(c, r, k); }
      }
    }
  }

  /** The smallest such file: killed after the first byte of a new log. */
  lemma CutHeaderExample(c: Codecs, config: Record)
    requires RoundTrips(c) && Frameable(c, config)
    ensures var l := SourceLayout(c, config); 1 <= |Header(l)| && OpenLog(l, Header(l)[..1]).Refused?
  {
    SourceIsSound(c, config);
    CutHeader(SourceLayout(c, config), 1);
  }
}
