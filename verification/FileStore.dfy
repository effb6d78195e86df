/** The durable message store of one FIX session: an append-only record log, an atomically replaced
    sequence-number file, recovery, compaction, and the in-memory store it stands for. */
module FileStore {
  import opened Decimal
  import opened Framing

  const HEADER := 16
  const MAX_RECORD := 0x100_0000

  /** Where a frame lies in the log. */
  datatype Loc = Loc(off: nat, n: nat)
  datatype Rec = Rec(n: nat, frame: Bytes)

  /** One record: length, checksum over number and frame, number, frame. */
  function Enc(crc: Bytes -> Word32): Rec -> Bytes {
    (r: Rec) => BigEndian(4, |r.frame|) + BigEndian(4, crc(BigEndian(8, r.n) + r.frame)) + BigEndian(8, r.n) + r.frame
  }

  /** The record at the front of s with its size; None when torn, oversized or corrupt. */
  function ReadRecord(crc: Bytes -> Word32): Bytes -> Option<(Rec, nat)> {
    (s: Bytes) =>
      if |s| < HEADER then None
      else
        var n := Unsigned(s[..4]);
        if n > MAX_RECORD || |s| < HEADER + n then None
        else if crc(s[8..16] + s[16..16 + n]) != Unsigned(s[4..8]) then None
        else Some((Rec(Unsigned(s[8..16]), s[16..16 + n]), HEADER + n))
  }

  /** Recovery can read the record back: its frame is within the limit and its number is an int. */
  predicate Fits(r: Rec) {
    |r.frame| <= MAX_RECORD && r.n <= MAX_INT64
  }

  predicate AllFit(rs: seq<Rec>) {
    forall i :: 0 <= i < |rs| ==> Fits(rs[i])
  }

  lemma Parts(a: Bytes, b: Bytes, c: Bytes, d: Bytes, rest: Bytes)
    requires |a| == 4 && |b| == 4 && |c| == 8
    ensures var s := a + b + c + d + rest;
            s[..4] == a && s[4..8] == b && s[8..16] == c && s[16..16 + |d|] == d
  {
  }

  lemma RecordParts(crc: Bytes -> Word32, r: Rec)
    requires Fits(r)
    ensures var c := BigEndian(8, r.n);
            Unsigned(BigEndian(4, |r.frame|)) == |r.frame| && Unsigned(c) == r.n
            && Unsigned(BigEndian(4, crc(c + r.frame))) == crc(c + r.frame)
  {
    WordWidths();
    UnsignedOfBigEndian(4, |r.frame|);
    UnsignedOfBigEndian(8, r.n);
    UnsignedOfBigEndian(4, crc(BigEndian(8, r.n) + r.frame));
  }

  lemma RecordFound(crc: Bytes -> Word32, r: Rec)
    requires Fits(r)
    ensures Finds(ReadRecord(crc), Enc(crc), r)
  {
    RecordParts(crc, r);
    var c := BigEndian(8, r.n);
    forall rest ensures ReadRecord(crc)(Enc(crc)(r) + rest) == Some((r, |Enc(crc)(r)|)) {
      Parts(BigEndian(4, |r.frame|), BigEndian(4, crc(c + r.frame)), c, r.frame, rest);
    }
  }

  /** A record cut short anywhere is not read, whatever the checksum. */
  lemma TornRecord(crc: Bytes -> Word32, r: Rec, k: nat)
    requires Fits(r) && k < |Enc(crc)(r)|
    ensures ReadRecord(crc)(Enc(crc)(r)[..k]).None?
  {
    if k >= HEADER {
      RecordParts(crc, r);
      var c := BigEndian(8, r.n);
      Parts(BigEndian(4, |r.frame|), BigEndian(4, crc(c + r.frame)), c, r.frame, []);
      var e := Enc(crc)(r);
      assert e + [] == e && e[..k][..4] == e[..4];
    }
  }

  // ── Records and the index ──────────────────────────────────────────────────

  function Init<T>(rs: seq<T>): seq<T>
    requires rs != []
  {
    rs[..|rs| - 1]
  }

  function Last<T>(rs: seq<T>): T
    requires rs != []
  {
    rs[|rs| - 1]
  }

  /** The index recovery builds: a later record with the same number replaces an earlier one. */
  function Index(enc: Rec -> Bytes, rs: seq<Rec>): map<nat, Loc>
    decreases |rs|
  {
    if rs == [] then map[]
    else Index(enc, Init(rs))[Last(rs).n := Loc(|Encode(enc, Init(rs))| + HEADER, |Last(rs).frame|)]
  }

  /** The frames a list of records holds. */
  function Frames(rs: seq<Rec>): map<nat, Bytes>
    decreases |rs|
  {
    if rs == [] then map[] else Frames(Init(rs))[Last(rs).n := Last(rs).frame]
  }

  function MaxSeq(rs: seq<Rec>): nat
    decreases |rs|
  {
    if rs == [] then 0 else
      var m := MaxSeq(Init(rs));
      if m < Last(rs).n then Last(rs).n else m
  }

  lemma Snoc(rs: seq<Rec>, r: Rec)
    ensures rs + [r] != [] && Init(rs + [r]) == rs && Last(rs + [r]) == r
  {
  }

  lemma {:induction false} FramesNumbers(rs: seq<Rec>, k: nat)
    requires k in Frames(rs)
    ensures k <= MaxSeq(rs)
    decreases |rs|
  {
    if k != Last(rs).n { FramesNumbers(Init(rs), k); }
  }

  function Slice(log: Bytes, loc: Loc): Option<Bytes> {
    if loc.off + loc.n <= |log| then Some(log[loc.off..loc.off + loc.n]) else None
  }

  /** A frame ends its own record, after a header of fixed size. */
  predicate EndsWithFrame(enc: Rec -> Bytes, r: Rec) {
    |enc(r)| == HEADER + |r.frame| && enc(r)[HEADER..] == r.frame
  }

  ghost predicate FrameLast(enc: Rec -> Bytes) {
    forall r :: EndsWithFrame(enc, r)
  }

  /** Every indexed location holds the newest frame of its number, and later appends do not move it. */
  lemma {:induction false} IndexReads(enc: Rec -> Bytes, rs: seq<Rec>, tail: Bytes, k: nat)
    requires FrameLast(enc)
    ensures k in Index(enc, rs) <==> k in Frames(rs)
    ensures k in Frames(rs) ==> Slice(Encode(enc, rs) + tail, Index(enc, rs)[k]) == Some(Frames(rs)[k])
    decreases |rs|
  {
    if rs != [] {
      var init, last := Init(rs), Last(rs);
      assert rs == init + [last];
      EncodeSnoc(enc, init, last);
      var e := Encode(enc, init);
      if k == last.n {
        assert EndsWithFrame(enc, last);
        Middle(e, enc(last), HEADER, tail);
      } else {
        IndexReads(enc, init, enc(last) + tail, k);
        assert e + enc(last) + tail == e + (enc(last) + tail);
      }
    }
  }

  lemma Middle(e: Bytes, r: Bytes, h: nat, tail: Bytes)
    requires h <= |r|
    ensures (e + r + tail)[|e| + h..|e| + |r|] == r[h..]
  {
  }

  // ── The sequence-number file ───────────────────────────────────────────────

  datatype Nums = Nums(nextIn: nat, nextOut: nat)

  function SeqText(nextIn: nat, nextOut: nat): string {
    Text(nextIn) + " " + Text(nextOut) + "\n"
  }

  /** The number that the digits at the front of s continue, and what follows them. */
  function ScanNumber(s: string, acc: nat): (nat, string) {
    if s == "" || !IsDigit(s[0]) then (acc, s) else ScanNumber(s[1..], 10 * acc + DigitValue(s[0]))
  }

  predicate StartsWithDigit(s: string) {
    s != "" && IsDigit(s[0])
  }

  /** Two int64 numbers separated by a space. */
  function ParseSeqNums(t: string): Option<Nums> {
    var (a, u) := ScanNumber(t, 0);
    if !StartsWithDigit(t) || u == "" || u[0] != ' ' || !StartsWithDigit(u[1..]) then None
    else
      var b := ScanNumber(u[1..], 0).0;
      if a > MAX_INT64 || b > MAX_INT64 then None else Some(Nums(a, b))
  }

  lemma {:induction false} ScanDigits(d: string, rest: string)
    requires OnlyDigits(d)
    ensures ScanNumber(d + rest, 0) == ScanNumber(rest, Value(d))
    decreases |d|
  {
    if d == "" {
      assert d + rest == rest;
    } else {
      var init, c := d[..|d| - 1], d[|d| - 1];
      assert d + rest == init + ([c] + rest);
      ScanDigits(init, [c] + rest);
      assert ([c] + rest)[1..] == rest;
    }
  }

  lemma SeqNumsRoundTrip(a: nat, b: nat)
    requires a <= MAX_INT64 && b <= MAX_INT64
    ensures ParseSeqNums(SeqText(a, b)) == Some(Nums(a, b))
  {
    var u := Text(b) + "\n";
    ValueOfText(a);
    ValueOfText(b);
    ScanDigits(Text(a), " " + u);
    ScanDigits(Text(b), "\n");
    assert SeqText(a, b) == Text(a) + (" " + u) && (" " + u)[1..] == u;
  }

  // ── The store ──────────────────────────────────────────────────────────────

  /** An epoch's archived files. */
  datatype Archived = Archived(log: Option<Bytes>, seqNums: Option<string>)

  /** The files of one session directory; temporary files are invisible until renamed. */
  datatype Disk = Disk(
    log: Bytes,
    seqNums: Option<string>,
    epoch: Option<string>,
    marker: Option<string>,
    archive: map<string, Archived>)

  datatype Store = Store(disk: Disk, index: map<nat, Loc>, nextIn: nat, nextOut: nat)

  function Max(a: nat, b: nat): nat {
    if a < b then b else a
  }

  /** How the files are written and read: records, and the number file. */
  datatype Format = Format(enc: Rec -> Bytes, read: Bytes -> Option<(Rec, nat)>, text: (nat, nat) -> string,
      parse: string -> Option<Nums>)

  function StoredNums(f: Format, d: Disk): Option<Nums> {
    match d.seqNums case None => Some(Nums(1, 1)) case Some(t) => f.parse(t)
  }

  /** finishEpochReset once all its disk steps are done. */
  function FinishReset(d: Disk, e: int): Disk {
    d.(log := [], seqNums := Some("1 1\n"), epoch := Some(Itoa(e)), marker := None)
  }

  /** Index the intact records, cut off the rest, and resume above every number already used. */
  function Recover(f: Format, d: Disk): Option<Store>
  {
    var (rs, good) := Scan(f.read, d.log);
    match StoredNums(f, d)
    case None => None
    case Some(nums) =>
      Some(Store(d.(log := if good <= |d.log| then d.log[..good] else d.log), Index(f.enc, rs), nums.nextIn,
                 Max(nums.nextOut, MaxSeq(rs) + 1)))
  }

  function Open(f: Format, d: Disk): Option<Store> {
    match d.marker
    case None => Recover(f, d)
    case Some(t) =>
      match Atoi(t)
      case None => None
      case Some(e) => Recover(f, FinishReset(d, e))
  }

  function WriteSeqNums(f: Format, s: Store): Store {
    s.(disk := s.disk.(seqNums := Some(f.text(s.nextIn, s.nextOut))))
  }

  function Append(f: Format, s: Store, r: Rec): Store {
    s.(disk := s.disk.(log := s.disk.log + f.enc(r)), index := s.index[r.n := Loc(|s.disk.log| + HEADER, |r.frame|)],
       nextOut := r.n + 1)
  }

  function ReadAt(s: Store, k: int): Option<Bytes> {
    if k in s.index then Slice(s.disk.log, s.index[k]) else None
  }

  /** The records compaction copies: the readable ones numbered [lo, hi), in increasing order. */
  function Kept(s: Store, lo: int, hi: int): seq<Rec>
    decreases if lo < hi then hi - lo else 0
  {
    if lo >= hi then []
    else
      Kept(s, lo, hi - 1)
      + if hi >= 1 && ReadAt(s, hi - 1).Some? then [Rec(hi - 1, ReadAt(s, hi - 1).value)] else []
  }

  function Compact(f: Format, max: nat, s: Store): Store {
    var rs := Kept(s, s.nextOut - max, s.nextOut);
    s.(disk := s.disk.(log := Encode(f.enc, rs)), index := Index(f.enc, rs))
  }

  /** Compact once the log holds twice the retained messages. */
  function Trim(f: Format, max: nat, s: Store): Store {
    if |s.index| >= 2 * max then Compact(f, max, s) else s
  }

  function Save(f: Format, max: nat, s: Store, n: nat, frame: Bytes): Store {
    Trim(f, max, WriteSeqNums(f, Append(f, s, Rec(n, frame))))
  }

  function SetNextIn(f: Format, s: Store, n: nat): Store {
    WriteSeqNums(f, s.(nextIn := n))
  }

  function Reset(f: Format, s: Store): Store {
    WriteSeqNums(f, s.(disk := s.disk.(log := []), index := map[], nextIn := 1, nextOut := 1))
  }

  function Get(max: nat, s: Store, k: int): Option<Bytes> {
    if k < s.nextOut - max then None else ReadAt(s, k)
  }
}
