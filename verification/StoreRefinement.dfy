/** The file store refines the in-memory store: recovery, reopening and compaction are unobservable,
    and a crash inside an operation leaves the store as before or as after it. */
module StoreRefinement {
  import opened Decimal
  import opened Framing
  import opened FileStore

  // ── The specification ──────────────────────────────────────────────────────

  datatype Memory = Memory(msgs: map<nat, Bytes>, nextIn: nat, nextOut: nat)

  datatype Op = OpSave(frame: Bytes) | OpSetNextIn(n: nat) | OpReset | OpReopen

  function MemoryStep(m: Memory, op: Op): Memory {
    match op
    case OpSave(frame) => m.(msgs := m.msgs[m.nextOut := frame], nextOut := m.nextOut + 1)
    case OpSetNextIn(n) => m.(nextIn := n)
    case OpReset => Memory(map[], 1, 1)
    case OpReopen => m
  }

  function MemoryRun(m: Memory, ops: seq<Op>): Memory
    decreases |ops|
  {
    if ops == [] then m else MemoryRun(MemoryStep(m, ops[0]), ops[1..])
  }

  function FileStep(f: Format, max: nat, s: Store, op: Op): Option<Store> {
    match op
    case OpSave(frame) => Some(Save(f, max, s, s.nextOut, frame))
    case OpSetNextIn(n) => Some(SetNextIn(f, s, n))
    case OpReset => Some(Reset(f, s))
    case OpReopen => Open(f, s.disk)
  }

  function FileRun(f: Format, max: nat, s: Store, ops: seq<Op>): Option<Store>
    decreases |ops|
  {
    if ops == [] then Some(s)
    else
      match FileStep(f, max, s, ops[0])
      case None => None
      case Some(next) => FileRun(f, max, next, ops[1..])
  }

  /** What a session can ask of a store: both numbers and the frames within retention. */
  datatype Seen = Seen(nextIn: nat, nextOut: nat, frames: map<nat, Bytes>)

  function Newest(m: map<nat, Bytes>, lo: int): map<nat, Bytes> {
    map k | k in m && k >= lo :: m[k]
  }

  function SeenMemory(max: nat, m: Memory): Seen {
    Seen(m.nextIn, m.nextOut, Newest(m.msgs, m.nextOut - max))
  }

  function SeenFile(max: nat, s: Store): Seen {
    Seen(s.nextIn, s.nextOut, map k | k in s.index && Get(max, s, k).Some? :: Get(max, s, k).value)
  }

  // ── What the files represent ───────────────────────────────────────────────

  /** The log holds exactly rs, the index locates them, and the number file records nextIn and a
      next outbound number b that the log may have overtaken. */
  ghost predicate Represents(f: Format, s: Store, rs: seq<Rec>, b: nat) {
    && s.disk.marker.None? && s.disk.log == Encode(f.enc, rs) && s.index == Index(f.enc, rs) && AllFit(rs)
    && s.nextIn <= MAX_INT64 && s.nextOut <= MAX_INT64
    && StoredNums(f, s.disk) == Some(Nums(s.nextIn, b)) && s.nextOut == Max(b, MaxSeq(rs) + 1)
  }

  /** The readers invert the writers, and a record cut short is not read. */
  ghost predicate Sound(f: Format) {
    && (forall r :: RecordBack(f, r))
    && f.read([]).None? && FrameLast(f.enc)
    && (forall a: nat, b: nat :: NumbersBack(f, a, b))
  }

  ghost predicate RecordBack(f: Format, r: Rec) {
    Fits(r) ==> Finds(f.read, f.enc, r) && forall k: nat :: k < |f.enc(r)| ==> f.read(f.enc(r)[..k]).None?
  }

  predicate NumbersBack(f: Format, a: nat, b: nat) {
    a <= MAX_INT64 && b <= MAX_INT64 ==> f.parse(f.text(a, b)) == Some(Nums(a, b))
  }

  /** Recovery of a log that holds exactly rs, possibly followed by a torn record. */
  lemma Recovered(f: Format, d: Disk, rs: seq<Rec>, tail: Bytes, a: nat, b: nat)
    requires Sound(f) && d.log == Encode(f.enc, rs) + tail && AllFit(rs) && f.read(tail).None?
    requires StoredNums(f, d) == Some(Nums(a, b)) && d.marker.None?
    ensures Open(f, d) == Some(Store(d.(log := Encode(f.enc, rs)), Index(f.enc, rs), a, Max(b, MaxSeq(rs) + 1)))
  {
    forall i | 0 <= i < |rs| ensures Finds(f.read, f.enc, rs[i]) { assert RecordBack(f, rs[i]); }
    ScanEncoded(f.read, f.enc, rs, tail);
    Front(Encode(f.enc, rs), tail);
  }

  lemma Front(a: Bytes, b: Bytes)
    ensures (a + b)[..|a|] == a && a + [] == a
  {
  }

  lemma RecoveredWhole(f: Format, d: Disk, rs: seq<Rec>, a: nat, b: nat)
    requires Sound(f) && d.log == Encode(f.enc, rs) && AllFit(rs) && StoredNums(f, d) == Some(Nums(a, b))
    requires d.marker.None?
    ensures Open(f, d) == Some(Store(d, Index(f.enc, rs), a, Max(b, MaxSeq(rs) + 1)))
  {
    Front(d.log, []);
    Recovered(f, d, rs, [], a, b);
  }

  /** Closing and reopening gives the same store, byte for byte. */
  lemma ReopenSame(f: Format, s: Store, rs: seq<Rec>, b: nat)
    requires Sound(f) && Represents(f, s, rs, b)
    ensures Open(f, s.disk) == Some(s)
  {
    RecoveredWhole(f, s.disk, rs, s.nextIn, b);
  }

  lemma ReadsFrames(f: Format, s: Store, rs: seq<Rec>, k: nat)
    requires Sound(f) && s.disk.log == Encode(f.enc, rs) && s.index == Index(f.enc, rs)
    ensures ReadAt(s, k) == if k in Frames(rs) then Some(Frames(rs)[k]) else None
  {
    IndexReads(f.enc, rs, [], k);
    assert s.disk.log + [] == s.disk.log;
  }

  lemma SeenRecords(f: Format, max: nat, s: Store, rs: seq<Rec>, b: nat)
    requires Sound(f) && Represents(f, s, rs, b)
    ensures SeenFile(max, s) == Seen(s.nextIn, s.nextOut, Newest(Frames(rs), s.nextOut - max))
  {
    var seen := SeenFile(max, s).frames;
    forall k: nat ensures k in seen <==> k in Newest(Frames(rs), s.nextOut - max) {
      ReadsFrames(f, s, rs, k);
      IndexReads(f.enc, rs, [], k);
    }
    forall k: nat | k in seen ensures seen[k] == Frames(rs)[k] { ReadsFrames(f, s, rs, k); }
    assert seen == Newest(Frames(rs), s.nextOut - max);
  }

  // ── Operations ─────────────────────────────────────────────────────────────

  lemma AppendRepresents(f: Format, s: Store, rs: seq<Rec>, b: nat, frame: Bytes)
    requires Sound(f) && Represents(f, s, rs, b) && |frame| <= MAX_RECORD && s.nextOut < MAX_INT64
    ensures Represents(f, Append(f, s, Rec(s.nextOut, frame)), rs + [Rec(s.nextOut, frame)], b)
  {
    var r := Rec(s.nextOut, frame);
    Snoc(rs, r);
    EncodeSnoc(f.enc, rs, r);
  }

  lemma WriteRepresents(f: Format, s: Store, rs: seq<Rec>)
    requires Sound(f)
    requires s.disk.marker.None? && s.disk.log == Encode(f.enc, rs) && s.index == Index(f.enc, rs) && AllFit(rs)
    requires s.nextIn <= MAX_INT64 && MaxSeq(rs) < s.nextOut <= MAX_INT64
    ensures Represents(f, WriteSeqNums(f, s), rs, s.nextOut)
  {
    assert NumbersBack(f, s.nextIn, s.nextOut);
  }

  lemma {:induction false} FramesFit(rs: seq<Rec>, k: nat)
    requires AllFit(rs) && k in Frames(rs)
    ensures Fits(Rec(k, Frames(rs)[k]))
    decreases |rs|
  {
    if k != Last(rs).n { FramesFit(Init(rs), k); }
  }

  function Within(m: map<nat, Bytes>, lo: int, hi: int): map<nat, Bytes> {
    map k | k in m && lo <= k < hi :: m[k]
  }

  lemma WithinStep(m: map<nat, Bytes>, lo: int, hi: int)
    requires lo < hi
    ensures Within(m, lo, hi) == if hi >= 1 && hi - 1 in m then Within(m, lo, hi - 1)[hi - 1 := m[hi - 1]]
            else Within(m, lo, hi - 1)
  {
  }

  lemma KeptSnoc(init: seq<Rec>, r: Rec)
    requires AllFit(init) && Fits(r) && (init != [] ==> MaxSeq(init) < r.n)
    ensures AllFit(init + [r]) && MaxSeq(init + [r]) <= r.n && Frames(init + [r]) == Frames(init)[r.n := r.frame]
  {
    Snoc(init, r);
  }

  /** Compaction keeps the records of [lo, hi) and nothing else. */
  lemma {:induction false} KeptFrames(f: Format, s: Store, rs: seq<Rec>, b: nat, lo: int, hi: int)
    requires Sound(f) && Represents(f, s, rs, b)
    ensures var kept := Kept(s, lo, hi);
            AllFit(kept) && Frames(kept) == Within(Frames(rs), lo, hi) && (kept != [] ==> MaxSeq(kept) < hi)
    decreases if lo < hi then hi - lo else 0
  {
    if lo < hi {
      var init := Kept(s, lo, hi - 1);
      KeptFrames(f, s, rs, b, lo, hi - 1);
      WithinStep(Frames(rs), lo, hi);
      if hi >= 1 { ReadsFrames(f, s, rs, hi - 1); }
      if hi >= 1 && hi - 1 in Frames(rs) {
        FramesFit(rs, hi - 1);
        KeptSnoc(init, Rec(hi - 1, Frames(rs)[hi - 1]));
      } else {
        assert init + [] == init;
      }
    }
  }

  lemma NewestWithin(m: map<nat, Bytes>, kept: map<nat, Bytes>, lo: int, hi: int)
    requires kept == Within(m, lo, hi) && forall k :: k in m ==> k < hi
    ensures Newest(kept, lo) == Newest(m, lo)
  {
  }

  lemma {:induction false} KeptFits(f: Format, s: Store, rs: seq<Rec>, b: nat, lo: int)
    requires Sound(f) && Represents(f, s, rs, b) && s.nextOut >= 1
    ensures AllFit(Kept(s, lo, s.nextOut)) && MaxSeq(Kept(s, lo, s.nextOut)) < s.nextOut
  {
    KeptFrames(f, s, rs, b, lo, s.nextOut);
  }

  lemma {:induction false} CompactSees(f: Format, s: Store, rs: seq<Rec>, b: nat, lo: int)
    requires Sound(f) && Represents(f, s, rs, b)
    ensures Newest(Frames(Kept(s, lo, s.nextOut)), lo) == Newest(Frames(rs), lo)
  {
    KeptFrames(f, s, rs, b, lo, s.nextOut);
    forall k: nat | k in Frames(rs) ensures k < s.nextOut { FramesNumbers(rs, k); }
    NewestWithin(Frames(rs), Frames(Kept(s, lo, s.nextOut)), lo, s.nextOut);
  }

  lemma {:induction false} CompactHolds(f: Format, max: nat, s: Store, rs: seq<Rec>, kept: seq<Rec>) returns (t: Store)
    requires Represents(f, s, rs, s.nextOut) && kept == Kept(s, s.nextOut - max, s.nextOut)
    requires AllFit(kept) && MaxSeq(kept) < s.nextOut
    ensures t == Compact(f, max, s) && Represents(f, t, kept, t.nextOut) && t.nextOut == s.nextOut
    ensures t.nextIn == s.nextIn
  {
    t := s.(disk := s.disk.(log := Encode(f.enc, kept)), index := Index(f.enc, kept));
  }

  lemma {:induction false} CompactRepresents(f: Format, max: nat, s: Store, rs: seq<Rec>)
    returns (t: Store, kept: seq<Rec>)
    requires Sound(f) && Represents(f, s, rs, s.nextOut) && s.nextOut >= 1
    ensures t == Compact(f, max, s) && Represents(f, t, kept, t.nextOut) && t.nextOut == s.nextOut
    ensures t.nextIn == s.nextIn
    ensures Newest(Frames(kept), t.nextOut - max) == Newest(Frames(rs), t.nextOut - max)
  {
    kept := KeptSees(f, s, rs, s.nextOut - max);
    t := CompactHolds(f, max, s, rs, kept);
  }

  lemma {:induction false} KeptSees(f: Format, s: Store, rs: seq<Rec>, lo: int) returns (kept: seq<Rec>)
    requires Sound(f) && Represents(f, s, rs, s.nextOut) && s.nextOut >= 1
    ensures kept == Kept(s, lo, s.nextOut) && AllFit(kept) && MaxSeq(kept) < s.nextOut
    ensures Newest(Frames(kept), lo) == Newest(Frames(rs), lo)
  {
    kept := Kept(s, lo, s.nextOut);
    KeptFits(f, s, rs, s.nextOut, lo);
    CompactSees(f, s, rs, s.nextOut, lo);
  }

  lemma LoggedRepresents(f: Format, s: Store, rs: seq<Rec>, b: nat, frame: Bytes) returns (t: Store, after: seq<Rec>)
    requires Sound(f) && Represents(f, s, rs, b) && |frame| <= MAX_RECORD && s.nextOut < MAX_INT64
    ensures t == WriteSeqNums(f, Append(f, s, Rec(s.nextOut, frame))) && Represents(f, t, after, t.nextOut)
    ensures t.nextOut == s.nextOut + 1 && t.nextIn == s.nextIn && Frames(after) == Frames(rs)[s.nextOut := frame]
  {
    var r := Rec(s.nextOut, frame);
    after := rs + [r];
    AppendRepresents(f, s, rs, b, frame);
    WriteRepresents(f, Append(f, s, r), after);
    Snoc(rs, r);
    t := WriteSeqNums(f, Append(f, s, r));
  }

  lemma NewestSame(a: map<nat, Bytes>, b: map<nat, Bytes>, lo: int)
    requires a == b
    ensures Newest(a, lo) == Newest(b, lo)
  {
  }

  lemma TrimRepresents(f: Format, max: nat, s: Store, rs: seq<Rec>) returns (t: Store, kept: seq<Rec>)
    requires Sound(f) && Represents(f, s, rs, s.nextOut) && s.nextOut >= 1
    ensures t == Trim(f, max, s) && Represents(f, t, kept, t.nextOut) && t.nextOut == s.nextOut && t.nextIn == s.nextIn
    ensures Newest(Frames(kept), t.nextOut - max) == Newest(Frames(rs), t.nextOut - max)
  {
    if |s.index| >= 2 * max {
      t, kept := CompactRepresents(f, max, s, rs);
    } else {
      t, kept := s, rs;
    }
  }

  lemma SaveRepresents(f: Format, max: nat, s: Store, rs: seq<Rec>, b: nat, frame: Bytes)
    returns (t: Store, after: seq<Rec>)
    requires Sound(f) && Represents(f, s, rs, b) && |frame| <= MAX_RECORD && s.nextOut < MAX_INT64
    ensures t == Save(f, max, s, s.nextOut, frame) && Represents(f, t, after, t.nextOut)
    ensures t.nextOut == s.nextOut + 1 && t.nextIn == s.nextIn
    ensures Newest(Frames(after), t.nextOut - max) == Newest(Frames(rs)[s.nextOut := frame], t.nextOut - max)
  {
    var saved, logged := LoggedRepresents(f, s, rs, b, frame);
    t, after := TrimRepresents(f, max, saved, logged);
    NewestSame(Frames(logged), Frames(rs)[s.nextOut := frame], t.nextOut - max);
  }

  lemma ResetRepresents(f: Format, s: Store)
    requires Sound(f) && s.disk.marker.None?
    ensures Represents(f, Reset(f, s), [], 1)
  {
    WriteRepresents(f, s.(disk := s.disk.(log := []), index := map[], nextIn := 1, nextOut := 1), []);
  }

  lemma SetNextInRepresents(f: Format, s: Store, rs: seq<Rec>, b: nat, n: nat)
    requires Sound(f) && Represents(f, s, rs, b) && n <= MAX_INT64
    ensures Represents(f, SetNextIn(f, s, n), rs, s.nextOut)
  {
    WriteRepresents(f, s.(nextIn := n), rs);
  }

  // ── Whole runs ─────────────────────────────────────────────────────────────

  /** Every saved frame is within the record limit and every number is an int. */
  predicate Admissible(ops: seq<Op>) {
    ops == []
    || ((ops[0].OpSave? ==> |ops[0].frame| <= MAX_RECORD) && (ops[0].OpSetNextIn? ==> ops[0].n <= MAX_INT64)
        && Admissible(ops[1..]))
  }

  ghost predicate Mirrors(f: Format, max: nat, s: Store, m: Memory, rs: seq<Rec>, b: nat) {
    Represents(f, s, rs, b) && s.nextIn == m.nextIn && s.nextOut == m.nextOut
    && Newest(Frames(rs), s.nextOut - max) == Newest(m.msgs, s.nextOut - max)
  }

  lemma NewestInsert(a: map<nat, Bytes>, b: map<nat, Bytes>, n: nat, frame: Bytes, max: nat)
    requires Newest(a, n - max) == Newest(b, n - max)
    ensures Newest(a[n := frame], n + 1 - max) == Newest(b[n := frame], n + 1 - max)
  {
    assert forall k :: k in a && k >= n - max <==> k in Newest(b, n - max);
    assert forall k :: k in Newest(a, n - max) ==> a[k] == Newest(b, n - max)[k] == b[k];
  }

  lemma SaveSees(m: Memory, before: map<nat, Bytes>, after: map<nat, Bytes>, frame: Bytes, max: nat)
    requires Newest(before, m.nextOut - max) == Newest(m.msgs, m.nextOut - max)
    requires Newest(after, m.nextOut + 1 - max) == Newest(before[m.nextOut := frame], m.nextOut + 1 - max)
    ensures Newest(after, m.nextOut + 1 - max) == Newest(MemoryStep(m, OpSave(frame)).msgs, m.nextOut + 1 - max)
  {
    NewestInsert(before, m.msgs, m.nextOut, frame, max);
  }

  lemma SaveMirrors(f: Format, max: nat, m: Memory, before: map<nat, Bytes>, frame: Bytes, t: Store, after: seq<Rec>)
    requires Newest(before, m.nextOut - max) == Newest(m.msgs, m.nextOut - max)
    requires Newest(Frames(after), t.nextOut - max) == Newest(before[m.nextOut := frame], t.nextOut - max)
    requires Sound(f) && Represents(f, t, after, t.nextOut) && t.nextOut == m.nextOut + 1 && t.nextIn == m.nextIn
    ensures Mirrors(f, max, t, MemoryStep(m, OpSave(frame)), after, t.nextOut)
  {
    SaveSees(m, before, Frames(after), frame, max);
  }

  lemma {:induction false} SaveStep(f: Format, max: nat, s: Store, m: Memory, rs: seq<Rec>, b: nat, frame: Bytes)
    returns (t: Store, after: seq<Rec>)
    requires Sound(f) && Mirrors(f, max, s, m, rs, b) && |frame| <= MAX_RECORD && s.nextOut < MAX_INT64
    ensures FileStep(f, max, s, OpSave(frame)) == Some(t) && t.nextOut == s.nextOut + 1
    ensures Mirrors(f, max, t, MemoryStep(m, OpSave(frame)), after, t.nextOut)
  {
    t, after := SaveRepresents(f, max, s, rs, b, frame);
    SaveMirrors(f, max, m, Frames(rs), frame, t, after);
  }

  lemma StepMirrors(f: Format, max: nat, s: Store, m: Memory, rs: seq<Rec>, b: nat, op: Op)
    returns (t: Store, after: seq<Rec>, c: nat)
    requires Sound(f) && Mirrors(f, max, s, m, rs, b) && Admissible([op]) && s.nextOut < MAX_INT64
    ensures FileStep(f, max, s, op) == Some(t) && Mirrors(f, max, t, MemoryStep(m, op), after, c)
    ensures t.nextOut <= s.nextOut + 1 && (!op.OpReset? ==> c >= b)
  {
    match op
    case OpSave(frame) =>
      t, after := SaveStep(f, max, s, m, rs, b, frame);
      c := t.nextOut;
    case OpSetNextIn(n) =>
      SetNextInRepresents(f, s, rs, b, n);
      t, after, c := SetNextIn(f, s, n), rs, s.nextOut;
    case OpReset =>
      ResetRepresents(f, s);
      t, after, c := Reset(f, s), [], 1;
    case OpReopen =>
      ReopenSame(f, s, rs, b);
      t, after, c := s, rs, b;
  }

  lemma {:induction false} RunMirrors(f: Format, max: nat, s: Store, m: Memory, rs: seq<Rec>, b: nat, ops: seq<Op>)
    requires Sound(f) && Mirrors(f, max, s, m, rs, b) && Admissible(ops) && s.nextOut + |ops| <= MAX_INT64
    ensures var t := FileRun(f, max, s, ops); t.Some? && SeenFile(max, t.value) == SeenMemory(max, MemoryRun(m, ops))
    decreases |ops|
  {
    if ops == [] {
      SeenRecords(f, max, s, rs, b);
    } else {
      assert Admissible([ops[0]]) by { assert [ops[0]][1..] == []; }
      var t, after, c := StepMirrors(f, max, s, m, rs, b, ops[0]);
      RunMirrors(f, max, t, MemoryStep(m, ops[0]), after, c, ops[1..]);
    }
  }

  function EmptyDisk(): Disk {
    Disk([], None, None, None, map[])
  }

  /** The format of the source, for any checksum. */
  function SourceFormat(crc: Bytes -> Word32): Format {
    Format(Enc(crc), ReadRecord(crc), SeqText, ParseSeqNums)
  }

  lemma Tail(a: Bytes, b: Bytes)
    ensures (a + b)[|a|..] == b
  {
  }

  lemma EncShape(crc: Bytes -> Word32, r: Rec)
    ensures |Enc(crc)(r)| == HEADER + |r.frame| && Enc(crc)(r)[HEADER..] == r.frame
  {
    Tail(BigEndian(4, |r.frame|) + BigEndian(4, crc(BigEndian(8, r.n) + r.frame)) + BigEndian(8, r.n), r.frame);
  }

  lemma SourceIsSound(crc: Bytes -> Word32)
    ensures Sound(SourceFormat(crc))
  {
    var f := SourceFormat(crc);
    forall r ensures RecordBack(f, r) { SourceRecordBack(crc, r); }
    forall r ensures EndsWithFrame(Enc(crc), r) { EncShape(crc, r); }
    forall a: nat, b: nat ensures NumbersBack(f, a, b) {
      if a <= MAX_INT64 && b <= MAX_INT64 { SeqNumsRoundTrip(a, b); }
    }
  }

  lemma SourceRecordBack(crc: Bytes -> Word32, r: Rec)
    ensures RecordBack(SourceFormat(crc), r)
  {
    if Fits(r) {
      RecordFound(crc, r);
      forall k: nat | k < |Enc(crc)(r)| ensures ReadRecord(crc)(Enc(crc)(r)[..k]).None? { TornRecord(crc, r, k); }
    }
  }

  /** From an empty directory on, over every sequence of saves, inbound updates, resets and reopenings,
      the file store shows the numbers and the retained frames of the in-memory store. */
  lemma FileRefinesMemory(crc: Bytes -> Word32, max: nat, ops: seq<Op>)
    requires Admissible(ops) && |ops| < MAX_INT64
    ensures var f := SourceFormat(crc);
            var first := Open(f, EmptyDisk());
            first.Some?
            && var t := FileRun(f, max, first.value, ops);
               t.Some? && SeenFile(max, t.value) == SeenMemory(max, MemoryRun(Memory(map[], 1, 1), ops))
  {
    var f := SourceFormat(crc);
    SourceIsSound(crc);
    var empty := Store(EmptyDisk(), map[], 1, 1);
    assert Represents(f, empty, [], 1);
    ReopenSame(f, empty, [], 1);
    RunMirrors(f, max, empty, Memory(map[], 1, 1), [], 1, ops);
  }

  // ── The record limit ───────────────────────────────────────────────────────

  lemma {:induction false} ScanStaysWithin(crc: Bytes -> Word32, s: Bytes, i: nat)
    requires i < |Scan(ReadRecord(crc), s).0|
    ensures |Scan(ReadRecord(crc), s).0[i].frame| <= MAX_RECORD
    decreases |s|
  {
    var (r, n) := ReadRecord(crc)(s).value;
    if i > 0 { ScanStaysWithin(crc, s[n..], i - 1); }
  }

  /** Recovery returns what was written if and only if every frame is within the record limit: Save
      itself does not check it. */
  lemma RecoveredIffWithinLimit(crc: Bytes -> Word32, rs: seq<Rec>)
    requires forall i :: 0 <= i < |rs| ==> rs[i].n <= MAX_INT64
    ensures Scan(ReadRecord(crc), Encode(Enc(crc), rs)).0 == rs
            <==> forall i :: 0 <= i < |rs| ==> |rs[i].frame| <= MAX_RECORD
  {
    var log := Encode(Enc(crc), rs);
    if forall i :: 0 <= i < |rs| ==> |rs[i].frame| <= MAX_RECORD {
      forall i | 0 <= i < |rs| ensures Finds(ReadRecord(crc), Enc(crc), rs[i]) { RecordFound(crc, rs[i]); }
      ScanEncoded(ReadRecord(crc), Enc(crc), rs, []);
      assert log + [] == log;
    } else if Scan(ReadRecord(crc), log).0 == rs {
      forall i | 0 <= i < |rs| ensures |rs[i].frame| <= MAX_RECORD { ScanStaysWithin(crc, log, i); }
    }
  }

  lemma OversizedUnread(crc: Bytes -> Word32, r: Rec, rest: Bytes)
    requires MAX_RECORD < |r.frame| < 0x1_0000_0000
    ensures ReadRecord(crc)(Enc(crc)(r) + rest).None?
  {
    WordWidths();
    UnsignedOfBigEndian(4, |r.frame|);
    Parts(BigEndian(4, |r.frame|), BigEndian(4, crc(BigEndian(8, r.n) + r.frame)), BigEndian(8, r.n), r.frame, rest);
  }

  /** One oversized frame hides every later record from recovery. */
  lemma OversizedHidesRest(crc: Bytes -> Word32, before: seq<Rec>, r: Rec, rest: seq<Rec>)
    requires AllFit(before) && MAX_RECORD < |r.frame| < 0x1_0000_0000
    ensures Scan(ReadRecord(crc), Encode(Enc(crc), before + [r] + rest)).0 == before
  {
    OversizedUnread(crc, r, Encode(Enc(crc), rest));
    forall i | 0 <= i < |before| ensures Finds(ReadRecord(crc), Enc(crc), before[i]) { RecordFound(crc, before[i]); }
    ScanStops(ReadRecord(crc), Enc(crc), before, r, rest);
  }
}
