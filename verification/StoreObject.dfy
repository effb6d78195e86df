/** The stores as objects: the recovery and compaction loops, the writes in the order they reach the
    disk, and the in-memory store. Every method is proved against its function. */
module StoreObject {
  import opened Decimal
  import opened Framing
  import opened FileStore
  import opened StoreRefinement
  import opened EpochReset

  /** A record occupies as many bytes as its encoding, header and frame. */
  predicate SizedAt(read: Bytes -> Option<(Rec, nat)>, enc: Rec -> Bytes, s: Bytes) {
    match read(s)
    case None => true
    case Some((r, n)) => n == HEADER + |r.frame| == |enc(r)| && n <= |s|
  }

  ghost predicate Sized(read: Bytes -> Option<(Rec, nat)>, enc: Rec -> Bytes) {
    forall s :: SizedAt(read, enc, s)
  }

  lemma SourceSized(crc: Bytes -> Word32)
    ensures Sized(ReadRecord(crc), Enc(crc))
  {
    forall s ensures SizedAt(ReadRecord(crc), Enc(crc), s) {
      match ReadRecord(crc)(s)
      case None =>
      case Some((r, n)) =>
        EncShape(crc, r);
        assert |s| >= HEADER && n == HEADER + Unsigned(s[..4]) <= |s| && r.frame == s[16..n];
    }
  }

  /** index locates the records of a log of `size` bytes. */
  ghost predicate Indexed(enc: Rec -> Bytes, done: seq<Rec>, index: map<nat, Loc>, size: nat) {
    size == |Encode(enc, done)| && index == Index(enc, done)
  }

  lemma IndexedSnoc(enc: Rec -> Bytes, done: seq<Rec>, index: map<nat, Loc>, size: nat, r: Rec)
    requires Indexed(enc, done, index, size)
    ensures Indexed(enc, done + [r], index[r.n := Loc(size + HEADER, |r.frame|)], size + |enc(r)|)
    ensures Encode(enc, done + [r]) == Encode(enc, done) + enc(r)
  {
    EncodeSnoc(enc, done, r);
    Snoc(done, r);
  }

  datatype Recovery = Recovery(index: map<nat, Loc>, maxSeq: nat, off: nat)

  /** What the recovery loop still has to do at offset off. */
  function RecoverFrom(read: Bytes -> Option<(Rec, nat)>, s: Bytes, off: nat, index: map<nat, Loc>, maxSeq: nat)
    : Recovery
    decreases |s|
  {
    match read(s)
    case None => Recovery(index, maxSeq, off)
    case Some((r, n)) =>
      if 0 < n <= |s| then
        RecoverFrom(read, s[n..], off + n, index[r.n := Loc(off + HEADER, |r.frame|)], Max(maxSeq, r.n))
      else Recovery(index, maxSeq, off)
  }

  lemma {:induction false} RecoverFromIs(read: Bytes -> Option<(Rec, nat)>, enc: Rec -> Bytes, s: Bytes, off: nat,
                                         index: map<nat, Loc>, done: seq<Rec>)
    requires Sized(read, enc) && Indexed(enc, done, index, off)
    ensures var rs := done + Scan(read, s).0;
            RecoverFrom(read, s, off, index, MaxSeq(done))
            == Recovery(Index(enc, rs), MaxSeq(rs), off + Scan(read, s).1)
            && Scan(read, s).1 <= |s|
    decreases |s|
  {
    assert SizedAt(read, enc, s);
    match read(s)
    case None => assert done + [] == done;
    case Some((r, n)) =>
      IndexedSnoc(enc, done, index, off, r);
      Snoc(done, r);
      RecoverFromIs(read, enc, s[n..], off + n, index[r.n := Loc(off + HEADER, |r.frame|)], done + [r]);
      assert done + [r] + Scan(read, s[n..]).0 == done + ([r] + Scan(read, s[n..]).0);
  }

  /** The recovery loop: index every intact record, stop at the first that is not. */
  method RecoverLog(read: Bytes -> Option<(Rec, nat)>, log: Bytes) returns (index: map<nat, Loc>, maxSeq: nat, off: nat)
    ensures Recovery(index, maxSeq, off) == RecoverFrom(read, log, 0, map[], 0)
  {
    index, maxSeq, off := map[], 0, 0;
    var rest := log;
    while true
      invariant RecoverFrom(read, rest, off, index, maxSeq) == RecoverFrom(read, log, 0, map[], 0)
      decreases |rest|
    {
      var found := read(rest);
      if found.None? { break; }
      var (r, n) := found.value;
      if n == 0 || n > |rest| { break; }
      index := index[r.n := Loc(off + HEADER, |r.frame|)];
      maxSeq := Max(maxSeq, r.n);
      off := off + n;
      rest := rest[n..];
    }
  }

  /** The loop finds exactly what the scan finds. */
  lemma RecoverIsScan(read: Bytes -> Option<(Rec, nat)>, enc: Rec -> Bytes, log: Bytes)
    requires Sized(read, enc)
    ensures var (rs, good) := Scan(read, log);
            RecoverFrom(read, log, 0, map[], 0) == Recovery(Index(enc, rs), MaxSeq(rs), good) && good <= |log|
  {
    RecoverFromIs(read, enc, log, 0, map[], []);
    assert [] + Scan(read, log).0 == Scan(read, log).0;
  }

  /** The compaction loop: the readable records numbered from lo on, copied in order to a new log. */
  method CopyNewest(enc: Rec -> Bytes, s: Store, lo: int) returns (tmp: Bytes, locs: map<nat, Loc>)
    ensures var kept := Kept(s, lo, s.nextOut); tmp == Encode(enc, kept) && locs == Index(enc, kept)
  {
    tmp, locs := [], map[];
    ghost var kept: seq<Rec> := [];
    var k := lo;
    while k < s.nextOut
      invariant lo <= k && (k <= s.nextOut || k == lo)
      invariant kept == Kept(s, lo, k) && tmp == Encode(enc, kept) && Indexed(enc, kept, locs, |tmp|)
      decreases s.nextOut - k
    {
      var frame := ReadAt(s, k);
      if k >= 0 && frame.Some? {
        var r := Rec(k, frame.value);
        IndexedSnoc(enc, kept, locs, |tmp|, r);
        locs := locs[k := Loc(|tmp| + HEADER, |frame.value|)];
        tmp := tmp + enc(r);
        kept := kept + [r];
      } else {
        assert kept + [] == kept;
      }
      k := k + 1;
    }
  }

  class FileStoreObject {
    const form: Format
    const max: nat
    var log: Bytes
    var seqNums: Option<string>
    var epoch: Option<string>
    var marker: Option<string>
    var archive: map<string, Archived>
    var index: map<nat, Loc>
    var nextIn: nat
    var nextOut: nat

    function Files(): Disk
      reads this
    {
      Disk(log, seqNums, epoch, marker, archive)
    }

    function View(): Store
      reads this
    {
      Store(Files(), index, nextIn, nextOut)
    }

    constructor (form: Format, max: nat, d: Disk)
      ensures Files() == d && this.form == form && this.max == max && index == map[] && nextIn == nextOut == 1
    {
      this.form, this.max := form, max;
      log, seqNums, epoch, marker, archive := d.log, d.seqNums, d.epoch, d.marker, d.archive;
      index, nextIn, nextOut := map[], 1, 1;
    }

    /** Finish a pending reset, recover the log, resume the numbers; false when a file is unreadable. */
    method Reopen() returns (ok: bool)
      requires Sized(form.read, form.enc)
      modifies this
      ensures ok <==> Open(form, old(Files())).Some?
      ensures ok ==> View() == Open(form, old(Files())).value
    {
      if marker.Some? {
        var e := Atoi(marker.value);
        if e.None? { return false; }
        FinishEpochReset(e.value);
      }
      var maxSeq, off;
      RecoverIsScan(form.read, form.enc, log);
      index, maxSeq, off := RecoverLog(form.read, log);
      log := log[..off];
      var nums := if seqNums.Some? then form.parse(seqNums.value) else Some(Nums(1, 1));
      if nums.None? { return false; }
      nextIn, nextOut := nums.value.nextIn, Max(nums.value.nextOut, maxSeq + 1);
      ok := true;
    }

    method FinishEpochReset(e: int)
      modifies this
      ensures View() == Store(FinishReset(old(Files()), e), map[], 1, 1)
    {
      log := [];
      index, nextIn, nextOut := map[], 1, 1;
      seqNums := Some("1 1\n");
      epoch := Some(Itoa(e));
      marker := None;
    }

    method WriteNums()
      modifies this
      ensures View() == WriteSeqNums(form, old(View()))
    {
      seqNums := Some(form.text(nextIn, nextOut));
    }

    /** Read a retained frame from its place in the log. */
    method ReadFrame(k: int) returns (frame: Option<Bytes>)
      ensures frame == ReadAt(View(), k)
    {
      if k in index { frame := Slice(log, index[k]); } else { frame := None; }
    }

    method Fetch(k: int) returns (frame: Option<Bytes>)
      ensures frame == Get(max, View(), k)
    {
      if k < nextOut - max { return None; }
      frame := ReadFrame(k);
    }

    /** Copy the newest records to a new log and put it in place of the old one. */
    method CompactLog()
      modifies this
      ensures View() == Compact(form, max, old(View()))
    {
      var tmp, locs := CopyNewest(form.enc, View(), nextOut - max);
      log, index := tmp, locs;
    }

    method Keep(n: nat, frame: Bytes)
      modifies this
      ensures View() == Save(form, max, old(View()), n, frame)
    {
      index := index[n := Loc(|log| + HEADER, |frame|)];
      log := log + form.enc(Rec(n, frame));
      nextOut := n + 1;
      WriteNums();
      if |index| >= 2 * max { CompactLog(); }
    }

    method SetInbound(n: nat)
      modifies this
      ensures View() == SetNextIn(form, old(View()), n)
    {
      nextIn := n;
      WriteNums();
    }

    method Clear()
      modifies this
      ensures View() == Reset(form, old(View()))
    {
      log := [];
      index := map[];
      nextIn, nextOut := 1, 1;
      WriteNums();
    }

    /** Archive, mark, clear; false when the stored epoch is unreadable. */
    method AdvanceTo(e: int) returns (ok: bool)
      modifies this
      ensures ok <==> Advance(form, old(View()), e).Some?
      ensures View() == if ok then Advance(form, old(View()), e).value else old(View())
    {
      var current := if epoch.Some? then Atoi(epoch.value) else Some(0);
      if current.None? { return false; }
      if current.value >= e { return true; }
      archive := ArchiveLog(Files(), e).archive;
      archive := ArchiveNums(Files(), e).archive;
      marker := Some(Itoa(e));
      FinishEpochReset(e);
      ok := true;
    }
  }

  class MemoryStoreObject {
    var msgs: map<nat, Bytes>
    var nextIn: nat
    var nextOut: nat

    function View(): Memory
      reads this
    {
      Memory(msgs, nextIn, nextOut)
    }

    constructor ()
      ensures View() == Memory(map[], 1, 1)
    {
      msgs, nextIn, nextOut := map[], 1, 1;
    }

    /** One operation of the in-memory store; it has nothing to reopen. */
    method Perform(op: Op)
      modifies this
      ensures View() == MemoryStep(old(View()), op)
    {
      match op {
        case OpSave(frame) =>
          msgs := msgs[nextOut := frame];
          nextOut := nextOut + 1;
        case OpSetNextIn(n) => nextIn := n;
        case OpReset =>
          msgs := map[];
          nextIn, nextOut := 1, 1;
        case OpReopen =>
      }
    }
  }
}
