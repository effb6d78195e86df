/** Advancing the session epoch: the old files are archived, an intent marker is written, and the store
    is cleared step by step. Killed after any step, and killed again while finishing on restart, the
    store ends whole: entirely old or entirely fresh. */
module EpochReset {
  import opened Decimal
  import opened Framing
  import opened FileStore
  import opened StoreRefinement

  const FRESH_NUMBERS: string := "1 1\n"

  /** The epoch on disk; 0 when there is none, None when unreadable. */
  function EpochOf(d: Disk): Option<int> {
    match d.epoch case None => Some(0) case Some(t) => Atoi(t)
  }

  function ArchiveLog(d: Disk, e: int): Disk {
    d.(archive := d.archive[Itoa(e) := Archived(Some(d.log), ArchivedNums(d, e))])
  }

  function ArchivedNums(d: Disk, e: int): Option<string> {
    if Itoa(e) in d.archive then d.archive[Itoa(e)].seqNums else None
  }

  function ArchiveNums(d: Disk, e: int): Disk {
    if d.seqNums.None? then d else d.(archive := d.archive[Itoa(e) := Archived(Some(d.log), d.seqNums)])
  }

  /** The disk after the first k of the four finishing steps. */
  function Finishing(d: Disk, e: int, k: nat): Disk {
    if k == 0 then d
    else if k == 1 then d.(log := [])
    else if k == 2 then d.(log := [], seqNums := Some(FRESH_NUMBERS))
    else if k == 3 then d.(log := [], seqNums := Some(FRESH_NUMBERS), epoch := Some(Itoa(e)))
    else FinishReset(d, e)
  }

  /** The disk after the first k steps of advancing to e: archive log and numbers, write the marker, finish. */
  function Advancing(d: Disk, e: int, k: nat): Disk {
    if k == 0 then d
    else if k == 1 then ArchiveLog(d, e)
    else if k == 2 then ArchiveNums(ArchiveLog(d, e), e)
    else Finishing(ArchiveNums(ArchiveLog(d, e), e).(marker := Some(Itoa(e))), e, k - 3)
  }

  /** An attempt to open that is killed after k disk steps. */
  function KilledOpening(f: Format, d: Disk, k: nat): Disk {
    match d.marker
    case None =>
      var good := Scan(f.read, d.log).1;
      if k == 0 || good > |d.log| then d else d.(log := d.log[..good])
    case Some(t) =>
      match Atoi(t)
      case None => d
      case Some(e) => Finishing(d, e, k)
  }

  function KilledOpenings(f: Format, d: Disk, ks: seq<nat>): Disk
    decreases |ks|
  {
    if ks == [] then d else KilledOpenings(f, KilledOpening(f, d, ks[0]), ks[1..])
  }

  function Advance(f: Format, s: Store, e: int): Option<Store> {
    match EpochOf(s.disk)
    case None => None
    case Some(current) =>
      if current >= e then Some(s)
      else Some(Store(Advancing(s.disk, e, 7), map[], 1, 1))
  }

  // ── Crash atomicity ────────────────────────────────────────────────────────

  /** The fresh store of epoch e, with the given archive. */
  predicate IsFresh(s: Store, e: int, archive: map<string, Archived>) {
    s.disk.archive == archive && s.disk.log == [] && s.disk.seqNums == Some(FRESH_NUMBERS)
    && s.disk.epoch == Some(Itoa(e)) && s.disk.marker.None?
    && s.index == map[] && s.nextIn == 1 && s.nextOut == 1
  }

  /** The whole old store; only the archive may have grown. */
  predicate IsOld(s: Store, t: Store) {
    t == s.(disk := s.disk.(archive := t.disk.archive))
  }

  ghost predicate ReadsFresh(f: Format) {
    Sound(f) && f.parse(FRESH_NUMBERS) == Some(Nums(1, 1))
  }

  /** The archive of epoch e holds the log and the numbers that d had. */
  predicate Keeps(archive: map<string, Archived>, e: int, d: Disk) {
    Itoa(e) in archive && archive[Itoa(e)].log == Some(d.log)
    && (d.seqNums.Some? ==> archive[Itoa(e)].seqNums == d.seqNums)
  }

  /** The marker for e is on disk, or the reset it announced is complete. */
  predicate Committed(d: Disk, e: int, archive: map<string, Archived>) {
    d.archive == archive
    && (d.marker == Some(Itoa(e))
        || (d.marker.None? && d.log == [] && d.seqNums == Some(FRESH_NUMBERS) && d.epoch == Some(Itoa(e))))
  }

  lemma KilledStaysCommitted(f: Format, d: Disk, e: int, k: nat)
    requires IsInt64(e) && Committed(d, e, d.archive)
    ensures Committed(KilledOpening(f, d, k), e, d.archive)
  {
    AtoiOfItoa(e);
  }

  lemma CommittedOpensFresh(f: Format, d: Disk, e: int) returns (t: Store)
    requires ReadsFresh(f) && IsInt64(e) && Committed(d, e, d.archive)
    ensures Open(f, d) == Some(t) && IsFresh(t, e, d.archive)
  {
    AtoiOfItoa(e);
    var done := FinishReset(d, e);
    RecoveredWhole(f, done, [], 1, 1);
    t := Store(done, map[], 1, 1);
  }

  lemma {:induction false} CommittedFinishes(f: Format, d: Disk, e: int, ks: seq<nat>) returns (t: Store)
    requires ReadsFresh(f) && IsInt64(e) && Committed(d, e, d.archive)
    ensures Open(f, KilledOpenings(f, d, ks)) == Some(t) && IsFresh(t, e, d.archive)
    decreases |ks|
  {
    if ks == [] {
      t := CommittedOpensFresh(f, d, e);
    } else {
      KilledStaysCommitted(f, d, e, ks[0]);
      t := CommittedFinishes(f, KilledOpening(f, d, ks[0]), e, ks[1..]);
    }
  }

  lemma KilledStaysWhole(f: Format, s: Store, rs: seq<Rec>, b: nat, k: nat)
    requires Sound(f) && Represents(f, s, rs, b)
    ensures KilledOpening(f, s.disk, k) == s.disk
  {
    Front(s.disk.log, []);
    forall i | 0 <= i < |rs| ensures Finds(f.read, f.enc, rs[i]) { assert RecordBack(f, rs[i]); }
    ScanEncoded(f.read, f.enc, rs, []);
  }

  lemma {:induction false} WholeReopens(f: Format, s: Store, rs: seq<Rec>, b: nat, ks: seq<nat>)
    requires Sound(f) && Represents(f, s, rs, b)
    ensures Open(f, KilledOpenings(f, s.disk, ks)) == Some(s)
    decreases |ks|
  {
    if ks == [] {
      ReopenSame(f, s, rs, b);
    } else {
      KilledStaysWhole(f, s, rs, b, ks[0]);
      WholeReopens(f, s, rs, b, ks[1..]);
    }
  }

  lemma MarkedIsCommitted(d: Disk, e: int, k: nat)
    requires d.marker == Some(Itoa(e))
    ensures Committed(Finishing(d, e, k), e, d.archive)
  {
  }

  /** Stopped after any number of the disk steps of an advance to e, and stopped again any number of
      times while opening, the store finally opens as the whole old one or as the fresh one of epoch e,
      and the marker alone decides which. Nothing is cleared before it is archived. */
  lemma AdvanceIsAtomic(f: Format, s: Store, rs: seq<Rec>, b: nat, e: int, k: nat, ks: seq<nat>) returns (t: Store)
    requires ReadsFresh(f) && Represents(f, s, rs, b) && IsInt64(e)
    ensures Open(f, KilledOpenings(f, Advancing(s.disk, e, k), ks)) == Some(t)
    ensures if k < 3 then IsOld(s, t) else IsFresh(t, e, t.disk.archive)
    ensures k >= 2 ==> Keeps(t.disk.archive, e, s.disk)
  {
    var d := Advancing(s.disk, e, k);
    if k < 3 {
      t := s.(disk := d);
      assert Represents(f, t, rs, b);
      WholeReopens(f, t, rs, b, ks);
    } else {
      MarkedIsCommitted(ArchiveNums(ArchiveLog(s.disk, e), e).(marker := Some(Itoa(e))), e, k - 3);
      t := CommittedFinishes(f, d, e, ks);
    }
  }

  // ── Epochs ─────────────────────────────────────────────────────────────────

  /** Advancing reaches at least the requested epoch and never goes back. */
  lemma EpochsNeverGoBack(f: Format, s: Store, e: int)
    requires IsInt64(e) && EpochOf(s.disk).Some?
    ensures var t := Advance(f, s, e);
            t.Some? && EpochOf(t.value.disk).Some?
            && EpochOf(t.value.disk).value == if EpochOf(s.disk).value < e then e else EpochOf(s.disk).value
  {
    AtoiOfItoa(e);
  }

  /** Repeating the call, or asking for an earlier epoch, changes nothing. */
  lemma AdvanceIsIdempotent(f: Format, s: Store, e: int, again: int)
    requires IsInt64(e) && EpochOf(s.disk).Some? && again <= e
    ensures Advance(f, s, e).Some? && Advance(f, Advance(f, s, e).value, again) == Advance(f, s, e)
  {
    EpochsNeverGoBack(f, s, e);
  }

  /** A killed advance leaves the old epoch or the requested one. */
  lemma CrashedEpoch(f: Format, s: Store, rs: seq<Rec>, b: nat, e: int, k: nat, ks: seq<nat>)
    requires ReadsFresh(f) && Represents(f, s, rs, b) && IsInt64(e) && EpochOf(s.disk).Some?
    requires EpochOf(s.disk).value < e
    ensures var t := Open(f, KilledOpenings(f, Advancing(s.disk, e, k), ks));
            t.Some? && EpochOf(t.value.disk) == if k < 3 then EpochOf(s.disk) else Some(e)
  {
    var t := AdvanceIsAtomic(f, s, rs, b, e, k, ks);
    AtoiOfItoa(e);
  }

  lemma SourceReadsFresh(crc: Bytes -> Word32)
    ensures ReadsFresh(SourceFormat(crc))
  {
    SourceIsSound(crc);
    assert Text(1) == "1" && SeqText(1, 1) == FRESH_NUMBERS;
    SeqNumsRoundTrip(1, 1);
  }
}
