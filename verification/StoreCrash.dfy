/** Crashes between and inside disk writes: every operation but Reset is atomic, Reset is atomic exactly when
    there was nothing to lose, and an outbound number is never used for two frames between resets, however
    often the process is killed and restarted. */
module StoreCrash {
  import opened Decimal
  import opened Framing
  import opened FileStore
  import opened StoreRefinement

  /** How far an operation got: k bytes of its first log write, the number file replaced, or all. */
  datatype Point = Torn(k: nat) | Renamed | Done

  /** The first k bytes of an append have reached the log. */
  function TornDisk(d: Disk, e: Bytes, k: nat): Disk {
    d.(log := d.log + if k < |e| then e[..k] else e)
  }

  /** Save: the log first, then the number file, then possibly a compacted log.
      Reset: the log is cut first. The number file is replaced by renaming, so it is never torn. */
  function CrashDisk(f: Format, max: nat, s: Store, op: Op, p: Point): Disk {
    match op
    case OpSave(frame) =>
      (match p
       case Torn(k) => TornDisk(s.disk, f.enc(Rec(s.nextOut, frame)), k)
       case Renamed => WriteSeqNums(f, Append(f, s, Rec(s.nextOut, frame))).disk
       case Done => Save(f, max, s, s.nextOut, frame).disk)
    case OpSetNextIn(n) => if p.Torn? then s.disk else SetNextIn(f, s, n).disk
    case OpReset =>
      (match p
       case Torn(k) => if k == 0 then s.disk else s.disk.(log := [])
       case _ => Reset(f, s).disk)
    case OpReopen => s.disk
  }

  /** A reset killed after the log was cut: the numbers are still the old ones, the frames are gone. */
  predicate HalfReset(op: Op, p: Point) {
    op.OpReset? && p.Torn? && p.k > 0
  }

  lemma UnreadTail(f: Format, s: Store, rs: seq<Rec>, b: nat, tail: Bytes)
    requires Sound(f) && Represents(f, s, rs, b) && f.read(tail).None?
    ensures Open(f, s.disk.(log := s.disk.log + tail)) == Some(s)
  {
    Recovered(f, s.disk.(log := s.disk.log + tail), rs, tail, s.nextIn, b);
  }

  /** A record cut short is removed exactly: the reopened store is the store before. */
  lemma CutSave(f: Format, s: Store, rs: seq<Rec>, b: nat, r: Rec, k: nat)
    requires Sound(f) && Represents(f, s, rs, b) && Fits(r) && k < |f.enc(r)|
    ensures Open(f, TornDisk(s.disk, f.enc(r), k)) == Some(s)
  {
    assert RecordBack(f, r);
    UnreadTail(f, s, rs, b, f.enc(r)[..k]);
  }

  /** A record written whole is recovered although the number file does not count it yet. */
  lemma WholeSave(f: Format, s: Store, rs: seq<Rec>, b: nat, frame: Bytes, k: nat) returns (t: Store, after: seq<Rec>)
    requires Sound(f) && Represents(f, s, rs, b) && |frame| <= MAX_RECORD && s.nextOut < MAX_INT64
    requires k >= |f.enc(Rec(s.nextOut, frame))|
    ensures Open(f, TornDisk(s.disk, f.enc(Rec(s.nextOut, frame)), k)) == Some(t) && Represents(f, t, after, b)
    ensures t.nextIn == s.nextIn && t.nextOut == s.nextOut + 1 && Frames(after) == Frames(rs)[s.nextOut := frame]
  {
    var r := Rec(s.nextOut, frame);
    AppendRepresents(f, s, rs, b, frame);
    t, after := Append(f, s, r), rs + [r];
    ReopenSame(f, t, after, b);
    Snoc(rs, r);
  }

  /** Killed at any point of any operation but a half-done Reset, the reopened store shows what the
      in-memory store shows before the operation or after it. */
  lemma CrashIsAtomic(f: Format, max: nat, s: Store, m: Memory, rs: seq<Rec>, b: nat, op: Op, p: Point)
    returns (t: Store, n: Memory, after: seq<Rec>, c: nat)
    requires Sound(f) && Mirrors(f, max, s, m, rs, b) && Admissible([op]) && s.nextOut < MAX_INT64 && !HalfReset(op, p)
    ensures Open(f, CrashDisk(f, max, s, op, p)) == Some(t) && Mirrors(f, max, t, n, after, c)
    ensures (n == MemoryStep(m, op) || (n == m && !p.Done?)) && (!op.OpReset? ==> c >= b)
    ensures op.OpReset? && p.Torn? ==> n == m && c == b
  {
    if op.OpSave? {
      t, n, after, c := CrashInSave(f, max, s, m, rs, b, op.frame, p);
    } else if p.Torn? {
      t, n, after, c := s, m, rs, b;
      ReopenSame(f, s, rs, b);
    } else {
      t, after, c := StepMirrors(f, max, s, m, rs, b, op);
      n := MemoryStep(m, op);
      ReopenSame(f, s, rs, b);
      ReopenSame(f, t, after, c);
    }
  }

  lemma CrashInSave(f: Format, max: nat, s: Store, m: Memory, rs: seq<Rec>, b: nat, frame: Bytes, p: Point)
    returns (t: Store, n: Memory, after: seq<Rec>, c: nat)
    requires Sound(f) && Mirrors(f, max, s, m, rs, b) && |frame| <= MAX_RECORD && s.nextOut < MAX_INT64
    ensures Open(f, CrashDisk(f, max, s, OpSave(frame), p)) == Some(t) && Mirrors(f, max, t, n, after, c)
    ensures (n == MemoryStep(m, OpSave(frame)) || (n == m && p.Torn?)) && c >= b
  {
    match p
    case Torn(k) =>
      t, n, after := CrashInAppend(f, max, s, m, rs, b, frame, k);
      c := b;
    case Renamed =>
      t, after := CrashAfterRename(f, max, s, m, rs, b, frame);
      n, c := MemoryStep(m, OpSave(frame)), t.nextOut;
    case Done =>
      t, after := SaveStep(f, max, s, m, rs, b, frame);
      n, c := MemoryStep(m, OpSave(frame)), t.nextOut;
      ReopenSame(f, t, after, c);
  }

  lemma CrashInAppend(f: Format, max: nat, s: Store, m: Memory, rs: seq<Rec>, b: nat, frame: Bytes, k: nat)
    returns (t: Store, n: Memory, after: seq<Rec>)
    requires Sound(f) && Mirrors(f, max, s, m, rs, b) && |frame| <= MAX_RECORD && s.nextOut < MAX_INT64
    ensures Open(f, TornDisk(s.disk, f.enc(Rec(s.nextOut, frame)), k)) == Some(t) && Mirrors(f, max, t, n, after, b)
    ensures n == MemoryStep(m, OpSave(frame)) || n == m
  {
    if k >= |f.enc(Rec(s.nextOut, frame))| {
      t, after := WholeSave(f, s, rs, b, frame, k);
      n := MemoryStep(m, OpSave(frame));
      SavedMirrors(f, max, m, s.nextOut, Frames(rs), frame, t, after, b);
    } else {
      t, n, after := s, m, rs;
      CutSave(f, s, rs, b, Rec(s.nextOut, frame), k);
    }
  }

  lemma CrashAfterRename(f: Format, max: nat, s: Store, m: Memory, rs: seq<Rec>, b: nat, frame: Bytes)
    returns (t: Store, after: seq<Rec>)
    requires Sound(f) && Mirrors(f, max, s, m, rs, b) && |frame| <= MAX_RECORD && s.nextOut < MAX_INT64
    ensures Open(f, WriteSeqNums(f, Append(f, s, Rec(s.nextOut, frame))).disk) == Some(t)
    ensures Mirrors(f, max, t, MemoryStep(m, OpSave(frame)), after, t.nextOut)
  {
    t, after := LoggedRepresents(f, s, rs, b, frame);
    ReopenSame(f, t, after, t.nextOut);
    SavedMirrors(f, max, m, s.nextOut, Frames(rs), frame, t, after, t.nextOut);
  }

  lemma SavedMirrors(f: Format, max: nat, m: Memory, n: nat, before: map<nat, Bytes>, frame: Bytes, t: Store,
        after: seq<Rec>, c: nat)
    requires n == m.nextOut && Newest(before, n - max) == Newest(m.msgs, n - max) && Frames(after) == before[n := frame]
    requires Represents(f, t, after, c) && t.nextOut == n + 1 && t.nextIn == m.nextIn
    ensures Mirrors(f, max, t, MemoryStep(m, OpSave(frame)), after, c)
  {
    NewestInsert(before, m.msgs, n, frame, max);
  }

  /** A half-done Reset keeps the number of the next inbound message and the recorded outbound number,
      and loses every frame. */
  lemma HalfResetLosesFrames(f: Format, max: nat, s: Store, rs: seq<Rec>, b: nat, p: Point) returns (t: Store)
    requires Sound(f) && Represents(f, s, rs, b) && HalfReset(OpReset, p)
    ensures Open(f, CrashDisk(f, max, s, OpReset, p)) == Some(t) && Represents(f, t, [], b)
    ensures SeenFile(max, t) == Seen(s.nextIn, Max(b, 1), map[])
  {
    t := s.(disk := s.disk.(log := []), index := map[], nextOut := Max(b, 1));
    ReopenSame(f, t, [], b);
    SeenRecords(f, max, t, [], b);
    assert Newest(map[], t.nextOut - max) == map[];
  }

  /** There is nothing a half-done Reset could lose: no frame is retained and the number file counts every
      frame in the log, or the files already hold the numbers of a new store. */
  predicate NothingToLose(max: nat, s: Store, b: nat) {
    (SeenFile(max, s).frames == map[] && s.nextOut == Max(b, 1)) || (s.nextIn == 1 && b <= 1)
  }

  /** A Reset killed after the log was cut reopens as the store before or as a new one if and only if the
      store before it had nothing to lose; b is the outbound number in its number file. */
  lemma HalfResetAtomicIff(f: Format, max: nat, s: Store, rs: seq<Rec>, b: nat, p: Point)
    requires Sound(f) && Represents(f, s, rs, b) && HalfReset(OpReset, p)
    ensures var t := Open(f, CrashDisk(f, max, s, OpReset, p));
            t.Some?
            && (SeenFile(max, t.value) == SeenFile(max, s) || SeenFile(max, t.value) == Seen(1, 1, map[])
               <==> NothingToLose(max, s, b))
  {
    var t := HalfResetLosesFrames(f, max, s, rs, b, p);
  }

  /** The smallest store that is torn: one frame sent from a new directory. Killed inside its Reset it comes
      back with the old numbers and without the frame. */
  lemma HalfResetExample(crc: Bytes -> Word32, max: nat, frame: Bytes)
    requires max >= 1 && |frame| <= MAX_RECORD
    ensures var f := SourceFormat(crc);
            var s := Save(f, max, Store(EmptyDisk(), map[], 1, 1), 1, frame);
            var t := Open(f, CrashDisk(f, max, s, OpReset, Torn(1)));
            t.Some? && SeenFile(max, s) == Seen(1, 2, map[1 := frame]) && SeenFile(max, t.value) == Seen(1, 2, map[])
  {
    var f, first := SourceFormat(crc), Store(EmptyDisk(), map[], 1, 1);
    SourceIsSound(crc);
    assert Represents(f, first, [], 1);
    var s, rs := SaveRepresents(f, max, first, [], 1, frame);
    SeenRecords(f, max, s, rs, 2);
    assert Newest(map[1 := frame], 2 - max) == map[1 := frame];
    var t := HalfResetLosesFrames(f, max, s, rs, 2, Torn(1));
  }

  // ── Whole runs with crashes ────────────────────────────────────────────────

  /** A frame handed to the connection, with the reset epoch its number belongs to. */
  datatype Sent = Sent(epoch: nat, n: nat, frame: Bytes)

  datatype Node = Node(store: Store, epoch: nat, sent: seq<Sent>)

  /** A frame is saved and then handed over; an operation may be cut short and the store reopened. */
  datatype Event = Sends(frame: Bytes) | Receives(n: nat) | Resets | Killed(op: Op, p: Point)

  function NodeStep(f: Format, max: nat, v: Node, e: Event): Option<Node> {
    match e
    case Sends(frame) =>
      Some(Node(Save(f, max, v.store, v.store.nextOut, frame), v.epoch,
                v.sent + [Sent(v.epoch, v.store.nextOut, frame)]))
    case Receives(n) => Some(v.(store := SetNextIn(f, v.store, n)))
    case Resets => Some(Node(Reset(f, v.store), v.epoch + 1, v.sent))
    case Killed(op, p) =>
      match Open(f, CrashDisk(f, max, v.store, op, p))
      case None => None
      case Some(t) => Some(Node(t, if op.OpReset? && p != Torn(0) then v.epoch + 1 else v.epoch, v.sent))
  }

  function NodeRun(f: Format, max: nat, v: Node, es: seq<Event>): Option<Node>
    decreases |es|
  {
    if es == [] then Some(v)
    else
      match NodeStep(f, max, v, es[0])
      case None => None
      case Some(next) => NodeRun(f, max, next, es[1..])
  }

  /** Strictly increasing numbers within an epoch, so none is used twice. */
  predicate NoReuse(sent: seq<Sent>) {
    forall i, j :: 0 <= i < j < |sent| ==>
      sent[i].epoch < sent[j].epoch || (sent[i].epoch == sent[j].epoch && sent[i].n < sent[j].n)
  }

  /** What was sent in this epoch lies below the recorded number, and its frame is still kept. */
  predicate Accounted(sent: seq<Sent>, epoch: nat, b: nat, msgs: map<nat, Bytes>) {
    forall i :: 0 <= i < |sent| ==>
      sent[i].epoch < epoch
      || (sent[i].epoch == epoch && sent[i].n < b && sent[i].n in msgs && msgs[sent[i].n] == sent[i].frame)
  }

  predicate EventFits(e: Event) {
    match e
    case Sends(frame) => |frame| <= MAX_RECORD
    case Receives(n) => n <= MAX_INT64
    case Resets => true
    case Killed(op, _) => Admissible([op])
  }

  ghost predicate NodeOk(f: Format, max: nat, v: Node, m: Memory, rs: seq<Rec>, b: nat) {
    Mirrors(f, max, v.store, m, rs, b) && NoReuse(v.sent) && Accounted(v.sent, v.epoch, b, m.msgs)
  }

  /** Every frame sent in this epoch and within retention is returned for its number. */
  predicate Returned(max: nat, v: Node) {
    forall i :: 0 <= i < |v.sent| ==>
      (v.sent[i].epoch == v.epoch && v.sent[i].n >= v.store.nextOut - max ==>
         Get(max, v.store, v.sent[i].n) == Some(v.sent[i].frame))
  }

  lemma SendsKeeps(f: Format, max: nat, v: Node, m: Memory, rs: seq<Rec>, b: nat, frame: Bytes)
    returns (next: Node, after: seq<Rec>)
    requires Sound(f) && NodeOk(f, max, v, m, rs, b) && |frame| <= MAX_RECORD && v.store.nextOut < MAX_INT64
    ensures NodeStep(f, max, v, Sends(frame)) == Some(next) && next.store.nextOut == v.store.nextOut + 1
    ensures NodeOk(f, max, next, MemoryStep(m, OpSave(frame)), after, next.store.nextOut)
  {
    var t;
    t, after := SaveStep(f, max, v.store, m, rs, b, frame);
    next := Node(t, v.epoch, v.sent + [Sent(v.epoch, v.store.nextOut, frame)]);
  }

  lemma KilledKeeps(f: Format, max: nat, v: Node, m: Memory, rs: seq<Rec>, b: nat, op: Op, p: Point)
    returns (next: Node, n: Memory, after: seq<Rec>, c: nat)
    requires Sound(f) && NodeOk(f, max, v, m, rs, b) && Admissible([op]) && v.store.nextOut < MAX_INT64
    ensures NodeStep(f, max, v, Killed(op, p)) == Some(next) && next.store.nextOut <= v.store.nextOut + 1
    ensures NodeOk(f, max, next, n, after, c)
  {
    var t;
    if HalfReset(op, p) {
      t := HalfResetLosesFrames(f, max, v.store, rs, b, p);
      n, after, c := Memory(map[], t.nextIn, t.nextOut), [], b;
    } else {
      t, n, after, c := CrashIsAtomic(f, max, v.store, m, rs, b, op, p);
    }
    next := Node(t, if op.OpReset? && p != Torn(0) then v.epoch + 1 else v.epoch, v.sent);
  }

  lemma NodeStepKeeps(f: Format, max: nat, v: Node, m: Memory, rs: seq<Rec>, b: nat, e: Event)
    returns (next: Node, n: Memory, after: seq<Rec>, c: nat)
    requires Sound(f) && NodeOk(f, max, v, m, rs, b) && EventFits(e) && v.store.nextOut < MAX_INT64
    ensures NodeStep(f, max, v, e) == Some(next) && NodeOk(f, max, next, n, after, c)
    ensures next.store.nextOut <= v.store.nextOut + 1
  {
    match e
    case Sends(frame) =>
      next, after := SendsKeeps(f, max, v, m, rs, b, frame);
      n, c := MemoryStep(m, OpSave(frame)), next.store.nextOut;
    case Killed(op, p) => next, n, after, c := KilledKeeps(f, max, v, m, rs, b, op, p);
    case Receives(k) =>
      assert Admissible([OpSetNextIn(k)]) by { assert [OpSetNextIn(k)][1..] == []; }
      var t;
      t, after, c := StepMirrors(f, max, v.store, m, rs, b, OpSetNextIn(k));
      next, n := v.(store := t), MemoryStep(m, OpSetNextIn(k));
    case Resets =>
      assert Admissible([OpReset]) by { assert [OpReset][1..] == []; }
      var t;
      t, after, c := StepMirrors(f, max, v.store, m, rs, b, OpReset);
      next, n := Node(t, v.epoch + 1, v.sent), MemoryStep(m, OpReset);
  }

  /** However often the process is killed inside a disk operation and restarted: no outbound number is
      used twice between resets, and every frame sent since the last reset that is within retention
      is still returned for its number. */
  lemma {:induction false} NumbersNeverReused(f: Format, max: nat, v: Node, m: Memory, rs: seq<Rec>, b: nat,
        es: seq<Event>)
    requires Sound(f) && NodeOk(f, max, v, m, rs, b) && v.store.nextOut + |es| <= MAX_INT64
    requires forall i :: 0 <= i < |es| ==> EventFits(es[i])
    ensures var r := NodeRun(f, max, v, es);
            r.Some? && NoReuse(r.value.sent) && Returned(max, r.value)
    decreases |es|
  {
    if es == [] {
      forall i | 0 <= i < |v.sent| && v.sent[i].epoch == v.epoch && v.sent[i].n >= v.store.nextOut - max
        ensures Get(max, v.store, v.sent[i].n) == Some(v.sent[i].frame)
      {
        KeptIsSeen(f, max, v, m, rs, b, i);
      }
    } else {
      var next, n, after, c := NodeStepKeeps(f, max, v, m, rs, b, es[0]);
      NumbersNeverReused(f, max, next, n, after, c, es[1..]);
    }
  }

  lemma KeptIsSeen(f: Format, max: nat, v: Node, m: Memory, rs: seq<Rec>, b: nat, i: nat)
    requires Sound(f) && NodeOk(f, max, v, m, rs, b) && i < |v.sent|
    requires v.sent[i].epoch == v.epoch && v.sent[i].n >= v.store.nextOut - max
    ensures Get(max, v.store, v.sent[i].n) == Some(v.sent[i].frame)
  {
    var k := v.sent[i].n;
    assert k in Newest(m.msgs, v.store.nextOut - max);
    ReadsFrames(f, v.store, rs, k);
  }

  /** The same from an empty directory, with the file formats of the source. */
  lemma FreshNumbersNeverReused(crc: Bytes -> Word32, max: nat, es: seq<Event>)
    requires |es| < MAX_INT64 && forall i :: 0 <= i < |es| ==> EventFits(es[i])
    ensures var v := Node(Store(EmptyDisk(), map[], 1, 1), 0, []);
            var r := NodeRun(SourceFormat(crc), max, v, es);
            r.Some? && NoReuse(r.value.sent) && Returned(max, r.value)
  {
    SourceIsSound(crc);
    var v := Node(Store(EmptyDisk(), map[], 1, 1), 0, []);
    assert NodeOk(SourceFormat(crc), max, v, Memory(map[], 1, 1), [], 1);
    NumbersNeverReused(SourceFormat(crc), max, v, Memory(map[], 1, 1), [], 1, es);
  }
}
