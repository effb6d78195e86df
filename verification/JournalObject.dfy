/** The event log and the journal as objects: the scan over the file, the append, and the replay loop. */
module JournalObject {
  import opened Decimal
  import opened Framing
  import opened EventLog
  import opened Journal

  /** What the opening loop still has to read. */
  function Collect(read: Bytes -> Option<(Record, nat)>, s: Bytes, done: seq<Record>, off: nat): (seq<Record>, nat) {
    var (rs, good) := Scan(read, s);
    (done + rs, off + good)
  }

  lemma CollectStep(read: Bytes -> Option<(Record, nat)>, s: Bytes, done: seq<Record>, off: nat)
    requires read(s).Some? && 0 < read(s).value.1 <= |s|
    ensures var (r, n) := read(s).value; Collect(read, s, done, off) == Collect(read, s[n..], done + [r], off + n)
  {
    var (r, n) := read(s).value;
    var rs := Scan(read, s[n..]).0;
    assert done + ([r] + rs) == done + [r] + rs;
  }

  /** The scan over the records after the header. */
  method CollectRecords(read: Bytes -> Option<(Record, nat)>, body: Bytes) returns (rs: seq<Record>, good: nat)
    ensures (rs, good) == Scan(read, body)
  {
    rs, good := [], 0;
    var rest := body;
    assert [] + Scan(read, body).0 == Scan(read, body).0;
    while rest != []
      invariant Collect(read, rest, rs, good) == Scan(read, body)
      decreases |rest|
    {
      var found := read(rest);
      if found.None? || found.value.1 == 0 || found.value.1 > |rest| {
        assert rs + [] == rs;
        return;
      }
      CollectStep(read, rest, rs, good);
      rs, good := rs + [found.value.0], good + found.value.1;
      rest := rest[found.value.1..];
    }
    StopAtEnd(read, rs);
  }

  /** Open a log file: header, configuration, records, torn tail. */
  method OpenFile(l: Layout, given: Bytes) returns (r: Opening)
    ensures r == OpenLog(l, given)
  {
    var file := given;
    if given == [] {
      if !l.frameable(l.config) { return Refused; }
      file := Header(l);
    }
    var m := |l.magic|;
    if |file| < m || file[..m] != l.magic { return Refused; }
    var found := l.read(file[m..]);
    if found.None? || found.value.0 != l.config || m + found.value.1 > |file| { return Refused; }
    var head, body := file[..m + found.value.1], file[m + found.value.1..];
    var rs, good := CollectRecords(l.read, body);
    if !Numbered(rs, 1) || |rs| >= MAX_UINT64 || good > |body| { return Refused; }
    r := Opened(Log(head + body[..good], |rs| + 1, false), rs);
  }

  lemma StopAtEnd(read: Bytes -> Option<(Record, nat)>, rs: seq<Record>)
    ensures Scan(read, []) == ([], 0) && rs + [] == rs
  {
  }

  class JournalObject<!E, !R> {
    const layout: Layout
    const codecs: Codecs
    const machine: Machine<E, R>
    const detached: R
    var file: Bytes
    var next: nat
    var failed: bool
    var engines: map<string, E>
    var ids: nat

    function View(): Journal<E>
      reads this
    {
      Journal(Log(file, next, failed), State(engines, ids))
    }

    constructor (layout: Layout, codecs: Codecs, machine: Machine<E, R>, detached: R)
      ensures this.layout == layout && this.codecs == codecs && this.machine == machine && this.detached == detached
      ensures View() == Journal(Log([], 1, false), State(map[], 1))
    {
      this.layout, this.codecs, this.machine, this.detached := layout, codecs, machine, detached;
      file, next, failed, engines, ids := [], 1, false, map[], 1;
    }

    /** Append one record; when only `written` bytes reach the file the log is failed for good. */
    method AppendRecord(symbol: string, at: Time, i: Input, written: nat) returns (ok: bool)
      modifies this
      ensures var r := RecordOf(codecs, old(next), symbol, at, i);
              ok <==> Accepts(layout, old(View()).log, r) && written >= |layout.enc(r)|
      ensures var r := RecordOf(codecs, old(next), symbol, at, i);
              View() == if ok then old(View()).(log := Append(layout, old(View()).log, r))
                        else if Accepts(layout, old(View()).log, r) then
                          old(View()).(log := Log(old(file) + layout.enc(r)[..written], old(next), true))
                        else old(View())
    {
      var r := RecordOf(codecs, next, symbol, at, i);
      if failed || !layout.frameable(r) || next >= MAX_UINT64 { return false; }
      var bytes := layout.enc(r);
      if written < |bytes| {
        file, failed := file + bytes[..written], true;
        return false;
      }
      file, next := file + bytes, next + 1;
      ok := true;
    }

    method ExecuteInput(symbol: string, at: Time, i: Input, owner: R)
      modifies this
      ensures View() == old(View()).(state := Execute(machine, old(View()).state, symbol, at, i, owner))
    {
      var engine := if symbol in engines then engines[symbol] else machine.start(symbol, at);
      var after := machine.step(engine, ids, at, i, owner);
      engines, ids := engines[symbol := after.engine], after.ids;
    }

    /** Log, then execute. */
    method ApplyRequest(q: Request<R>, written: nat) returns (ok: bool)
      modifies this
      ensures var r := RecordOf(codecs, old(next), q.symbol, q.at, q.input);
              ok <==> Apply(layout, codecs, machine, old(View()), q).Some? && written >= |layout.enc(r)|
      ensures ok ==> View() == Apply(layout, codecs, machine, old(View()), q).value
      ensures !ok ==> View().state == old(View()).state
    {
      ok := AppendRecord(q.symbol, q.at, q.input, written);
      if ok { ExecuteInput(q.symbol, q.at, q.input, q.owner); }
    }

    /** Execute the recorded inputs for the detached owner; false when one cannot be decoded. */
    method ReplayRecords(rs: seq<Record>) returns (ok: bool)
      modifies this
      ensures ok <==> Replay(codecs, machine, old(View()).state, rs, detached).Some?
      ensures ok ==> View() == old(View()).(state := Replay(codecs, machine, old(View()).state, rs, detached).value)
    {
      var k := 0;
      while k < |rs|
        invariant k <= |rs| && View().log == old(View()).log
        invariant Replay(codecs, machine, old(View()).state, rs, detached)
                  == Replay(codecs, machine, View().state, rs[k..], detached)
      {
        var i := DecodeInput(codecs, rs[k]);
        if i.None? { return false; }
        assert rs[k..][1..] == rs[k + 1..];
        ExecuteInput(rs[k].symbol, rs[k].at, i.value, detached);
        k := k + 1;
      }
      ok := true;
    }
  }
}
