/** Write-ahead execution: every input is logged before the engines see it, and reopening replays the log.
    After a crash at any byte of an append the replayed engines are those of the acknowledged inputs,
    or of those and the one in flight, up to the routing handles that only a live process has. */
module Journal {
  import opened Decimal
  import opened Framing
  import opened EventLog

  datatype Stepped<E> = Stepped(engine: E, ids: nat)

  /** The engine of one symbol: how it starts at a time, how an input from an owner moves it and the execution-id
      counter, and what remains of it when routing handles are forgotten. */
  datatype Machine<!E, !R> = Machine(start: (string, Time) -> E, step: (E, nat, Time, Input, R) -> Stepped<E>,
      erase: E -> E)

  datatype Request<R> = Request(symbol: string, at: Time, input: Input, owner: R)

  datatype State<E> = State(engines: map<string, E>, ids: nat)

  datatype Journal<E> = Journal(log: Log, state: State<E>)

  function Execute<E, R>(m: Machine<E, R>, s: State<E>, symbol: string, at: Time, i: Input, owner: R): State<E> {
    var before := if symbol in s.engines then s.engines[symbol] else m.start(symbol, at);
    var after := m.step(before, s.ids, at, i, owner);
    State(s.engines[symbol := after.engine], after.ids)
  }

  /** Log first; execute only what was logged. None: refused, nothing executed. */
  function Apply<E, R>(l: Layout, c: Codecs, m: Machine<E, R>, j: Journal<E>, q: Request<R>): Option<Journal<E>> {
    var r := RecordOf(c, j.log.next, q.symbol, q.at, q.input);
    if !Accepts(l, j.log, r) then None
    else Some(Journal(Append(l, j.log, r), Execute(m, j.state, q.symbol, q.at, q.input, q.owner)))
  }

  function Run<E, R>(l: Layout, c: Codecs, m: Machine<E, R>, j: Journal<E>, qs: seq<Request<R>>): Option<Journal<E>>
    decreases |qs|
  {
    if qs == [] then Some(j)
    else
      match Apply(l, c, m, j, qs[0])
      case None => None
      case Some(next) => Run(l, c, m, next, qs[1..])
  }

  /** Replay: every record is decoded and executed for the detached owner. */
  function Replay<E, R>(c: Codecs, m: Machine<E, R>, s: State<E>, rs: seq<Record>, detached: R): Option<State<E>>
    decreases |rs|
  {
    if rs == [] then Some(s)
    else
      match DecodeInput(c, rs[0])
      case None => None
      case Some(i) => Replay(c, m, Execute(m, s, rs[0].symbol, rs[0].at, i, detached), rs[1..], detached)
  }

  function OpenJournal<E, R>(l: Layout, c: Codecs, m: Machine<E, R>, file: Bytes, detached: R): Option<Journal<E>> {
    match OpenLog(l, file)
    case Refused => None
    case Opened(log, rs) =>
      match Replay(c, m, State(map[], 1), rs, detached)
      case None => None
      case Some(s) => Some(Journal(log, s))
  }

  // ── Replay follows the live run ────────────────────────────────────────────

  /** An engine never looks at a routing handle. */
  ghost predicate Blind<E(!new), R(!new)>(m: Machine<E, R>) {
    forall a, b, ids, at, i, p, q :: BlindAt(m, a, b, ids, at, i, p, q)
  }

  predicate BlindAt<E(==), R>(m: Machine<E, R>, a: E, b: E, ids: nat, at: Time, i: Input, p: R, q: R) {
    m.erase(a) == m.erase(b) ==>
      m.erase(m.step(a, ids, at, i, p).engine) == m.erase(m.step(b, ids, at, i, q).engine)
      && m.step(a, ids, at, i, p).ids == m.step(b, ids, at, i, q).ids
  }

  /** The same engines up to routing handles, and the same execution-id counter. */
  predicate Alike<E(==), R>(m: Machine<E, R>, a: State<E>, b: State<E>) {
    a.ids == b.ids && a.engines.Keys == b.engines.Keys
    && forall s :: s in a.engines ==> m.erase(a.engines[s]) == m.erase(b.engines[s])
  }

  lemma ExecuteAlike<E(!new), R(!new)>(m: Machine<E, R>, a: State<E>, b: State<E>, symbol: string, at: Time, i: Input,
        p: R, q: R)
    requires Blind(m) && Alike(m, a, b)
    ensures Alike(m, Execute(m, a, symbol, at, i, p), Execute(m, b, symbol, at, i, q))
  {
    var x := if symbol in a.engines then a.engines[symbol] else m.start(symbol, at);
    var y := if symbol in b.engines then b.engines[symbol] else m.start(symbol, at);
    assert BlindAt(m, x, y, a.ids, at, i, p, q);
  }

  lemma {:induction false} ReplaySnoc<E, R>(c: Codecs, m: Machine<E, R>, s: State<E>, rs: seq<Record>, r: Record,
        detached: R)
    ensures var x := Replay(c, m, s, rs, detached);
            Replay(c, m, s, rs + [r], detached) ==
              if x.None? || DecodeInput(c, r).None? then None
              else Some(Execute(m, x.value, r.symbol, r.at, DecodeInput(c, r).value, detached))
    decreases |rs|
  {
    if rs == [] {
      assert (rs + [r])[1..] == [];
    } else {
      assert (rs + [r])[1..] == rs[1..] + [r];
      if DecodeInput(c, rs[0]).Some? {
        ReplaySnoc(c, m, Execute(m, s, rs[0].symbol, rs[0].at, DecodeInput(c, rs[0]).value, detached), rs[1..], r,
                   detached);
      }
    }
  }

  /** The log holds rs, and replaying rs gives the live engines. */
  ghost predicate Follows<E, R>(l: Layout, c: Codecs, m: Machine<E, R>, j: Journal<E>, rs: seq<Record>, detached: R) {
    Holds(l, j.log, rs)
    && var x := Replay(c, m, State(map[], 1), rs, detached); x.Some? && Alike(m, x.value, j.state)
  }

  /** One acknowledged input keeps the replay in step. */
  lemma ApplyFollows<E(!new), R(!new)>(l: Layout, c: Codecs, m: Machine<E, R>, j: Journal<E>, rs: seq<Record>,
        q: Request<R>, detached: R)
    requires RoundTrips(c) && Blind(m) && Follows(l, c, m, j, rs, detached)
    requires Apply(l, c, m, j, q).Some? && Replayable(q.symbol, q.at, q.input)
    ensures Follows(l, c, m, Apply(l, c, m, j, q).value, rs + [RecordOf(c, j.log.next, q.symbol, q.at, q.input)],
            detached)
  {
    var r := RecordOf(c, j.log.next, q.symbol, q.at, q.input);
    AppendHolds(l, j.log, rs, r);
    DecodedIffReplayable(c, j.log.next, q.symbol, q.at, q.input);
    ReplaySnoc(c, m, State(map[], 1), rs, r, detached);
    var x := Replay(c, m, State(map[], 1), rs, detached).value;
    ExecuteAlike(m, x, j.state, q.symbol, q.at, q.input, detached, q.owner);
  }

  lemma {:induction false} RunFollows<E(!new), R(!new)>(l: Layout, c: Codecs, m: Machine<E, R>, j: Journal<E>,
        rs: seq<Record>, qs: seq<Request<R>>, detached: R)
    returns (all: seq<Record>)
    requires RoundTrips(c) && Blind(m) && Follows(l, c, m, j, rs, detached) && Run(l, c, m, j, qs).Some?
    requires forall i :: 0 <= i < |qs| ==> Replayable(qs[i].symbol, qs[i].at, qs[i].input)
    ensures Follows(l, c, m, Run(l, c, m, j, qs).value, all, detached) && |all| == |rs| + |qs|
    decreases |qs|
  {
    if qs == [] {
      all := rs;
    } else {
      ApplyFollows(l, c, m, j, rs, qs[0], detached);
      var r := RecordOf(c, j.log.next, qs[0].symbol, qs[0].at, qs[0].input);
      all := RunFollows(l, c, m, Apply(l, c, m, j, qs[0]).value, rs + [r], qs[1..], detached);
    }
  }

  lemma {:induction false} RunSnoc<E, R>(l: Layout, c: Codecs, m: Machine<E, R>, j: Journal<E>, qs: seq<Request<R>>,
                                        q: Request<R>)
    requires Run(l, c, m, j, qs).Some?
    ensures Run(l, c, m, j, qs + [q]) == Apply(l, c, m, Run(l, c, m, j, qs).value, q)
    decreases |qs|
  {
    if qs == [] {
      assert (qs + [q])[1..] == [];
    } else {
      assert (qs + [q])[1..] == qs[1..] + [q];
      RunSnoc(l, c, m, Apply(l, c, m, j, qs[0]).value, qs[1..], q);
    }
  }

  function FreshJournal<E>(l: Layout): Journal<E> {
    Journal(Log(Header(l), 1, false), State(map[], 1))
  }

  lemma FreshFollows<E(!new), R(!new)>(l: Layout, c: Codecs, m: Machine<E, R>, detached: R)
    ensures Follows(l, c, m, FreshJournal<E>(l), [], detached)
  {
    assert Header(l) + [] == Header(l);
  }

  /** From a journal whose log replays to its engines, run acknowledged inputs and crash at byte k of
      the next append. Reopening gives the engines and the execution-id counter of the acknowledged
      inputs, or of those and the one in flight, cuts the file to exactly the records it keeps, and
      leaves a journal whose log again replays to its engines, so crashes may repeat. */
  lemma ReopenAfterCrash<E(!new), R(!new)>(l: Layout, c: Codecs, m: Machine<E, R>, j: Journal<E>, rs: seq<Record>,
                                           qs: seq<Request<R>>, q: Request<R>, k: nat, detached: R)
    returns (again: Journal<E>, kept: seq<Record>)
    requires Sound(l) && RoundTrips(c) && Blind(m) && Follows(l, c, m, j, rs, detached) && Run(l, c, m, j, qs).Some?
    requires forall i :: 0 <= i < |qs| ==> Replayable(qs[i].symbol, qs[i].at, qs[i].input)
    requires Replayable(q.symbol, q.at, q.input)
    requires var live := Run(l, c, m, j, qs).value;
             Apply(l, c, m, live, q).Some? && k <= |l.enc(RecordOf(c, live.log.next, q.symbol, q.at, q.input))|
    ensures var live := Run(l, c, m, j, qs).value;
            var e := l.enc(RecordOf(c, live.log.next, q.symbol, q.at, q.input));
            var reached := if k < |e| then live else Apply(l, c, m, live, q).value;
            OpenJournal(l, c, m, live.log.file + e[..k], detached) == Some(again)
            && again.log == reached.log && Alike(m, again.state, reached.state)
            && |kept| == |rs| + |qs| + (if k < |e| then 0 else 1)
    ensures Follows(l, c, m, again, kept, detached)
  {
    var all := RunFollows(l, c, m, j, rs, qs, detached);
    var live := Run(l, c, m, j, qs).value;
    var r := RecordOf(c, live.log.next, q.symbol, q.at, q.input);
    CrashInAppend(l, live.log, all, r, k);
    ApplyFollows(l, c, m, live, all, q, detached);
    kept := if k < |l.enc(r)| then all else all + [r];
    again := OpenJournal(l, c, m, live.log.file + l.enc(r)[..k], detached).value;
  }

  lemma {:induction false} StuckReplay<E, R>(c: Codecs, m: Machine<E, R>, s: State<E>, rs: seq<Record>, i: nat,
        detached: R)
    requires i < |rs| && DecodeInput(c, rs[i]).None?
    ensures Replay(c, m, s, rs, detached).None?
    decreases |rs|
  {
    if i > 0 && DecodeInput(c, rs[0]).Some? {
      StuckReplay(c, m, Execute(m, s, rs[0].symbol, rs[0].at, DecodeInput(c, rs[0]).value, detached), rs[1..], i - 1,
                  detached);
    }
  }

  /** After one more acknowledged input the journal can be reopened if and only if that input is replayable:
      apply itself does not check it. */
  lemma ReopensIffReplayable<E(!new), R(!new)>(l: Layout, c: Codecs, m: Machine<E, R>, j: Journal<E>, rs: seq<Record>,
        q: Request<R>, detached: R)
    requires Sound(l) && RoundTrips(c) && Blind(m) && Follows(l, c, m, j, rs, detached) && Apply(l, c, m, j, q).Some?
    ensures OpenJournal(l, c, m, Apply(l, c, m, j, q).value.log.file, detached).Some?
            <==> Replayable(q.symbol, q.at, q.input)
  {
    if Replayable(q.symbol, q.at, q.input) {
      var r := RecordOf(c, j.log.next, q.symbol, q.at, q.input);
      ApplyFollows(l, c, m, j, rs, q, detached);
      CrashInAppend(l, j.log, rs, r, |l.enc(r)|);
      assert l.enc(r)[..|l.enc(r)|] == l.enc(r);
    } else {
      UnreplayableBlocksReopen(l, c, m, j, rs, q, detached);
    }
  }

  /** One acknowledged input that is not replayable makes the journal impossible to reopen. */
  lemma UnreplayableBlocksReopen<E(!new), R(!new)>(l: Layout, c: Codecs, m: Machine<E, R>, j: Journal<E>,
        rs: seq<Record>, q: Request<R>, detached: R)
    requires Sound(l) && RoundTrips(c) && Holds(l, j.log, rs) && Apply(l, c, m, j, q).Some?
    requires !Replayable(q.symbol, q.at, q.input)
    ensures OpenJournal(l, c, m, Apply(l, c, m, j, q).value.log.file, detached).None?
  {
    var r := RecordOf(c, j.log.next, q.symbol, q.at, q.input);
    AppendHolds(l, j.log, rs, r);
    DecodedIffReplayable(c, j.log.next, q.symbol, q.at, q.input);
    StuckReplay(c, m, State(map[], 1), rs + [r], |rs|, detached);
    CrashInAppend(l, j.log, rs, r, |l.enc(r)|);
    assert l.enc(r)[..|l.enc(r)|] == l.enc(r);
  }

  /** The smallest such input: an order filed under another symbol than its own, on a new journal. It is
      accepted, and the journal cannot be opened any more. */
  lemma UnreplayableExample<E(!new), R(!new)>(c: Codecs, config: Record, m: Machine<E, R>, at: Time, owner: R,
        detached: R)
    requires RoundTrips(c) && Frameable(c, config) && Frameable(c, RecordOf(c, 1, "A", at, New(Msg("B", []))))
    ensures var l, q := SourceLayout(c, config), Request("A", at, New(Msg("B", [])), owner);
            var live := Apply(l, c, m, FreshJournal(l), q);
            live.Some? && OpenJournal(l, c, m, live.value.log.file, detached).None?
  {
    var l, q := SourceLayout(c, config), Request("A", at, New(Msg("B", [])), owner);
    EventLog.SourceIsSound(c, config);
    FreshFollows(l, c, m, detached);
    UnreplayableBlocksReopen(l, c, m, FreshJournal(l), [], q, detached);
  }
}
