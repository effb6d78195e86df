/** The status cache fed by the engine: after any run of entries and cancels a live order is in the cache
    with its sender and exactly the quantity it has left, and an entry with something left is a live order. */
module EngineStatus {
  import opened Decimal
  import opened OrderBook
  import opened BookTrace
  import opened Accounting
  import opened Engine
  import S = StatusCache

  /** The reports among the outputs, with execution ids after n. */
  function ReportsOf(out: seq<Output>, n: nat): seq<S.Report>
    decreases |out|
  {
    if out == [] then []
    else if out[0].Trade? then ReportsOf(out[1..], n)
    else [S.Report(out[0].r.id, n + 1, out[0].r.leaves, out[0].r.kind.Rejected?, None)] + ReportsOf(out[1..], n + 1)
  }

  /** An entry binds its order; a cancel binds none. */
  function CallOf(d: Desk, q: Request, n: nat): S.Call
    requires Valid(d.book)
  {
    var own := ReportsOf(Process(d, q).1, n);
    match q
    case Submit(o, _) => S.Requested([], own, o.id, o.owner)
    case Withdraw(_, _) => S.Served([], own)
  }

  datatype Point = Point(desk: Desk, ids: nat, calls: seq<S.Call>)

  /** Where the requests lead, from the first on: the engine, its execution ids and the calls of the cache. */
  function Reached(qs: seq<Request>): (p: Point)
    ensures Valid(p.desk.book)
    decreases |qs|
  {
    if qs == [] then Point(Empty(), 0, [])
    else
      var p, q := Reached(qs[..|qs| - 1]), qs[|qs| - 1];
      var call := CallOf(p.desk, q, p.ids);
      ProcessValid(p.desk, q);
      Point(Process(p.desk, q).0, p.ids + |S.Emitted(call)|, p.calls + [call])
  }

  // ── Numbering ──────────────────────────────────────────────────────────────

  predicate NumberedAfter(rs: seq<S.Report>, n: nat) {
    forall i :: 0 <= i < |rs| ==> rs[i].exec == n + 1 + i && rs[i].replaced.None?
  }

  lemma {:induction false} ReportsNumbered(out: seq<Output>, n: nat)
    ensures NumberedAfter(ReportsOf(out, n), n)
    decreases |out|
  {
    if out != [] {
      ReportsNumbered(out[1..], n);
      ReportsNumbered(out[1..], n + 1);
    }
  }

  // ── The last word of a request ─────────────────────────────────────────────

  /** What the last report on an order that is not a rejection says is left. */
  function LastLeaves(out: seq<Output>, id: string): Option<nat> {
    if out == [] then None
    else
      var later := LastLeaves(out[1..], id);
      if later.Some? then later
      else if out[0].Er? && out[0].r.id == id && !out[0].r.kind.Rejected? then Some(out[0].r.leaves)
      else None
  }

  function Or(a: Option<nat>, otherwise: nat): nat {
    if a.Some? then a.value else otherwise
  }

  lemma {:induction false} LastConcat(a: seq<Output>, b: seq<Output>, id: string)
    ensures LastLeaves(a + b, id) == if LastLeaves(b, id).Some? then LastLeaves(b, id) else LastLeaves(a, id)
  {
    if a == [] {
      assert a + b == b;
    } else {
      assert (a + b)[1..] == a[1..] + b;
      LastConcat(a[1..], b, id);
    }
  }

  lemma LastOfOne(r: Accounting.Report, id: string)
    ensures LastLeaves([Er(r)], id) == if r.id == id && !r.kind.Rejected? then Some(r.leaves) else None
  {
    assert [Er(r)][1..] == [];
  }

  lemma {:induction false} FillSays(s: Accounts, filled: string, price: nat, q: nat, id: string)
    ensures var (t, out) := ApplyFill(s, filled, price, q);
            LeavesOf(t, id) == Or(LastLeaves(out, id), LeavesOf(s, id))
  {
    if filled in s {
      var a := Filling(s[filled], price, q);
      LastOfOne(Describe(filled, Filled, price, q, Leaves(a), a), id);
    }
  }

  lemma {:induction false} EventSays(s: Accounts, e: Event, number: nat, id: string)
    ensures var (t, out) := ApplyEvent(s, e, number);
            LeavesOf(t, id) == Or(LastLeaves(out, id), LeavesOf(s, id))
  {
    match e
    case Traded(buy, sell, price, q, buyer) =>
      var (s1, first) := ApplyFill(s, buy, price, q);
      var (s2, second) := ApplyFill(s1, sell, price, q);
      FillSays(s, buy, price, q, id);
      FillSays(s1, sell, price, q, id);
      LastConcat(first, second, id);
      LastConcat(first + second, [Trade(number + 1, price, q, buyer)], id);
      assert [Trade(number + 1, price, q, buyer)][1..] == [];
    case Cut(cut, _, off, left) =>
      if cut in s {
        var a := s[cut].(orderQty := if off <= s[cut].orderQty then s[cut].orderQty - off else 0);
        LastOfOne(Describe(cut, Cancelled, 0, 0, 0, s[cut]), id);
        LastOfOne(Describe(cut, Restated, 0, 0, Leaves(a), a), id);
      }
  }

  /** The last report on an order says what its account has left; without one nothing changed. */
  lemma {:induction false} EventsSay(s: Accounts, es: seq<Event>, number: nat, id: string)
    ensures var (t, out) := ApplyAll(s, es, number);
            LeavesOf(t, id) == Or(LastLeaves(out, id), LeavesOf(s, id))
    decreases |es|
  {
    if es != [] {
      var (next, out) := ApplyEvent(s, es[0], number);
      EventSays(s, es[0], number, id);
      EventsSay(next, es[1..], number + Numbers(es[0]), id);
      LastConcat(out, ApplyAll(next, es[1..], number + Numbers(es[0])).1, id);
    }
  }

  lemma {:induction false} RestSays(s: Accounts, closed: string, id: string)
    ensures var (t, out) := CloseRest(s, closed); LeavesOf(t, id) == Or(LastLeaves(out, id), LeavesOf(s, id))
  {
    if closed in s { LastOfOne(Describe(closed, Cancelled, 0, 0, 0, s[closed]), id); }
  }

  /** An order that does not rest is not in the book afterwards. */
  lemma {:induction false} NeverRests(b: Book, o: Order, kind: Kind)
    requires Valid(b) && Distinct(b) && o.qty > 0 && Held(b)(o.id) == 0 && !kind.Resting?
    ensures Held(Execute(b, o, kind).book)(o.id) == 0
  {
    var own := Queue(b, o.side);
    var w := Sweep(o.qty, false, Queue(b, Opposite(o.side)), b.arrivals, []);
    assert SweepDistinct(o, own, w);
    var _ := SweepBacked(o, own, true, w);
    var _ := SweepBacked(o, own, false, w);
  }

  lemma {:induction false} AcceptSays(d: Desk, o: Order, kind: Kind, id: string)
    requires Good(d) && o.qty > 0 && o.id !in d.accounts
    ensures var (t, out) := Accept(d, o, kind);
            LeavesOf(t.accounts, id) == Or(LastLeaves(out, id), LeavesOf(d.accounts, id))
  {
    var a := Account(o.qty, 0, 0);
    var r, start := Execute(d.book, o, kind), d.accounts[o.id := a];
    var ack := if kind.Resting? then [Er(Describe(o.id, Acknowledged, 0, 0, o.qty, a))] else [];
    var (s, out) := ApplyAll(start, r.events, d.number);
    var (t, last) := if r.cancelled then CloseRest(s, o.id) else (s, []);
    EventsSay(start, r.events, d.number, id);
    RestSays(s, o.id, id);
    LastConcat(ack + out, last, id);
    LastConcat(ack, out, id);
    LastOfOne(Describe(o.id, Acknowledged, 0, 0, o.qty, a), id);
    if !kind.Resting? && id == o.id { NothingRests(d, o, kind); }
  }

  /** An order that does not rest has no account afterwards. */
  lemma {:induction false} NothingRests(d: Desk, o: Order, kind: Kind)
    requires Good(d) && o.qty > 0 && o.id !in d.accounts && !kind.Resting?
    ensures LeavesOf(Accept(d, o, kind).0.accounts, o.id) == 0
  {
    assert LeavesOf(d.accounts, o.id) == Held(d.book)(o.id);
    NeverRests(d.book, o, kind);
    AcceptKeeps(d, o, kind);
    var t := Accept(d, o, kind).0;
    assert LeavesOf(t.accounts, o.id) == Held(t.book)(o.id);
  }

  lemma {:induction false} ProcessSays(d: Desk, q: Request, id: string)
    requires Good(d)
    ensures var (t, out) := Process(d, q); LeavesOf(t.accounts, id) == Or(LastLeaves(out, id), LeavesOf(d.accounts, id))
  {
    match q
    case Submit(o, kind) =>
      if Refused(d, o, kind) { LastOfOne(Refusal(o.id)[0].r, id); } else { AcceptSays(d, o, kind, id); }
    case Withdraw(gone, sender) =>
      LastOfOne(Refusal(gone)[0].r, id);
      RestSays(d.accounts, gone, id);
  }

  // ── The history of the cache ───────────────────────────────────────────────

  function LeftIn(r: Option<S.Report>): nat {
    if r.Some? then r.value.leaves else 0
  }

  lemma {:induction false} ShownOfReports(out: seq<Output>, n: nat, id: string)
    ensures var shown := S.Shown(ReportsOf(out, n), id);
            (shown.Some? <==> LastLeaves(out, id).Some?) && LeftIn(shown) == Or(LastLeaves(out, id), 0)
    decreases |out|
  {
    if out != [] && out[0].Trade? {
      ShownOfReports(out[1..], n, id);
    } else if out != [] {
      var r := S.Report(out[0].r.id, n + 1, out[0].r.leaves, out[0].r.kind.Rejected?, None);
      ShownOfReports(out[1..], n + 1, id);
      S.ShownConcat([r], ReportsOf(out[1..], n + 1), id);
      assert [r][..0] == [];
    }
  }

  predicate UpTo(h: seq<S.Report>, n: nat) {
    forall i :: 0 <= i < |h| ==> h[i].exec <= n
  }

  /** What the history shows of every order is what its account has left. */
  ghost predicate Tells(h: seq<S.Report>, s: Accounts) {
    forall id :: LeftIn(S.Shown(h, id)) == LeavesOf(s, id)
  }

  ghost predicate InStep(p: Point) {
    Good(p.desk) && S.WellNumbered(S.History(p.calls)) && S.OpenedByEntry(p.calls)
    && UpTo(S.History(p.calls), p.ids) && Tells(S.History(p.calls), p.desk.accounts)
  }

  lemma HistorySnoc(calls: seq<S.Call>, call: S.Call)
    ensures S.History(calls + [call]) == S.History(calls) + S.Emitted(call)
    ensures S.OpenedByEntry(calls + [call]) <==> S.OpenedByEntry(calls) && S.Opens(S.History(calls), call)
  {
    assert (calls + [call])[..|calls|] == calls;
  }

  lemma NumbersGoOn(h: seq<S.Report>, rs: seq<S.Report>, n: nat)
    requires S.WellNumbered(h) && UpTo(h, n) && NumberedAfter(rs, n)
    ensures S.WellNumbered(h + rs) && UpTo(h + rs, n + |rs|)
  {
  }

  lemma {:induction false} EmittedIs(d: Desk, q: Request, n: nat)
    requires Valid(d.book)
    ensures S.Emitted(CallOf(d, q, n)) == ReportsOf(Process(d, q).1, n)
  {
    assert [] + ReportsOf(Process(d, q).1, n) == ReportsOf(Process(d, q).1, n);
  }

  /** An account that was not there before is the entered order's. */
  lemma {:induction false} NewAccount(d: Desk, q: Request, id: string)
    requires Good(d) && LeavesOf(d.accounts, id) == 0 && LeavesOf(Process(d, q).0.accounts, id) > 0
    ensures q.Submit? && q.o.id == id && !Refused(d, q.o, q.kind)
  {
    ProcessSays(d, q, id);
    match q
    case Submit(o, kind) =>
      if !Refused(d, o, kind) && o.id != id {
        ClosedIsSilent(d.accounts[o.id := Account(o.qty, 0, 0)], Execute(d.book, o, kind).events, d.number, id);
      }
    case Withdraw(gone, sender) =>
  }

  predicate NoneRefused(out: seq<Output>) {
    forall i :: 0 <= i < |out| && out[i].Er? ==> !out[i].r.kind.Rejected?
  }

  lemma {:induction false} LastIsAccepted(out: seq<Output>, n: nat, id: string)
    requires NoneRefused(out) && LastLeaves(out, id).Some?
    ensures var last := S.LastFor(ReportsOf(out, n), id); last.Some? && !last.value.rejected
  {
    NoneRejected(out, n);
    ShownOfReports(out, n, id);
    ShownIsLast(ReportsOf(out, n), id);
  }

  lemma {:induction false} NoneRejected(out: seq<Output>, n: nat)
    requires NoneRefused(out)
    ensures forall i :: 0 <= i < |ReportsOf(out, n)| ==> !ReportsOf(out, n)[i].rejected
    decreases |out|
  {
    if out != [] {
      NoneRejected(out[1..], n);
      NoneRejected(out[1..], n + 1);
    }
  }

  lemma {:induction false} ShownIsLast(rs: seq<S.Report>, id: string)
    requires (forall i :: 0 <= i < |rs| ==> !rs[i].rejected) && S.Shown(rs, id).Some?
    ensures S.LastFor(rs, id).Some? && !S.LastFor(rs, id).value.rejected
    decreases |rs|
  {
    if rs != [] && rs[|rs| - 1].id != id { ShownIsLast(rs[..|rs| - 1], id); }
  }

  lemma NoneConcat(a: seq<Output>, b: seq<Output>)
    requires NoneRefused(a) && NoneRefused(b)
    ensures NoneRefused(a + b)
  {
  }

  lemma {:induction false} AcceptedReports(d: Desk, o: Order, kind: Kind)
    requires Valid(d.book) && o.qty > 0
    ensures NoneRefused(Accept(d, o, kind).1)
  {
    var a := Account(o.qty, 0, 0);
    var r := Execute(d.book, o, kind);
    var ack := if kind.Resting? then [Er(Describe(o.id, Acknowledged, 0, 0, o.qty, a))] else [];
    var (s, out) := ApplyAll(d.accounts[o.id := a], r.events, d.number);
    EventsAccept(d.accounts[o.id := a], r.events, d.number);
    NoneConcat(ack, out);
    NoneConcat(ack + out, if r.cancelled then CloseRest(s, o.id).1 else []);
  }

  lemma {:induction false} EventsAccept(s: Accounts, es: seq<Event>, number: nat)
    ensures NoneRefused(ApplyAll(s, es, number).1)
    decreases |es|
  {
    if es != [] {
      var (next, out) := ApplyEvent(s, es[0], number);
      EventAccepts(s, es[0], number);
      EventsAccept(next, es[1..], number + Numbers(es[0]));
      NoneConcat(out, ApplyAll(next, es[1..], number + Numbers(es[0])).1);
    }
  }

  lemma EventAccepts(s: Accounts, e: Event, number: nat)
    ensures NoneRefused(ApplyEvent(s, e, number).1)
  {
  }

  lemma {:induction false} CallOpens(p: Point, q: Request)
    requires Valid(p.desk.book) && InStep(p)
    ensures S.Opens(S.History(p.calls), CallOf(p.desk, q, p.ids))
  {
    var h, call, out := S.History(p.calls), CallOf(p.desk, q, p.ids), Process(p.desk, q).1;
    assert h + call.ticks == h;
    forall id | S.IsOpen(S.Shown(h + S.Emitted(call), id)) && !S.IsOpen(S.Shown(h, id)) ensures S.Binds(call, id) {
      EmittedIs(p.desk, q, p.ids);
      S.ShownConcat(h, S.Emitted(call), id);
      ShownOfReports(out, p.ids, id);
      ProcessSays(p.desk, q, id);
      assert LeftIn(S.Shown(h, id)) == LeavesOf(p.desk.accounts, id);
      NewAccount(p.desk, q, id);
      AcceptedReports(p.desk, q.o, q.kind);
      LastIsAccepted(out, p.ids, id);
    }
  }

  lemma {:induction false} StepTells(p: Point, q: Request)
    requires Valid(p.desk.book) && InStep(p)
    ensures Tells(S.History(p.calls) + S.Emitted(CallOf(p.desk, q, p.ids)), Process(p.desk, q).0.accounts)
  {
    var h, rs := S.History(p.calls), ReportsOf(Process(p.desk, q).1, p.ids);
    EmittedIs(p.desk, q, p.ids);
    forall id ensures LeftIn(S.Shown(h + rs, id)) == LeavesOf(Process(p.desk, q).0.accounts, id) {
      S.ShownConcat(h, rs, id);
      ShownOfReports(Process(p.desk, q).1, p.ids, id);
      ProcessSays(p.desk, q, id);
      assert LeftIn(S.Shown(h, id)) == LeavesOf(p.desk.accounts, id);
    }
  }

  lemma {:induction false} Joined(desk: Desk, ids: nat, calls: seq<S.Call>, call: S.Call, h: seq<S.Report>)
    requires S.OpenedByEntry(calls) && S.Opens(S.History(calls), call) && h == S.History(calls) + S.Emitted(call)
    requires Good(desk) && S.WellNumbered(h) && UpTo(h, ids) && Tells(h, desk.accounts)
    ensures InStep(Point(desk, ids, calls + [call]))
  {
    HistorySnoc(calls, call);
  }

  lemma {:induction false} StepInStep(p: Point, q: Request) returns (call: S.Call)
    requires Valid(p.desk.book) && InStep(p)
    ensures call == CallOf(p.desk, q, p.ids)
    ensures InStep(Point(Process(p.desk, q).0, p.ids + |S.Emitted(call)|, p.calls + [call]))
  {
    call := CallOf(p.desk, q, p.ids);
    ProcessKeeps(p.desk, q);
    CallOpens(p, q);
    StepTells(p, q);
    EmittedIs(p.desk, q, p.ids);
    ReportsNumbered(Process(p.desk, q).1, p.ids);
    var h := S.History(p.calls) + S.Emitted(call);
    NumbersGoOn(S.History(p.calls), S.Emitted(call), p.ids);
    Joined(Process(p.desk, q).0, p.ids + |S.Emitted(call)|, p.calls, call, h);
  }

  /** Over every run the engine's reports meet what the cache asks for and show what the accounts have left. */
  lemma {:induction false} RunInStep(qs: seq<Request>)
    ensures InStep(Reached(qs))
    decreases |qs|
  {
    if qs == [] {
      assert S.History([]) == [];
    } else {
      RunInStep(qs[..|qs| - 1]);
      var _ := StepInStep(Reached(qs[..|qs| - 1]), qs[|qs| - 1]);
    }
  }

  lemma {:induction false} ReachedSnoc(init: seq<Request>, q: Request)
    ensures Reached(init + [q]).desk == Process(Reached(init).desk, q).0
  {
    assert (init + [q])[..|init|] == init;
  }

  lemma {:induction false} ReachedIsRun(qs: seq<Request>) returns (d: Desk)
    ensures d == Reached(qs).desk
    ensures d == Run(Empty(), qs)
    decreases |qs|
  {
    if qs == [] {
      d := Empty();
    } else {
      var init, q := qs[..|qs| - 1], qs[|qs| - 1];
      assert qs == init + [q];
      var before := ReachedIsRun(init);
      d := Process(before, q).0;
      ReachedSnoc(init, q);
      RunSnoc(Empty(), init, q);
    }
  }

  /** After any run of entries and cancels: a live order is in the cache, with exactly what it has left, and an
      entry with something left is a live order with that much left. */
  lemma {:induction false} StatusIsTrue(qs: seq<Request>, id: string)
    ensures var live := Run(Empty(), qs).accounts;
            var c := S.Run(Reached(qs).calls);
            (id in live ==> id in c.entries && c.entries[id].last.Some?)
            && (id in c.entries && c.entries[id].last.Some? ==>
                  c.entries[id].last.value.leaves == LeavesOf(live, id))
  {
    var _ := ReachedIsRun(qs);
    RunInStep(qs);
    var p := Reached(qs);
    S.CacheIsFaithful(p.calls);
    assert LeftIn(S.Shown(S.History(p.calls), id)) == LeavesOf(p.desk.accounts, id);
    if id in p.desk.accounts { S.NothingOpenForgotten(p.calls, id); }
  }
}
