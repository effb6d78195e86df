/** The engine in continuous trading: entry and cancel requests against the book, with accounts kept beside
    it. Over every run the accounts and the book agree and the book is never left crossed. */
module Engine {
  import opened OrderBook
  import opened BookSafety
  import opened BookTrace
  import opened Accounting

  datatype Desk = Desk(book: Book, accounts: Accounts, number: nat)

  datatype Request = Submit(o: Order, kind: Kind) | Withdraw(id: string, sender: string)

  function Empty(): Desk {
    Desk(Book([], [], 0), map[], 0)
  }

  /** The sender of a live order, if it is live. */
  predicate OwnedBy(b: Book, id: string, sender: string) {
    OwnedIn(b.bids, id, sender) || OwnedIn(b.asks, id, sender)
  }

  predicate OwnedIn(os: seq<Order>, id: string, sender: string) {
    os != [] && ((os[0].id == id && os[0].owner == sender) || OwnedIn(os[1..], id, sender))
  }

  /** Open the account, execute, report what happened, and close it if a remainder was cancelled. */
  function Accept(d: Desk, o: Order, kind: Kind): (Desk, seq<Output>)
    requires Valid(d.book) && o.qty > 0
  {
    var a := Account(o.qty, 0, 0);
    var r := Execute(d.book, o, kind);
    var ack := if kind.Resting? then [Er(Describe(o.id, Acknowledged, 0, 0, o.qty, a))] else [];
    var (s, out) := ApplyAll(d.accounts[o.id := a], r.events, d.number);
    var (t, last) := if r.cancelled then CloseRest(s, o.id) else (s, []);
    (Desk(r.book, t, d.number + PrintCount(r.events)), ack + out + last)
  }

  /** Cancel report of an unfilled remainder. */
  function CloseRest(s: Accounts, id: string): (Accounts, seq<Output>) {
    if id in s then (s - {id}, [Er(Describe(id, Cancelled, 0, 0, 0, s[id]))]) else (s, [])
  }

  function Refusal(id: string): seq<Output> {
    [Er(Report(id, Rejected, 0, 0, 0, 0, 0))]
  }

  /** No quantity, no limit price, or an id that is live. */
  predicate Refused(d: Desk, o: Order, kind: Kind) {
    o.qty == 0 || (o.price == 0 && !kind.Market?) || o.id in d.accounts
  }

  /** A refused request changes nothing: an entry that is not admissible, or the cancel of an order that
      is not live or not the sender's. */
  function Process(d: Desk, q: Request): (Desk, seq<Output>)
    requires Valid(d.book)
  {
    match q
    case Submit(o, kind) => if Refused(d, o, kind) then (d, Refusal(o.id)) else Accept(d, o, kind)
    case Withdraw(id, sender) =>
      if !OwnedBy(d.book, id, sender) then (d, Refusal(id))
      else
        var (s, out) := CloseRest(d.accounts, id);
        (Desk(Cancel(d.book, id), s, d.number), out)
  }

  // ── Invariant ──────────────────────────────────────────────────────────────

  /** The book is in price-time order and not crossed, ids are live once, and every account's leaves are
      the quantity its order has in the book. */
  ghost predicate Good(d: Desk) {
    Orderly(d.book) && Distinct(d.book) && Open(d.accounts) && Agree(d.accounts, Held(d.book))
  }

  lemma AcceptKeeps(d: Desk, o: Order, kind: Kind)
    requires Good(d) && o.qty > 0 && o.id !in d.accounts
    ensures Good(Accept(d, o, kind).0)
  {
    var f, s := Entered(d.book, o), d.accounts[o.id := Account(o.qty, 0, 0)];
    var r := Execute(d.book, o, kind);
    assert LeavesOf(d.accounts, o.id) == Held(d.book)(o.id);
    forall x ensures LeavesOf(s, x) == f(x) { assert LeavesOf(d.accounts, x) == Held(d.book)(x); }
    ExecuteOrderly(d.book, o, kind);
    ExecuteAccounts(d.book, o, kind);
    EventsAgree(s, f, r.events, d.number);
    RestCloses(ApplyAll(s, r.events, d.number).0, After(f, r.events), o.id, r);
  }

  lemma RestCloses(s: Accounts, f: Holding, id: string, r: Outcome)
    requires Open(s) && Agree(s, f)
    requires forall x :: (x == id && r.cancelled) || f(x) == Held(r.book)(x)
    requires r.cancelled ==> Held(r.book)(id) == 0
    ensures var t := if r.cancelled then CloseRest(s, id).0 else s; Open(t) && Agree(t, Held(r.book))
  {
    var t := if r.cancelled then CloseRest(s, id).0 else s;
    forall x ensures LeavesOf(t, x) == Held(r.book)(x) { assert LeavesOf(s, x) == f(x); }
  }

  lemma WithdrawKeeps(d: Desk, id: string)
    requires Good(d)
    ensures Good(Desk(Cancel(d.book, id), CloseRest(d.accounts, id).0, d.number))
  {
    CancelOrderly(d.book, id);
    CancelAccounts(d.book, id);
    var t := CloseRest(d.accounts, id).0;
    forall x ensures LeavesOf(t, x) == Held(Cancel(d.book, id))(x) {
      assert LeavesOf(d.accounts, x) == Held(d.book)(x);
    }
  }

  lemma ProcessKeeps(d: Desk, q: Request)
    requires Good(d)
    ensures Good(Process(d, q).0)
  {
    match q {
      case Submit(o, kind) => if !Refused(d, o, kind) { AcceptKeeps(d, o, kind); }
      case Withdraw(id, sender) => WithdrawKeeps(d, id);
    }
  }

  lemma ProcessValid(d: Desk, q: Request)
    requires Valid(d.book)
    ensures Valid(Process(d, q).0.book)
  {
    match q {
      case Submit(o, kind) => if o.qty > 0 { ExecuteValid(d.book, o, kind); }
      case Withdraw(id, _) =>
        SaneWithout(d.book.bids, Buy, id);
        SaneWithout(d.book.asks, Sell, id);
    }
  }

  function Run(d: Desk, qs: seq<Request>): Desk
    requires Valid(d.book)
    decreases |qs|
  {
    if qs == [] then d
    else
      ProcessValid(d, qs[0]);
      Run(Process(d, qs[0]).0, qs[1..])
  }

  lemma {:induction false} RunConcat(d: Desk, a: seq<Request>, b: seq<Request>)
    requires Valid(d.book)
    ensures Valid(Run(d, a).book) && Run(d, a + b) == Run(Run(d, a), b)
    decreases |a|
  {
    if a == [] {
      assert a + b == b;
    } else {
      ProcessValid(d, a[0]);
      assert (a + b)[1..] == a[1..] + b;
      RunConcat(Process(d, a[0]).0, a[1..], b);
    }
  }

  lemma {:induction false} RunSnoc(d: Desk, qs: seq<Request>, q: Request)
    requires Valid(d.book)
    ensures Valid(Run(d, qs).book) && Run(d, qs + [q]) == Process(Run(d, qs), q).0
  {
    RunConcat(d, qs, [q]);
    ProcessValid(Run(d, qs), q);
    assert [q][1..] == [];
  }

  lemma {:induction false} RunKeeps(d: Desk, qs: seq<Request>)
    requires Good(d)
    ensures Good(Run(d, qs))
    decreases |qs|
  {
    if qs != [] {
      ProcessKeeps(d, qs[0]);
      RunKeeps(Process(d, qs[0]).0, qs[1..]);
    }
  }

  /** After any run from the empty desk the book is not crossed, an order has an account exactly when it
      rests in the book, and the account's leaves are the quantity resting. */
  lemma BookAndAccountsAgree(qs: seq<Request>, id: string)
    ensures var d := Run(Empty(), qs);
            !Crossed(d.book) && (id in d.accounts <==> Amount(d.book.bids, id) + Amount(d.book.asks, id) > 0)
            && (id in d.accounts ==> Leaves(d.accounts[id]) == Amount(d.book.bids, id) + Amount(d.book.asks, id))
  {
    RunKeeps(Empty(), qs);
    var d := Run(Empty(), qs);
    assert LeavesOf(d.accounts, id) == Held(d.book)(id);
  }

  // ── What is reported ───────────────────────────────────────────────────────

  /** What an admitted entry makes happen in the book. */
  function EventsOf(d: Desk, q: Request): seq<Event>
    requires Valid(d.book)
  {
    if q.Submit? && !Refused(d, q.o, q.kind) then Execute(d.book, q.o, q.kind).events else []
  }

  function RunEvents(d: Desk, qs: seq<Request>): seq<Event>
    requires Valid(d.book)
    decreases |qs|
  {
    if qs == [] then []
    else
      ProcessValid(d, qs[0]);
      EventsOf(d, qs[0]) + RunEvents(Process(d, qs[0]).0, qs[1..])
  }

  function RunOutputs(d: Desk, qs: seq<Request>): seq<Output>
    requires Valid(d.book)
    decreases |qs|
  {
    if qs == [] then []
    else
      ProcessValid(d, qs[0]);
      Process(d, qs[0]).1 + RunOutputs(Process(d, qs[0]).0, qs[1..])
  }

  /** In everything a request causes, the cancel of a remainder included, no report on an order follows its
      terminal one. */
  lemma {:induction false} NothingFollowsTerminal(d: Desk, q: Request)
    requires Good(d)
    ensures TerminalIsLast(Process(d, q).1)
  {
    if q.Submit? && !Refused(d, q.o, q.kind) { AcceptEnds(d, q.o, q.kind); }
  }

  lemma {:induction false} AcceptEnds(d: Desk, o: Order, kind: Kind)
    requires Good(d) && o.qty > 0 && o.id !in d.accounts
    ensures TerminalIsLast(Accept(d, o, kind).1)
  {
    var r, start := Execute(d.book, o, kind), d.accounts[o.id := Account(o.qty, 0, 0)];
    assert LeavesOf(d.accounts, o.id) == Held(d.book)(o.id);
    ExecuteAccounts(d.book, o, kind);
    TerminalStaysLast(start, Entered(d.book, o), r.events, d.number);
    var (s, out) := ApplyAll(start, r.events, d.number);
    var last := if r.cancelled then CloseRest(s, o.id).1 else [];
    RestEnds(out, s, o.id);
    assert out + [] == out;
    var ack := if kind.Resting? then [Er(Describe(o.id, Acknowledged, 0, 0, o.qty, Account(o.qty, 0, 0)))] else [];
    AckFirst(ack, out + last);
    assert ack + (out + last) == ack + out + last;
  }

  lemma RestEnds(out: seq<Output>, s: Accounts, id: string)
    requires TerminalIsLast(out) && Ends(out, s)
    ensures TerminalIsLast(out + CloseRest(s, id).1)
  {
    TerminalConcat(out, s, CloseRest(s, id).1);
  }

  lemma AckFirst(ack: seq<Output>, out: seq<Output>)
    requires (forall i :: 0 <= i < |ack| ==> ack[i].Er? && !Terminal(ack[i].r)) && TerminalIsLast(out)
    ensures TerminalIsLast(ack + out)
  {
  }

  lemma {:induction false} TradesOfOne(d: Desk, q: Request)
    requires Valid(d.book)
    ensures Publishes(Process(d, q).1, EventsOf(d, q), d.number)
    ensures Process(d, q).0.number == d.number + PrintCount(EventsOf(d, q))
  {
    if q.Submit? && !Refused(d, q.o, q.kind) {
      TradesOfAccept(d, q.o, q.kind);
    } else {
      OnlyReports(Process(d, q).1);
    }
  }

  lemma {:induction false} TradesOfAccept(d: Desk, o: Order, kind: Kind)
    requires Valid(d.book) && o.qty > 0
    ensures Trades(Accept(d, o, kind).1) == NumberedPrints(Execute(d.book, o, kind).events, d.number)
  {
    var r, a := Execute(d.book, o, kind), Account(o.qty, 0, 0);
    var (s, out) := ApplyAll(d.accounts[o.id := a], r.events, d.number);
    var ack := if kind.Resting? then [Er(Describe(o.id, Acknowledged, 0, 0, o.qty, a))] else [];
    var last := if r.cancelled then CloseRest(s, o.id).1 else [];
    TradesAreThePrints(d.accounts[o.id := a], r.events, d.number);
    TradesAmid(ack, out, last);
  }

  lemma {:induction false} FirstOfRun(d: Desk, qs: seq<Request>)
    returns (next: Desk, out: seq<Output>, es: seq<Event>)
    requires Valid(d.book) && qs != []
    ensures Valid(next.book) && Publishes(out, es, d.number) && next.number == d.number + PrintCount(es)
    ensures RunOutputs(d, qs) == out + RunOutputs(next, qs[1..]) && RunEvents(d, qs) == es + RunEvents(next, qs[1..])
  {
    ProcessValid(d, qs[0]);
    TradesOfOne(d, qs[0]);
    next, out, es := Process(d, qs[0]).0, Process(d, qs[0]).1, EventsOf(d, qs[0]);
  }

  lemma {:induction false} TradesOfRun(d: Desk, qs: seq<Request>) returns (out: seq<Output>, es: seq<Event>)
    requires Valid(d.book)
    ensures out == RunOutputs(d, qs) && es == RunEvents(d, qs)
    ensures Publishes(out, es, d.number)
    decreases |qs|
  {
    if qs == [] {
      out, es := [], [];
    } else {
      var next, first, causes := FirstOfRun(d, qs);
      var more, later := TradesOfRun(next, qs[1..]);
      out, es := first + more, causes + later;
      TradesJoin(first, more, causes, later, d.number, next.number);
    }
  }

  /** The trades published over a whole run are its prints, in their order, numbered 1, 2, 3, ... */
  lemma TradesAreNumbered(qs: seq<Request>)
    ensures NumberedFrom(Trades(RunOutputs(Empty(), qs)), Prints(RunEvents(Empty(), qs)), 0)
  {
    var out, es := TradesOfRun(Empty(), qs);
    NumbersFollow(RunEvents(Empty(), qs), 0);
  }

  lemma {:induction false} AveragesOfOne(d: Desk, q: Request, id: string, lo: nat, hi: nat)
    requires Valid(d.book) && Averaged(d.accounts, id, lo, hi) && PricedWithin(EventsOf(d, q), id, lo, hi)
    ensures var (next, out) := Process(d, q); Averaged(next.accounts, id, lo, hi) && ReportedWithin(out, id, lo, hi)
  {
    match q {
      case Submit(o, kind) => if !Refused(d, o, kind) { AveragesOfAccept(d, o, kind, id, lo, hi); }
      case Withdraw(x, sender) => if OwnedBy(d.book, x, sender) { CloseReported(d.accounts, x, id, lo, hi); }
    }
  }

  lemma CloseReported(s: Accounts, x: string, id: string, lo: nat, hi: nat)
    requires Averaged(s, id, lo, hi)
    ensures var (t, out) := CloseRest(s, x); Averaged(t, id, lo, hi) && ReportedWithin(out, id, lo, hi)
  {
    if x == id && id in s && s[id].cumQty > 0 { AvgWithin(s[id], lo, hi); }
  }

  lemma {:induction false} AveragesOfAccept(d: Desk, o: Order, kind: Kind, id: string, lo: nat, hi: nat)
    requires Valid(d.book) && o.qty > 0 && Averaged(d.accounts, id, lo, hi)
    requires PricedWithin(Execute(d.book, o, kind).events, id, lo, hi)
    ensures var (next, out) := Accept(d, o, kind);
            Averaged(next.accounts, id, lo, hi) && ReportedWithin(out, id, lo, hi)
  {
    var r, a := Execute(d.book, o, kind), Account(o.qty, 0, 0);
    var start := d.accounts[o.id := a];
    AveragesWithin(start, r.events, d.number, id, lo, hi);
    var (s, out) := ApplyAll(start, r.events, d.number);
    CloseReported(s, o.id, id, lo, hi);
    var ack := if kind.Resting? then [Er(Describe(o.id, Acknowledged, 0, 0, o.qty, a))] else [];
    var last := if r.cancelled then CloseRest(s, o.id).1 else [];
    ReportedConcat(ack, out, id, lo, hi);
    ReportedConcat(ack + out, last, id, lo, hi);
  }

  lemma PricedParts(a: seq<Event>, b: seq<Event>, id: string, lo: nat, hi: nat)
    requires PricedWithin(a + b, id, lo, hi)
    ensures PricedWithin(a, id, lo, hi) && PricedWithin(b, id, lo, hi)
  {
    forall k | 0 <= k < |a| && a[k].Traded? && (a[k].buy == id || a[k].sell == id) ensures lo <= a[k].price <= hi {
      assert (a + b)[k] == a[k];
    }
    forall k | 0 <= k < |b| && b[k].Traded? && (b[k].buy == id || b[k].sell == id) ensures lo <= b[k].price <= hi {
      assert (a + b)[|a| + k] == b[k];
    }
  }

  lemma {:induction false} AveragesOfRun(d: Desk, qs: seq<Request>, id: string, lo: nat, hi: nat)
    requires Valid(d.book) && Averaged(d.accounts, id, lo, hi) && PricedWithin(RunEvents(d, qs), id, lo, hi)
    ensures ReportedWithin(RunOutputs(d, qs), id, lo, hi)
    decreases |qs|
  {
    if qs != [] {
      ProcessValid(d, qs[0]);
      var (next, out) := Process(d, qs[0]);
      PricedParts(EventsOf(d, qs[0]), RunEvents(next, qs[1..]), id, lo, hi);
      AveragesOfOne(d, qs[0], id, lo, hi);
      AveragesOfRun(next, qs[1..], id, lo, hi);
      ReportedConcat(out, RunOutputs(next, qs[1..]), id, lo, hi);
    }
  }

  /** Over a whole run every average price reported on an order lies between the lowest and the highest
      price that order traded at, also when its fills came from several executions. */
  lemma ReportedAveragesAreFair(qs: seq<Request>, id: string, lo: nat, hi: nat)
    requires PricedWithin(RunEvents(Empty(), qs), id, lo, hi)
    ensures ReportedWithin(RunOutputs(Empty(), qs), id, lo, hi)
  {
    AveragesOfRun(Empty(), qs, id, lo, hi);
  }
}
