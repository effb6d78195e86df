/** The engine's order accounting: per-order quantities and notional, fill and self-trade-prevention
    reports, and the merge of prints and prevented matches into one chronological report. */
module Accounting {
  import opened Arithmetic
  import opened OrderBook
  import opened BookTrace

  /** A live order's books: original quantity (less prevented parts), filled quantity, and price times
      quantity summed. */
  datatype Account = Account(orderQty: nat, cumQty: nat, notional: nat)

  type Accounts = map<string, Account>

  datatype Type = Acknowledged | Filled | Cancelled | Restated | Rejected

  datatype Report = Report(id: string, kind: Type, price: nat, qty: nat, leaves: nat, cumQty: nat, avgPx: nat)

  datatype Output = Er(r: Report) | Trade(number: nat, price: nat, qty: nat, buyer: bool)

  function Leaves(a: Account): nat {
    if a.cumQty <= a.orderQty then a.orderQty - a.cumQty else 0
  }

  function AvgPx(a: Account): nat {
    if a.cumQty == 0 then 0 else a.notional / a.cumQty
  }

  function Describe(id: string, kind: Type, price: nat, qty: nat, leaves: nat, a: Account): Report {
    Report(id, kind, price, qty, leaves, a.cumQty, AvgPx(a))
  }

  /** The last word on an order: completely filled or cancelled. */
  predicate Terminal(r: Report) {
    (r.kind.Filled? && r.leaves == 0) || r.kind.Cancelled?
  }

  // ── Single events ──────────────────────────────────────────────────────────

  function Filling(a: Account, price: nat, q: nat): Account {
    Account(a.orderQty, a.cumQty + q, a.notional + price * q)
  }

  /** Book a fill; a completely filled order is closed. */
  function ApplyFill(s: Accounts, id: string, price: nat, q: nat): (Accounts, seq<Output>) {
    if id !in s then (s, [])
    else
      var a := Filling(s[id], price, q);
      (if Leaves(a) == 0 then s - {id} else s[id := a], [Er(Describe(id, Filled, price, q, Leaves(a), a))])
  }

  /** A prevented match: cut to nothing the order is closed, else its quantity is restated. */
  function ApplyCut(s: Accounts, id: string, off: nat, left: nat): (Accounts, seq<Output>) {
    if id !in s then (s, [])
    else if left == 0 then (s - {id}, [Er(Describe(id, Cancelled, 0, 0, 0, s[id]))])
    else
      var a := s[id].(orderQty := if off <= s[id].orderQty then s[id].orderQty - off else 0);
      (s[id := a], [Er(Describe(id, Restated, 0, 0, Leaves(a), a))])
  }

  /** One event with the number of the last trade before it. */
  function ApplyEvent(s: Accounts, e: Event, number: nat): (Accounts, seq<Output>) {
    match e
    case Traded(buy, sell, price, q, buyer) =>
      var (s1, first) := ApplyFill(s, buy, price, q);
      var (s2, second) := ApplyFill(s1, sell, price, q);
      (s2, first + second + [Trade(number + 1, price, q, buyer)])
    case Cut(id, _, off, left) => ApplyCut(s, id, off, left)
  }

  function Numbers(e: Event): nat {
    if e.Traded? then 1 else 0
  }

  /** The events in the order the book changed. */
  function ApplyAll(s: Accounts, es: seq<Event>, number: nat): (Accounts, seq<Output>)
    decreases |es|
  {
    if es == [] then (s, [])
    else
      var (next, out) := ApplyEvent(s, es[0], number);
      var (last, more) := ApplyAll(next, es[1..], number + Numbers(es[0]));
      (last, out + more)
  }

  // ── The merge ──────────────────────────────────────────────────────────────

  /** A prevented match and how many prints happened before it. */
  datatype Prevented = Prevented(e: Event, before: nat)

  /** What the matcher hands over: prints and prevented matches in two lists. */
  function Prints(es: seq<Event>): seq<Event> {
    if es == [] then [] else (if es[0].Traded? then [es[0]] else []) + Prints(es[1..])
  }

  function Preventions(es: seq<Event>, prints: nat): seq<Prevented> {
    if es == [] then []
    else if es[0].Traded? then Preventions(es[1..], prints + 1)
    else [Prevented(es[0], prints)] + Preventions(es[1..], prints)
  }

  /** The order in which the reporting loop takes them: before print i every prevention marked up to i,
      after the last print the rest. */
  function Interleave(prints: seq<Event>, prevented: seq<Prevented>, i: nat): seq<Event>
    decreases |prints| + |prevented|
  {
    if prints == [] then if prevented == [] then [] else [prevented[0].e] + Interleave(prints, prevented[1..], i)
    else if prevented != [] && prevented[0].before <= i then [prevented[0].e] + Interleave(prints, prevented[1..], i)
    else [prints[0]] + Interleave(prints[1..], prevented, i + 1)
  }

  /** Nothing is marked before print n. */
  predicate MarkedFrom(prevented: seq<Prevented>, n: nat) {
    forall k :: 0 <= k < |prevented| ==> prevented[k].before >= n
  }

  lemma {:induction false} PreventionsMarked(es: seq<Event>, n: nat)
    ensures MarkedFrom(Preventions(es, n), n)
  {
    if es != [] {
      PreventionsMarked(es[1..], n + 1);
      PreventionsMarked(es[1..], n);
    }
  }

  /** Splitting what happened into prints and prevented matches and merging them again loses nothing and
      keeps the order: every prevention is taken once, between the prints it separates. */
  lemma {:induction false} MergeIsFaithful(es: seq<Event>, n: nat)
    ensures Interleave(Prints(es), Preventions(es, n), n) == es
    decreases |es|
  {
    if es != [] {
      if es[0].Traded? {
        MergeIsFaithful(es[1..], n + 1);
        PreventionsMarked(es[1..], n + 1);
        assert Prints(es)[1..] == Prints(es[1..]);
      } else {
        MergeIsFaithful(es[1..], n);
        assert Preventions(es, n)[1..] == Preventions(es[1..], n) && Prints(es) == Prints(es[1..]);
      }
    }
  }

  // ── Accounts follow the book ───────────────────────────────────────────────

  /** Every open account has something left and never more filled than ordered. */
  ghost predicate Open(s: Accounts) {
    forall id :: id in s ==> s[id].cumQty < s[id].orderQty
  }

  function LeavesOf(s: Accounts, id: string): nat {
    if id in s then Leaves(s[id]) else 0
  }

  ghost predicate Agree(s: Accounts, f: Holding) {
    forall id :: LeavesOf(s, id) == f(id)
  }

  lemma FillAgrees(s: Accounts, f: Holding, id: string, price: nat, q: nat)
    requires Open(s) && Agree(s, f) && 0 < q <= f(id)
    ensures var t := ApplyFill(s, id, price, q).0; Open(t) && Agree(t, Less(f, id, q))
  {
    assert LeavesOf(s, id) == f(id);
    var t := ApplyFill(s, id, price, q).0;
    forall x ensures LeavesOf(t, x) == Less(f, id, q)(x) { assert LeavesOf(s, x) == f(x); }
  }

  lemma CutAgrees(s: Accounts, f: Holding, id: string, off: nat, left: nat)
    requires Open(s) && Agree(s, f) && 0 < off <= f(id) && left == f(id) - off
    ensures var t := ApplyCut(s, id, off, left).0; Open(t) && Agree(t, Less(f, id, off))
  {
    assert LeavesOf(s, id) == f(id);
    var t := ApplyCut(s, id, off, left).0;
    forall x ensures LeavesOf(t, x) == Less(f, id, off)(x) { assert LeavesOf(s, x) == f(x); }
  }

  /** Accounts that agree with what is held agree with what the events leave. */
  lemma {:induction false} EventsAgree(s: Accounts, f: Holding, es: seq<Event>, number: nat)
    requires Open(s) && Agree(s, f) && Backed(f, es)
    ensures var t := ApplyAll(s, es, number).0; Open(t) && Agree(t, After(f, es))
    decreases |es|
  {
    if es != [] {
      match es[0] {
        case Traded(buy, sell, price, q, buyer) =>
          FillAgrees(s, f, buy, price, q);
          FillAgrees(ApplyFill(s, buy, price, q).0, Less(f, buy, q), sell, price, q);
          EventsAgree(ApplyEvent(s, es[0], number).0, Less(Less(f, buy, q), sell, q), es[1..], number + 1);
        case Cut(id, _, off, left) =>
          CutAgrees(s, f, id, off, left);
          EventsAgree(ApplyEvent(s, es[0], number).0, Less(f, id, off), es[1..], number);
      }
    }
  }

  // ── Nothing follows a terminal report ──────────────────────────────────────

  predicate Silent(out: seq<Output>, id: string) {
    forall k :: 0 <= k < |out| ==> out[k].Er? ==> out[k].r.id != id
  }

  predicate TerminalIsLast(out: seq<Output>) {
    forall i, j :: 0 <= i < j < |out| ==> out[i].Er? && Terminal(out[i].r) && out[j].Er? ==> out[j].r.id != out[i].r.id
  }

  /** A closed or unknown order is not reported on again. */
  lemma {:induction false} ClosedIsSilent(s: Accounts, es: seq<Event>, number: nat, id: string)
    requires id !in s
    ensures Silent(ApplyAll(s, es, number).1, id) && id !in ApplyAll(s, es, number).0
    decreases |es|
  {
    if es != [] {
      var (next, out) := ApplyEvent(s, es[0], number);
      assert Silent(out, id) && id !in next;
      ClosedIsSilent(next, es[1..], number + Numbers(es[0]), id);
    }
  }

  /** The order of a terminal report is closed. */
  predicate Ends(out: seq<Output>, s: Accounts) {
    forall i :: 0 <= i < |out| ==> out[i].Er? && Terminal(out[i].r) ==> out[i].r.id !in s
  }

  lemma EventCloses(s: Accounts, e: Event, number: nat)
    requires e.Traded? ==> e.buy != e.sell
    ensures var (t, out) := ApplyEvent(s, e, number); Ends(out, t) && TerminalIsLast(out)
  {
  }

  /** Reports that end in s, followed by reports that are silent on what s does not hold. */
  lemma TerminalConcat(out: seq<Output>, s: Accounts, more: seq<Output>)
    requires TerminalIsLast(out) && Ends(out, s) && TerminalIsLast(more)
    requires forall id :: id !in s ==> Silent(more, id)
    ensures TerminalIsLast(out + more)
  {
    var all := out + more;
    forall i, j | 0 <= i < j < |all| && all[i].Er? && Terminal(all[i].r) && all[j].Er?
      ensures all[j].r.id != all[i].r.id
    {
      if i < |out| <= j { assert Silent(more, out[i].r.id) && all[j] == more[j - |out|]; }
    }
  }

  /** Within an execution no report follows an order's terminal one, and its order stays closed. */
  lemma {:induction false} TerminalStaysLast(s: Accounts, f: Holding, es: seq<Event>, number: nat)
    requires Backed(f, es)
    ensures var (t, out) := ApplyAll(s, es, number); TerminalIsLast(out) && Ends(out, t)
    decreases |es|
  {
    if es != [] {
      var (next, out) := ApplyEvent(s, es[0], number);
      var n := number + Numbers(es[0]);
      var (t, more) := ApplyAll(next, es[1..], n);
      match es[0] {
        case Traded(buy, sell, _, q, _) => TerminalStaysLast(next, Less(Less(f, buy, q), sell, q), es[1..], n);
        case Cut(id, _, off, _) => TerminalStaysLast(next, Less(f, id, off), es[1..], n);
      }
      EventCloses(s, es[0], number);
      forall id | id !in next ensures Silent(more, id) && id !in t { ClosedIsSilent(next, es[1..], n, id); }
      TerminalConcat(out, next, more);
      EndsConcat(out, more, next, t);
    }
  }

  lemma EndsConcat(out: seq<Output>, more: seq<Output>, s: Accounts, t: Accounts)
    requires Ends(out, s) && Ends(more, t) && forall id :: id !in s ==> id !in t
    ensures Ends(out + more, t)
  {
  }

  // ── Trades ─────────────────────────────────────────────────────────────────

  function Trades(out: seq<Output>): seq<Output> {
    if out == [] then [] else (if out[0].Trade? then [out[0]] else []) + Trades(out[1..])
  }

  function PrintCount(es: seq<Event>): nat {
    if es == [] then 0 else Numbers(es[0]) + PrintCount(es[1..])
  }

  function NumberedPrints(prints: seq<Event>, number: nat): seq<Output> {
    if prints == [] then []
    else if prints[0].Traded? then
      [Trade(number + 1, prints[0].price, prints[0].qty, prints[0].buyer)] + NumberedPrints(prints[1..], number + 1)
    else NumberedPrints(prints[1..], number)
  }

  lemma {:induction false} TradesConcat(a: seq<Output>, b: seq<Output>)
    ensures Trades(a + b) == Trades(a) + Trades(b)
  {
    if a == [] {
      assert a + b == b;
    } else {
      var first := Trades([a[0]]);
      assert [a[0]][1..] == [] && (a + b)[1..] == a[1..] + b;
      TradesConcat(a[1..], b);
      assert first + (Trades(a[1..]) + Trades(b)) == (first + Trades(a[1..])) + Trades(b);
    }
  }

  lemma {:induction false} OnlyReports(out: seq<Output>)
    requires forall k :: 0 <= k < |out| ==> out[k].Er?
    ensures Trades(out) == []
  {
    if out != [] { OnlyReports(out[1..]); }
  }

  lemma EventTrades(s: Accounts, e: Event, number: nat)
    ensures Publishes(ApplyEvent(s, e, number).1, [e], number)
  {
    assert [e][1..] == [];
    var out := ApplyEvent(s, e, number).1;
    if e.Traded? {
      var reports := out[..|out| - 1];
      assert out == reports + [out[|out| - 1]];
      OnlyReports(reports);
      TradesConcat(reports, [out[|out| - 1]]);
      assert [out[|out| - 1]][1..] == [];
    } else {
      OnlyReports(out);
    }
  }

  lemma {:induction false} NumberedConcat(a: seq<Event>, b: seq<Event>, number: nat)
    ensures NumberedPrints(a + b, number) == NumberedPrints(a, number) + NumberedPrints(b, number + PrintCount(a))
    decreases |a|
  {
    if a == [] {
      assert a + b == b;
    } else {
      var n := number + Numbers(a[0]);
      var first := NumberedPrints([a[0]], number);
      assert [a[0]][1..] == [] && (a + b)[1..] == a[1..] + b;
      NumberedConcat(a[1..], b, n);
      assert first + (NumberedPrints(a[1..], n) + NumberedPrints(b, n + PrintCount(a[1..])))
          == first + NumberedPrints(a[1..], n) + NumberedPrints(b, n + PrintCount(a[1..]));
    }
  }

  /** The trades among the outputs are the prints among the events, numbered after n. */
  predicate Publishes(out: seq<Output>, es: seq<Event>, n: nat) {
    Trades(out) == NumberedPrints(es, n)
  }

  lemma {:induction false} TradesJoin(out: seq<Output>, more: seq<Output>, es: seq<Event>, fs: seq<Event>, n: nat,
                                      next: nat)
    requires Publishes(out, es, n) && next == n + PrintCount(es) && Publishes(more, fs, next)
    ensures Publishes(out + more, es + fs, n)
  {
    TradesConcat(out, more);
    NumberedConcat(es, fs, n);
  }

  lemma {:induction false} TradesAmid(a: seq<Output>, out: seq<Output>, b: seq<Output>)
    requires (forall k :: 0 <= k < |a| ==> a[k].Er?) && (forall k :: 0 <= k < |b| ==> b[k].Er?)
    ensures Trades(a + out + b) == Trades(out)
  {
    OnlyReports(a);
    OnlyReports(b);
    TradesConcat(a, out);
    TradesConcat(a + out, b);
    assert [] + Trades(out) == Trades(out) && Trades(out) + [] == Trades(out);
  }

  /** Every print yields exactly one trade, in order, with consecutive numbers. */
  lemma {:induction false} TradesAreThePrints(s: Accounts, es: seq<Event>, number: nat)
    ensures Publishes(ApplyAll(s, es, number).1, es, number)
    decreases |es|
  {
    if es != [] {
      var n := number + Numbers(es[0]);
      var (next, out) := ApplyEvent(s, es[0], number);
      EventTrades(s, es[0], number);
      TradesAreThePrints(next, es[1..], n);
      assert es == [es[0]] + es[1..] && [es[0]][1..] == [] && PrintCount([es[0]]) == Numbers(es[0]);
      TradesJoin(out, ApplyAll(next, es[1..], n).1, [es[0]], es[1..], number, n);
    }
  }

  /** One trade for each print, in the order of the prints, numbered without a gap. */
  predicate NumberedFrom(trades: seq<Output>, prints: seq<Event>, number: nat) {
    |trades| == |prints|
    && forall k :: 0 <= k < |prints| ==>
         prints[k].Traded? && trades[k] == Trade(number + k + 1, prints[k].price, prints[k].qty, prints[k].buyer)
  }

  lemma {:induction false} NumbersFollow(es: seq<Event>, number: nat)
    ensures NumberedFrom(NumberedPrints(es, number), Prints(es), number)
    decreases |es|
  {
    if es != [] {
      NumbersFollow(es[1..], number + Numbers(es[0]));
      if es[0].Traded? { NumberedCons(es[0], NumberedPrints(es[1..], number + 1), Prints(es[1..]), number); }
    }
  }

  lemma NumberedCons(e: Event, trades: seq<Output>, prints: seq<Event>, number: nat)
    requires e.Traded? && NumberedFrom(trades, prints, number + 1)
    ensures NumberedFrom([Trade(number + 1, e.price, e.qty, e.buyer)] + trades, [e] + prints, number)
  {
  }

  // ── Average price ──────────────────────────────────────────────────────────

  predicate Within(a: Account, lo: nat, hi: nat) {
    lo * a.cumQty <= a.notional <= hi * a.cumQty
  }

  lemma AvgWithin(a: Account, lo: nat, hi: nat)
    requires Within(a, lo, hi) && a.cumQty > 0
    ensures lo <= AvgPx(a) <= hi
  {
    QuotientWithin(a.notional, a.cumQty, lo, hi);
  }

  lemma QuotientWithin(n: nat, d: nat, lo: nat, hi: nat)
    requires d > 0 && lo * d <= n <= hi * d
    ensures lo <= n / d <= hi
  {
    Quotient(n, d);
    Steps(n / d, lo, d);
    Steps(hi, n / d, d);
  }

  lemma FillWithin(a: Account, price: nat, q: nat, lo: nat, hi: nat)
    requires Within(a, lo, hi) && lo <= price <= hi
    ensures Within(Filling(a, price, q), lo, hi)
  {
    assert lo * q <= price * q <= hi * q;
    assert lo * (a.cumQty + q) == lo * a.cumQty + lo * q && hi * (a.cumQty + q) == hi * a.cumQty + hi * q;
  }

  /** Every print of the order is priced within [lo, hi]. */
  predicate PricedWithin(es: seq<Event>, id: string, lo: nat, hi: nat) {
    forall k :: 0 <= k < |es| ==> es[k].Traded? && (es[k].buy == id || es[k].sell == id) ==> lo <= es[k].price <= hi
  }

  predicate ReportedWithin(out: seq<Output>, id: string, lo: nat, hi: nat) {
    forall k :: 0 <= k < |out| ==> out[k].Er? && out[k].r.id == id && out[k].r.cumQty > 0 ==> lo <= out[k].r.avgPx <= hi
  }

  lemma FillReported(s: Accounts, id: string, x: string, price: nat, q: nat, lo: nat, hi: nat)
    requires Averaged(s, id, lo, hi) && (x == id ==> lo <= price <= hi)
    ensures var (t, out) := ApplyFill(s, x, price, q); Averaged(t, id, lo, hi) && ReportedWithin(out, id, lo, hi)
  {
    if x == id && id in s {
      FillWithin(s[id], price, q, lo, hi);
      if s[id].cumQty + q > 0 { AvgWithin(Filling(s[id], price, q), lo, hi); }
    }
  }

  lemma ReportedConcat(a: seq<Output>, b: seq<Output>, id: string, lo: nat, hi: nat)
    requires ReportedWithin(a, id, lo, hi) && ReportedWithin(b, id, lo, hi)
    ensures ReportedWithin(a + b, id, lo, hi)
  {
  }

  /** An order's account, if it has one, averages within [lo, hi]. */
  predicate Averaged(s: Accounts, id: string, lo: nat, hi: nat) {
    id in s ==> Within(s[id], lo, hi)
  }

  lemma EventReported(s: Accounts, e: Event, number: nat, id: string, lo: nat, hi: nat)
    requires Averaged(s, id, lo, hi) && PricedWithin([e], id, lo, hi)
    ensures var (t, out) := ApplyEvent(s, e, number); Averaged(t, id, lo, hi) && ReportedWithin(out, id, lo, hi)
  {
    assert [e][0] == e;
    match e {
      case Traded(buy, sell, price, q, buyer) =>
        var (s1, first) := ApplyFill(s, buy, price, q);
        FillReported(s, id, buy, price, q, lo, hi);
        FillReported(s1, id, sell, price, q, lo, hi);
        var second := ApplyFill(s1, sell, price, q).1;
        ReportedConcat(first, second, id, lo, hi);
        ReportedConcat(first + second, [Trade(number + 1, price, q, buyer)], id, lo, hi);
      case Cut(x, _, off, left) =>
        if x == id && id in s && s[id].cumQty > 0 { AvgWithin(s[id], lo, hi); }
    }
  }

  /** An order's reported average price lies between the lowest and the highest price it traded at. */
  lemma {:induction false} AveragesWithin(s: Accounts, es: seq<Event>, number: nat, id: string, lo: nat, hi: nat)
    requires Averaged(s, id, lo, hi) && PricedWithin(es, id, lo, hi)
    ensures var (t, out) := ApplyAll(s, es, number); Averaged(t, id, lo, hi) && ReportedWithin(out, id, lo, hi)
    decreases |es|
  {
    if es != [] {
      var (next, out) := ApplyEvent(s, es[0], number);
      EventReported(s, es[0], number, id, lo, hi);
      AveragesWithin(next, es[1..], number + Numbers(es[0]), id, lo, hi);
      ReportedConcat(out, ApplyAll(next, es[1..], number + Numbers(es[0])).1, id, lo, hi);
    }
  }
}
