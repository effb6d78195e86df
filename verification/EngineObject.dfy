/** The matching engine as the source runs it: the book, the accounts and the trade counter are fields
    changed step by step; matching hands over prints and prevented matches in two lists, which the
    reporting loop merges. */
module EngineObject {
  import opened OrderBook
  import opened Accounting
  import opened Engine

  // ── The two lists ──────────────────────────────────────────────────────────

  lemma {:induction false} PrintsConcat(a: seq<Event>, b: seq<Event>)
    ensures Prints(a + b) == Prints(a) + Prints(b)
  {
    if a == [] {
      assert a + b == b;
    } else {
      var first := if a[0].Traded? then [a[0]] else [];
      assert (a + b)[1..] == a[1..] + b;
      PrintsConcat(a[1..], b);
      assert first + (Prints(a[1..]) + Prints(b)) == (first + Prints(a[1..])) + Prints(b);
    }
  }

  lemma {:induction false} PreventionsConcat(a: seq<Event>, b: seq<Event>, n: nat)
    ensures Preventions(a + b, n) == Preventions(a, n) + Preventions(b, n + |Prints(a)|)
    decreases |a|
  {
    if a == [] {
      assert a + b == b;
    } else {
      assert (a + b)[1..] == a[1..] + b;
      PreventionsConcat(a[1..], b, if a[0].Traded? then n + 1 else n);
    }
  }

  lemma {:induction false} PrintsTraded(es: seq<Event>)
    ensures forall k :: 0 <= k < |Prints(es)| ==> Prints(es)[k].Traded?
    ensures |Prints(es)| == PrintCount(es)
  {
    if es != [] { PrintsTraded(es[1..]); }
  }

  /** The two lists hold what has happened so far. */
  predicate Lists(done: seq<Event>, prints: seq<Event>, prevented: seq<Prevented>) {
    prints == Prints(done) && prevented == Preventions(done, 0)
  }

  lemma ListsTrade(done: seq<Event>, prints: seq<Event>, prevented: seq<Prevented>, e: Event)
    requires Lists(done, prints, prevented) && e.Traded?
    ensures Lists(done + [e], prints + [e], prevented)
  {
    PrintsConcat(done, [e]);
    PreventionsConcat(done, [e], 0);
    assert [e][1..] == [] && Prints([e]) == [e];
  }

  lemma ListsCut(done: seq<Event>, prints: seq<Event>, prevented: seq<Prevented>, e: Event)
    requires Lists(done, prints, prevented) && e.Cut?
    ensures Lists(done + [e], prints, prevented + [Prevented(e, |prints|)])
  {
    PrintsConcat(done, [e]);
    PreventionsConcat(done, [e], 0);
    assert [e][1..] == [];
  }

  lemma {:induction false} PreventionsCut(es: seq<Event>, n: nat)
    ensures forall k :: 0 <= k < |Preventions(es, n)| ==> Preventions(es, n)[k].e.Cut?
    decreases |es|
  {
    if es != [] { PreventionsCut(es[1..], if es[0].Traded? then n + 1 else n); }
  }

  /** The two lists of an execution are what the reporting loop needs, and it takes them in the order in
      which the book changed. */
  lemma ListsReported(es: seq<Event>, prints: seq<Event>, prevented: seq<Prevented>)
    requires Lists(es, prints, prevented)
    ensures forall k :: 0 <= k < |prints| ==> prints[k].Traded?
    ensures forall k :: 0 <= k < |prevented| ==> prevented[k].e.Cut?
    ensures Interleave(prints, prevented, 0) == es && |prints| == PrintCount(es)
  {
    PrintsTraded(es);
    PreventionsCut(es, 0);
    MergeIsFaithful(es, 0);
  }

  method LeftOf(mode: Mode, newer: nat, older: nat) returns (newLeft: nat, oldLeft: nat)
    ensures (newLeft, oldLeft) == Left(mode, newer, older) && newLeft <= newer && oldLeft <= older
  {
    match mode {
      case CancelNewest => newLeft, oldLeft := 0, older;
      case CancelOldest => newLeft, oldLeft := newer, 0;
      case CancelBoth => newLeft, oldLeft := 0, 0;
      case _ =>
        var q := Min(newer, older);
        newLeft, oldLeft := newer - q, older - q;
    }
  }

  /** What an order is cut by, and its entry in the list of prevented matches. */
  method Reduce(o: Order, opposing: string, left: nat, prints: seq<Event>, prevented: seq<Prevented>,
        ghost done: seq<Event>)
    returns (r: Order, now: seq<Prevented>)
    requires left <= o.qty && o.visible <= o.qty && Lists(done, prints, prevented)
    ensures r == Reduced(o, left) && Lists(done + CutEvents(o, opposing, left), prints, now)
  {
    r, now := o, prevented;
    assert done + [] == done;
    if o.qty > left {
      r := o.(qty := left, visible := Min(o.visible, left));
      now := prevented + [Prevented(Cut(o.id, opposing, o.qty - left, left), |prints|)];
      ListsCut(done, prints, prevented, Cut(o.id, opposing, o.qty - left, left));
    }
  }

  // ── Queue positions ────────────────────────────────────────────────────────

  lemma {:induction false} InsertAt(os: seq<Order>, o: Order, i: nat)
    requires i <= |os| && (forall j :: 0 <= j < i ==> !Better(o.side, o.price, os[j].price))
    requires i < |os| ==> Better(o.side, o.price, os[i].price)
    ensures Insert(os, o) == os[..i] + [o] + os[i..]
    decreases i
  {
    if i > 0 {
      InsertAt(os[1..], o, i - 1);
      assert os[1..][..i - 1] == os[1..i] && os[1..][i - 1..] == os[i..] && os[..i] == [os[0]] + os[1..i];
    } else {
      assert [o] + os == os[..0] + [o] + os[0..];
    }
  }

  /** Behind the last order of its price or better. */
  method InsertBehind(os: seq<Order>, o: Order) returns (r: seq<Order>)
    ensures r == Insert(os, o)
  {
    var i := 0;
    while i < |os| && !Better(o.side, o.price, os[i].price)
      invariant i <= |os| && forall j :: 0 <= j < i ==> !Better(o.side, o.price, os[j].price)
    {
      i := i + 1;
    }
    InsertAt(os, o, i);
    r := os[..i] + [o] + os[i..];
  }

  /** A used-up slice is replaced from the reserve, with a new arrival number. */
  method Refresh(o: Order, seen: nat) returns (r: Order, now: nat, back: bool)
    ensures r == Replenish(o, seen) && now == Arrivals(o, seen) && back == Exhausted(o)
  {
    r, now, back := o, seen, false;
    if o.qty > 0 && o.display > 0 && o.visible == 0 {
      now, back := seen + 1, true;
      r := o.(visible := Min(o.qty, o.display), arrival := now);
    }
  }

  method PutBack(os: seq<Order>, o: Order, back: bool) returns (r: seq<Order>)
    ensures r == Requeue(os, o, back)
  {
    if o.qty == 0 {
      r := os;
    } else if back {
      r := InsertBehind(os, o);
    } else {
      r := [o] + os;
    }
  }

  // ── Reporting ──────────────────────────────────────────────────────────────

  /** Taking the events rest from s after number leads where taking all from s0 after n0 does. */
  predicate Pending(s0: Accounts, n0: nat, all: seq<Event>, s: Accounts, n: nat, rest: seq<Event>, out: seq<Output>) {
    var (t, more) := ApplyAll(s, rest, n);
    ApplyAll(s0, all, n0) == (t, out + more)
  }

  lemma PendingStep(s0: Accounts, n0: nat, all: seq<Event>, s: Accounts, n: nat, rest: seq<Event>, out: seq<Output>)
    requires rest != [] && Pending(s0, n0, all, s, n, rest, out)
    ensures var (t, more) := ApplyEvent(s, rest[0], n);
            Pending(s0, n0, all, t, n + Numbers(rest[0]), rest[1..], out + more)
  {
    var (t, first) := ApplyEvent(s, rest[0], n);
    var later := ApplyAll(t, rest[1..], n + Numbers(rest[0])).1;
    assert out + (first + later) == out + first + later;
  }

  /** The reporting loop has taken i prints and j prevented matches. */
  predicate Reached(s0: Accounts, n0: nat, prints: seq<Event>, prevented: seq<Prevented>, s: Accounts, n: nat, i: nat,
        j: nat, out: seq<Output>) {
    i <= |prints| && j <= |prevented| && n == n0 + i
    && Pending(s0, n0, Interleave(prints, prevented, 0), s, n, Interleave(prints[i..], prevented[j..], i), out)
  }

  lemma CutStep(s0: Accounts, n0: nat, prints: seq<Event>, prevented: seq<Prevented>, s: Accounts, n: nat, i: nat,
        j: nat, out: seq<Output>)
    requires Reached(s0, n0, prints, prevented, s, n, i, j, out)
    requires j < |prevented| && prevented[j].e.Cut? && (i < |prints| ==> prevented[j].before <= i)
    ensures var e := prevented[j].e;
            var (t, more) := ApplyCut(s, e.id, e.off, e.left);
            Reached(s0, n0, prints, prevented, t, n, i, j + 1, out + more)
  {
    PendingStep(s0, n0, Interleave(prints, prevented, 0), s, n, Interleave(prints[i..], prevented[j..], i), out);
    assert prevented[j..][1..] == prevented[j + 1..];
  }

  lemma TradeStep(s0: Accounts, n0: nat, prints: seq<Event>, prevented: seq<Prevented>, s: Accounts, n: nat, i: nat,
        j: nat, out: seq<Output>)
    requires Reached(s0, n0, prints, prevented, s, n, i, j, out)
    requires i < |prints| && prints[i].Traded? && (j < |prevented| ==> prevented[j].before > i)
    ensures var f := prints[i];
            var (t, bought) := ApplyFill(s, f.buy, f.price, f.qty);
            var (u, sold) := ApplyFill(t, f.sell, f.price, f.qty);
            Reached(s0, n0, prints, prevented, u, n + 1, i + 1, j,
                    out + bought + sold + [Output.Trade(n + 1, f.price, f.qty, f.buyer)])
  {
    var f := prints[i];
    PendingStep(s0, n0, Interleave(prints, prevented, 0), s, n, Interleave(prints[i..], prevented[j..], i), out);
    assert prints[i..][1..] == prints[i + 1..];
    var (t, bought) := ApplyFill(s, f.buy, f.price, f.qty);
    var sold := ApplyFill(t, f.sell, f.price, f.qty).1;
    assert out + (bought + sold + [Output.Trade(n + 1, f.price, f.qty, f.buyer)])
        == out + bought + sold + [Output.Trade(n + 1, f.price, f.qty, f.buyer)];
  }

  lemma ReachedEnds(s0: Accounts, n0: nat, prints: seq<Event>, prevented: seq<Prevented>, s: Accounts, n: nat,
        out: seq<Output>)
    ensures Reached(s0, n0, prints, prevented, s0, n0, 0, 0, [])
    ensures Reached(s0, n0, prints, prevented, s, n, |prints|, |prevented|, out)
            ==> n == n0 + |prints| && ApplyAll(s0, Interleave(prints, prevented, 0), n0) == (s, out)
  {
    var all := Interleave(prints, prevented, 0);
    assert prints[0..] == prints && prevented[0..] == prevented && prints[|prints|..] == []
      && prevented[|prevented|..] == [];
    assert out + [] == out && [] + ApplyAll(s0, all, n0).1 == ApplyAll(s0, all, n0).1;
  }

  // ── Passive matching ───────────────────────────────────────────────────────

  /** Crossing b after done leads where crossing b0 does. */
  predicate Toward(b0: Book, b: Book, done: seq<Event>, aggressor: string)
    requires Valid(b0)
  {
    Valid(b) && Match(b0, aggressor) == (Match(b, aggressor).0, done + Match(b, aggressor).1)
  }

  lemma TowardStep(b0: Book, b: Book, done: seq<Event>, aggressor: string)
    requires Valid(b0) && Crossed(b) && Toward(b0, b, done, aggressor)
    ensures var (next, es) := Meet(b, aggressor);
            Toward(b0, next, done + es, aggressor)
            && Total(next.bids) + Total(next.asks) < Total(b.bids) + Total(b.asks)
  {
    MeetShrinks(b, aggressor);
    var (next, es) := Meet(b, aggressor);
    var more := Match(next, aggressor).1;
    assert done + (es + more) == (done + es) + more;
  }

  lemma TowardEnds(b0: Book, b: Book, done: seq<Event>, aggressor: string)
    requires Valid(b0)
    ensures Toward(b0, b0, [], aggressor)
    ensures !Crossed(b) && Toward(b0, b, done, aggressor) ==> Match(b0, aggressor) == (b, done)
  {
    assert [] + Match(b0, aggressor).1 == Match(b0, aggressor).1 && done + [] == done;
  }

  // ── Aggressive orders ──────────────────────────────────────────────────────

  /** The aggressor meets an order of its own scope. */
  method AvoidBest(a: Order, left: nat, opp: seq<Order>, seen: nat, prints: seq<Event>, prevented: seq<Prevented>,
        ghost done: seq<Event>)
    returns (rest: nat, stopped: bool, after: seq<Order>, now: seq<Prevented>, ghost es: seq<Event>)
    requires left > 0 && opp != [] && AllSane(opp, Opposite(a.side)) && SelfMatch(a, opp[0])
    requires Lists(done, prints, prevented)
    ensures Hit(a, Sweep(left, false, opp, seen, done)) == Sweep(rest, stopped, after, seen, es)
    ensures Lists(es, prints, now)
  {
    var top := opp[0];
    var topLeft, cut, gone;
    rest, topLeft := LeftOf(a.mode, left, top.qty);
    cut, now := Reduce(top, a.id, topLeft, prints, prevented, done);
    es := done + CutEvents(top, a.id, topLeft);
    gone, now := Reduce(a.(qty := left, visible := left), top.id, rest, prints, now, es);
    es := es + CutEvents(a.(qty := left), top.id, rest);
    stopped := rest == 0;
    after := PutBack(opp[1..], cut, false);
  }

  /** The aggressor takes from the best order's shown slice. */
  method TakeBest(a: Order, left: nat, opp: seq<Order>, seen: nat, prints: seq<Event>, prevented: seq<Prevented>,
        ghost done: seq<Event>)
    returns (rest: nat, after: seq<Order>, nowSeen: nat, now: seq<Event>, ghost es: seq<Event>)
    requires left > 0 && opp != [] && AllSane(opp, Opposite(a.side)) && !SelfMatch(a, opp[0])
    requires Lists(done, prints, prevented)
    ensures Hit(a, Sweep(left, false, opp, seen, done)) == Sweep(rest, false, after, nowSeen, es)
    ensures Lists(es, now, prevented)
  {
    var top := opp[0];
    var q := Min(top.visible, left);
    var e := if a.side.Buy? then Traded(a.id, top.id, top.price, q, true)
      else Traded(top.id, a.id, top.price, q, false);
    top := top.(qty := top.qty - q, visible := top.visible - q);
    rest := left - q;
    ListsTrade(done, prints, prevented, e);
    now, es := prints + [e], done + [e];
    var back;
    top, nowSeen, back := Refresh(top, seen);
    after := PutBack(opp[1..], top, back);
  }

  /** Where the price level starting at i ends. */
  method LevelEnd(os: seq<Order>, i: nat) returns (j: nat)
    requires i < |os|
    ensures i < j <= |os| && j - i == Level(os[i..], os[i].price)
  {
    LevelSize(os[i..], os[i].price);
    j := i;
    while j < |os| && os[j].price == os[i].price
      invariant i <= j <= |os| && Level(os[i..], os[i].price) == j - i + Level(os[j..], os[i].price)
    {
      assert os[j..][1..] == os[j + 1..];
      j := j + 1;
    }
  }

  lemma LevelTaken(a: Order, os: seq<Order>, i: nat, j: nat, want: nat)
    requires i < j <= |os| && j - i == Level(os[i..], os[i].price) && want > 0
    requires Reaches(a.side, true, a.price, os[i].price)
    ensures var (c, left) := CoverLevel(a, os[i..j], AnyOwn(a, os[i..j]), want);
            Covers(a, os[i..], want) == if c.Short? then Covers(a, os[j..], left) else c
  {
    assert os[i..][..j - i] == os[i..j] && os[i..][j - i..] == os[j..];
  }

  /** Whether the quantity within the limit covers a fill-or-kill order, looking at whole price levels. */
  method CoverScan(a: Order, os: seq<Order>, want: nat) returns (c: Cover)
    ensures c == Covers(a, os, want)
  {
    var available: nat, i: nat := 0, 0;
    assert os[0..] == os;
    while available < want && i < |os| && Reaches(a.side, true, a.price, os[i].price)
      invariant i <= |os| && Covers(a, os, want) == Covers(a, os[i..], Missing(want, available))
      decreases |os| - i
    {
      var j := LevelEnd(os, i);
      LevelTaken(a, os, i, j, want - available);
      available, c := LevelScan(a, os[i..j], want, available);
      if c.Own? { return; }
      i := j;
    }
    c := if available < want then Short else Covered;
  }

  function Missing(want: nat, available: nat): nat {
    if available < want then want - available else 0
  }

  method LevelScan(a: Order, level: seq<Order>, want: nat, available: nat) returns (now: nat, c: Cover)
    requires available < want
    ensures CoverLevel(a, level, AnyOwn(a, level), want - available)
         == (if c.Own? then (c, Missing(want, now)) else if now < want then (Short, want - now) else (Covered, 0))
  {
    var own := AnyOwn(a, level);
    now, c := available, Short;
    var k := 0;
    while k < |level|
      invariant k <= |level| && c.Short?
      invariant CoverLevel(a, level, own, want - available) == CoverLevel(a, level[k..], own, Missing(want, now))
    {
      assert level[k..][1..] == level[k + 1..];
      if now >= want { return; }
      if SelfMatch(a, level[k]) { return now, Own(level[k].id); }
      now := now + if own then level[k].visible else level[k].qty;
      k := k + 1;
    }
  }

  lemma {:induction false} WithoutConcat(a: seq<Order>, b: seq<Order>, id: string)
    ensures Without(a + b, id) == Without(a, id) + Without(b, id)
  {
    if a == [] {
      assert a + b == b;
    } else {
      assert (a + b)[1..] == a[1..] + b;
      WithoutConcat(a[1..], b, id);
    }
  }

  method Retain(os: seq<Order>, id: string) returns (r: seq<Order>)
    ensures r == Without(os, id)
  {
    r := [];
    var i := 0;
    while i < |os|
      invariant i <= |os| && r == Without(os[..i], id)
    {
      assert os[..i + 1] == os[..i] + [os[i]] && [os[i]][1..] == [];
      WithoutConcat(os[..i], [os[i]], id);
      if os[i].id != id { r := r + [os[i]]; }
      i := i + 1;
    }
    assert os[..i] == os;
  }

  // ── The engine ─────────────────────────────────────────────────────────────

  class Core {
    var bids: seq<Order>
    var asks: seq<Order>
    var arrivals: nat
    var accounts: Accounts
    var number: nat

    function Books(): Book
      reads this
    {
      Book(bids, asks, arrivals)
    }

    function View(): Desk
      reads this
    {
      Desk(Books(), accounts, number)
    }

    constructor ()
      ensures View() == Empty()
    {
      bids, asks, arrivals, accounts, number := [], [], 0, map[], 0;
    }

    /** The best bid and the best ask are of one scope: the newer order's mode decides. */
    method PreventBest(buyer: bool, prints: seq<Event>, prevented: seq<Prevented>, ghost done: seq<Event>)
      returns (now: seq<Prevented>)
      requires Valid(Books()) && Crossed(Books()) && Lists(done, prints, prevented)
      modifies this`bids, this`asks
      ensures var (b, es) := Prevent(old(Books()), buyer); Books() == b && Lists(done + es, prints, now)
    {
      var newer, older := if buyer then bids[0] else asks[0], if buyer then asks[0] else bids[0];
      var newLeft, oldLeft := LeftOf(newer.mode, newer.qty, older.qty);
      var first, second;
      first, now := Reduce(older, newer.id, oldLeft, prints, prevented, done);
      ghost var half := done + CutEvents(older, newer.id, oldLeft);
      second, now := Reduce(newer, older.id, newLeft, prints, now, half);
      assert half + CutEvents(newer, older.id, newLeft)
          == done + (CutEvents(older, newer.id, oldLeft) + CutEvents(newer, older.id, newLeft));
      bids := PutBack(bids[1..], if buyer then second else first, false);
      asks := PutBack(asks[1..], if buyer then first else second, false);
    }

    /** The best bid trades with the best ask, at the older order's price. */
    method TradeBest(buyer: bool, prints: seq<Event>, prevented: seq<Prevented>, ghost done: seq<Event>)
      returns (now: seq<Event>)
      requires Valid(Books()) && Crossed(Books()) && Lists(done, prints, prevented)
      modifies this`bids, this`asks, this`arrivals
      ensures var (b, es) := OrderBook.Trade(old(Books()), buyer); Books() == b && Lists(done + es, now, prevented)
    {
      var bid, ask := bids[0], asks[0];
      var q := Min(bid.visible, ask.visible);
      var e := Traded(bid.id, ask.id, if buyer then ask.price else bid.price, q, buyer);
      bid := bid.(qty := bid.qty - q, visible := bid.visible - q);
      ask := ask.(qty := ask.qty - q, visible := ask.visible - q);
      ListsTrade(done, prints, prevented, e);
      now := prints + [e];
      var bidBack, askBack;
      bid, arrivals, bidBack := Refresh(bid, arrivals);
      ask, arrivals, askBack := Refresh(ask, arrivals);
      bids := PutBack(bids[1..], bid, bidBack);
      asks := PutBack(asks[1..], ask, askBack);
    }

    method MeetBest(aggressor: string, prints: seq<Event>, prevented: seq<Prevented>, ghost done: seq<Event>)
      returns (nowPrints: seq<Event>, nowPrevented: seq<Prevented>, ghost now: seq<Event>)
      requires Valid(Books()) && Crossed(Books()) && Lists(done, prints, prevented)
      modifies this`bids, this`asks, this`arrivals
      ensures var (b, es) := Meet(old(Books()), aggressor);
              Books() == b && now == done + es && Lists(now, nowPrints, nowPrevented)
    {
      nowPrints, nowPrevented, now := prints, prevented, done + Meet(Books(), aggressor).1;
      var buyer := BidNewer(aggressor, bids[0], asks[0]);
      if SelfMatch(if buyer then bids[0] else asks[0], if buyer then asks[0] else bids[0]) {
        nowPrevented := PreventBest(buyer, prints, prevented, done);
      } else {
        nowPrints := TradeBest(buyer, prints, prevented, done);
      }
    }

    /** Cross the book after an order was added. */
    method MatchOrders(aggressor: string) returns (prints: seq<Event>, prevented: seq<Prevented>)
      requires Valid(Books())
      modifies this`bids, this`asks, this`arrivals
      ensures var (b, es) := Match(old(Books()), aggressor); Books() == b && Lists(es, prints, prevented)
    {
      prints, prevented := [], [];
      ghost var done: seq<Event> := [];
      TowardEnds(Books(), Books(), done, aggressor);
      while bids != [] && asks != [] && bids[0].price >= asks[0].price
        invariant Toward(old(Books()), Books(), done, aggressor) && Lists(done, prints, prevented)
        decreases Total(bids) + Total(asks)
      {
        TowardStep(old(Books()), Books(), done, aggressor);
        prints, prevented, done := MeetBest(aggressor, prints, prevented, done);
      }
      TowardEnds(old(Books()), Books(), done, aggressor);
    }

    /** Take from the best opposite order as long as it is within the limit. */
    method SweepBook(a: Order, limit: bool)
      returns (left: nat, stopped: bool, prints: seq<Event>, prevented: seq<Prevented>)
      requires Valid(Books())
      modifies this`bids, this`asks, this`arrivals
      ensures var w := Swept(old(Books()), a, limit);
              Books() == AfterSweep(old(Books()), a, w).book && left == w.left && stopped == w.stopped
              && Lists(w.events, prints, prevented)
    {
      left, stopped, prints, prevented := a.qty, false, [], [];
      var opp, seen := if a.side.Buy? then asks else bids, arrivals;
      ghost var done: seq<Event> := [];
      while left > 0 && !stopped && opp != [] && Reaches(a.side, limit, a.price, opp[0].price)
        invariant Books() == old(Books()) && AllSane(opp, Opposite(a.side)) && Lists(done, prints, prevented)
        invariant Swept(old(Books()), a, limit) == SweepAll(a, limit, Sweep(left, stopped, opp, seen, done))
        decreases left + Total(opp), !stopped
      {
        HitShrinks(a, Sweep(left, stopped, opp, seen, done));
        if SelfMatch(a, opp[0]) {
          left, stopped, opp, prevented, done := AvoidBest(a, left, opp, seen, prints, prevented, done);
        } else {
          left, opp, seen, prints, done := TakeBest(a, left, opp, seen, prints, prevented, done);
        }
      }
      assert Swept(old(Books()), a, limit) == Sweep(left, stopped, opp, seen, done);
      if a.side.Buy? { asks := opp; } else { bids := opp; }
      arrivals := seen;
    }

    method FillOne(id: string, price: nat, q: nat) returns (out: seq<Output>)
      modifies this`accounts
      ensures (accounts, out) == ApplyFill(old(accounts), id, price, q)
    {
      if id !in accounts { return []; }
      var a := accounts[id];
      a := Account(a.orderQty, a.cumQty + q, a.notional + price * q);
      if Leaves(a) == 0 { accounts := accounts - {id}; } else { accounts := accounts[id := a]; }
      out := [Er(Describe(id, Filled, price, q, Leaves(a), a))];
    }

    method CutOne(id: string, off: nat, left: nat) returns (out: seq<Output>)
      modifies this`accounts
      ensures (accounts, out) == ApplyCut(old(accounts), id, off, left)
    {
      if id !in accounts { return []; }
      var a := accounts[id];
      if left == 0 {
        accounts := accounts - {id};
        return [Er(Describe(id, Cancelled, 0, 0, 0, a))];
      }
      a := a.(orderQty := if off <= a.orderQty then a.orderQty - off else 0);
      accounts := accounts[id := a];
      out := [Er(Describe(id, Restated, 0, 0, Leaves(a), a))];
    }

    /** The prevented matches marked up to print i, or all that are left after the last print. */
    method ReportCuts(prints: seq<Event>, prevented: seq<Prevented>, i: nat, j: nat, out: seq<Output>,
          ghost s0: Accounts, ghost n0: nat)
      returns (next: nat, all: seq<Output>)
      requires forall k :: 0 <= k < |prevented| ==> prevented[k].e.Cut?
      requires Reached(s0, n0, prints, prevented, accounts, number, i, j, out)
      modifies this`accounts
      ensures Reached(s0, n0, prints, prevented, accounts, number, i, next, all)
      ensures next < |prevented| ==> i < |prints| && prevented[next].before > i
    {
      next, all := j, out;
      while next < |prevented| && (i == |prints| || prevented[next].before <= i)
        invariant Reached(s0, n0, prints, prevented, accounts, number, i, next, all)
        decreases |prevented| - next
      {
        CutStep(s0, n0, prints, prevented, accounts, number, i, next, all);
        var more := CutOne(prevented[next].e.id, prevented[next].e.off, prevented[next].e.left);
        all, next := all + more, next + 1;
      }
    }

    /** Walks the prints, taking before each the prevented matches marked up to it, then the rest. */
    method ReportExecution(prints: seq<Event>, prevented: seq<Prevented>) returns (out: seq<Output>)
      requires forall k :: 0 <= k < |prints| ==> prints[k].Traded?
      requires forall k :: 0 <= k < |prevented| ==> prevented[k].e.Cut?
      modifies this`accounts, this`number
      ensures (accounts, out) == ApplyAll(old(accounts), Interleave(prints, prevented, 0), old(number))
      ensures number == old(number) + |prints|
    {
      out := [];
      ghost var s0, n0 := accounts, number;
      ReachedEnds(s0, n0, prints, prevented, s0, n0, out);
      var i, j := 0, 0;
      while i < |prints|
        invariant Reached(s0, n0, prints, prevented, accounts, number, i, j, out)
      {
        j, out := ReportCuts(prints, prevented, i, j, out, s0, n0);
        TradeStep(s0, n0, prints, prevented, accounts, number, i, j, out);
        var f := prints[i];
        var bought := FillOne(f.buy, f.price, f.qty);
        var sold := FillOne(f.sell, f.price, f.qty);
        number := number + 1;
        out, i := out + bought + sold + [Output.Trade(number, f.price, f.qty, f.buyer)], i + 1;
      }
      j, out := ReportCuts(prints, prevented, i, j, out, s0, n0);
      ReachedEnds(s0, n0, prints, prevented, accounts, number, out);
    }

    /** The order joins its side at the back of its price. */
    method AddOrder(o: Order)
      requires Valid(Books()) && o.qty > 0
      modifies this`bids, this`asks, this`arrivals
      ensures Books() == Add(old(Books()), Entering(old(Books()), o)) && Valid(Books())
    {
      AddValid(Books(), o);
      arrivals := arrivals + 1;
      var entering := o.(visible := if o.display == 0 then o.qty else Min(o.display, o.qty), arrival := arrivals);
      if o.side.Buy? {
        bids := InsertBehind(bids, entering);
      } else {
        asks := InsertBehind(asks, entering);
      }
    }

    /** Runs an order against the book; the remainder of an order that does not rest is cancelled. */
    method ExecuteInto(o: Order, kind: Kind) returns (prints: seq<Event>, prevented: seq<Prevented>, cancelled: bool)
      requires Valid(Books()) && o.qty > 0
      modifies this`bids, this`asks, this`arrivals
      ensures var r := Execute(old(Books()), o, kind);
              Books() == r.book && Lists(r.events, prints, prevented) && cancelled == r.cancelled
    {
      prints, prevented, cancelled := [], [], false;
      if kind.Resting? {
        AddOrder(o);
        prints, prevented := MatchOrders(o.id);
        return;
      }
      if kind.FillOrKill? {
        var c := CoverScan(o, if o.side.Buy? then asks else bids, o.qty);
        if c.Own? {
          prevented := [Prevented(Cut(o.id, c.id, o.qty, 0), 0)];
          ListsCut([], [], [], Cut(o.id, c.id, o.qty, 0));
          return;
        }
        if c.Short? { return [], [], true; }
      }
      var left, stopped;
      left, stopped, prints, prevented := SweepBook(o, !kind.Market?);
      cancelled := !stopped && left > 0;
    }

    method CloseRemainder(id: string) returns (out: seq<Output>)
      modifies this`accounts
      ensures (accounts, out) == CloseRest(old(accounts), id)
    {
      if id !in accounts { return []; }
      out := [Er(Describe(id, Cancelled, 0, 0, 0, accounts[id]))];
      accounts := accounts - {id};
    }

    /** A new order: refused, or opened, executed and reported. */
    method SubmitOrder(o: Order, kind: Kind) returns (out: seq<Output>)
      requires Valid(Books())
      modifies this
      ensures (View(), out) == Process(old(View()), Submit(o, kind)) && Valid(Books())
    {
      ProcessValid(View(), Submit(o, kind));
      if o.qty == 0 || (o.price == 0 && !kind.Market?) || o.id in accounts { return Refusal(o.id); }
      out := if kind.Resting? then [Er(Describe(o.id, Acknowledged, 0, 0, o.qty, Account(o.qty, 0, 0)))] else [];
      ghost var es := Execute(Books(), o, kind).events;
      accounts := accounts[o.id := Account(o.qty, 0, 0)];
      var prints, prevented, cancelled := ExecuteInto(o, kind);
      ListsReported(es, prints, prevented);
      var reports := ReportExecution(prints, prevented);
      out := out + reports;
      if cancelled {
        var last := CloseRemainder(o.id);
        out := out + last;
      } else {
        assert out + [] == out;
      }
    }

    /** A cancel by the order's own sender. */
    method WithdrawOrder(id: string, sender: string) returns (out: seq<Output>)
      requires Valid(Books())
      modifies this
      ensures (View(), out) == Process(old(View()), Withdraw(id, sender)) && Valid(Books())
    {
      ProcessValid(View(), Withdraw(id, sender));
      if !OwnedBy(Books(), id, sender) { return Refusal(id); }
      bids := Retain(bids, id);
      asks := Retain(asks, id);
      out := CloseRemainder(id);
    }
  }
}
