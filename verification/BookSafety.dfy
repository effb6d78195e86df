/** What every entry and cancel keeps: both sides in price-time order, the book never left crossed, every id
    live at most once, and quantities that change exactly by the events reported. */
module BookSafety {
  import opened OrderBook

  // ── Price-time order ───────────────────────────────────────────────────────

  predicate NoBetter(side: Side, os: seq<Order>, price: nat) {
    os == [] || (!Better(side, os[0].price, price) && NoBetter(side, os[1..], price))
  }

  /** All of os come after an order of this price and arrival. */
  predicate Behind(side: Side, os: seq<Order>, price: nat, arrival: nat) {
    os == []
    || ((Better(side, price, os[0].price) || (price == os[0].price && arrival < os[0].arrival))
        && Behind(side, os[1..], price, arrival))
  }

  /** Best price first, then earliest arrival. */
  predicate Sorted(side: Side, os: seq<Order>) {
    os == [] || (Behind(side, os[1..], os[0].price, os[0].arrival) && Sorted(side, os[1..]))
  }

  /** No arrival later than n. */
  predicate Before(os: seq<Order>, n: nat) {
    os == [] || (os[0].arrival <= n && Before(os[1..], n))
  }

  lemma {:induction false} NoBetterInsert(os: seq<Order>, o: Order, price: nat)
    requires NoBetter(o.side, os, price) && !Better(o.side, o.price, price)
    ensures NoBetter(o.side, Insert(os, o), price)
  {
    if os == [] || Better(o.side, o.price, os[0].price) {
      assert ([o] + os)[1..] == os;
    } else {
      NoBetterInsert(os[1..], o, price);
      assert ([os[0]] + Insert(os[1..], o))[1..] == Insert(os[1..], o);
    }
  }

  lemma {:induction false} BehindNoBetter(side: Side, os: seq<Order>, price: nat, arrival: nat)
    requires Behind(side, os, price, arrival)
    ensures NoBetter(side, os, price)
  {
    if os != [] { BehindNoBetter(side, os[1..], price, arrival); }
  }

  lemma BestNoBetter(side: Side, os: seq<Order>)
    requires os != [] && Sorted(side, os)
    ensures NoBetter(side, os, os[0].price)
  {
    BehindNoBetter(side, os[1..], os[0].price, os[0].arrival);
  }

  lemma {:induction false} BehindBetter(side: Side, os: seq<Order>, price: nat, arrival: nat, better: nat, any: nat)
    requires Behind(side, os, price, arrival) && Better(side, better, price)
    ensures Behind(side, os, better, any)
  {
    if os != [] { BehindBetter(side, os[1..], price, arrival, better, any); }
  }

  lemma {:induction false} BehindInsert(os: seq<Order>, o: Order, price: nat, arrival: nat)
    requires Behind(o.side, os, price, arrival)
    requires Better(o.side, price, o.price) || (price == o.price && arrival < o.arrival)
    ensures Behind(o.side, Insert(os, o), price, arrival)
  {
    if os == [] || Better(o.side, o.price, os[0].price) {
      assert ([o] + os)[1..] == os;
    } else {
      BehindInsert(os[1..], o, price, arrival);
      assert ([os[0]] + Insert(os[1..], o))[1..] == Insert(os[1..], o);
    }
  }

  lemma {:induction false} SortedInsert(os: seq<Order>, o: Order, n: nat)
    requires Sorted(o.side, os) && Before(os, n) && n < o.arrival
    ensures Sorted(o.side, Insert(os, o)) && Before(Insert(os, o), o.arrival)
  {
    if os == [] || Better(o.side, o.price, os[0].price) {
      assert ([o] + os)[1..] == os;
      if os != [] { BehindBetter(o.side, os[1..], os[0].price, os[0].arrival, o.price, o.arrival); }
      Later(os, n, o.arrival);
    } else {
      SortedInsert(os[1..], o, n);
      BehindInsert(os[1..], o, os[0].price, os[0].arrival);
      assert ([os[0]] + Insert(os[1..], o))[1..] == Insert(os[1..], o);
    }
  }

  lemma {:induction false} Later(os: seq<Order>, n: nat, m: nat)
    requires Before(os, n) && n <= m
    ensures Before(os, m)
  {
    if os != [] { Later(os[1..], n, m); }
  }

  /** Putting the best order back, at the front or behind its equals with a new arrival, keeps the order
      and improves nothing. */
  lemma SortedRequeue(side: Side, os: seq<Order>, o: Order, back: bool, price: nat, n: nat)
    requires os != [] && Sorted(side, os) && o.side == side && o.price == os[0].price && NoBetter(side, os, price)
    requires Before(os, n) && if back then o.arrival == n + 1 else o.arrival == os[0].arrival
    ensures var r := Requeue(os[1..], o, back);
            Sorted(side, r) && NoBetter(side, r, price) && Before(r, if back then n + 1 else n)
  {
    if back {
      SortedInsert(os[1..], o, n);
      NoBetterInsert(os[1..], o, price);
      Later(os[1..], n, n + 1);
    }
    assert ([o] + os[1..])[1..] == os[1..];
  }

  predicate Ordered(b: Book) {
    Sorted(Buy, b.bids) && Sorted(Sell, b.asks) && Before(b.bids, b.arrivals) && Before(b.asks, b.arrivals)
  }

  lemma PreventOrdered(b: Book, buyer: bool)
    requires Valid(b) && Crossed(b) && Ordered(b)
    ensures Ordered(Prevent(b, buyer).0)
  {
    var bid, ask := b.bids[0], b.asks[0];
    var (newer, older) := if buyer then (bid, ask) else (ask, bid);
    var (n, o) := Left(newer.mode, newer.qty, older.qty);
    var (bidLeft, askLeft) := if buyer then (n, o) else (o, n);
    BestNoBetter(Buy, b.bids);
    BestNoBetter(Sell, b.asks);
    SortedRequeue(Buy, b.bids, Reduced(bid, bidLeft), false, bid.price, b.arrivals);
    SortedRequeue(Sell, b.asks, Reduced(ask, askLeft), false, ask.price, b.arrivals);
  }

  lemma TradeOrdered(b: Book, buyer: bool)
    requires Valid(b) && Crossed(b) && Ordered(b)
    ensures Ordered(Trade(b, buyer).0)
  {
    var bid, ask := b.bids[0], b.asks[0];
    var q := Min(bid.visible, ask.visible);
    var bought, sold := Fill(bid, q), Fill(ask, q);
    var seen := Arrivals(bought, b.arrivals);
    BestNoBetter(Buy, b.bids);
    BestNoBetter(Sell, b.asks);
    Later(b.asks, b.arrivals, seen);
    SortedRequeue(Buy, b.bids, Replenish(bought, b.arrivals), Exhausted(bought), bid.price, b.arrivals);
    SortedRequeue(Sell, b.asks, Replenish(sold, seen), Exhausted(sold), ask.price, seen);
    Later(Trade(b, buyer).0.bids, seen, Arrivals(sold, seen));
  }

  lemma {:induction false} MatchOrdered(b: Book, aggressor: string)
    requires Valid(b) && Ordered(b)
    ensures var next := Match(b, aggressor).0; Valid(next) && Ordered(next) && !Crossed(next)
    decreases Total(b.bids) + Total(b.asks)
  {
    if Crossed(b) {
      MeetShrinks(b, aggressor);
      PreventOrdered(b, BidNewer(aggressor, b.bids[0], b.asks[0]));
      TradeOrdered(b, BidNewer(aggressor, b.bids[0], b.asks[0]));
      MatchOrdered(Meet(b, aggressor).0, aggressor);
    }
  }

  lemma HitOrdered(a: Order, w: Sweep, price: nat)
    requires w.left > 0 && !w.stopped && w.opposite != [] && AllSane(w.opposite, Opposite(a.side))
    requires Sorted(Opposite(a.side), w.opposite) && NoBetter(Opposite(a.side), w.opposite, price)
    requires Before(w.opposite, w.arrivals)
    ensures var r := Hit(a, w);
            Sorted(Opposite(a.side), r.opposite) && NoBetter(Opposite(a.side), r.opposite, price)
            && Before(r.opposite, r.arrivals) && w.arrivals <= r.arrivals
  {
    var top := w.opposite[0];
    var hit := Fill(top, Min(top.visible, w.left));
    SortedRequeue(Opposite(a.side), w.opposite, Reduced(top, Left(a.mode, w.left, top.qty).1), false, price,
                  w.arrivals);
    SortedRequeue(Opposite(a.side), w.opposite, Replenish(hit, w.arrivals), Exhausted(hit), price, w.arrivals);
  }

  lemma {:induction false} SweepOrdered(a: Order, limit: bool, w: Sweep, price: nat)
    requires AllSane(w.opposite, Opposite(a.side))
    requires Sorted(Opposite(a.side), w.opposite) && NoBetter(Opposite(a.side), w.opposite, price)
    requires Before(w.opposite, w.arrivals)
    ensures var r := SweepAll(a, limit, w);
            AllSane(r.opposite, Opposite(a.side)) && Sorted(Opposite(a.side), r.opposite)
            && NoBetter(Opposite(a.side), r.opposite, price) && Before(r.opposite, r.arrivals)
            && w.arrivals <= r.arrivals
    decreases w.left + Total(w.opposite), !w.stopped
  {
    if !(w.left == 0 || w.stopped || w.opposite == [] || !Reaches(a.side, limit, a.price, w.opposite[0].price)) {
      HitShrinks(a, w);
      HitOrdered(a, w, price);
      SweepOrdered(a, limit, Hit(a, w), price);
    }
  }

  predicate Orderly(b: Book) {
    Valid(b) && Ordered(b) && !Crossed(b)
  }

  lemma SweptOrderly(b: Book, a: Order, limit: bool)
    requires Orderly(b)
    ensures Orderly(AfterSweep(b, a, Swept(b, a, limit)).book)
  {
    var opposite := Queue(b, Opposite(a.side));
    var w := Sweep(a.qty, false, opposite, b.arrivals, []);
    if opposite == [] {
      SweepOrdered(a, limit, w, 0);
      assert SweepAll(a, limit, w) == w;
    } else {
      BestNoBetter(Opposite(a.side), opposite);
      SweepOrdered(a, limit, w, opposite[0].price);
    }
    Later(Queue(b, a.side), b.arrivals, SweepAll(a, limit, w).arrivals);
  }

  /** Whatever an incoming order does, the book stays in price-time order and is not left crossed. */
  lemma ExecuteOrderly(b: Book, o: Order, kind: Kind)
    requires Orderly(b) && o.qty > 0
    ensures Orderly(Execute(b, o, kind).book)
  {
    match kind {
      case Resting =>
        AddValid(b, o);
        SortedInsert(Queue(b, o.side), Entering(b, o), b.arrivals);
        Later(Queue(b, Opposite(o.side)), b.arrivals, b.arrivals + 1);
        MatchOrdered(Add(b, Entering(b, o)), o.id);
      case Immediate => SweptOrderly(b, o, true);
      case Market => SweptOrderly(b, o, false);
      case FillOrKill => SweptOrderly(b, o, true);
    }
  }

  lemma {:induction false} BehindWithout(side: Side, os: seq<Order>, id: string, price: nat, arrival: nat)
    requires Behind(side, os, price, arrival)
    ensures Behind(side, Without(os, id), price, arrival)
  {
    if os != [] {
      BehindWithout(side, os[1..], id, price, arrival);
      assert ([os[0]] + Without(os[1..], id))[1..] == Without(os[1..], id);
    }
  }

  lemma {:induction false} WithoutKeeps(side: Side, os: seq<Order>, id: string, price: nat, n: nat)
    requires Sorted(side, os) && AllSane(os, side) && NoBetter(side, os, price) && Before(os, n)
    ensures var r := Without(os, id); Sorted(side, r) && AllSane(r, side) && NoBetter(side, r, price) && Before(r, n)
  {
    if os != [] {
      WithoutKeeps(side, os[1..], id, price, n);
      BehindWithout(side, os[1..], id, os[0].price, os[0].arrival);
      assert ([os[0]] + Without(os[1..], id))[1..] == Without(os[1..], id);
    }
  }

  lemma CancelOrderly(b: Book, id: string)
    requires Orderly(b)
    ensures Orderly(Cancel(b, id))
  {
    if b.bids != [] {
      BestNoBetter(Buy, b.bids);
      WithoutKeeps(Buy, b.bids, id, b.bids[0].price, b.arrivals);
    }
    if b.asks != [] {
      BestNoBetter(Sell, b.asks);
      WithoutKeeps(Sell, b.asks, id, b.asks[0].price, b.arrivals);
    }
  }
}
