/** The events account for every change of quantity: each is covered by what its orders hold at that moment,
    and the book holds afterwards exactly what the events leave. */
module BookTrace {
  import opened OrderBook

  /** How much each id holds. */
  type Holding = string -> nat

  function Less(f: Holding, id: string, q: nat): Holding {
    x => if x == id then if f(x) >= q then f(x) - q else 0 else f(x)
  }

  function After(f: Holding, es: seq<Event>): Holding
    decreases |es|
  {
    if es == [] then f
    else
      match es[0]
      case Traded(buy, sell, _, q, _) => After(Less(Less(f, buy, q), sell, q), es[1..])
      case Cut(id, _, off, _) => After(Less(f, id, off), es[1..])
  }

  /** A trade takes the same positive quantity from two different orders that both have it; a cut leaves
      what it says. */
  predicate Backed(f: Holding, es: seq<Event>)
    decreases |es|
  {
    es == []
    || match es[0]
       case Traded(buy, sell, _, q, _) =>
         buy != sell && 0 < q <= f(buy) && q <= f(sell) && Backed(Less(Less(f, buy, q), sell, q), es[1..])
       case Cut(id, _, off, left) => 0 < off <= f(id) && left == f(id) - off && Backed(Less(f, id, off), es[1..])
  }

  ghost predicate Same(f: Holding, g: Holding) {
    forall x :: f(x) == g(x)
  }

  lemma {:induction false} SameAfter(f: Holding, g: Holding, es: seq<Event>)
    requires Same(f, g)
    ensures Backed(f, es) == Backed(g, es) && Same(After(f, es), After(g, es))
    decreases |es|
  {
    if es != [] {
      match es[0]
      case Traded(buy, sell, _, q, _) =>
        SameAfter(Less(Less(f, buy, q), sell, q), Less(Less(g, buy, q), sell, q), es[1..]);
      case Cut(id, _, off, _) => SameAfter(Less(f, id, off), Less(g, id, off), es[1..]);
    }
  }

  lemma {:induction false} AfterConcat(f: Holding, a: seq<Event>, b: seq<Event>)
    ensures After(f, a + b) == After(After(f, a), b) && (Backed(f, a + b) <==> Backed(f, a) && Backed(After(f, a), b))
    decreases |a|
  {
    if a == [] {
      assert a + b == b;
    } else {
      assert (a + b)[1..] == a[1..] + b;
      match a[0]
      case Traded(buy, sell, _, q, _) => AfterConcat(Less(Less(f, buy, q), sell, q), a[1..], b);
      case Cut(id, _, off, _) => AfterConcat(Less(f, id, off), a[1..], b);
    }
  }

  // ── Amounts in the book ────────────────────────────────────────────────────

  lemma {:induction false} AmountInsert(os: seq<Order>, o: Order, id: string)
    ensures Amount(Insert(os, o), id) == Amount(os, id) + if o.id == id then o.qty else 0
  {
    if os == [] || Better(o.side, o.price, os[0].price) {
      assert ([o] + os)[1..] == os;
    } else {
      AmountInsert(os[1..], o, id);
      assert ([os[0]] + Insert(os[1..], o))[1..] == Insert(os[1..], o);
    }
  }

  lemma AmountRequeue(os: seq<Order>, o: Order, back: bool, id: string)
    ensures Amount(Requeue(os, o, back), id) == Amount(os, id) + if o.id == id then o.qty else 0
  {
    AmountInsert(os, o, id);
    assert ([o] + os)[1..] == os;
  }

  /** No id twice. */
  predicate Unique(os: seq<Order>) {
    os == [] || (Amount(os[1..], os[0].id) == 0 && Unique(os[1..]))
  }

  lemma {:induction false} UniqueInsert(os: seq<Order>, o: Order)
    requires Unique(os) && Amount(os, o.id) == 0 && AllSane(os, o.side) && o.qty > 0
    ensures Unique(Insert(os, o))
  {
    if os == [] || Better(o.side, o.price, os[0].price) {
      assert ([o] + os)[1..] == os;
    } else {
      UniqueInsert(os[1..], o);
      AmountInsert(os[1..], o, os[0].id);
      assert ([os[0]] + Insert(os[1..], o))[1..] == Insert(os[1..], o);
    }
  }

  lemma UniqueRequeue(os: seq<Order>, o: Order, back: bool)
    requires Unique(os) && Amount(os, o.id) == 0 && AllSane(os, o.side)
    ensures Unique(Requeue(os, o, back))
  {
    if o.qty > 0 { UniqueInsert(os, o); }
    assert ([o] + os)[1..] == os;
  }

  /** No id on both sides. */
  ghost predicate Apart(a: seq<Order>, b: seq<Order>) {
    forall id :: Amount(a, id) == 0 || Amount(b, id) == 0
  }

  ghost predicate Distinct(b: Book) {
    Unique(b.bids) && Unique(b.asks) && Apart(b.bids, b.asks)
  }

  function Held(b: Book): Holding {
    id => Amount(b.bids, id) + Amount(b.asks, id)
  }

  /** The sides shrink and their order lists stay unique. */
  lemma DistinctShrinks(b: Book, c: Book)
    requires Distinct(b) && Unique(c.bids) && Unique(c.asks)
    requires forall id :: Amount(c.bids, id) <= Amount(b.bids, id)
    requires forall id :: Amount(c.asks, id) <= Amount(b.asks, id)
    ensures Distinct(c)
  {
    forall id ensures Amount(c.bids, id) == 0 || Amount(c.asks, id) == 0 {
      assert Amount(b.bids, id) == 0 || Amount(b.asks, id) == 0;
    }
  }

  // ── One meeting ────────────────────────────────────────────────────────────

  lemma TopAmounts(b: Book)
    requires Valid(b) && Crossed(b) && Distinct(b)
    ensures var bid, ask := b.bids[0], b.asks[0];
            bid.id != ask.id && Held(b)(bid.id) == bid.qty && Held(b)(ask.id) == ask.qty
            && Amount(b.bids[1..], bid.id) == 0 && Amount(b.asks[1..], ask.id) == 0
  {
    assert Amount(b.bids, b.bids[0].id) == 0 || Amount(b.asks, b.bids[0].id) == 0;
    assert Amount(b.bids, b.asks[0].id) == 0 || Amount(b.asks, b.asks[0].id) == 0;
  }

  /** Replacing both best orders by reduced ones changes exactly their two amounts. */
  lemma {:induction false} Replaced(b: Book, bid: Order, ask: Order, bidBack: bool, askBack: bool, arrivals: nat)
    returns (c: Book)
    requires Valid(b) && Crossed(b) && Distinct(b)
    requires bid.id == b.bids[0].id && bid.side == Buy && bid.qty <= b.bids[0].qty
    requires ask.id == b.asks[0].id && ask.side == Sell && ask.qty <= b.asks[0].qty
    ensures c == Book(Requeue(b.bids[1..], bid, bidBack), Requeue(b.asks[1..], ask, askBack), arrivals) && Distinct(c)
    ensures Same(Held(c), Less(Less(Held(b), bid.id, b.bids[0].qty - bid.qty), ask.id, b.asks[0].qty - ask.qty))
  {
    c := Book(Requeue(b.bids[1..], bid, bidBack), Requeue(b.asks[1..], ask, askBack), arrivals);
    TopAmounts(b);
    SideReplaced(b.bids, bid, bidBack);
    SideReplaced(b.asks, ask, askBack);
    DistinctShrinks(b, c);
  }

  /** One order has less than before, the others what they had. */
  ghost predicate Lowered(os: seq<Order>, next: seq<Order>, id: string, cut: nat) {
    forall x :: Amount(next, x) + (if x == id then cut else 0) == Amount(os, x)
  }

  lemma {:induction false} SideReplaced(os: seq<Order>, o: Order, back: bool)
    requires os != [] && Unique(os) && AllSane(os, o.side) && o.id == os[0].id && o.qty <= os[0].qty
    ensures Unique(Requeue(os[1..], o, back)) && Lowered(os, Requeue(os[1..], o, back), o.id, os[0].qty - o.qty)
  {
    UniqueRequeue(os[1..], o, back);
    var next := Requeue(os[1..], o, back);
    forall x ensures Amount(next, x) + (if x == o.id then os[0].qty - o.qty else 0) == Amount(os, x) {
      AmountRequeue(os[1..], o, back, x);
    }
  }

  lemma CutBacked(f: Holding, o: Order, opposing: string, left: nat)
    requires f(o.id) == o.qty && left <= o.qty
    ensures Backed(f, CutEvents(o, opposing, left))
    ensures Same(After(f, CutEvents(o, opposing, left)), Less(f, o.id, o.qty - left))
  {
    if left < o.qty {
      var es := [Cut(o.id, opposing, o.qty - left, left)];
      assert es[1..] == [] && CutEvents(o, opposing, left) == es;
      assert After(f, es) == After(Less(f, o.id, o.qty - left), es[1..]);
    }
  }

  /** Two cuts of different orders. */
  lemma CutsBacked(f: Holding, a: Order, b: Order, aLeft: nat, bLeft: nat)
    requires f(a.id) == a.qty && f(b.id) == b.qty && a.id != b.id && aLeft <= a.qty && bLeft <= b.qty
    ensures var es := CutEvents(a, b.id, aLeft) + CutEvents(b, a.id, bLeft);
            Backed(f, es) && Same(After(f, es), Less(Less(f, a.id, a.qty - aLeft), b.id, b.qty - bLeft))
  {
    CutBacked(f, a, b.id, aLeft);
    var g := After(f, CutEvents(a, b.id, aLeft));
    CutBacked(g, b, a.id, bLeft);
    AfterConcat(f, CutEvents(a, b.id, aLeft), CutEvents(b, a.id, bLeft));
    assert Same(Less(g, b.id, b.qty - bLeft), Less(Less(f, a.id, a.qty - aLeft), b.id, b.qty - bLeft));
  }

  lemma PreventBacked(b: Book, buyer: bool)
    requires Valid(b) && Crossed(b) && Distinct(b)
    ensures var (next, es) := Prevent(b, buyer);
            Distinct(next) && Backed(Held(b), es) && Same(After(Held(b), es), Held(next))
  {
    var bid, ask := b.bids[0], b.asks[0];
    var (newer, older) := if buyer then (bid, ask) else (ask, bid);
    var (n, o) := Left(newer.mode, newer.qty, older.qty);
    var (bidLeft, askLeft) := if buyer then (n, o) else (o, n);
    TopAmounts(b);
    CutsBacked(Held(b), older, newer, o, n);
    var c := Replaced(b, Reduced(bid, bidLeft), Reduced(ask, askLeft), false, false, b.arrivals);
    LessCommutes(Held(b), older.id, older.qty - o, newer.id, newer.qty - n);
  }

  lemma LessCommutes(f: Holding, a: string, p: nat, b: string, q: nat)
    requires a != b
    ensures Same(Less(Less(f, a, p), b, q), Less(Less(f, b, q), a, p))
  {
  }

  lemma {:induction false} TradeBacked(b: Book, buyer: bool)
    requires Valid(b) && Crossed(b) && Distinct(b)
    ensures var (next, es) := Trade(b, buyer);
            Distinct(next) && Backed(Held(b), es) && Same(After(Held(b), es), Held(next))
  {
    TopAmounts(b);
    var x, y := b.bids[0], b.asks[0];
    var q := Min(x.visible, y.visible);
    var c := BothFilled(b, x, y, q);
    OneTrade(Held(b), x.id, y.id, if buyer then y.price else x.price, q, buyer);
  }

  lemma {:induction false} BothFilled(b: Book, x: Order, y: Order, q: nat) returns (c: Book)
    requires Valid(b) && Crossed(b) && Distinct(b) && x == b.bids[0] && y == b.asks[0] && q <= x.visible
    requires q <= y.visible
    ensures var seen := Arrivals(Fill(x, q), b.arrivals);
            c == Book(Requeue(b.bids[1..], Replenish(Fill(x, q), b.arrivals), Exhausted(Fill(x, q))),
                      Requeue(b.asks[1..], Replenish(Fill(y, q), seen), Exhausted(Fill(y, q))),
                      Arrivals(Fill(y, q), seen))
    ensures Distinct(c) && Same(Held(c), Less(Less(Held(b), x.id, q), y.id, q))
  {
    var seen := Arrivals(Fill(x, q), b.arrivals);
    FilledLeft(x, q, b.arrivals);
    FilledLeft(y, q, seen);
    c := Replaced(b, Replenish(Fill(x, q), b.arrivals), Replenish(Fill(y, q), seen), Exhausted(Fill(x, q)),
                  Exhausted(Fill(y, q)), Arrivals(Fill(y, q), seen));
  }

  lemma FilledLeft(o: Order, q: nat, arrivals: nat)
    requires Sane(o) && q <= o.visible
    ensures var r := Replenish(Fill(o, q), arrivals); r.id == o.id && r.side == o.side && r.qty == o.qty - q
  {
  }

  lemma {:induction false} OneTrade(f: Holding, buy: string, sell: string, price: nat, q: nat, buyer: bool)
    requires buy != sell && 0 < q <= f(buy) && q <= f(sell)
    ensures var es := [Traded(buy, sell, price, q, buyer)];
            Backed(f, es) && After(f, es) == Less(Less(f, buy, q), sell, q)
  {
    var es := [Traded(buy, sell, price, q, buyer)];
    assert es[1..] == [];
  }

  lemma {:induction false} MatchBacked(b: Book, aggressor: string)
    requires Valid(b) && Distinct(b)
    ensures var (next, es) := Match(b, aggressor);
            Distinct(next) && Backed(Held(b), es) && Same(After(Held(b), es), Held(next))
    decreases Total(b.bids) + Total(b.asks)
  {
    if Crossed(b) {
      MeetShrinks(b, aggressor);
      PreventBacked(b, BidNewer(aggressor, b.bids[0], b.asks[0]));
      TradeBacked(b, BidNewer(aggressor, b.bids[0], b.asks[0]));
      var (next, es) := Meet(b, aggressor);
      MatchBacked(next, aggressor);
      var more := Match(next, aggressor).1;
      AfterConcat(Held(b), es, more);
      SameAfter(After(Held(b), es), Held(next), more);
    }
  }

  // ── A sweep ────────────────────────────────────────────────────────────────

  /** The own side, the opposite side, and what the aggressor has left. */
  function SweepHeld(a: Order, own: seq<Order>, w: Sweep): Holding {
    id => Amount(own, id) + Amount(w.opposite, id) + if id == a.id then w.left else 0
  }

  ghost predicate SweepDistinct(a: Order, own: seq<Order>, w: Sweep) {
    Unique(w.opposite) && Apart(own, w.opposite) && Amount(own, a.id) == 0 && Amount(w.opposite, a.id) == 0
  }

  lemma ReplacedTop(a: Order, own: seq<Order>, w: Sweep, top: Order, back: bool, next: Sweep)
    requires w.opposite != [] && AllSane(w.opposite, Opposite(a.side)) && SweepDistinct(a, own, w)
    requires top.id == w.opposite[0].id && top.side == Opposite(a.side) && top.qty <= w.opposite[0].qty
    requires next.opposite == Requeue(w.opposite[1..], top, back) && next.left <= w.left
    ensures SweepDistinct(a, own, next) && SweepHeld(a, own, w)(top.id) == w.opposite[0].qty
    ensures SweepHeld(a, own, w)(a.id) == w.left
    ensures top.id != a.id
    ensures Same(SweepHeld(a, own, next),
                 Less(Less(SweepHeld(a, own, w), top.id, w.opposite[0].qty - top.qty), a.id, w.left - next.left))
  {
    UniqueRequeue(w.opposite[1..], top, back);
    assert Amount(own, top.id) == 0 || Amount(w.opposite, top.id) == 0;
    forall id ensures Amount(next.opposite, id) == Amount(w.opposite[1..], id) + (if top.id == id then top.qty else 0) {
      AmountRequeue(w.opposite[1..], top, back, id);
    }
    forall id ensures Amount(own, id) == 0 || Amount(next.opposite, id) == 0 {
      assert Amount(own, id) == 0 || Amount(w.opposite, id) == 0;
    }
  }

  lemma HitPrevented(a: Order, own: seq<Order>, w: Sweep) returns (es: seq<Event>)
    requires w.left > 0 && !w.stopped && w.opposite != [] && AllSane(w.opposite, Opposite(a.side))
    requires SweepDistinct(a, own, w)
    requires SelfMatch(a, w.opposite[0])
    ensures HitDoes(a, own, w, Hit(a, w), es)
  {
    var top, mine := w.opposite[0], a.(qty := w.left);
    var (n, o) := Left(a.mode, w.left, top.qty);
    es := CutEvents(top, a.id, o) + CutEvents(mine, top.id, n);
    ReplacedTop(a, own, w, Reduced(top, o), false, Hit(a, w));
    CutsBacked(SweepHeld(a, own, w), top, mine, o, n);
  }

  lemma HitTraded(a: Order, own: seq<Order>, w: Sweep) returns (es: seq<Event>)
    requires w.left > 0 && !w.stopped && w.opposite != [] && AllSane(w.opposite, Opposite(a.side))
    requires SweepDistinct(a, own, w)
    requires !SelfMatch(a, w.opposite[0])
    ensures HitDoes(a, own, w, Hit(a, w), es)
  {
    var top := w.opposite[0];
    var q := Min(top.visible, w.left);
    var hit := Fill(top, q);
    es := [if a.side.Buy? then Traded(a.id, top.id, top.price, q, true) else Traded(top.id, a.id, top.price, q, false)];
    ReplacedTop(a, own, w, Replenish(hit, w.arrivals), Exhausted(hit), Hit(a, w));
    assert es[1..] == [];
    LessCommutes(SweepHeld(a, own, w), top.id, q, a.id, q);
  }

  /** From w to next by the events es, all backed. */
  ghost predicate HitDoes(a: Order, own: seq<Order>, w: Sweep, next: Sweep, es: seq<Event>) {
    next.events == w.events + es && SweepDistinct(a, own, next)
    && Backed(SweepHeld(a, own, w), es) && Same(After(SweepHeld(a, own, w), es), SweepHeld(a, own, next))
  }

  lemma DoesTwice(a: Order, own: seq<Order>, w: Sweep, next: Sweep, last: Sweep, es: seq<Event>, more: seq<Event>)
    requires HitDoes(a, own, w, next, es) && HitDoes(a, own, next, last, more)
    ensures HitDoes(a, own, w, last, es + more)
  {
    AfterConcat(SweepHeld(a, own, w), es, more);
    SameAfter(After(SweepHeld(a, own, w), es), SweepHeld(a, own, next), more);
    assert w.events + es + more == w.events + (es + more);
  }

  lemma {:induction false} SweepBacked(a: Order, own: seq<Order>, limit: bool, w: Sweep) returns (es: seq<Event>)
    requires AllSane(w.opposite, Opposite(a.side)) && SweepDistinct(a, own, w)
    ensures HitDoes(a, own, w, SweepAll(a, limit, w), es)
    decreases w.left + Total(w.opposite), !w.stopped
  {
    es := [];
    if !(w.left == 0 || w.stopped || w.opposite == [] || !Reaches(a.side, limit, a.price, w.opposite[0].price)) {
      HitShrinks(a, w);
      if SelfMatch(a, w.opposite[0]) { es := HitPrevented(a, own, w); } else { es := HitTraded(a, own, w); }
      var more := SweepBacked(a, own, limit, Hit(a, w));
      DoesTwice(a, own, w, Hit(a, w), SweepAll(a, limit, w), es, more);
      es := es + more;
    }
  }

  // ── Entry and cancel ───────────────────────────────────────────────────────

  /** What is held once the order has entered. */
  function Entered(b: Book, o: Order): Holding {
    id => Amount(b.bids, id) + Amount(b.asks, id) + if id == o.id then o.qty else 0
  }

  /** The book holds what the events leave, except a cancelled remainder of the entering order. */
  ghost predicate Accounts(b: Book, o: Order, r: Outcome) {
    Distinct(r.book) && Backed(Entered(b, o), r.events)
    && (forall id :: (id == o.id && r.cancelled) || After(Entered(b, o), r.events)(id) == Held(r.book)(id))
    && (r.cancelled ==> Held(r.book)(o.id) == 0 && After(Entered(b, o), r.events)(o.id) > 0)
  }

  lemma AddHeld(b: Book, o: Order)
    requires Valid(b) && Distinct(b) && o.qty > 0 && Held(b)(o.id) == 0
    ensures Distinct(Add(b, Entering(b, o))) && Same(Held(Add(b, Entering(b, o))), Entered(b, o))
  {
    var e, c := Entering(b, o), Add(b, Entering(b, o));
    UniqueInsert(Queue(b, o.side), e);
    forall id ensures Amount(Queue(c, o.side), id) == Amount(Queue(b, o.side), id) + (if id == o.id then o.qty else 0) {
      AmountInsert(Queue(b, o.side), e, id);
    }
    forall id ensures Amount(c.bids, id) == 0 || Amount(c.asks, id) == 0 {
      assert Amount(b.bids, id) == 0 || Amount(b.asks, id) == 0;
    }
  }

  lemma RestingAccounts(b: Book, o: Order)
    requires Valid(b) && Distinct(b) && o.qty > 0 && Held(b)(o.id) == 0
    ensures Accounts(b, o, Execute(b, o, Resting))
  {
    AddValid(b, o);
    AddHeld(b, o);
    var c := Add(b, Entering(b, o));
    MatchBacked(c, o.id);
    SameAfter(Held(c), Entered(b, o), Match(c, o.id).1);
  }

  lemma SweptAccounts(b: Book, o: Order, limit: bool)
    requires Valid(b) && Distinct(b) && o.qty > 0 && Held(b)(o.id) == 0
    ensures Accounts(b, o, AfterSweep(b, o, Swept(b, o, limit)))
  {
    var own := Queue(b, o.side);
    var w := Sweep(o.qty, false, Queue(b, Opposite(o.side)), b.arrivals, []);
    assert SweepDistinct(o, own, w);
    var es := SweepBacked(o, own, limit, w);
    var r := SweepAll(o, limit, w);
    assert r.events == es;
    SameAfter(SweepHeld(o, own, w), Entered(b, o), es);
    StoppedIsEmpty(o, limit, w);
  }

  lemma {:induction false} StoppedIsEmpty(a: Order, limit: bool, w: Sweep)
    requires AllSane(w.opposite, Opposite(a.side)) && (w.stopped ==> w.left == 0)
    ensures SweepAll(a, limit, w).stopped ==> SweepAll(a, limit, w).left == 0
    decreases w.left + Total(w.opposite), !w.stopped
  {
    if !(w.left == 0 || w.stopped || w.opposite == [] || !Reaches(a.side, limit, a.price, w.opposite[0].price)) {
      HitShrinks(a, w);
      StoppedIsEmpty(a, limit, Hit(a, w));
    }
  }

  /** Every incoming order: its events are backed at every moment and leave exactly what the book holds. */
  lemma ExecuteAccounts(b: Book, o: Order, kind: Kind)
    requires Valid(b) && Distinct(b) && o.qty > 0 && Held(b)(o.id) == 0
    ensures Accounts(b, o, Execute(b, o, kind))
  {
    match kind {
      case Resting => RestingAccounts(b, o);
      case Immediate => SweptAccounts(b, o, true);
      case Market => SweptAccounts(b, o, false);
      case FillOrKill =>
        SweptAccounts(b, o, true);
        var es := Execute(b, o, kind).events;
        if Covers(o, Queue(b, Opposite(o.side)), o.qty).Own? { assert es[1..] == []; }
    }
  }

  lemma {:induction false} AmountWithout(os: seq<Order>, gone: string, id: string)
    ensures Amount(Without(os, gone), id) == if id == gone then 0 else Amount(os, id)
  {
    if os != [] {
      AmountWithout(os[1..], gone, id);
      assert ([os[0]] + Without(os[1..], gone))[1..] == Without(os[1..], gone);
    }
  }

  lemma {:induction false} UniqueWithout(os: seq<Order>, gone: string)
    requires Unique(os)
    ensures Unique(Without(os, gone))
  {
    if os != [] {
      UniqueWithout(os[1..], gone);
      AmountWithout(os[1..], gone, os[0].id);
      assert ([os[0]] + Without(os[1..], gone))[1..] == Without(os[1..], gone);
    }
  }

  /** A cancel takes away one order and nothing else. */
  lemma CancelAccounts(b: Book, gone: string)
    requires Distinct(b)
    ensures Distinct(Cancel(b, gone))
    ensures forall id :: Held(Cancel(b, gone))(id) == if id == gone then 0 else Held(b)(id)
  {
    UniqueWithout(b.bids, gone);
    UniqueWithout(b.asks, gone);
    forall id ensures Amount(Without(b.bids, gone), id) == (if id == gone then 0 else Amount(b.bids, id)) {
      AmountWithout(b.bids, gone, id);
    }
    forall id ensures Amount(Without(b.asks, gone), id) == (if id == gone then 0 else Amount(b.asks, id)) {
      AmountWithout(b.asks, gone, id);
    }
    DistinctShrinks(b, Cancel(b, gone));
  }
}
