/** The order book: price-time priority with iceberg slices and self-trade prevention. Each side lists its
    resting orders best price first and, within a price, in queue order. */
module OrderBook {

  datatype Side = Buy | Sell

  /** Self-trade prevention: what to do when the newer order meets one of the same scope. */
  datatype Mode = NoPrevention | CancelNewest | CancelOldest | CancelBoth | DecrementAndCancel

  /** A live order: qty is what is left, visible the slice shown, display its size (0: fully shown). */
  datatype Order = Order(
    id: string,
    owner: string,
    group: string,
    mode: Mode,
    side: Side,
    price: nat,
    qty: nat,
    display: nat,
    visible: nat,
    arrival: nat)

  datatype Book = Book(bids: seq<Order>, asks: seq<Order>, arrivals: nat)

  /** What matching did, in the order the book changed. A cut to zero is a cancel. */
  datatype Event =
    | Traded(buy: string, sell: string, price: nat, qty: nat, buyer: bool)
    | Cut(id: string, opposing: string, off: nat, left: nat)

  // ── Priority ───────────────────────────────────────────────────────────────

  predicate Better(side: Side, a: nat, b: nat) {
    if side.Buy? then a > b else a < b
  }

  /** Behind every order of its own price or better, ahead of all worse ones. */
  function Insert(os: seq<Order>, o: Order): seq<Order> {
    if os == [] || Better(o.side, o.price, os[0].price) then [o] + os else [os[0]] + Insert(os[1..], o)
  }

  function Requeue(os: seq<Order>, o: Order, back: bool): seq<Order> {
    if o.qty == 0 then os else if back then Insert(os, o) else [o] + os
  }

  /** Total quantity, and the quantity under one id. */
  function Total(os: seq<Order>): nat {
    if os == [] then 0 else os[0].qty + Total(os[1..])
  }

  function Amount(os: seq<Order>, id: string): nat {
    if os == [] then 0 else (if os[0].id == id then os[0].qty else 0) + Amount(os[1..], id)
  }

  /** A resting order shows part of what it has, all of it when it hides nothing. */
  predicate Sane(o: Order) {
    1 <= o.visible <= o.qty && (o.display == 0 ==> o.visible == o.qty)
  }

  predicate AllSane(os: seq<Order>, side: Side) {
    os == [] || (Sane(os[0]) && os[0].side == side && AllSane(os[1..], side))
  }

  // ── Self-trade prevention ──────────────────────────────────────────────────

  /** The scope is the group when there is one, else the owner; the two never coincide. */
  predicate SameScope(a: Order, b: Order) {
    if a.group == "" && b.group == "" then a.owner == b.owner else a.group == b.group
  }

  predicate SelfMatch(newer: Order, older: Order) {
    !newer.mode.NoPrevention? && SameScope(newer, older)
  }

  function Min(a: nat, b: nat): nat {
    if a < b then a else b
  }

  /** What is left of the newer and of the older order. */
  function Left(mode: Mode, newer: nat, older: nat): (nat, nat) {
    match mode
    case CancelNewest => (0, older)
    case CancelOldest => (newer, 0)
    case CancelBoth => (0, 0)
    case _ => (newer - Min(newer, older), older - Min(newer, older))
  }

  function Reduced(o: Order, left: nat): Order {
    o.(qty := left, visible := Min(o.visible, left))
  }

  function CutEvents(o: Order, opposing: string, left: nat): seq<Event>
    requires left <= o.qty
  {
    if o.qty == left then [] else [Cut(o.id, opposing, o.qty - left, left)]
  }

  // ── One trade ──────────────────────────────────────────────────────────────

  function Fill(o: Order, q: nat): Order
    requires q <= o.visible && q <= o.qty
  {
    o.(qty := o.qty - q, visible := o.visible - q)
  }

  /** The shown slice is used up and there is a reserve. */
  predicate Exhausted(o: Order) {
    o.qty > 0 && o.display > 0 && o.visible == 0
  }

  /** A new slice is shown, at the back of the queue. */
  function Replenish(o: Order, arrivals: nat): Order {
    if Exhausted(o) then o.(visible := Min(o.qty, o.display), arrival := arrivals + 1) else o
  }

  function Arrivals(o: Order, arrivals: nat): nat {
    if Exhausted(o) then arrivals + 1 else arrivals
  }

  // ── Passive matching ───────────────────────────────────────────────────────

  predicate Crossed(b: Book) {
    b.bids != [] && b.asks != [] && b.bids[0].price >= b.asks[0].price
  }

  predicate Valid(b: Book) {
    AllSane(b.bids, Buy) && AllSane(b.asks, Sell)
  }

  predicate BidNewer(aggressor: string, bid: Order, ask: Order) {
    if aggressor == bid.id then true else if aggressor == ask.id then false else bid.arrival > ask.arrival
  }

  /** The best bid meets the best ask. */
  function Meet(b: Book, aggressor: string): (Book, seq<Event>)
    requires Valid(b) && Crossed(b)
  {
    var bid, ask := b.bids[0], b.asks[0];
    var buyer := BidNewer(aggressor, bid, ask);
    if SelfMatch(if buyer then bid else ask, if buyer then ask else bid) then Prevent(b, buyer) else Trade(b, buyer)
  }

  function Prevent(b: Book, buyer: bool): (Book, seq<Event>)
    requires Valid(b) && Crossed(b)
  {
    var bid, ask := b.bids[0], b.asks[0];
    var (newer, older) := if buyer then (bid, ask) else (ask, bid);
    var (n, o) := Left(newer.mode, newer.qty, older.qty);
    var (bidLeft, askLeft) := if buyer then (n, o) else (o, n);
    (b.(bids := Requeue(b.bids[1..], Reduced(bid, bidLeft), false),
        asks := Requeue(b.asks[1..], Reduced(ask, askLeft), false)),
     CutEvents(older, newer.id, o) + CutEvents(newer, older.id, n))
  }

  function Trade(b: Book, buyer: bool): (Book, seq<Event>)
    requires Valid(b) && Crossed(b)
  {
    var bid, ask := b.bids[0], b.asks[0];
    var q := Min(bid.visible, ask.visible);
    var bought, sold := Fill(bid, q), Fill(ask, q);
    var seen := Arrivals(bought, b.arrivals);
    (Book(Requeue(b.bids[1..], Replenish(bought, b.arrivals), Exhausted(bought)),
          Requeue(b.asks[1..], Replenish(sold, seen), Exhausted(sold)), Arrivals(sold, seen)),
     [Traded(bid.id, ask.id, if buyer then ask.price else bid.price, q, buyer)])
  }

  lemma {:induction false} TotalInsert(os: seq<Order>, o: Order)
    ensures Total(Insert(os, o)) == Total(os) + o.qty
  {
    if os == [] || Better(o.side, o.price, os[0].price) {
      assert ([o] + os)[1..] == os;
    } else {
      TotalInsert(os[1..], o);
      assert ([os[0]] + Insert(os[1..], o))[1..] == Insert(os[1..], o);
    }
  }

  lemma {:induction false} SaneInsert(os: seq<Order>, o: Order)
    requires AllSane(os, o.side) && Sane(o)
    ensures AllSane(Insert(os, o), o.side)
  {
    if os == [] || Better(o.side, o.price, os[0].price) {
      assert ([o] + os)[1..] == os;
    } else {
      SaneInsert(os[1..], o);
      assert ([os[0]] + Insert(os[1..], o))[1..] == Insert(os[1..], o);
    }
  }

  lemma RequeueKeeps(os: seq<Order>, o: Order, back: bool)
    requires AllSane(os, o.side) && (o.qty > 0 ==> Sane(o))
    ensures AllSane(Requeue(os, o, back), o.side) && Total(Requeue(os, o, back)) == Total(os) + o.qty
  {
    TotalInsert(os, o);
    if o.qty > 0 { SaneInsert(os, o); }
    assert ([o] + os)[1..] == os;
  }

  lemma PreventShrinks(b: Book, buyer: bool)
    requires Valid(b) && Crossed(b)
    ensures var next := Prevent(b, buyer).0;
            Valid(next) && Total(next.bids) + Total(next.asks) < Total(b.bids) + Total(b.asks)
  {
    var bid, ask := b.bids[0], b.asks[0];
    var (newer, older) := if buyer then (bid, ask) else (ask, bid);
    var (n, o) := Left(newer.mode, newer.qty, older.qty);
    var (bidLeft, askLeft) := if buyer then (n, o) else (o, n);
    RequeueKeeps(b.bids[1..], Reduced(bid, bidLeft), false);
    RequeueKeeps(b.asks[1..], Reduced(ask, askLeft), false);
  }

  lemma TradeShrinks(b: Book, buyer: bool)
    requires Valid(b) && Crossed(b)
    ensures var next := Trade(b, buyer).0;
            Valid(next) && Total(next.bids) + Total(next.asks) < Total(b.bids) + Total(b.asks)
  {
    var bid, ask := b.bids[0], b.asks[0];
    var q := Min(bid.visible, ask.visible);
    var bought, sold := Fill(bid, q), Fill(ask, q);
    RequeueKeeps(b.bids[1..], Replenish(bought, b.arrivals), Exhausted(bought));
    RequeueKeeps(b.asks[1..], Replenish(sold, Arrivals(bought, b.arrivals)), Exhausted(sold));
  }

  lemma MeetShrinks(b: Book, aggressor: string)
    requires Valid(b) && Crossed(b)
    ensures var next := Meet(b, aggressor).0;
            Valid(next) && Total(next.bids) + Total(next.asks) < Total(b.bids) + Total(b.asks)
  {
    var buyer := BidNewer(aggressor, b.bids[0], b.asks[0]);
    PreventShrinks(b, buyer);
    TradeShrinks(b, buyer);
  }

  /** Cross the book until the best bid is below the best ask. */
  function Match(b: Book, aggressor: string): (Book, seq<Event>)
    requires Valid(b)
    decreases Total(b.bids) + Total(b.asks)
  {
    if !Crossed(b) then (b, [])
    else
      MeetShrinks(b, aggressor);
      var (next, events) := Meet(b, aggressor);
      var (last, more) := Match(next, aggressor);
      (last, events + more)
  }

  // ── Aggressive orders ──────────────────────────────────────────────────────

  /** A sweep: what is left of the aggressor, the opposite side, and whether prevention stopped it. */
  datatype Sweep = Sweep(left: nat, stopped: bool, opposite: seq<Order>, arrivals: nat, events: seq<Event>)

  function Opposite(side: Side): Side {
    if side.Buy? then Sell else Buy
  }

  /** None: at any price. */
  predicate Reaches(side: Side, limit: bool, price: nat, best: nat) {
    !limit || !Better(Opposite(side), price, best)
  }

  function Hit(a: Order, w: Sweep): Sweep
    requires w.left > 0 && !w.stopped && w.opposite != [] && AllSane(w.opposite, Opposite(a.side))
  {
    var top, rest := w.opposite[0], w.opposite[1..];
    if SelfMatch(a, top) then
      var (n, o) := Left(a.mode, w.left, top.qty);
      Sweep(n, n == 0, Requeue(rest, Reduced(top, o), false), w.arrivals,
            w.events + CutEvents(top, a.id, o) + CutEvents(a.(qty := w.left), top.id, n))
    else
      var q := Min(top.visible, w.left);
      var hit := Fill(top, q);
      Sweep(w.left - q, false, Requeue(rest, Replenish(hit, w.arrivals), Exhausted(hit)), Arrivals(hit, w.arrivals),
            w.events + [if a.side.Buy? then Traded(a.id, top.id, top.price, q, true)
                        else Traded(top.id, a.id, top.price, q, false)])
  }

  lemma HitShrinks(a: Order, w: Sweep)
    requires w.left > 0 && !w.stopped && w.opposite != [] && AllSane(w.opposite, Opposite(a.side))
    ensures var next := Hit(a, w);
            AllSane(next.opposite, Opposite(a.side))
            && next.left + Total(next.opposite) <= w.left + Total(w.opposite)
            && (next.stopped || next.left + Total(next.opposite) < w.left + Total(w.opposite))
  {
    var top, rest := w.opposite[0], w.opposite[1..];
    if SelfMatch(a, top) {
      var (n, o) := Left(a.mode, w.left, top.qty);
      RequeueKeeps(rest, Reduced(top, o), false);
    } else {
      var hit := Fill(top, Min(top.visible, w.left));
      RequeueKeeps(rest, Replenish(hit, w.arrivals), Exhausted(hit));
    }
  }

  /** Take from the best opposite order as long as it is within the limit. */
  function SweepAll(a: Order, limit: bool, w: Sweep): Sweep
    requires AllSane(w.opposite, Opposite(a.side))
    decreases w.left + Total(w.opposite), !w.stopped
  {
    if w.left == 0 || w.stopped || w.opposite == [] || !Reaches(a.side, limit, a.price, w.opposite[0].price) then w
    else
      HitShrinks(a, w);
      SweepAll(a, limit, Hit(a, w))
  }

  // ── Entry and cancel ───────────────────────────────────────────────────────

  /** Day and GTC limits rest; IOC limits, market orders and FOK limits do not. */
  datatype Kind = Resting | Immediate | Market | FillOrKill

  /** The book afterwards, what happened, and whether an unfilled remainder was cancelled. */
  datatype Outcome = Outcome(book: Book, events: seq<Event>, cancelled: bool)

  function Queue(b: Book, side: Side): seq<Order> {
    if side.Buy? then b.bids else b.asks
  }

  function WithSide(b: Book, side: Side, os: seq<Order>): Book {
    if side.Buy? then b.(bids := os) else b.(asks := os)
  }

  function Add(b: Book, o: Order): Book {
    WithSide(b, o.side, Insert(Queue(b, o.side), o)).(arrivals := b.arrivals + 1)
  }

  /** A new order as it enters the book. */
  function Entering(b: Book, o: Order): Order {
    o.(visible := if o.display == 0 then o.qty else Min(o.display, o.qty), arrival := b.arrivals + 1)
  }

  function Swept(b: Book, a: Order, limit: bool): Sweep
    requires Valid(b)
  {
    SweepAll(a, limit, Sweep(a.qty, false, Queue(b, Opposite(a.side)), b.arrivals, []))
  }

  function AfterSweep(b: Book, a: Order, w: Sweep): Outcome {
    Outcome(WithSide(b, Opposite(a.side), w.opposite).(arrivals := w.arrivals), w.events, !w.stopped && w.left > 0)
  }

  lemma AddValid(b: Book, o: Order)
    requires Valid(b) && o.qty > 0
    ensures Valid(Add(b, Entering(b, o)))
  {
    SaneInsert(Queue(b, o.side), Entering(b, o));
  }

  /** Within the limit the order meets enough quantity, too little, or one of its own scope first. */
  datatype Cover = Covered | Short | Own(id: string)

  /** The orders at the best price. */
  function Level(os: seq<Order>, price: nat): nat {
    if os != [] && os[0].price == price then 1 + Level(os[1..], price) else 0
  }

  predicate AnyOwn(a: Order, os: seq<Order>) {
    os != [] && (SelfMatch(a, os[0]) || AnyOwn(a, os[1..]))
  }

  /** Along one level: everything counts when none is of the order's own scope, else the slices shown
      ahead of the first that is. */
  function CoverLevel(a: Order, level: seq<Order>, own: bool, want: nat): (Cover, nat)
    decreases level
  {
    if want == 0 then (Covered, 0)
    else if level == [] then (Short, want)
    else if SelfMatch(a, level[0]) then (Own(level[0].id), want)
    else
      var q := if own then level[0].visible else level[0].qty;
      CoverLevel(a, level[1..], own, if q < want then want - q else 0)
  }

  function Covers(a: Order, os: seq<Order>, want: nat): Cover
    decreases |os|
  {
    if want == 0 then Covered
    else if os == [] || !Reaches(a.side, true, a.price, os[0].price) then Short
    else
      LevelSize(os, os[0].price);
      var k := Level(os, os[0].price);
      var (c, left) := CoverLevel(a, os[..k], AnyOwn(a, os[..k]), want);
      if c.Short? then Covers(a, os[k..], left) else c
  }

  lemma {:induction false} LevelSize(os: seq<Order>, price: nat)
    ensures Level(os, price) <= |os| && (os != [] && os[0].price == price ==> Level(os, price) >= 1)
  {
    if os != [] { LevelSize(os[1..], price); }
  }

  /** One incoming order with a positive quantity. */
  function Execute(b: Book, o: Order, kind: Kind): Outcome
    requires Valid(b) && o.qty > 0
  {
    match kind
    case Resting =>
      AddValid(b, o);
      var (next, events) := Match(Add(b, Entering(b, o)), o.id);
      Outcome(next, events, false)
    case Immediate => AfterSweep(b, o, Swept(b, o, true))
    case Market => AfterSweep(b, o, Swept(b, o, false))
    case FillOrKill =>
      match Covers(o, Queue(b, Opposite(o.side)), o.qty)
      case Covered => AfterSweep(b, o, Swept(b, o, true))
      case Short => Outcome(b, [], true)
      case Own(id) => Outcome(b, [Cut(o.id, id, o.qty, 0)], false)
  }

  /** Remove a live order by id. */
  function Without(os: seq<Order>, id: string): seq<Order> {
    if os == [] then [] else if os[0].id == id then Without(os[1..], id) else [os[0]] + Without(os[1..], id)
  }

  function Cancel(b: Book, id: string): Book {
    b.(bids := Without(b.bids, id), asks := Without(b.asks, id))
  }

  lemma {:induction false} MatchValid(b: Book, aggressor: string)
    requires Valid(b)
    ensures Valid(Match(b, aggressor).0)
    decreases Total(b.bids) + Total(b.asks)
  {
    if Crossed(b) {
      MeetShrinks(b, aggressor);
      MatchValid(Meet(b, aggressor).0, aggressor);
    }
  }

  lemma {:induction false} SweepSane(a: Order, limit: bool, w: Sweep)
    requires AllSane(w.opposite, Opposite(a.side))
    ensures AllSane(SweepAll(a, limit, w).opposite, Opposite(a.side))
    decreases w.left + Total(w.opposite), !w.stopped
  {
    if !(w.left == 0 || w.stopped || w.opposite == [] || !Reaches(a.side, limit, a.price, w.opposite[0].price)) {
      HitShrinks(a, w);
      SweepSane(a, limit, Hit(a, w));
    }
  }

  lemma ExecuteValid(b: Book, o: Order, kind: Kind)
    requires Valid(b) && o.qty > 0
    ensures Valid(Execute(b, o, kind).book)
  {
    if kind.Resting? {
      AddValid(b, o);
      MatchValid(Add(b, Entering(b, o)), o.id);
    } else {
      var w := Sweep(o.qty, false, Queue(b, Opposite(o.side)), b.arrivals, []);
      SweepSane(o, true, w);
      SweepSane(o, false, w);
    }
  }

  lemma {:induction false} SaneWithout(os: seq<Order>, side: Side, id: string)
    requires AllSane(os, side)
    ensures AllSane(Without(os, id), side)
  {
    if os != [] {
      SaneWithout(os[1..], side, id);
      assert ([os[0]] + Without(os[1..], id))[1..] == Without(os[1..], id);
    }
  }
}
