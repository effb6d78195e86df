/** The reference matcher with hidden quantity: a flat list in order of arrival, scanned for the first best order
    at every fill. An order whose shown slice is used up goes to the end of the list with a new one. */
module SliceBook {
  import opened OrderBook
  import opened RefBook

  /** A resting order: what is left, how much it shows at a time (0: all), and what is left of the slice shown. */
  datatype Lot = Lot(id: string, side: Side, price: nat, qty: nat, display: nat, slice: nat)

  predicate Crosses(o: Lot, side: Side, limit: bool, price: nat) {
    o.side != side && Reaches(side, limit, price, o.price)
  }

  /** The first of the best orders among the first n; -1 if there is none. */
  function FirstBest(os: seq<Lot>, side: Side, limit: bool, price: nat, n: nat): (k: int)
    requires n <= |os|
    ensures -1 <= k < n && (k >= 0 ==> Crosses(os[k], side, limit, price))
    decreases n
  {
    if n == 0 then -1
    else
      var k, o := FirstBest(os, side, limit, price, n - 1), os[n - 1];
      if Crosses(o, side, limit, price) && (k < 0 || Better(o.side, o.price, os[k].price)) then n - 1 else k
  }

  predicate Kept(o: Lot) {
    1 <= o.slice <= o.qty && (o.display == 0 ==> o.slice == o.qty)
  }

  predicate AllKept(os: seq<Lot>) {
    forall i :: 0 <= i < |os| ==> Kept(os[i])
  }

  function Remove(os: seq<Lot>, k: nat): seq<Lot>
    requires k < |os|
  {
    os[..k] + os[k + 1..]
  }

  /** Quantity q goes from order k, which leaves, goes to the end with a new slice, or stays. */
  function TakeFrom(os: seq<Lot>, k: nat, q: nat): seq<Lot>
    requires k < |os| && q <= os[k].slice <= os[k].qty
  {
    var o := os[k].(qty := os[k].qty - q, slice := os[k].slice - q);
    if o.qty == 0 then Remove(os, k)
    else if o.slice == 0 then Remove(os, k) + [o.(slice := Min(o.qty, o.display))]
    else os[k := o]
  }

  function Slice(display: nat, qty: nat): nat {
    if display == 0 then qty else Min(qty, display)
  }

  /** The incoming order shows a new slice when the last one is used up. */
  function Refresh(shown: nat, left: nat, display: nat): nat {
    if shown == 0 && left > 0 then Slice(display, left) else shown
  }

  lemma TakeKeeps(os: seq<Lot>, k: nat, q: nat)
    requires k < |os| && AllKept(os) && q <= os[k].slice
    ensures AllKept(TakeFrom(os, k, q))
  {
  }

  /** What an order is as it comes in. */
  datatype Taker = Taker(id: string, side: Side, limit: bool, price: nat, display: nat)

  datatype Taken = Taken(left: nat, shown: nat, orders: seq<Lot>, fills: seq<RefFill>)

  predicate Showing(left: nat, shown: nat, display: nat) {
    shown <= left && (left > 0 ==> shown > 0) && (display == 0 ==> shown == left)
  }

  function FillFrom(os: seq<Lot>, t: Taker, left: nat, shown: nat): Taken
    requires AllKept(os) && Showing(left, shown, t.display)
    decreases left
  {
    var k := FirstBest(os, t.side, t.limit, t.price, |os|);
    if left == 0 || k < 0 then Taken(left, shown, os, [])
    else
      var q := Min(os[k].slice, shown);
      TakeKeeps(os, k, q);
      var r := FillFrom(TakeFrom(os, k, q), t, left - q, Refresh(shown - q, left - q, t.display));
      r.(fills := [MakeFill(t.side, t.id, os[k].id, os[k].price, q)] + r.fills)
  }

  function AddFill(r: Taken, fill: RefFill): Taken {
    r.(fills := [fill] + r.fills)
  }

  /** One fill and then the rest. */
  lemma {:induction false} FillUnfolds(os: seq<Lot>, t: Taker, left: nat, shown: nat, k: nat, q: nat, next: seq<Lot>,
        more: nat)
    requires AllKept(os) && Showing(left, shown, t.display) && left > 0
    requires k < |os| && k == FirstBest(os, t.side, t.limit, t.price, |os|)
    requires q == Min(os[k].slice, shown) && next == TakeFrom(os, k, q) && AllKept(next)
    requires more == Refresh(shown - q, left - q, t.display)
    ensures FillFrom(os, t, left, shown)
         == AddFill(FillFrom(next, t, left - q, more), MakeFill(t.side, t.id, os[k].id, os[k].price, q))
  {
  }

  lemma {:induction false} FillNext(os: seq<Lot>, t: Taker, left: nat, shown: nat)
    returns (q: nat, next: seq<Lot>, more: nat, fill: RefFill, r: Taken)
    requires AllKept(os) && Showing(left, shown, t.display) && left > 0
    requires FirstBest(os, t.side, t.limit, t.price, |os|) >= 0
    ensures 0 < q <= left && AllKept(next) && Showing(left - q, more, t.display) && r == FillFrom(os, t, left, shown)
    ensures r == AddFill(FillFrom(next, t, left - q, more), fill)
  {
    var k := FirstBest(os, t.side, t.limit, t.price, |os|);
    q := Min(os[k].slice, shown);
    next, more := TakeFrom(os, k, q), Refresh(shown - q, left - q, t.display);
    fill := MakeFill(t.side, t.id, os[k].id, os[k].price, q);
    TakeKeeps(os, k, q);
    r := FillFrom(os, t, left, shown);
    FillUnfolds(os, t, left, shown, k, q, next, more);
  }

  lemma {:induction false} FillKeeps(os: seq<Lot>, t: Taker, left: nat, shown: nat) returns (r: Taken)
    requires AllKept(os) && Showing(left, shown, t.display)
    ensures r == FillFrom(os, t, left, shown)
    ensures AllKept(r.orders) && Showing(r.left, r.shown, t.display)
    decreases left
  {
    if left == 0 || FirstBest(os, t.side, t.limit, t.price, |os|) < 0 {
      r := Taken(left, shown, os, []);
    } else {
      var q, next, more, fill, whole := FillNext(os, t, left, shown);
      var part := FillKeeps(next, t, left - q, more);
      r := whole;
    }
  }

  /** All there is within the limit. */
  function Available(os: seq<Lot>, side: Side, price: nat): nat
    decreases |os|
  {
    var k := FirstBest(os, side, true, price, |os|);
    if k < 0 then 0 else os[k].qty + Available(Remove(os, k), side, price)
  }

  /** One incoming order. */
  function Enter(os: seq<Lot>, o: Lot, kind: Kind): (seq<Lot>, seq<RefFill>)
    requires AllKept(os)
  {
    if kind.FillOrKill? && Available(os, o.side, o.price) < o.qty then (os, [])
    else
      var r := FillFrom(os, Taker(o.id, o.side, !kind.Market?, o.price, o.display), o.qty, Slice(o.display, o.qty));
      (if kind.Resting? && r.left > 0 then
         r.orders + [Lot(o.id, o.side, o.price, r.left, o.display, r.shown)]
       else r.orders, r.fills)
  }

  lemma EnterKeeps(os: seq<Lot>, o: Lot, kind: Kind)
    requires AllKept(os)
    ensures AllKept(Enter(os, o, kind).0)
  {
    var r := FillKeeps(os, Taker(o.id, o.side, !kind.Market?, o.price, o.display), o.qty, Slice(o.display, o.qty));
  }

  function Drop(os: seq<Lot>, id: string): seq<Lot>
    decreases |os|
  {
    if os == [] then []
    else
      var init, last := os[..|os| - 1], os[|os| - 1];
      if last.id == id then Drop(init, id) else Drop(init, id) + [last]
  }

  lemma {:induction false} DropKeeps(os: seq<Lot>, id: string)
    requires AllKept(os)
    ensures AllKept(Drop(os, id))
    decreases |os|
  {
    if os != [] { DropKeeps(os[..|os| - 1], id); }
  }

  // ── The reference as the source runs it ────────────────────────────────────

  /** r is reached by these fills and then s. */
  predicate Leads(r: Taken, fills: seq<RefFill>, s: Taken) {
    r.left == s.left && r.shown == s.shown && r.orders == s.orders && r.fills == fills + s.fills
  }

  lemma LeadsOn(r: Taken, fills: seq<RefFill>, fill: RefFill, s: Taken)
    requires Leads(r, fills, AddFill(s, fill))
    ensures Leads(r, fills + [fill], s)
  {
    assert fills + ([fill] + s.fills) == fills + [fill] + s.fills;
  }

  /** One turn of the filling loop. */
  lemma {:induction false} FillTurn(goal: Taken, r: Taken, t: Taker, k: nat, q: nat, fill: RefFill, next: Taken)
    requires AllKept(r.orders) && Showing(r.left, r.shown, t.display) && r.left > 0
    requires k < |r.orders| && k == FirstBest(r.orders, t.side, t.limit, t.price, |r.orders|)
    requires q == Min(r.orders[k].slice, r.shown)
    requires fill == MakeFill(t.side, t.id, r.orders[k].id, r.orders[k].price, q)
    requires next == Taken(r.left - q, Refresh(r.shown - q, r.left - q, t.display), TakeFrom(r.orders, k, q),
             r.fills + [fill])
    requires Leads(goal, r.fills, FillFrom(r.orders, t, r.left, r.shown))
    ensures 0 < q <= r.left && AllKept(next.orders) && Showing(next.left, next.shown, t.display)
    ensures Leads(goal, next.fills, FillFrom(next.orders, t, next.left, next.shown))
  {
    TakeKeeps(r.orders, k, q);
    FillUnfolds(r.orders, t, r.left, r.shown, k, q, next.orders, next.shown);
    LeadsOn(goal, r.fills, fill, FillFrom(next.orders, t, next.left, next.shown));
  }

  lemma FillStops(goal: Taken, r: Taken, t: Taker)
    requires AllKept(r.orders) && Showing(r.left, r.shown, t.display)
    requires r.left == 0 || FirstBest(r.orders, t.side, t.limit, t.price, |r.orders|) < 0
    requires Leads(goal, r.fills, FillFrom(r.orders, t, r.left, r.shown))
    ensures goal == r
  {
    assert r.fills + [] == r.fills;
  }

  /** Take from the first best order until nothing is left or none crosses. */
  method FillLoop(given: seq<Lot>, t: Taker, qty: nat, slice: nat) returns (r: Taken)
    requires AllKept(given) && Showing(qty, slice, t.display)
    ensures r == FillFrom(given, t, qty, slice)
  {
    r := Taken(qty, slice, given, []);
    ghost var goal := FillFrom(given, t, qty, slice);
    var k := FirstBest(given, t.side, t.limit, t.price, |given|);
    assert [] + goal.fills == goal.fills;
    while r.left > 0 && k >= 0
      invariant AllKept(r.orders) && Showing(r.left, r.shown, t.display)
      invariant k == FirstBest(r.orders, t.side, t.limit, t.price, |r.orders|)
      invariant Leads(goal, r.fills, FillFrom(r.orders, t, r.left, r.shown))
      decreases r.left
    {
      var q := Min(r.orders[k].slice, r.shown);
      var fill := MakeFill(t.side, t.id, r.orders[k].id, r.orders[k].price, q);
      var next := Taken(r.left - q, Refresh(r.shown - q, r.left - q, t.display), TakeFrom(r.orders, k, q),
        r.fills + [fill]);
      FillTurn(goal, r, t, k, q, fill, next);
      r := next;
      k := FirstBest(r.orders, t.side, t.limit, t.price, |r.orders|);
    }
    FillStops(goal, r, t);
  }

  /** Count and remove the best order as long as one crosses. */
  method Probe(given: seq<Lot>, side: Side, price: nat) returns (available: nat)
    ensures available == Available(given, side, price)
  {
    available := 0;
    var os := given;
    var k := FirstBest(os, side, true, price, |os|);
    while k >= 0
      invariant k == FirstBest(os, side, true, price, |os|)
      invariant Available(given, side, price) == available + Available(os, side, price)
      decreases |os|
    {
      available := available + os[k].qty;
      os := Remove(os, k);
      k := FirstBest(os, side, true, price, |os|);
    }
  }

  class SliceReference {
    var orders: seq<Lot>

    constructor ()
      ensures orders == []
    {
      orders := [];
    }

    /** A fill-or-kill order looks ahead first; the remainder of a limit that rests goes to the end. */
    method Submit(o: Lot, kind: Kind) returns (fills: seq<RefFill>)
      requires AllKept(orders)
      modifies this
      ensures (orders, fills) == Enter(old(orders), o, kind) && AllKept(orders)
    {
      EnterKeeps(orders, o, kind);
      if kind.FillOrKill? {
        var available := Probe(orders, o.side, o.price);
        if available < o.qty { return []; }
      }
      var r := FillLoop(orders, Taker(o.id, o.side, !kind.Market?, o.price, o.display), o.qty, Slice(o.display, o.qty));
      orders, fills := r.orders, r.fills;
      if kind.Resting? && r.left > 0 {
        orders := orders + [Lot(o.id, o.side, o.price, r.left, o.display, r.shown)];
      }
    }

    method Cancel(id: string)
      modifies this
      ensures orders == Drop(old(orders), id)
    {
      var kept: seq<Lot>, i := [], 0;
      while i < |orders|
        invariant i <= |orders| && orders == old(orders) && kept == Drop(orders[..i], id)
      {
        assert orders[..i + 1][..i] == orders[..i];
        if orders[i].id != id { kept := kept + [orders[i]]; }
        i := i + 1;
      }
      assert orders[..i] == orders;
      orders := kept;
    }
  }
}
