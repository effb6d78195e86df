/** The reference matcher: a flat list of resting orders, scanned for the best one at every fill. */
module RefBook {
  import opened OrderBook

  datatype RefOrder = RefOrder(id: string, side: Side, price: nat, qty: nat, arrival: nat)

  datatype RefFill = RefFill(buy: string, sell: string, price: nat, qty: nat)

  predicate Candidate(o: RefOrder, side: Side, price: nat) {
    o.side != side && Reaches(side, true, price, o.price)
  }

  /** Better priced, or equally priced and earlier. */
  predicate Sooner(a: RefOrder, b: RefOrder) {
    Better(a.side, a.price, b.price) || (a.price == b.price && a.arrival < b.arrival)
  }

  /** The best candidate among the first n orders; -1 if there is none. */
  function BestOf(os: seq<RefOrder>, side: Side, price: nat, n: nat): (k: int)
    requires n <= |os|
    ensures -1 <= k < n && (k >= 0 ==> Candidate(os[k], side, price))
    decreases n
  {
    if n == 0 then -1
    else
      var k, o := BestOf(os, side, price, n - 1), os[n - 1];
      if Candidate(o, side, price) && (k < 0 || Sooner(o, os[k])) then n - 1 else k
  }

  /** No candidate is sooner than the best one. */
  lemma {:induction false} NoneSooner(os: seq<RefOrder>, side: Side, price: nat, n: nat, i: nat)
    requires i < n <= |os| && Candidate(os[i], side, price)
    ensures var k := BestOf(os, side, price, n); k >= 0 && !Sooner(os[i], os[k])
    decreases n
  {
    if i < n - 1 { NoneSooner(os, side, price, n - 1, i); }
  }

  function Take(os: seq<RefOrder>, k: nat, q: nat): seq<RefOrder>
    requires k < |os|
  {
    if os[k].qty <= q then os[..k] + os[k + 1..] else os[k := os[k].(qty := os[k].qty - q)]
  }

  function MakeFill(side: Side, id: string, other: string, price: nat, q: nat): RefFill {
    if side.Buy? then RefFill(id, other, price, q) else RefFill(other, id, price, q)
  }

  predicate AllPositive(os: seq<RefOrder>) {
    forall i :: 0 <= i < |os| ==> os[i].qty > 0
  }

  /** What is left of an incoming quantity, the orders that stay, and the fills. */
  datatype Matched = Matched(left: nat, orders: seq<RefOrder>, fills: seq<RefFill>)

  function MatchAgainst(os: seq<RefOrder>, id: string, side: Side, price: nat, qty: nat): Matched
    requires AllPositive(os)
    decreases qty
  {
    var k := BestOf(os, side, price, |os|);
    if qty == 0 || k < 0 then Matched(qty, os, [])
    else
      var q := Min(qty, os[k].qty);
      TakePositive(os, k, q);
      var r := MatchAgainst(Take(os, k, q), id, side, price, qty - q);
      Matched(r.left, r.orders, [MakeFill(side, id, os[k].id, os[k].price, q)] + r.fills)
  }

  function Retain(os: seq<RefOrder>, id: string): seq<RefOrder> {
    if os == [] then [] else if os[|os| - 1].id == id then Retain(os[..|os| - 1], id)
    else Retain(os[..|os| - 1], id) + [os[|os| - 1]]
  }

  /** r is reached by these fills and then s. */
  predicate Leads(r: Matched, fills: seq<RefFill>, s: Matched) {
    r.left == s.left && r.orders == s.orders && r.fills == fills + s.fills
  }

  lemma LeadsOn(r: Matched, fills: seq<RefFill>, fill: RefFill, s: Matched)
    requires Leads(r, fills, s.(fills := [fill] + s.fills))
    ensures Leads(r, fills + [fill], s)
  {
    assert fills + ([fill] + s.fills) == fills + [fill] + s.fills;
  }

  lemma TakePositive(os: seq<RefOrder>, k: nat, q: nat)
    requires k < |os| && AllPositive(os)
    ensures AllPositive(Take(os, k, q))
  {
  }

  /** The matching loop: take from the best candidate until nothing is left or none remains. */
  method MatchLoop(given: seq<RefOrder>, id: string, side: Side, price: nat, qty: nat) returns (r: Matched)
    requires AllPositive(given)
    ensures r == MatchAgainst(given, id, side, price, qty)
  {
    r := Matched(qty, given, []);
    ghost var goal := MatchAgainst(given, id, side, price, qty);
    var k := BestOf(given, side, price, |given|);
    assert [] + goal.fills == goal.fills;
    while r.left > 0 && k >= 0
      invariant AllPositive(r.orders) && k == BestOf(r.orders, side, price, |r.orders|)
      invariant Leads(goal, r.fills, MatchAgainst(r.orders, id, side, price, r.left))
      decreases r.left
    {
      var q := Min(r.left, r.orders[k].qty);
      var fill := MakeFill(side, id, r.orders[k].id, r.orders[k].price, q);
      var taken := Take(r.orders, k, q);
      TakePositive(r.orders, k, q);
      LeadsOn(goal, r.fills, fill, MatchAgainst(taken, id, side, price, r.left - q));
      r := Matched(r.left - q, taken, r.fills + [fill]);
      k := BestOf(taken, side, price, |taken|);
    }
    assert r.fills + [] == r.fills;
  }

  /** The reference book as the source runs it. */
  class Reference {
    var orders: seq<RefOrder>
    var count: nat

    constructor ()
      ensures orders == [] && count == 0
    {
      orders, count := [], 0;
    }

    /** Best price first, then earliest arrival, always at the resting price; the remainder rests if asked. */
    method Submit(id: string, side: Side, price: nat, qty: nat, rest: bool) returns (fills: seq<RefFill>)
      requires AllPositive(orders)
      modifies this
      ensures var r := MatchAgainst(old(orders), id, side, price, qty);
              fills == r.fills
              && orders == (if rest && r.left > 0 then r.orders + [RefOrder(id, side, price, r.left, old(count) + 1)]
                 else r.orders)
              && count == if rest && r.left > 0 then old(count) + 1 else old(count)
    {
      var r := MatchLoop(orders, id, side, price, qty);
      orders, fills := r.orders, r.fills;
      if rest && r.left > 0 {
        count := count + 1;
        orders := orders + [RefOrder(id, side, price, r.left, count)];
      }
    }

    method Cancel(id: string)
      modifies this
      ensures orders == Retain(old(orders), id) && count == old(count)
    {
      var kept, i := [], 0;
      while i < |orders|
        invariant i <= |orders| && orders == old(orders) && kept == Retain(orders[..i], id) && count == old(count)
      {
        assert orders[..i + 1][..i] == orders[..i];
        if orders[i].id != id { kept := kept + [orders[i]]; }
        i := i + 1;
      }
      assert orders[..i] == orders;
      orders := kept;
    }
  }
}
