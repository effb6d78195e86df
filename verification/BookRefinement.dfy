/** The book refines the reference matcher with hidden quantity: over every run of resting, immediate, market and
    fill-or-kill orders and cancels without self-trade prevention, both give the same fills and hold the same
    orders. Without hidden quantity that is also what the plain reference matcher gives. */
module BookRefinement {
  import opened OrderBook
  import opened BookSafety
  import opened RefBook
  import opened SliceBook
  import opened FillOrKill

  /** What both sides know of a resting order. */
  datatype Slim = Slim(id: string, price: nat, qty: nat, display: nat, shown: nat)

  function SlimOf(o: Order): Slim {
    Slim(o.id, o.price, o.qty, o.display, o.visible)
  }

  function Bare(o: Lot): Slim {
    Slim(o.id, o.price, o.qty, o.display, o.slice)
  }

  predicate Fit(o: Slim) {
    1 <= o.shown <= o.qty && (o.display == 0 ==> o.shown == o.qty)
  }

  predicate AllFit(os: seq<Slim>) {
    forall i :: 0 <= i < |os| ==> Fit(os[i])
  }

  function Slims(os: seq<Order>): seq<Slim> {
    if os == [] then [] else [SlimOf(os[0])] + Slims(os[1..])
  }

  function Place(side: Side, os: seq<Slim>, o: Slim): seq<Slim> {
    if os == [] || Better(side, o.price, os[0].price) then [o] + os else [os[0]] + Place(side, os[1..], o)
  }

  /** One side of the reference list in priority order. */
  function Arranged(side: Side, os: seq<Lot>): seq<Slim> {
    if os == [] then []
    else
      var init, last := os[..|os| - 1], os[|os| - 1];
      if last.side == side then Place(side, Arranged(side, init), Bare(last)) else Arranged(side, init)
  }

  /** Quantity q goes from the head, which leaves, goes behind its price with a new slice, or stays. */
  function TakeHead(side: Side, os: seq<Slim>, q: nat): seq<Slim>
    requires os != [] && q <= os[0].shown <= os[0].qty
  {
    var h := os[0].(qty := os[0].qty - q, shown := os[0].shown - q);
    if h.qty == 0 then os[1..]
    else if h.shown == 0 then Place(side, os[1..], h.(shown := Min(h.qty, h.display)))
    else [h] + os[1..]
  }

  lemma {:induction false} PlaceFits(side: Side, os: seq<Slim>, o: Slim)
    requires AllFit(os) && Fit(o)
    ensures AllFit(Place(side, os, o))
  {
    if os != [] && !Better(side, o.price, os[0].price) { PlaceFits(side, os[1..], o); }
  }

  lemma TakeFits(side: Side, os: seq<Slim>, q: nat)
    requires os != [] && AllFit(os) && q <= os[0].shown
    ensures AllFit(TakeHead(side, os, q))
  {
    var h := os[0].(qty := os[0].qty - q, shown := os[0].shown - q);
    if h.qty > 0 && h.shown == 0 { PlaceFits(side, os[1..], h.(shown := Min(h.qty, h.display))); }
  }

  /** Matching on arranged slims: the yardstick both matchers are measured by. */
  datatype Done = Done(left: nat, shown: nat, rest: seq<Slim>, fills: seq<RefFill>)

  function Consume(t: Taker, os: seq<Slim>, left: nat, shown: nat): Done
    requires AllFit(os) && Showing(left, shown, t.display)
    decreases left
  {
    if left == 0 || os == [] || !Reaches(t.side, t.limit, t.price, os[0].price) then Done(left, shown, os, [])
    else
      var q := Min(os[0].shown, shown);
      TakeFits(Opposite(t.side), os, q);
      var c := Consume(t, TakeHead(Opposite(t.side), os, q), left - q, Refresh(shown - q, left - q, t.display));
      c.(fills := [MakeFill(t.side, t.id, os[0].id, os[0].price, q)] + c.fills)
  }

  // ── The reference matcher ──────────────────────────────────────────────────

  lemma PlaceCons(side: Side, head: Slim, tail: seq<Slim>, o: Slim)
    requires !Better(side, o.price, head.price)
    ensures Place(side, [head] + tail, o) == [head] + Place(side, tail, o)
  {
    assert ([head] + tail)[1..] == tail;
  }

  lemma ArrangedSnoc(side: Side, os: seq<Lot>, last: Lot)
    ensures Arranged(side, os + [last])
         == if last.side == side then Place(side, Arranged(side, os), Bare(last)) else Arranged(side, os)
  {
    assert (os + [last])[..|os|] == os;
  }

  /** The first best order of a side. */
  function Top(side: Side, os: seq<Lot>): (k: int)
    ensures -1 <= k < |os| && (k >= 0 ==> os[k].side == side)
    decreases |os|
  {
    if os == [] then -1
    else
      var init, last := os[..|os| - 1], os[|os| - 1];
      var k := Top(side, init);
      if last.side == side && (k < 0 || Better(side, last.price, init[k].price)) then |os| - 1 else k
  }

  lemma {:induction false} TopLeads(side: Side, os: seq<Lot>)
    ensures var k, a := Top(side, os), Arranged(side, os); if k < 0 then a == [] else a != [] && a[0] == Bare(os[k])
    decreases |os|
  {
    if os != [] { TopLeads(side, os[..|os| - 1]); }
  }

  /** The best order that crosses is the first best order, if that one is within the limit. */
  lemma {:induction false} BestIsTop(os: seq<Lot>, side: Side, limit: bool, price: nat, n: nat)
    requires n <= |os|
    ensures var k := Top(Opposite(side), os[..n]);
            FirstBest(os, side, limit, price, n) == if k >= 0 && Reaches(side, limit, price, os[k].price) then k else -1
    decreases n
  {
    if n > 0 {
      BestIsTop(os, side, limit, price, n - 1);
      assert os[..n][..n - 1] == os[..n - 1] && os[..n][n - 1] == os[n - 1];
    }
  }

  lemma RemoveSnoc(init: seq<Lot>, last: Lot, k: nat)
    requires k <= |init|
    ensures Remove(init + [last], k) == if k == |init| then init else Remove(init, k) + [last]
  {
  }

  /** Removing the first best order removes the head of its arranged side and leaves the other. */
  lemma {:induction false} RemoveTop(side: Side, os: seq<Lot>)
    requires Top(side, os) >= 0
    ensures Arranged(side, os) != [] && Arranged(side, Remove(os, Top(side, os))) == Arranged(side, os)[1..]
    ensures Arranged(Opposite(side), Remove(os, Top(side, os))) == Arranged(Opposite(side), os)
    decreases |os|
  {
    var init, last, k := os[..|os| - 1], os[|os| - 1], Top(side, os);
    assert os == init + [last];
    TopLeads(side, os);
    TopLeads(side, init);
    ArrangedSnoc(side, init, last);
    ArrangedSnoc(Opposite(side), init, last);
    RemoveSnoc(init, last, k);
    if k < |init| {
      RemoveTop(side, init);
      ArrangedSnoc(side, Remove(init, k), last);
      ArrangedSnoc(Opposite(side), Remove(init, k), last);
      if last.side == side { PlaceTail(side, Arranged(side, init), Bare(last)); }
    }
  }

  lemma PlaceTail(side: Side, a: seq<Slim>, o: Slim)
    requires a != [] && !Better(side, o.price, a[0].price)
    ensures Place(side, a, o)[1..] == Place(side, a[1..], o) && Place(side, a, o)[0] == a[0]
  {
  }

  /** Replacing the first best order by one of its price replaces the head. */
  lemma {:induction false} ReplaceTop(side: Side, os: seq<Lot>, o: Lot)
    requires Top(side, os) >= 0 && o.side == side && o.price == os[Top(side, os)].price
    ensures Arranged(side, os) != []
    ensures Arranged(side, os[Top(side, os) := o]) == [Bare(o)] + Arranged(side, os)[1..]
    ensures Arranged(Opposite(side), os[Top(side, os) := o]) == Arranged(Opposite(side), os)
    decreases |os|
  {
    var init, last, k := os[..|os| - 1], os[|os| - 1], Top(side, os);
    assert os == init + [last];
    TopLeads(side, os);
    TopLeads(side, init);
    ArrangedSnoc(side, init, last);
    ArrangedSnoc(Opposite(side), init, last);
    if k == |init| {
      assert os[k := o] == init + [o];
      ArrangedSnoc(side, init, o);
      ArrangedSnoc(Opposite(side), init, o);
    } else {
      assert os[k := o] == init[k := o] + [last];
      ReplaceTop(side, init, o);
      ArrangedSnoc(side, init[k := o], last);
      ArrangedSnoc(Opposite(side), init[k := o], last);
      if last.side == side {
        PlaceTail(side, Arranged(side, init), Bare(last));
        PlaceCons(side, Bare(o), Arranged(side, init)[1..], Bare(last));
      }
    }
  }

  /** The arranged side is its first best order and the rest. */
  lemma {:induction false} TopSplits(side: Side, os: seq<Lot>) returns (k: nat, rest: seq<Slim>)
    requires Top(side, os) >= 0
    ensures k == Top(side, os) && Arranged(side, os) == [Bare(os[k])] + rest
    ensures Arranged(side, Remove(os, k)) == rest
    ensures Arranged(Opposite(side), Remove(os, k)) == Arranged(Opposite(side), os)
  {
    TopLeads(side, os);
    RemoveTop(side, os);
    k, rest := Top(side, os), Arranged(side, os)[1..];
  }

  lemma TakeHeadCons(side: Side, head: Slim, tail: seq<Slim>, q: nat)
    requires q <= head.shown <= head.qty
    ensures var h := head.(qty := head.qty - q, shown := head.shown - q);
            TakeHead(side, [head] + tail, q)
            == if h.qty == 0 then tail
               else if h.shown == 0 then Place(side, tail, h.(shown := Min(h.qty, h.display)))
               else [h] + tail
  {
    assert ([head] + tail)[1..] == tail;
  }

  lemma {:induction false} TakenArranged(side: Side, os: seq<Lot>, q: nat, k: nat, rest: seq<Slim>, o: Lot)
    requires k == Top(side, os) && q <= os[k].slice <= os[k].qty && Arranged(side, os) == [Bare(os[k])] + rest
    requires Arranged(side, Remove(os, k)) == rest
    requires Arranged(Opposite(side), Remove(os, k)) == Arranged(Opposite(side), os)
    requires o == os[k].(qty := os[k].qty - q, slice := os[k].slice - q)
    ensures var next := TakeFrom(os, k, q);
            Arranged(Opposite(side), next) == Arranged(Opposite(side), os)
            && Arranged(side, next)
               == if o.qty == 0 then rest
                  else if o.slice == 0 then Place(side, rest, Bare(o.(slice := Min(o.qty, o.display))))
                  else [Bare(o)] + rest
  {
    if o.qty == 0 {
    } else if o.slice == 0 {
      Renewed(side, Remove(os, k), o.(slice := Min(o.qty, o.display)), rest, TakeFrom(os, k, q));
    } else {
      Stayed(side, os, k, o, rest, TakeFrom(os, k, q));
    }
  }

  lemma {:induction false} TopTaken(side: Side, os: seq<Lot>, q: nat, k: nat)
      returns (rest: seq<Slim>, taken: seq<Slim>)
    requires k == Top(side, os) && q <= os[k].slice <= os[k].qty
    ensures Arranged(side, os) == [Bare(os[k])] + rest
    ensures Arranged(side, TakeFrom(os, k, q)) == taken
    ensures Arranged(Opposite(side), TakeFrom(os, k, q)) == Arranged(Opposite(side), os)
    ensures var o := os[k].(qty := os[k].qty - q, slice := os[k].slice - q);
            taken == if o.qty == 0 then rest
                     else if o.slice == 0 then Place(side, rest, Bare(o.(slice := Min(o.qty, o.display))))
                     else [Bare(o)] + rest
  {
    var top;
    top, rest := TopSplits(side, os);
    TakenArranged(side, os, q, k, rest, os[k].(qty := os[k].qty - q, slice := os[k].slice - q));
    taken := Arranged(side, TakeFrom(os, k, q));
  }

  lemma {:induction false} HeadTaken(side: Side, o: Lot, q: nat, rest: seq<Slim>, taken: seq<Slim>)
      returns (a: seq<Slim>)
    requires q <= o.slice <= o.qty
    requires var r := o.(qty := o.qty - q, slice := o.slice - q);
             taken == if r.qty == 0 then rest
                      else if r.slice == 0 then Place(side, rest, Bare(r.(slice := Min(r.qty, r.display))))
                      else [Bare(r)] + rest
    ensures a == [Bare(o)] + rest && a != [] && a[0] == Bare(o) && taken == TakeHead(side, a, q)
  {
    a := [Bare(o)] + rest;
    TakeHeadCons(side, Bare(o), rest, q);
  }

  /** Taking from the first best order takes from the head of its arranged side and leaves the other. */
  lemma {:induction false} TakeArranged(side: Side, os: seq<Lot>, q: nat, k: nat, next: seq<Lot>) returns (a: seq<Slim>)
    requires k == Top(side, os) && q <= os[k].slice <= os[k].qty && next == TakeFrom(os, k, q)
    ensures a == Arranged(side, os) && a != [] && a[0] == Bare(os[k]) && Arranged(side, next) == TakeHead(side, a, q)
    ensures Arranged(Opposite(side), next) == Arranged(Opposite(side), os)
  {
    var rest, taken := TopTaken(side, os, q, k);
    a := HeadTaken(side, os[k], q, rest, taken);
  }

  lemma {:induction false} Stayed(side: Side, os: seq<Lot>, k: nat, o: Lot, rest: seq<Slim>, next: seq<Lot>)
    requires k == Top(side, os) && Arranged(side, os) == [Bare(os[k])] + rest
    requires o.side == side && o.price == os[k].price && next == os[k := o]
    ensures Arranged(side, next) == [Bare(o)] + rest && Arranged(Opposite(side), next) == Arranged(Opposite(side), os)
  {
    assert ([Bare(os[k])] + rest)[1..] == rest;
    ReplaceTop(side, os, o);
  }

  lemma Renewed(side: Side, os: seq<Lot>, o: Lot, a: seq<Slim>, next: seq<Lot>)
    requires Arranged(side, os) == a && o.side == side && next == os + [o]
    ensures Arranged(side, next) == Place(side, a, Bare(o))
    ensures Arranged(Opposite(side), next) == Arranged(Opposite(side), os)
  {
    ArrangedSnoc(side, os, o);
    ArrangedSnoc(Opposite(side), os, o);
  }

  lemma {:induction false} ArrangedFits(side: Side, os: seq<Lot>)
    requires AllKept(os)
    ensures AllFit(Arranged(side, os))
    decreases |os|
  {
    if os != [] {
      ArrangedFits(side, os[..|os| - 1]);
      PlaceFits(side, Arranged(side, os[..|os| - 1]), Bare(os[|os| - 1]));
    }
  }

  /** The reference matcher did what the yardstick says. */
  predicate Consumed(t: Taker, os: seq<Lot>, r: Taken, c: Done) {
    r.left == c.left && r.shown == c.shown && r.fills == c.fills && Arranged(Opposite(t.side), r.orders) == c.rest
    && Arranged(t.side, r.orders) == Arranged(t.side, os)
  }

  function AddDone(c: Done, fill: RefFill): Done {
    c.(fills := [fill] + c.fills)
  }

  lemma {:induction false} ConsumeMore(t: Taker, os: seq<Slim>, left: nat, shown: nat)
    returns (q: nat, next: seq<Slim>, more: nat, fill: RefFill, c: Done)
    requires AllFit(os) && Showing(left, shown, t.display)
    requires left > 0 && os != [] && Reaches(t.side, t.limit, t.price, os[0].price)
    ensures q == Min(os[0].shown, shown) && 0 < q <= left && q <= os[0].shown <= os[0].qty
    ensures next == TakeHead(Opposite(t.side), os, q) && AllFit(next)
    ensures more == Refresh(shown - q, left - q, t.display) && Showing(left - q, more, t.display)
    ensures fill == MakeFill(t.side, t.id, os[0].id, os[0].price, q)
    ensures c == Consume(t, os, left, shown)
    ensures c == AddDone(Consume(t, next, left - q, more), fill)
  {
    q := Min(os[0].shown, shown);
    c := Consume(t, os, left, shown);
    TakeFits(Opposite(t.side), os, q);
    next, more := TakeHead(Opposite(t.side), os, q), Refresh(shown - q, left - q, t.display);
    fill := MakeFill(t.side, t.id, os[0].id, os[0].price, q);
  }

  lemma {:induction false} ReferenceStops(os: seq<Lot>, t: Taker, left: nat, shown: nat)
    requires AllKept(os) && Showing(left, shown, t.display)
    requires left == 0 || FirstBest(os, t.side, t.limit, t.price, |os|) < 0
    ensures var a := Arranged(Opposite(t.side), os);
            AllFit(a) && Consume(t, a, left, shown) == Done(left, shown, a, [])
  {
    ArrangedFits(Opposite(t.side), os);
    assert os[..|os|] == os;
    BestIsTop(os, t.side, t.limit, t.price, |os|);
    TopLeads(Opposite(t.side), os);
  }

  lemma ConsumedOn(t: Taker, os: seq<Lot>, next: seq<Lot>, r: Taken, c: Done, fill: RefFill)
    requires Consumed(t, next, r, c) && Arranged(t.side, next) == Arranged(t.side, os)
    ensures Consumed(t, os, AddFill(r, fill), AddDone(c, fill))
  {
  }

  /** One fill of the reference, seen on its arranged sides. */
  lemma {:induction false} ReferenceFill(os: seq<Lot>, t: Taker, left: nat, shown: nat)
    returns (q: nat, next: seq<Lot>, was: seq<Slim>, more: nat, fill: RefFill, r: Taken)
    requires AllKept(os) && Showing(left, shown, t.display) && left > 0
    requires FirstBest(os, t.side, t.limit, t.price, |os|) >= 0
    ensures was == Arranged(Opposite(t.side), os) && AllFit(was)
    ensures was != [] && Reaches(t.side, t.limit, t.price, was[0].price) && q == Min(was[0].shown, shown)
    ensures 0 < q <= left && AllKept(next) && more == Refresh(shown - q, left - q, t.display)
    ensures Arranged(Opposite(t.side), next) == TakeHead(Opposite(t.side), was, q)
    ensures Arranged(t.side, next) == Arranged(t.side, os) && Showing(left - q, more, t.display)
    ensures fill == MakeFill(t.side, t.id, was[0].id, was[0].price, q)
    ensures r == FillFrom(os, t, left, shown)
    ensures r == AddFill(FillFrom(next, t, left - q, more), fill)
  {
    var k := FirstBest(os, t.side, t.limit, t.price, |os|);
    q := Min(os[k].slice, shown);
    TakeKeeps(os, k, q);
    next, more := TakeFrom(os, k, q), Refresh(shown - q, left - q, t.display);
    fill := MakeFill(t.side, t.id, os[k].id, os[k].price, q);
    was := ReferenceTakes(os, t, k, q, next);
    r := FillFrom(os, t, left, shown);
    FillUnfolds(os, t, left, shown, k, q, next, more);
  }

  /** One fill of both. */
  lemma {:induction false} BothFill(os: seq<Lot>, t: Taker, left: nat, shown: nat)
    returns (q: nat, next: seq<Lot>, a: seq<Slim>, more: nat, fill: RefFill, r: Taken, c: Done)
    requires AllKept(os) && Showing(left, shown, t.display) && left > 0
    requires FirstBest(os, t.side, t.limit, t.price, |os|) >= 0
    ensures 0 < q <= left && AllKept(next) && Showing(left - q, more, t.display)
    ensures Arranged(t.side, next) == Arranged(t.side, os) && AllFit(a) && a == Arranged(Opposite(t.side), next)
    ensures r == FillFrom(os, t, left, shown)
    ensures r == AddFill(FillFrom(next, t, left - q, more), fill)
    ensures AllFit(Arranged(Opposite(t.side), os)) && c == Consume(t, Arranged(Opposite(t.side), os), left, shown)
    ensures c == AddDone(Consume(t, a, left - q, more), fill)
  {
    var was, less, rest, same;
    q, next, was, more, fill, r := ReferenceFill(os, t, left, shown);
    less, a, rest, same, c := ConsumeMore(t, was, left, shown);
  }

  /** The reference matcher consumes the arranged opposite side. */
  lemma {:induction false} ReferenceConsumes(os: seq<Lot>, t: Taker, left: nat, shown: nat) returns (r: Taken, c: Done)
    requires AllKept(os) && Showing(left, shown, t.display)
    ensures r == FillFrom(os, t, left, shown)
    ensures AllFit(Arranged(Opposite(t.side), os)) && c == Consume(t, Arranged(Opposite(t.side), os), left, shown)
    ensures Consumed(t, os, r, c)
    decreases left
  {
    if left == 0 || FirstBest(os, t.side, t.limit, t.price, |os|) < 0 {
      ReferenceStops(os, t, left, shown);
      r, c := Taken(left, shown, os, []), Done(left, shown, Arranged(Opposite(t.side), os), []);
    } else {
      var q, next, a, more, fill, filled, done := BothFill(os, t, left, shown);
      var part, less := ReferenceConsumes(next, t, left - q, more);
      ConsumedOn(t, os, next, part, less, fill);
      r, c := filled, done;
    }
  }

  lemma {:induction false} ReferenceTakes(os: seq<Lot>, t: Taker, k: nat, q: nat, next: seq<Lot>) returns (a: seq<Slim>)
    requires AllKept(os) && k < |os| && k == FirstBest(os, t.side, t.limit, t.price, |os|) && q <= os[k].slice
    requires next == TakeFrom(os, k, q)
    ensures a == Arranged(Opposite(t.side), os) && AllFit(a)
    ensures a != [] && a[0] == Bare(os[k]) && Reaches(t.side, t.limit, t.price, a[0].price)
    ensures Arranged(Opposite(t.side), next) == TakeHead(Opposite(t.side), a, q)
    ensures Arranged(t.side, next) == Arranged(t.side, os)
  {
    assert os[..|os|] == os;
    BestIsTop(os, t.side, t.limit, t.price, |os|);
    ArrangedFits(Opposite(t.side), os);
    a := TakeArranged(Opposite(t.side), os, q, k, next);
  }

  // ── The book ───────────────────────────────────────────────────────────────

  /** Without self-trade prevention. */
  predicate AllQuiet(os: seq<Order>) {
    os == [] || (os[0].mode.NoPrevention? && AllQuiet(os[1..]))
  }

  function FillOf(e: Event): seq<RefFill> {
    if e.Traded? then [RefFill(e.buy, e.sell, e.price, e.qty)] else []
  }

  function FillsOf(es: seq<Event>): seq<RefFill> {
    if es == [] then [] else FillOf(es[0]) + FillsOf(es[1..])
  }

  lemma Regroup(a: seq<RefFill>, b: seq<RefFill>, c: seq<RefFill>)
    ensures a + (b + c) == (a + b) + c
  {
  }

  lemma {:induction false} FillsConcat(a: seq<Event>, b: seq<Event>)
    ensures FillsOf(a + b) == FillsOf(a) + FillsOf(b)
  {
    if a == [] {
      assert a + b == b;
    } else {
      assert (a + b)[1..] == a[1..] + b;
      FillsConcat(a[1..], b);
      Regroup(FillOf(a[0]), FillsOf(a[1..]), FillsOf(b));
    }
  }

  lemma {:induction false} SlimsInsert(os: seq<Order>, o: Order)
    ensures Slims(Insert(os, o)) == Place(o.side, Slims(os), SlimOf(o))
  {
    if os == [] || Better(o.side, o.price, os[0].price) {
      assert ([o] + os)[1..] == os;
    } else {
      SlimsInsert(os[1..], o);
      assert ([os[0]] + Insert(os[1..], o))[1..] == Insert(os[1..], o);
      assert Slims(os)[1..] == Slims(os[1..]);
    }
  }

  lemma {:induction false} QuietInsert(os: seq<Order>, o: Order)
    requires AllQuiet(os) && o.mode.NoPrevention?
    ensures AllQuiet(Insert(os, o))
  {
    if os == [] || Better(o.side, o.price, os[0].price) {
      assert ([o] + os)[1..] == os;
    } else {
      QuietInsert(os[1..], o);
      assert ([os[0]] + Insert(os[1..], o))[1..] == Insert(os[1..], o);
    }
  }

  lemma {:induction false} SlimsFit(os: seq<Order>, side: Side)
    requires AllSane(os, side)
    ensures AllFit(Slims(os)) && (os != [] ==> Slims(os) == [SlimOf(os[0])] + Slims(os[1..]))
  {
    if os != [] { SlimsFit(os[1..], side); }
  }

  /** What becomes of an order that gives up q of its slice, and of the queue behind it. */
  lemma {:induction false} OrderTaken(top: Order, rest: seq<Order>, q: nat, arrivals: nat) returns (r: seq<Order>)
    requires Sane(top) && top.mode.NoPrevention? && AllQuiet(rest) && 0 < q <= top.visible
    ensures var hit := Fill(top, q); r == Requeue(rest, Replenish(hit, arrivals), Exhausted(hit))
    ensures Slims(r) == TakeHead(top.side, [SlimOf(top)] + Slims(rest), q) && AllQuiet(r)
  {
    var hit := Fill(top, q);
    r := Requeue(rest, Replenish(hit, arrivals), Exhausted(hit));
    TakeHeadCons(top.side, SlimOf(top), Slims(rest), q);
    if hit.qty > 0 && Exhausted(hit) {
      SlimsInsert(rest, Replenish(hit, arrivals));
      QuietInsert(rest, Replenish(hit, arrivals));
    } else if hit.qty > 0 {
      assert ([hit] + rest)[1..] == rest;
    }
  }

  // ── Sweeps ─────────────────────────────────────────────────────────────────

  function TakerOf(o: Order, limit: bool): Taker {
    Taker(o.id, o.side, limit, o.price, o.display)
  }

  /** The sweep from w ended as the yardstick says. */
  predicate Shows(w: Sweep, r: Sweep, c: Done) {
    r.left == c.left && Slims(r.opposite) == c.rest && FillsOf(r.events) == FillsOf(w.events) + c.fills
    && !r.stopped && AllQuiet(r.opposite)
  }

  lemma ShowsOn(w: Sweep, next: Sweep, r: Sweep, c: Done, fill: RefFill)
    requires Shows(next, r, c) && FillsOf(next.events) == FillsOf(w.events) + [fill]
    ensures Shows(w, r, AddDone(c, fill))
  {
    assert FillsOf(w.events) + [fill] + c.fills == FillsOf(w.events) + ([fill] + c.fills);
  }

  /** One hit. */
  lemma {:induction false} HitTakes(a: Order, w: Sweep) returns (next: Sweep, q: nat)
    requires w.left > 0 && !w.stopped && w.opposite != [] && AllSane(w.opposite, Opposite(a.side))
    requires a.mode.NoPrevention? && AllQuiet(w.opposite)
    ensures next == Hit(a, w) && !next.stopped && q == Min(w.opposite[0].visible, w.left) && next.left == w.left - q
    ensures AllSane(next.opposite, Opposite(a.side)) && AllQuiet(next.opposite) && 0 < q <= w.opposite[0].visible
    ensures Slims(next.opposite) == TakeHead(Opposite(a.side), [SlimOf(w.opposite[0])] + Slims(w.opposite[1..]), q)
    ensures FillsOf(next.events)
         == FillsOf(w.events) + [MakeFill(a.side, a.id, w.opposite[0].id, w.opposite[0].price, q)]
  {
    var top := w.opposite[0];
    next, q := Hit(a, w), Min(top.visible, w.left);
    HitShrinks(a, w);
    var _ := OrderTaken(top, w.opposite[1..], q, w.arrivals);
    var e := if a.side.Buy? then Traded(a.id, top.id, top.price, q, true)
      else Traded(top.id, a.id, top.price, q, false);
    FillsConcat(w.events, [e]);
    assert [e][1..] == [];
  }

  /** A sweep by an order without hidden quantity consumes the opposite side. */
  lemma {:induction false} SweepConsumes(a: Order, limit: bool, w: Sweep, t: Taker)
    returns (r: Sweep, os: seq<Slim>, c: Done)
    requires a.mode.NoPrevention? && a.display == 0 && !w.stopped && AllSane(w.opposite, Opposite(a.side))
    requires AllQuiet(w.opposite) && t == TakerOf(a, limit)
    ensures r == SweepAll(a, limit, w) && os == Slims(w.opposite) && AllFit(os)
    ensures c == Consume(t, os, w.left, w.left) && Shows(w, r, c)
    decreases w.left
  {
    SlimsFit(w.opposite, Opposite(a.side));
    os := Slims(w.opposite);
    if w.left == 0 || w.opposite == [] || !Reaches(a.side, limit, a.price, w.opposite[0].price) {
      assert FillsOf(w.events) + [] == FillsOf(w.events);
      r, c := w, Done(w.left, w.left, os, []);
    } else {
      var next, q := HitTakes(a, w);
      var less, rest, more, fill, whole := ConsumeMore(t, os, w.left, w.left);
      var same, part;
      r, same, part := SweepConsumes(a, limit, next, t);
      SweepUnfolds(a, limit, w, next);
      ShowsOn(w, next, r, part, fill);
      c := whole;
    }
  }

  lemma SweepUnfolds(a: Order, limit: bool, w: Sweep, next: Sweep)
    requires w.left > 0 && !w.stopped && w.opposite != [] && AllSane(w.opposite, Opposite(a.side))
    requires Reaches(a.side, limit, a.price, w.opposite[0].price) && next == Hit(a, w)
    ensures AllSane(next.opposite, Opposite(a.side)) && SweepAll(a, limit, w) == SweepAll(a, limit, next)
  {
    HitShrinks(a, w);
  }

  // ── A resting order that crosses ───────────────────────────────────────────

  function Sides(side: Side, own: seq<Order>, opp: seq<Order>, n: nat): Book {
    if side.Buy? then Book(own, opp, n) else Book(opp, own, n)
  }

  predicate Absent(os: seq<Slim>, id: string) {
    os == [] || (os[0].id != id && Absent(os[1..], id))
  }

  lemma {:induction false} AbsentPlace(side: Side, os: seq<Slim>, o: Slim, id: string)
    requires Absent(os, id) && o.id != id
    ensures Absent(Place(side, os, o), id)
  {
    if os == [] || Better(side, o.price, os[0].price) {
      assert ([o] + os)[1..] == os;
    } else {
      AbsentPlace(side, os[1..], o, id);
      assert ([os[0]] + Place(side, os[1..], o))[1..] == Place(side, os[1..], o);
    }
  }

  predicate NoneBetter(side: Side, os: seq<Slim>, price: nat) {
    os == [] || (!Better(side, os[0].price, price) && NoneBetter(side, os[1..], price))
  }

  predicate Ranked(side: Side, os: seq<Slim>) {
    os == [] || (NoneBetter(side, os[1..], os[0].price) && Ranked(side, os[1..]))
  }

  lemma {:induction false} NoneBetterPlace(side: Side, os: seq<Slim>, o: Slim, price: nat)
    requires NoneBetter(side, os, price) && !Better(side, o.price, price)
    ensures NoneBetter(side, Place(side, os, o), price)
  {
    if os == [] || Better(side, o.price, os[0].price) {
      assert ([o] + os)[1..] == os;
    } else {
      NoneBetterPlace(side, os[1..], o, price);
      PlaceCons(side, os[0], os[1..], o);
      assert ([os[0]] + Place(side, os[1..], o))[1..] == Place(side, os[1..], o);
    }
  }

  lemma {:induction false} NoneBetterThan(side: Side, os: seq<Slim>, a: nat, b: nat)
    requires NoneBetter(side, os, a) && !Better(side, a, b)
    ensures NoneBetter(side, os, b)
  {
    if os != [] { NoneBetterThan(side, os[1..], a, b); }
  }

  lemma {:induction false} RankedPlace(side: Side, os: seq<Slim>, o: Slim)
    requires Ranked(side, os)
    ensures Ranked(side, Place(side, os, o))
  {
    if os == [] || Better(side, o.price, os[0].price) {
      assert ([o] + os)[1..] == os;
      if os != [] { NoneBetterThan(side, os[1..], os[0].price, o.price); }
    } else {
      RankedPlace(side, os[1..], o);
      NoneBetterPlace(side, os[1..], o, os[0].price);
      assert ([os[0]] + Place(side, os[1..], o))[1..] == Place(side, os[1..], o);
    }
  }

  lemma {:induction false} ArrangedRanked(side: Side, os: seq<Lot>)
    ensures Ranked(side, Arranged(side, os))
    decreases |os|
  {
    if os != [] {
      ArrangedRanked(side, os[..|os| - 1]);
      RankedPlace(side, Arranged(side, os[..|os| - 1]), Bare(os[|os| - 1]));
    }
  }

  /** Taking from the head improves nothing and brings in no new order. */
  lemma {:induction false} TakeRanked(side: Side, os: seq<Slim>, q: nat, id: string)
    requires os != [] && q <= os[0].shown <= os[0].qty && Ranked(side, os) && Absent(os, id)
    ensures var t := TakeHead(side, os, q);
            Ranked(side, t) && Absent(t, id) && (t != [] ==> !Better(side, t[0].price, os[0].price))
  {
    var h := os[0].(qty := os[0].qty - q, shown := os[0].shown - q);
    if h.qty > 0 && h.shown == 0 {
      var o := h.(shown := Min(h.qty, h.display));
      RankedPlace(side, os[1..], o);
      AbsentPlace(side, os[1..], o, id);
      NoneBetterPlace(side, os[1..], o, os[0].price);
    } else if h.qty > 0 {
      assert ([h] + os[1..])[1..] == os[1..];
    }
  }

  /** e is ahead of its own side and reaches the best opposite order. */
  predicate Meets(side: Side, e: Order, own: seq<Order>, opp: seq<Order>) {
    e.side == side && e.mode.NoPrevention? && Sane(e) && AllSane(own, side) && AllSane(opp, Opposite(side))
    && AllQuiet(own) && AllQuiet(opp) && (own == [] || Better(side, e.price, own[0].price))
    && opp != [] && Reaches(side, true, e.price, opp[0].price) && e.id != opp[0].id
  }

  /** e after it gave up q: the same order with less, showing a new slice when the last one is used up. */
  predicate Lessened(e: Order, f: Order, q: nat) {
    q <= e.visible && q < e.qty && f == e.(qty := e.qty - q, visible := f.visible, arrival := f.arrival) && Sane(f)
    && f.visible == Refresh(e.visible - q, e.qty - q, e.display)
  }

  lemma {:induction false} Advanced(e: Order, own: seq<Order>, q: nat, n: nat) returns (f: Order, r: seq<Order>)
    requires Sane(e) && 0 < q <= e.visible && (own == [] || Better(e.side, e.price, own[0].price))
    ensures var hit := Fill(e, q);
            f == Replenish(hit, n) && r == Requeue(own, f, Exhausted(hit))
            && r == (if e.qty == q then own else [f] + own)
    ensures e.qty > q ==> Lessened(e, f, q)
  {
    f := Replenish(Fill(e, q), n);
    r := Requeue(own, f, Exhausted(Fill(e, q)));
  }

  /** e meets the best opposite order. */
  lemma {:induction false} MeetTakes(side: Side, e: Order, own: seq<Order>, opp: seq<Order>, n: nat)
    returns (q: nat, f: Order, less: seq<Order>, next: Book)
    requires Meets(side, e, own, opp)
    ensures var b := Sides(side, [e] + own, opp, n);
            Valid(b) && Crossed(b) && next == Meet(b, e.id).0
            && FillsOf(Meet(b, e.id).1) == [MakeFill(side, e.id, opp[0].id, opp[0].price, q)]
    ensures q == Min(opp[0].visible, e.visible) && 0 < q <= e.qty && (e.qty > q ==> Lessened(e, f, q))
    ensures next == Sides(side, if e.qty == q then own else [f] + own, less, next.arrivals)
    ensures Slims(less) == TakeHead(Opposite(side), [SlimOf(opp[0])] + Slims(opp[1..]), q) && AllQuiet(less)
  {
    var b := Sides(side, [e] + own, opp, n);
    assert ([e] + own)[1..] == own;
    q := Min(opp[0].visible, e.visible);
    var theirs := if side.Buy? then Arrivals(Fill(e, q), n) else n;
    var mine := if side.Buy? then n else Arrivals(Fill(opp[0], q), n);
    less := OrderTaken(opp[0], opp[1..], q, theirs);
    var r;
    f, r := Advanced(e, own, q, mine);
    next := Meet(b, e.id).0;
    var es := Meet(b, e.id).1;
    assert |es| == 1 && es[1..] == [];
  }

  /** The passive match of e ended as the yardstick says: e stays in front with what is left. */
  predicate Passed(side: Side, e: Order, own: seq<Order>, b: Book, es: seq<Event>, c: Done) {
    Slims(Queue(b, side)) == (if c.left > 0 then [Slim(e.id, e.price, c.left, e.display, c.shown)] else []) + Slims(own)
    && Slims(Queue(b, Opposite(side))) == c.rest && FillsOf(es) == c.fills
    && AllQuiet(Queue(b, side)) && AllQuiet(Queue(b, Opposite(side)))
  }

  lemma PassedOn(side: Side, e: Order, f: Order, q: nat, own: seq<Order>, b: Book, es: seq<Event>, more: seq<Event>,
        c: Done, fill: RefFill)
    requires Lessened(e, f, q) && Passed(side, f, own, b, more, c) && FillsOf(es) == [fill]
    ensures Passed(side, e, own, b, es + more, AddDone(c, fill))
  {
    FillsConcat(es, more);
  }

  lemma {:induction false} Unmet(side: Side, e: Order, own: seq<Order>, opp: seq<Order>, n: nat)
    requires e.side == side && e.mode.NoPrevention? && Sane(e) && AllSane(own, side) && AllSane(opp, Opposite(side))
    requires AllQuiet(own) && AllQuiet(opp) && !(opp != [] && Reaches(side, true, e.price, opp[0].price))
    ensures var b := Sides(side, [e] + own, opp, n);
            Valid(b) && Match(b, e.id) == (b, [])
            && Passed(side, e, own, b, [], Done(e.qty, e.visible, Slims(opp), []))
  {
    assert ([e] + own)[1..] == own;
  }

  lemma {:induction false} Used(side: Side, e: Order, own: seq<Order>, less: seq<Order>, b: Book, next: Book,
        fill: RefFill, c: Done)
    requires Valid(b) && Crossed(b) && Valid(next) && next == Meet(b, e.id).0 && FillsOf(Meet(b, e.id).1) == [fill]
    requires next == Sides(side, own, less, next.arrivals) && !Crossed(next) && AllQuiet(own) && AllQuiet(less)
    requires c == AddDone(Done(0, 0, Slims(less), []), fill)
    ensures var (r, es) := Match(b, e.id); Passed(side, e, own, r, es, c)
  {
    MeetShrinks(b, e.id);
    assert Match(next, e.id) == (next, []) && Meet(b, e.id).1 + [] == Meet(b, e.id).1;
    assert [] + Slims(own) == Slims(own);
  }

  lemma {:induction false} GoesOn(side: Side, e: Order, f: Order, q: nat, own: seq<Order>, b: Book, next: Book,
        part: Done, fill: RefFill, c: Done)
    requires Valid(b) && Crossed(b) && Valid(next) && next == Meet(b, e.id).0 && FillsOf(Meet(b, e.id).1) == [fill]
    requires Lessened(e, f, q) && c == AddDone(part, fill)
    requires var (r, es) := Match(next, f.id); Passed(side, f, own, r, es, part)
    ensures var (r, es) := Match(b, e.id); Passed(side, e, own, r, es, c)
  {
    MeetShrinks(b, e.id);
    var (r, es) := Match(next, e.id);
    PassedOn(side, e, f, q, own, r, Meet(b, e.id).1, es, part, fill);
  }

  /** e is ahead of its own side; the sides behind it do not cross. */
  predicate Fronted(side: Side, e: Order, own: seq<Order>, opp: seq<Order>, n: nat) {
    e.side == side && e.mode.NoPrevention? && Sane(e) && AllSane(own, side) && AllSane(opp, Opposite(side))
    && AllQuiet(own) && AllQuiet(opp) && (own == [] || Better(side, e.price, own[0].price))
    && Ranked(Opposite(side), Slims(opp)) && Absent(Slims(opp), e.id) && !Crossed(Sides(side, own, opp, n))
  }

  lemma ConsumeNothing(t: Taker, os: seq<Slim>)
    requires AllFit(os)
    ensures Consume(t, os, 0, 0) == Done(0, 0, os, [])
  {
  }

  /** The yardstick's side of one fill, told by what is left of the order. */
  lemma {:induction false} ConsumeOnce(t: Taker, os: seq<Slim>, e: Order, f: Order, q: nat)
    returns (rest: seq<Slim>, fill: RefFill, c: Done)
    requires AllFit(os) && Sane(e) && t == TakerOf(e, true) && os != []
             && Reaches(t.side, t.limit, t.price, os[0].price)
    requires q == Min(os[0].shown, e.visible) && (e.qty > q ==> Lessened(e, f, q))
    ensures q <= os[0].shown <= os[0].qty && rest == TakeHead(Opposite(t.side), os, q) && AllFit(rest)
    ensures c == Consume(t, os, e.qty, e.visible) && fill == MakeFill(t.side, t.id, os[0].id, os[0].price, q)
    ensures e.qty == q ==> c == AddDone(Done(0, 0, rest, []), fill)
    ensures e.qty > q ==> c == AddDone(Consume(t, rest, f.qty, f.visible), fill)
  {
    var same, more;
    same, rest, more, fill, c := ConsumeMore(t, os, e.qty, e.visible);
    ConsumeNothing(t, rest);
  }

  /** One fill of both. */
  lemma {:induction false} PassiveStep(side: Side, e: Order, own: seq<Order>, opp: seq<Order>, n: nat, os: seq<Slim>)
    returns (q: nat, f: Order, less: seq<Order>, next: Book)
    requires Fronted(side, e, own, opp, n) && opp != [] && Reaches(side, true, e.price, opp[0].price)
    requires os == Slims(opp) && AllFit(os) && os == [SlimOf(opp[0])] + Slims(opp[1..])
    ensures var b := Sides(side, [e] + own, opp, n);
            Valid(b) && Crossed(b) && Valid(next) && next == Meet(b, e.id).0
            && FillsOf(Meet(b, e.id).1) == [MakeFill(side, e.id, os[0].id, os[0].price, q)]
    ensures q == Min(os[0].shown, e.visible) && 0 < q <= e.qty
    ensures e.qty > q ==> Lessened(e, f, q) && Fronted(side, f, own, less, next.arrivals)
    ensures next == Sides(side, if e.qty == q then own else [f] + own, less, next.arrivals) && AllQuiet(less)
    ensures !Crossed(Sides(side, own, less, next.arrivals)) && Slims(less) == TakeHead(Opposite(side), os, q)
  {
    q, f, less, next := MeetTakes(side, e, own, opp, n);
    MeetShrinks(Sides(side, [e] + own, opp, n), e.id);
    TakeRanked(Opposite(side), os, q, e.id);
    StaysApart(side, own, opp, less, n, next.arrivals);
  }

  /** A crossing order that rests consumes the opposite side. */
  lemma {:induction false} PassiveConsumes(side: Side, e: Order, own: seq<Order>, opp: seq<Order>, n: nat, t: Taker,
                                           os: seq<Slim>)
    returns (c: Done)
    requires Fronted(side, e, own, opp, n) && t == TakerOf(e, true) && os == Slims(opp)
    ensures AllFit(os) && c == Consume(t, os, e.qty, e.visible)
    ensures var b := Sides(side, [e] + own, opp, n);
            Valid(b) && var (r, es) := Match(b, e.id); Passed(side, e, own, r, es, c)
    decreases e.qty
  {
    SlimsFit(opp, Opposite(side));
    if !(opp != [] && Reaches(side, true, e.price, opp[0].price)) {
      Unmet(side, e, own, opp, n);
      c := Done(e.qty, e.visible, os, []);
    } else {
      var q, f, less, next := PassiveStep(side, e, own, opp, n, os);
      var rest, fill, whole := ConsumeOnce(t, os, e, f, q);
      c := whole;
      if e.qty == q {
        Used(side, e, own, less, Sides(side, [e] + own, opp, n), next, fill, c);
      } else {
        var part := PassiveConsumes(side, f, own, less, next.arrivals, t, rest);
        GoesOn(side, e, f, q, own, Sides(side, [e] + own, opp, n), next, part, fill, c);
      }
    }
  }

  /** The opposite side got no better. */
  lemma StaysApart(side: Side, own: seq<Order>, opp: seq<Order>, less: seq<Order>, n: nat, m: nat)
    requires !Crossed(Sides(side, own, opp, n)) && opp != []
    requires Slims(less) != [] ==> !Better(Opposite(side), Slims(less)[0].price, opp[0].price)
    ensures !Crossed(Sides(side, own, less, m))
  {
  }

  // ── Fill or kill ───────────────────────────────────────────────────────────

  /** What a side has within the limit. */
  function Within(side: Side, price: nat, os: seq<Slim>): nat {
    if os == [] || !Reaches(side, true, price, os[0].price) then 0 else os[0].qty + Within(side, price, os[1..])
  }

  lemma {:induction false} ReferenceAvailable(os: seq<Lot>, side: Side, price: nat)
    ensures Available(os, side, price) == Within(side, price, Arranged(Opposite(side), os))
    decreases |os|
  {
    var k := FirstBest(os, side, true, price, |os|);
    assert os[..|os|] == os;
    BestIsTop(os, side, true, price, |os|);
    TopLeads(Opposite(side), os);
    if k >= 0 {
      var top, rest := TopSplits(Opposite(side), os);
      ReferenceAvailable(Remove(os, k), side, price);
      assert ([Bare(os[k])] + rest)[1..] == rest;
    }
  }

  lemma {:induction false} NoneOwn(a: Order, os: seq<Order>)
    requires a.mode.NoPrevention?
    ensures !AnyOwn(a, os)
  {
    if os != [] { NoneOwn(a, os[1..]); }
  }

  lemma {:induction false} WithinLevel(a: Order, level: seq<Order>, rest: seq<Order>)
    requires level != [] ==> AllAt(level, level[0].price) && Reaches(a.side, true, a.price, level[0].price)
    ensures Within(a.side, a.price, Slims(level + rest)) == Total(level) + Within(a.side, a.price, Slims(rest))
  {
    if level == [] {
      assert level + rest == rest;
    } else {
      assert (level + rest)[1..] == level[1..] + rest;
      WithinLevel(a, level[1..], rest);
      assert Slims(level + rest)[1..] == Slims(level[1..] + rest);
    }
  }

  /** Without own orders the look-ahead asks whether there is enough within the limit. */
  lemma {:induction false} CoveredIff(a: Order, os: seq<Order>, want: nat)
    requires a.mode.NoPrevention? && Sorted(Opposite(a.side), os)
    ensures Covers(a, os, want) == if Within(a.side, a.price, Slims(os)) >= want then Covered else Short
    decreases |os|
  {
    if want > 0 && os != [] && Reaches(a.side, true, a.price, os[0].price) {
      var level, rest := FirstLevel(a, os, want);
      NoneOwn(a, level);
      WithinLevel(a, level, rest);
      if Total(level) < want { CoveredIff(a, rest, want - Total(level)); }
    }
  }

  // ── Cancels ────────────────────────────────────────────────────────────────

  function Dropped(os: seq<Slim>, id: string): seq<Slim> {
    if os == [] then [] else if os[0].id == id then Dropped(os[1..], id) else [os[0]] + Dropped(os[1..], id)
  }

  lemma {:induction false} SlimsWithout(os: seq<Order>, id: string)
    ensures Slims(Without(os, id)) == Dropped(Slims(os), id) && (AllQuiet(os) ==> AllQuiet(Without(os, id)))
  {
    if os != [] {
      SlimsWithout(os[1..], id);
      assert Slims(os)[1..] == Slims(os[1..]);
      assert ([os[0]] + Without(os[1..], id))[1..] == Without(os[1..], id);
    }
  }

  lemma {:induction false} NoneBetterDrop(side: Side, os: seq<Slim>, id: string, price: nat)
    requires NoneBetter(side, os, price)
    ensures NoneBetter(side, Dropped(os, id), price)
  {
    if os != [] {
      NoneBetterDrop(side, os[1..], id, price);
      assert ([os[0]] + Dropped(os[1..], id))[1..] == Dropped(os[1..], id);
    }
  }

  lemma {:induction false} DropPlace(side: Side, os: seq<Slim>, o: Slim, id: string)
    requires Ranked(side, os)
    ensures Dropped(Place(side, os, o), id) == if o.id == id then Dropped(os, id) else Place(side, Dropped(os, id), o)
  {
    if os == [] || Better(side, o.price, os[0].price) {
      assert ([o] + os)[1..] == os;
      if os != [] { NoneBetterDrop(side, os, id, os[0].price); }
    } else {
      DropPlace(side, os[1..], o, id);
      assert ([os[0]] + Place(side, os[1..], o))[1..] == Place(side, os[1..], o);
      if os[0].id != id { PlaceCons(side, os[0], Dropped(os[1..], id), o); }
    }
  }

  lemma {:induction false} DropArranged(side: Side, os: seq<Lot>, id: string)
    ensures Arranged(side, Drop(os, id)) == Dropped(Arranged(side, os), id)
    decreases |os|
  {
    if os != [] {
      var init, last := os[..|os| - 1], os[|os| - 1];
      DropArranged(side, init, id);
      ArrangedRanked(side, init);
      DropPlace(side, Arranged(side, init), Bare(last), id);
      ArrangedSnoc(side, Drop(init, id), last);
    }
  }

  // ── Whole runs ─────────────────────────────────────────────────────────────

  datatype Command =
    | Entry(id: string, side: Side, price: nat, qty: nat, display: nat, kind: Kind)
    | Removal(id: string)

  function OrderOf(c: Command): Order
    requires c.Entry?
  {
    Order(c.id, "", "", NoPrevention, c.side, c.price, c.qty, c.display, c.qty, 0)
  }

  function BookStep(b: Book, c: Command): (Book, seq<RefFill>)
    requires Valid(b)
  {
    match c
    case Entry(_, _, _, qty, _, kind) =>
      if qty == 0 then (b, [])
      else
        var r := Execute(b, OrderOf(c), kind);
        (r.book, FillsOf(r.events))
    case Removal(id) => (Cancel(b, id), [])
  }

  function ReferenceStep(os: seq<Lot>, c: Command): (seq<Lot>, seq<RefFill>)
    requires AllKept(os)
  {
    match c
    case Entry(id, side, price, qty, display, kind) => Enter(os, Lot(id, side, price, qty, display, qty), kind)
    case Removal(id) => (Drop(os, id), [])
  }

  /** The book's sides are the reference list arranged. */
  predicate Refines(b: Book, os: seq<Lot>) {
    Orderly(b) && AllQuiet(b.bids) && AllQuiet(b.asks) && AllKept(os)
    && Slims(b.bids) == Arranged(Buy, os) && Slims(b.asks) == Arranged(Sell, os)
  }

  lemma QueueIs(b: Book, os: seq<Lot>, side: Side)
    requires Refines(b, os)
    ensures Slims(Queue(b, side)) == Arranged(side, os) && AllQuiet(Queue(b, side)) && AllSane(Queue(b, side), side)
    ensures Sorted(side, Queue(b, side))
  {
  }

  /** A sweep on the book and the reference filling the same order. */
  lemma {:induction false} SweepRefines(b: Book, os: seq<Lot>, o: Order, limit: bool)
    requires Refines(b, os) && o.mode.NoPrevention? && o.display == 0 && o.qty > 0
    requires Orderly(AfterSweep(b, o, Swept(b, o, limit)).book)
    ensures var r, f := AfterSweep(b, o, Swept(b, o, limit)), FillFrom(os, TakerOf(o, limit), o.qty, o.qty);
            FillsOf(r.events) == f.fills && Refines(r.book, f.orders)
  {
    var t := TakerOf(o, limit);
    QueueIs(b, os, o.side);
    QueueIs(b, os, Opposite(o.side));
    var w := Sweep(o.qty, false, Queue(b, Opposite(o.side)), b.arrivals, []);
    var r, slims, c := SweepConsumes(o, limit, w, t);
    var f, d := ReferenceConsumes(os, t, o.qty, o.qty);
    var _ := FillKeeps(os, t, o.qty, o.qty);
    assert FillsOf([]) + c.fills == c.fills;
  }

  /** What adding and crossing does, whether or not the order comes out in front. */
  predicate Rests(b: Book, o: Order, r: Outcome, c: Done) {
    FillsOf(r.events) == c.fills && Slims(Queue(r.book, Opposite(o.side))) == c.rest
    && Slims(Queue(r.book, o.side))
       == (if c.left > 0 then Place(o.side, Slims(Queue(b, o.side)), Slim(o.id, o.price, c.left, o.display, c.shown))
           else Slims(Queue(b, o.side)))
    && AllQuiet(Queue(r.book, o.side)) && AllQuiet(Queue(r.book, Opposite(o.side)))
  }

  lemma {:induction false} RestingConsumes(b: Book, os: seq<Lot>, o: Order, t: Taker, slims: seq<Slim>)
      returns (c: Done)
    requires Refines(b, os) && o.mode.NoPrevention? && o.qty > 0 && t == TakerOf(o, true)
    requires slims == Slims(Queue(b, Opposite(o.side))) && Absent(slims, o.id)
    ensures AllFit(slims) && Showing(o.qty, Slice(o.display, o.qty), t.display)
    ensures c == Consume(t, slims, o.qty, Slice(o.display, o.qty)) && Rests(b, o, Execute(b, o, Resting), c)
  {
    var e, own, opp := Entering(b, o), Queue(b, o.side), Queue(b, Opposite(o.side));
    QueueIs(b, os, o.side);
    QueueIs(b, os, Opposite(o.side));
    SlimsFit(opp, Opposite(o.side));
    ArrangedRanked(Opposite(o.side), os);
    AddValid(b, o);
    if own == [] || Better(o.side, o.price, own[0].price) {
      assert Add(b, e) == Sides(o.side, [e] + own, opp, b.arrivals + 1);
      assert !Crossed(Sides(o.side, own, opp, b.arrivals + 1));
      c := PassiveConsumes(o.side, e, own, opp, b.arrivals + 1, t, slims);
      FrontPlace(o, own, c);
    } else {
      SlimsInsert(own, e);
      QuietInsert(own, e);
      assert !Crossed(Add(b, e)) && (opp == [] || !Reaches(o.side, true, o.price, opp[0].price));
      c := Done(o.qty, e.visible, slims, []);
    }
  }

  lemma FrontPlace(o: Order, own: seq<Order>, c: Done)
    requires own == [] || Better(o.side, o.price, own[0].price)
    ensures var e := Slim(o.id, o.price, c.left, o.display, c.shown);
            Place(o.side, Slims(own), e) == [e] + Slims(own) && [] + Slims(own) == Slims(own)
  {
  }

  lemma {:induction false} RestingRefines(b: Book, os: seq<Lot>, c: Command)
    requires Refines(b, os) && c.Entry? && c.kind.Resting? && c.qty > 0
    requires Absent(Slims(Queue(b, Opposite(c.side))), c.id)
    ensures BookStep(b, c).1 == ReferenceStep(os, c).1 && Refines(BookStep(b, c).0, ReferenceStep(os, c).0)
  {
    var o, shown := OrderOf(c), Slice(c.display, c.qty);
    var t := TakerOf(o, true);
    QueueIs(b, os, o.side);
    QueueIs(b, os, Opposite(o.side));
    var done := RestingConsumes(b, os, o, t, Slims(Queue(b, Opposite(o.side))));
    var f, d := ReferenceConsumes(os, t, c.qty, shown);
    var _ := FillKeeps(os, t, c.qty, shown);
    EnterKeeps(os, Lot(c.id, c.side, c.price, c.qty, c.display, c.qty), Resting);
    ExecuteOrderly(b, o, Resting);
    if f.left > 0 {
      var lot := Lot(c.id, c.side, c.price, f.left, c.display, f.shown);
      ArrangedSnoc(c.side, f.orders, lot);
      ArrangedSnoc(Opposite(c.side), f.orders, lot);
    }
  }

  lemma {:induction false} EntryRefines(b: Book, os: seq<Lot>, c: Command)
    requires Refines(b, os) && c.Entry? && !c.kind.Resting? && c.qty > 0 && c.display == 0
    ensures BookStep(b, c).1 == ReferenceStep(os, c).1 && Refines(BookStep(b, c).0, ReferenceStep(os, c).0)
  {
    var o := OrderOf(c);
    ExecuteOrderly(b, o, c.kind);
    match c.kind
    case Immediate => SweepRefines(b, os, o, true);
    case Market => SweepRefines(b, os, o, false);
    case FillOrKill =>
      QueueIs(b, os, Opposite(c.side));
      CoveredIff(o, Queue(b, Opposite(c.side)), c.qty);
      ReferenceAvailable(os, c.side, c.price);
      if Covers(o, Queue(b, Opposite(c.side)), c.qty).Covered? { SweepRefines(b, os, o, true); }
  }

  lemma {:induction false} RemovalRefines(b: Book, os: seq<Lot>, id: string)
    requires Refines(b, os)
    ensures Refines(Cancel(b, id), Drop(os, id))
  {
    CancelOrderly(b, id);
    SlimsWithout(b.bids, id);
    SlimsWithout(b.asks, id);
    DropArranged(Buy, os, id);
    DropArranged(Sell, os, id);
    DropKeeps(os, id);
  }

  /** Only resting orders hide quantity, and an id is entered only while no order with it rests. */
  predicate Proper(b: Book, c: Command) {
    c.Entry? ==> (c.display > 0 ==> c.kind.Resting?) && Absent(Slims(b.bids), c.id) && Absent(Slims(b.asks), c.id)
  }

  lemma {:induction false} StepRefines(b: Book, os: seq<Lot>, c: Command)
    requires Refines(b, os) && Proper(b, c)
    ensures BookStep(b, c).1 == ReferenceStep(os, c).1 && Refines(BookStep(b, c).0, ReferenceStep(os, c).0)
  {
    match c
    case Entry(id, side, price, qty, display, kind) =>
      if qty == 0 {
      } else if kind.Resting? {
        RestingRefines(b, os, c);
      } else {
        EntryRefines(b, os, c);
      }
    case Removal(id) => RemovalRefines(b, os, id);
  }

  lemma StepValid(b: Book, c: Command)
    requires Valid(b)
    ensures Valid(BookStep(b, c).0)
  {
    match c
    case Entry(_, _, _, qty, _, kind) => if qty > 0 { ExecuteValid(b, OrderOf(c), kind); }
    case Removal(id) =>
      SaneWithout(b.bids, Buy, id);
      SaneWithout(b.asks, Sell, id);
  }

  lemma ReferenceKeeps(os: seq<Lot>, c: Command)
    requires AllKept(os)
    ensures AllKept(ReferenceStep(os, c).0)
  {
    match c
    case Entry(id, side, price, qty, display, kind) => EnterKeeps(os, Lot(id, side, price, qty, display, qty), kind);
    case Removal(id) => DropKeeps(os, id);
  }

  /** The book after a run, and all its fills in order. */
  function BookRun(b: Book, cs: seq<Command>): (Book, seq<RefFill>)
    requires Valid(b)
    decreases |cs|
  {
    if cs == [] then (b, [])
    else
      StepValid(b, cs[0]);
      var (next, fills) := BookStep(b, cs[0]);
      var (last, more) := BookRun(next, cs[1..]);
      (last, fills + more)
  }

  function ReferenceRun(os: seq<Lot>, cs: seq<Command>): (seq<Lot>, seq<RefFill>)
    requires AllKept(os)
    decreases |cs|
  {
    if cs == [] then (os, [])
    else
      ReferenceKeeps(os, cs[0]);
      var (next, fills) := ReferenceStep(os, cs[0]);
      var (last, more) := ReferenceRun(next, cs[1..]);
      (last, fills + more)
  }

  predicate AllProper(b: Book, cs: seq<Command>)
    requires Valid(b)
    decreases |cs|
  {
    if cs == [] then true
    else
      StepValid(b, cs[0]);
      Proper(b, cs[0]) && AllProper(BookStep(b, cs[0]).0, cs[1..])
  }

  lemma {:induction false} RunRefines(b: Book, os: seq<Lot>, cs: seq<Command>)
    requires Refines(b, os) && AllProper(b, cs)
    ensures BookRun(b, cs).1 == ReferenceRun(os, cs).1 && Refines(BookRun(b, cs).0, ReferenceRun(os, cs).0)
    decreases |cs|
  {
    if cs != [] {
      StepRefines(b, os, cs[0]);
      RunRefines(BookStep(b, cs[0]).0, ReferenceStep(os, cs[0]).0, cs[1..]);
    }
  }

  /** From empty books, every run of limits with or without hidden quantity, immediate, market and fill-or-kill
      orders and cancels gives the fills of the reference matcher, and the sides of the book hold its orders in
      price-time order, with the quantity and the slice it shows for each. */
  lemma BookRefinesReference(cs: seq<Command>)
    requires AllProper(Book([], [], 0), cs)
    ensures var (b, fills) := BookRun(Book([], [], 0), cs);
            var (os, expected) := ReferenceRun([], cs);
            fills == expected && Slims(b.bids) == Arranged(Buy, os) && Slims(b.asks) == Arranged(Sell, os)
  {
    RunRefines(Book([], [], 0), [], cs);
  }
}
