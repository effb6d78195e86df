/** A fill-or-kill order is all or nothing, hidden quantity and self-trade prevention included: it trades its
    whole quantity, or the book is left untouched. */
module FillOrKill {
  import opened OrderBook
  import opened BookSafety

  predicate AllAt(os: seq<Order>, price: nat) {
    os == [] || (os[0].price == price && AllAt(os[1..], price))
  }

  lemma {:induction false} LevelPrefix(os: seq<Order>, price: nat)
    ensures var k := Level(os, price); k <= |os| && AllAt(os[..k], price) && (k < |os| ==> os[k].price != price)
  {
    if os != [] && os[0].price == price {
      LevelPrefix(os[1..], price);
      var k := Level(os, price);
      assert os[..k][1..] == os[1..][..k - 1];
    }
  }

  /** An order of the level's price goes behind the whole level. */
  lemma {:induction false} InsertPast(pre: seq<Order>, tail: seq<Order>, o: Order)
    requires AllAt(pre, o.price)
    ensures Insert(pre + tail, o) == pre + Insert(tail, o)
  {
    if pre == [] {
      assert pre + tail == tail;
    } else {
      InsertPast(pre[1..], tail, o);
      assert pre + tail == [pre[0]] + (pre[1..] + tail);
      InsertCons(pre[0], pre[1..] + tail, o);
      Join([pre[0]], pre[1..], Insert(tail, o));
      assert [pre[0]] + pre[1..] == pre;
    }
  }

  lemma InsertCons(head: Order, tail: seq<Order>, o: Order)
    requires !Better(o.side, o.price, head.price)
    ensures Insert([head] + tail, o) == [head] + Insert(tail, o)
  {
    assert ([head] + tail)[1..] == tail;
  }

  lemma Join(a: seq<Order>, b: seq<Order>, c: seq<Order>)
    ensures a + (b + c) == a + b + c
  {
  }

  lemma {:induction false} SaneConcat(a: seq<Order>, b: seq<Order>, side: Side)
    ensures AllSane(a + b, side) <==> AllSane(a, side) && AllSane(b, side)
  {
    if a == [] {
      assert a + b == b;
    } else {
      SaneConcat(a[1..], b, side);
      assert (a + b)[1..] == a[1..] + b;
    }
  }

  lemma {:induction false} AtConcat(a: seq<Order>, b: seq<Order>, price: nat)
    ensures AllAt(a + b, price) <==> AllAt(a, price) && AllAt(b, price)
  {
    if a == [] {
      assert a + b == b;
    } else {
      AtConcat(a[1..], b, price);
      assert (a + b)[1..] == a[1..] + b;
    }
  }

  lemma {:induction false} OwnConcat(x: Order, a: seq<Order>, b: seq<Order>)
    ensures AnyOwn(x, a + b) <==> AnyOwn(x, a) || AnyOwn(x, b)
  {
    if a == [] {
      assert a + b == b;
    } else {
      OwnConcat(x, a[1..], b);
      assert (a + b)[1..] == a[1..] + b;
    }
  }

  lemma {:induction false} TotalConcat(a: seq<Order>, b: seq<Order>)
    ensures Total(a + b) == Total(a) + Total(b)
  {
    if a == [] {
      assert a + b == b;
    } else {
      TotalConcat(a[1..], b);
      assert (a + b)[1..] == a[1..] + b;
    }
  }

  // ── Paying in trades ───────────────────────────────────────────────────────

  predicate AllTraded(es: seq<Event>) {
    forall i :: 0 <= i < |es| ==> es[i].Traded?
  }

  function TradedQty(es: seq<Event>): nat {
    if es == [] then 0
    else TradedQty(es[..|es| - 1]) + if es[|es| - 1].Traded? then es[|es| - 1].qty else 0
  }

  /** From w to r nothing but trades happened, and they account for the quantity used. */
  predicate Pays(w: Sweep, r: Sweep) {
    AllTraded(w.events) ==> AllTraded(r.events) && TradedQty(r.events) + r.left == TradedQty(w.events) + w.left
  }

  lemma HitPays(a: Order, w: Sweep)
    requires w.left > 0 && !w.stopped && w.opposite != [] && AllSane(w.opposite, Opposite(a.side))
    requires !SelfMatch(a, w.opposite[0])
    ensures Pays(w, Hit(a, w))
  {
    var es := Hit(a, w).events;
    assert es[..|es| - 1] == w.events;
  }

  /** One hit on the head of a level: what of it comes back goes behind the level. */
  lemma HitHead(a: Order, w: Sweep, pre: seq<Order>, tail: seq<Order>) returns (back: seq<Order>)
    requires w.left > 0 && !w.stopped && pre != [] && w.opposite == pre + tail && AllSane(w.opposite, Opposite(a.side))
    requires AllAt(pre, pre[0].price) && !SelfMatch(a, pre[0])
    ensures var top, next := pre[0], Hit(a, w);
            !next.stopped && next.left == w.left - Min(top.visible, w.left)
            && (top.visible < w.left ==>
                  next.opposite == pre[1..] + (if back == [] then tail else Insert(tail, back[0])))
    ensures |back| <= 1 && Total(back) == pre[0].qty - pre[0].visible
    ensures AllSane(back, Opposite(a.side)) && AllAt(back, pre[0].price) && !AnyOwn(a, back)
  {
    var top, rest := pre[0], pre[1..] + tail;
    assert w.opposite[0] == top && w.opposite[1..] == rest;
    var hit := Fill(top, top.visible);
    var again := Replenish(hit, w.arrivals);
    back := if hit.qty == 0 then [] else [again];
    if hit.qty > 0 { InsertPast(pre[1..], tail, again); }
  }

  /** A hit that uses up the first slice: what comes back joins the end of the level. */
  lemma LevelHit(a: Order, w: Sweep, level: seq<Order>, rest: seq<Order>) returns (more: seq<Order>)
    requires w.left > 0 && !w.stopped && level != [] && w.opposite == level + rest
    requires AllSane(w.opposite, Opposite(a.side))
    requires !AnyOwn(a, level) && AllAt(level, level[0].price) && level[0].visible < w.left
    requires rest != [] ==> Better(Opposite(a.side), level[0].price, rest[0].price)
    ensures var next := Hit(a, w);
            next.opposite == more + rest && !next.stopped && next.left == w.left - level[0].visible
    ensures Total(more) == Total(level) - level[0].visible && !AnyOwn(a, more) && AllAt(more, level[0].price)
  {
    var top := level[0];
    var back := HitHead(a, w, level, rest);
    more := level[1..] + back;
    assert (if back == [] then rest else Insert(rest, back[0])) == back + rest;
    Join(level[1..], back, rest);
    TotalConcat(level[1..], back);
    OwnConcat(a, level[1..], back);
    AtConcat(level[1..], back, top.price);
  }

  lemma SweepOnce(a: Order, w: Sweep)
    requires w.left > 0 && !w.stopped && w.opposite != [] && AllSane(w.opposite, Opposite(a.side))
    requires Reaches(a.side, true, a.price, w.opposite[0].price)
    ensures AllSane(Hit(a, w).opposite, Opposite(a.side)) && SweepAll(a, true, w) == SweepAll(a, true, Hit(a, w))
  {
    HitShrinks(a, w);
  }

  /** The level's price is within the limit, and what follows is worse. */
  predicate Fronts(a: Order, level: seq<Order>, rest: seq<Order>) {
    level == []
    || (AllAt(level, level[0].price) && Reaches(a.side, true, a.price, level[0].price)
        && (rest == [] || Better(Opposite(a.side), level[0].price, rest[0].price)))
  }

  /** A level without own orders gives everything it has. */
  lemma {:induction false} LevelGives(a: Order, w: Sweep, level: seq<Order>, rest: seq<Order>) returns (w2: Sweep)
    requires !w.stopped && w.opposite == level + rest && AllSane(w.opposite, Opposite(a.side)) && !AnyOwn(a, level)
    requires Fronts(a, level, rest)
    ensures AllSane(w2.opposite, Opposite(a.side)) && SweepAll(a, true, w) == SweepAll(a, true, w2) && !w2.stopped
    ensures if Total(level) >= w.left then w2.left == 0 else w2.left == w.left - Total(level) && w2.opposite == rest
    ensures Pays(w, w2)
    decreases w.left
  {
    if w.left == 0 || level == [] {
      w2 := w;
      assert level == [] ==> level + rest == rest;
    } else {
      assert w.opposite[0] == level[0];
      SweepOnce(a, w);
      HitPays(a, w);
      if level[0].visible >= w.left {
        w2 := Hit(a, w);
        var back := HitHead(a, w, level, rest);
        LevelHas(level, rest, Opposite(a.side));
      } else {
        var more := LevelHit(a, w, level, rest);
        LevelHas(level, rest, Opposite(a.side));
        w2 := LevelGives(a, Hit(a, w), more, rest);
      }
    }
  }

  lemma LevelHas(level: seq<Order>, rest: seq<Order>, side: Side)
    requires level != [] && AllSane(level + rest, side)
    ensures 1 <= level[0].visible <= level[0].qty <= Total(level)
  {
    SaneConcat(level, rest, side);
  }

  /** The slices shown ahead of the first own order are enough. */
  lemma {:induction false} SlicesGive(a: Order, w: Sweep, pre: seq<Order>, tail: seq<Order>)
    requires !w.stopped && w.opposite == pre + tail && AllSane(w.opposite, Opposite(a.side))
    requires pre != [] ==> AllAt(pre, pre[0].price) && Reaches(a.side, true, a.price, pre[0].price)
    requires CoverLevel(a, pre, true, w.left).0.Covered?
    ensures var r := SweepAll(a, true, w); r.left == 0 && !r.stopped && Pays(w, r)
    decreases |pre|
  {
    if w.left > 0 {
      var top := pre[0];
      var next := Hit(a, w);
      var back := HitHead(a, w, pre, tail);
      HitShrinks(a, w);
      HitPays(a, w);
      if top.visible < w.left {
        SlicesGive(a, next, pre[1..], if back == [] then tail else Insert(tail, back[0]));
      }
    }
  }

  /** Without own orders the cover counts totals; with one it cannot come up short. */
  lemma {:induction false} CoverLevelMeans(a: Order, level: seq<Order>, want: nat)
    ensures !AnyOwn(a, level) ==>
      CoverLevel(a, level, false, want) == if Total(level) >= want then (Covered, 0) else (Short, want - Total(level))
    ensures AnyOwn(a, level) ==> !CoverLevel(a, level, true, want).0.Short?
    decreases level
  {
    if want > 0 && level != [] {
      CoverLevelMeans(a, level[1..], if level[0].qty < want then want - level[0].qty else 0);
      CoverLevelMeans(a, level[1..], if level[0].visible < want then want - level[0].visible else 0);
    }
  }

  /** What the cover check promises, the sweep delivers. */
  lemma {:induction false} CoveredIsFilled(a: Order, w: Sweep)
    requires !w.stopped && AllSane(w.opposite, Opposite(a.side)) && Sorted(Opposite(a.side), w.opposite)
    requires Covers(a, w.opposite, w.left).Covered?
    ensures var r := SweepAll(a, true, w); r.left == 0 && !r.stopped && Pays(w, r)
    decreases |w.opposite|
  {
    if w.left > 0 {
      var level, rest := FirstLevel(a, w.opposite, w.left);
      if AnyOwn(a, level) {
        SlicesGive(a, w, level, rest);
      } else {
        var w2 := LevelGives(a, w, level, rest);
        if Total(level) < w.left { CoveredIsFilled(a, w2); }
      }
    }
  }

  /** The best level, and what the cover check makes of it. */
  lemma {:induction false} FirstLevel(a: Order, os: seq<Order>, want: nat) returns (level: seq<Order>, rest: seq<Order>)
    requires want > 0 && Sorted(Opposite(a.side), os)
    requires os != [] && Reaches(a.side, true, a.price, os[0].price)
    ensures os == level + rest && level != [] && AllAt(level, level[0].price) && Sorted(Opposite(a.side), rest)
    ensures Fronts(a, level, rest) && Reaches(a.side, true, a.price, level[0].price)
    ensures AnyOwn(a, level) ==>
              Covers(a, os, want) == CoverLevel(a, level, true, want).0 && !Covers(a, os, want).Short?
    ensures !AnyOwn(a, level) ==>
              Covers(a, os, want) == if Total(level) >= want then Covered else Covers(a, rest, want - Total(level))
  {
    var price := os[0].price;
    var k := Level(os, price);
    LevelPrefix(os, price);
    LevelSize(os, price);
    level, rest := os[..k], os[k..];
    assert os == level + rest && level[0] == os[0];
    BestNoBetter(Opposite(a.side), os);
    RestWorse(Opposite(a.side), os, price, k);
    CoverLevelMeans(a, level, want);
  }

  // ── Nothing is killed without need ─────────────────────────────────────────

  /** A cut that happened stays in the record. */
  lemma {:induction false} CutStays(a: Order, w: Sweep)
    requires AllSane(w.opposite, Opposite(a.side)) && !AllTraded(w.events)
    ensures !AllTraded(SweepAll(a, true, w).events)
    decreases w.left + Total(w.opposite), !w.stopped
  {
    if w.left > 0 && !w.stopped && w.opposite != [] && Reaches(a.side, true, a.price, w.opposite[0].price) {
      HitShrinks(a, w);
      HitRecords(a, w);
      CutStays(a, Hit(a, w));
    }
  }

  lemma HitRecords(a: Order, w: Sweep)
    requires w.left > 0 && !w.stopped && w.opposite != [] && AllSane(w.opposite, Opposite(a.side))
    ensures !AllTraded(w.events) || SelfMatch(a, w.opposite[0]) ==> !AllTraded(Hit(a, w).events)
  {
    var es := Hit(a, w).events;
    if !AllTraded(w.events) {
      var i :| 0 <= i < |w.events| && !w.events[i].Traded?;
      assert es[i] == w.events[i];
    } else if SelfMatch(a, w.opposite[0]) {
      assert |es| > |w.events| && !es[|w.events|].Traded?;
    }
  }

  /** The slices shown ahead of the first own order are not enough: the sweep meets that order. */
  lemma {:induction false} SlicesFail(a: Order, w: Sweep, pre: seq<Order>, tail: seq<Order>)
    requires !w.stopped && w.opposite == pre + tail && AllSane(w.opposite, Opposite(a.side))
    requires pre != [] ==> AllAt(pre, pre[0].price) && Reaches(a.side, true, a.price, pre[0].price)
    requires CoverLevel(a, pre, true, w.left).0.Own?
    ensures !AllTraded(SweepAll(a, true, w).events)
    decreases |pre|
  {
    HitShrinks(a, w);
    if SelfMatch(a, pre[0]) {
      HitRecords(a, w);
      CutStays(a, Hit(a, w));
    } else {
      var back := HitHead(a, w, pre, tail);
      SlicesFail(a, Hit(a, w), pre[1..], if back == [] then tail else Insert(tail, back[0]));
    }
  }

  /** What the cover check refuses, the sweep would not have filled by trades alone. */
  lemma {:induction false} RefusedIsNotFilled(a: Order, w: Sweep)
    requires !w.stopped && AllSane(w.opposite, Opposite(a.side)) && Sorted(Opposite(a.side), w.opposite)
    requires !Covers(a, w.opposite, w.left).Covered?
    ensures var r := SweepAll(a, true, w); !AllTraded(r.events) || (r.left > 0 && !r.stopped)
    decreases |w.opposite|
  {
    if w.opposite != [] && Reaches(a.side, true, a.price, w.opposite[0].price) {
      var level, rest := FirstLevel(a, w.opposite, w.left);
      if AnyOwn(a, level) {
        SlicesFail(a, w, level, rest);
      } else {
        var w2 := LevelGives(a, w, level, rest);
        RefusedIsNotFilled(a, w2);
      }
    }
  }

  lemma {:induction false} RestWorse(side: Side, os: seq<Order>, price: nat, k: nat)
    requires k <= |os| && Sorted(side, os) && NoBetter(side, os, price)
    ensures Sorted(side, os[k..]) && (k < |os| && os[k].price != price ==> Better(side, price, os[k].price))
    decreases k
  {
    if k > 0 {
      assert os[1..][k - 1..] == os[k..];
      RestWorse(side, os[1..], price, k - 1);
    } else {
      assert os[0..] == os;
    }
  }

  /** No trade among the events. */
  predicate NoTrade(es: seq<Event>) {
    forall i :: 0 <= i < |es| ==> es[i].Cut?
  }

  /** The whole order was traded and nothing else happened. */
  predicate Filled(r: Outcome, qty: nat) {
    !r.cancelled && AllTraded(r.events) && TradedQty(r.events) == qty
  }

  /** A fill-or-kill order does what an immediate-or-cancel order would do if that trades its whole quantity
      without meeting an order of its own scope; otherwise it leaves the book as it was and trades nothing. */
  lemma AllOrNothing(b: Book, o: Order)
    requires Orderly(b) && o.qty > 0
    ensures var r, sweep := Execute(b, o, FillOrKill), Execute(b, o, Immediate);
            if Filled(sweep, o.qty) then r == sweep else r.book == b && NoTrade(r.events)
  {
    var w := Sweep(o.qty, false, Queue(b, Opposite(o.side)), b.arrivals, []);
    if Covers(o, w.opposite, o.qty).Covered? { CoveredIsFilled(o, w); } else { RefusedIsNotFilled(o, w); }
  }
}
