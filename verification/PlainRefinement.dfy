/** Without hidden quantity the two reference matchers agree, so over every run of plain limits and cancels the
    book gives the fills of the simpler one. */
module PlainRefinement {
  import opened OrderBook
  import opened RefBook
  import opened SliceBook
  import opened BookRefinement

  function LotOf(o: RefOrder): Lot {
    Lot(o.id, o.side, o.price, o.qty, 0, o.qty)
  }

  function LotsOf(os: seq<RefOrder>): seq<Lot> {
    seq(|os|, i requires 0 <= i < |os| => LotOf(os[i]))
  }

  /** Arrivals increase along the list. */
  predicate Ascending(os: seq<RefOrder>) {
    forall i, j :: 0 <= i < j < |os| ==> os[i].arrival < os[j].arrival
  }

  predicate UpTo(os: seq<RefOrder>, n: nat) {
    forall i :: 0 <= i < |os| ==> os[i].arrival <= n
  }

  predicate Listed(os: seq<RefOrder>, n: nat) {
    Ascending(os) && AllPositive(os) && UpTo(os, n)
  }

  lemma LotsKept(os: seq<RefOrder>)
    requires AllPositive(os)
    ensures AllKept(LotsOf(os))
  {
  }

  /** The earliest of the best is the first of the best. */
  lemma {:induction false} SameBest(os: seq<RefOrder>, side: Side, price: nat, n: nat)
    requires Ascending(os) && n <= |os|
    ensures FirstBest(LotsOf(os), side, true, price, n) == BestOf(os, side, price, n)
    decreases n
  {
    if n > 0 { SameBest(os, side, price, n - 1); }
  }

  lemma {:induction false} SameTake(os: seq<RefOrder>, k: nat, q: nat)
    requires k < |os| && q <= os[k].qty
    ensures TakeFrom(LotsOf(os), k, q) == LotsOf(Take(os, k, q))
  {
  }

  lemma {:induction false} TakeListed(os: seq<RefOrder>, k: nat, q: nat, n: nat)
    requires k < |os| && Listed(os, n)
    ensures Listed(Take(os, k, q), n)
  {
  }

  /** Both matchers fill the same way. */
  lemma {:induction false} SameMatch(os: seq<RefOrder>, t: Taker, qty: nat, n: nat) returns (r: Taken, m: Matched)
    requires Listed(os, n) && t.limit && t.display == 0
    ensures AllKept(LotsOf(os)) && r == FillFrom(LotsOf(os), t, qty, qty)
    ensures m == MatchAgainst(os, t.id, t.side, t.price, qty)
    ensures r.left == m.left == r.shown && r.fills == m.fills && r.orders == LotsOf(m.orders) && Listed(m.orders, n)
    decreases qty
  {
    var k := BestOf(os, t.side, t.price, |os|);
    LotsKept(os);
    SameBest(os, t.side, t.price, |os|);
    r := FillFrom(LotsOf(os), t, qty, qty);
    m := MatchAgainst(os, t.id, t.side, t.price, qty);
    if qty > 0 && k >= 0 {
      var q := Min(qty, os[k].qty);
      SameTake(os, k, q);
      TakeListed(os, k, q, n);
      LotsKept(Take(os, k, q));
      var part, less := SameMatch(Take(os, k, q), t, qty - q, n);
      FillUnfolds(LotsOf(os), t, qty, qty, k, q, LotsOf(Take(os, k, q)), qty - q);
      MatchUnfolds(os, t.id, t.side, t.price, qty, k, q);
    }
  }

  lemma MatchUnfolds(os: seq<RefOrder>, id: string, side: Side, price: nat, qty: nat, k: nat, q: nat)
    requires AllPositive(os) && qty > 0 && k < |os| && k == BestOf(os, side, price, |os|) && q == Min(qty, os[k].qty)
    ensures AllPositive(Take(os, k, q))
    ensures var m := MatchAgainst(Take(os, k, q), id, side, price, qty - q);
            MatchAgainst(os, id, side, price, qty)
            == Matched(m.left, m.orders, [MakeFill(side, id, os[k].id, os[k].price, q)] + m.fills)
  {
    TakePositive(os, k, q);
  }

  lemma {:induction false} RetainListed(os: seq<RefOrder>, id: string, n: nat)
    requires Listed(os, n)
    ensures Listed(Retain(os, id), n) && (os != [] ==> UpTo(Retain(os, id), os[|os| - 1].arrival))
    decreases |os|
  {
    if os != [] { RetainListed(os[..|os| - 1], id, os[|os| - 1].arrival); }
  }

  lemma LotsSnoc(os: seq<RefOrder>, last: RefOrder)
    ensures LotsOf(os + [last]) == LotsOf(os) + [LotOf(last)]
  {
  }

  lemma {:induction false} SameDrop(os: seq<RefOrder>, id: string)
    ensures Drop(LotsOf(os), id) == LotsOf(Retain(os, id))
    decreases |os|
  {
    if os != [] {
      var init, last := os[..|os| - 1], os[|os| - 1];
      assert os == init + [last];
      SameDrop(init, id);
      LotsSnoc(init, last);
      LotsSnoc(Retain(init, id), last);
      assert (LotsOf(init) + [LotOf(last)])[..|init|] == LotsOf(init);
    }
  }

  // ── Whole runs ─────────────────────────────────────────────────────────────

  /** A limit that rests or not, fully shown, or a cancel. */
  predicate Plain(c: Command) {
    c.Entry? ==> c.display == 0 && (c.kind.Resting? || c.kind.Immediate?)
  }

  function PlainStep(os: seq<RefOrder>, n: nat, c: Command): (seq<RefOrder>, nat, seq<RefFill>)
    requires AllPositive(os)
  {
    match c
    case Entry(id, side, price, qty, _, kind) =>
      var r := MatchAgainst(os, id, side, price, qty);
      if kind.Resting? && r.left > 0 then (r.orders + [RefOrder(id, side, price, r.left, n + 1)], n + 1, r.fills)
      else (r.orders, n, r.fills)
    case Removal(id) => (Retain(os, id), n, [])
  }

  lemma {:induction false} Extended(os: seq<RefOrder>, o: RefOrder, n: nat)
    requires Listed(os, n) && o.arrival == n + 1 && o.qty > 0
    ensures LotsOf(os + [o]) == LotsOf(os) + [LotOf(o)] && Listed(os + [o], n + 1)
  {
  }

  lemma {:induction false} Entered(os: seq<Lot>, o: Lot, kind: Kind, r: Taken)
    requires AllKept(os) && !kind.FillOrKill? && !kind.Market? && o.display == 0
    requires r == FillFrom(os, Taker(o.id, o.side, true, o.price, 0), o.qty, o.qty)
    ensures Enter(os, o, kind)
         == (if kind.Resting? && r.left > 0 then r.orders + [Lot(o.id, o.side, o.price, r.left, 0, r.shown)]
            else r.orders,
             r.fills)
  {
  }

  /** An entry on both references. */
  lemma {:induction false} SameEntry(os: seq<RefOrder>, n: nat, c: Command) returns (lots: seq<Lot>, m: Matched)
    requires Listed(os, n) && Plain(c) && c.Entry?
    ensures lots == LotsOf(os) && AllKept(lots) && m == MatchAgainst(os, c.id, c.side, c.price, c.qty)
            && Listed(m.orders, n)
    ensures var rest := RefOrder(c.id, c.side, c.price, m.left, n + 1);
            if c.kind.Resting? && m.left > 0 then
              ReferenceStep(lots, c) == (LotsOf(m.orders + [rest]), m.fills) && Listed(m.orders + [rest], n + 1)
            else ReferenceStep(lots, c) == (LotsOf(m.orders), m.fills)
  {
    lots := LotsOf(os);
    var r;
    r, m := SameMatch(os, Taker(c.id, c.side, true, c.price, 0), c.qty, n);
    Entered(lots, Lot(c.id, c.side, c.price, c.qty, c.display, c.qty), c.kind, r);
    if m.left > 0 { Extended(m.orders, RefOrder(c.id, c.side, c.price, m.left, n + 1), n); }
  }

  /** One command on both references. */
  lemma {:induction false} SameStep(os: seq<RefOrder>, n: nat, c: Command)
    requires Listed(os, n) && Plain(c)
    ensures AllKept(LotsOf(os))
    ensures var (next, m, fills) := PlainStep(os, n, c);
            ReferenceStep(LotsOf(os), c) == (LotsOf(next), fills) && Listed(next, m)
  {
    LotsKept(os);
    if c.Entry? {
      var _, _ := SameEntry(os, n, c);
    } else {
      SameDrop(os, c.id);
      RetainListed(os, c.id, n);
    }
  }

  function PlainRun(os: seq<RefOrder>, n: nat, cs: seq<Command>): seq<RefFill>
    requires Listed(os, n) && forall i :: 0 <= i < |cs| ==> Plain(cs[i])
    decreases |cs|
  {
    if cs == [] then []
    else
      SameStep(os, n, cs[0]);
      var (next, m, fills) := PlainStep(os, n, cs[0]);
      fills + PlainRun(next, m, cs[1..])
  }

  lemma {:induction false} SameRun(os: seq<RefOrder>, n: nat, cs: seq<Command>)
    requires Listed(os, n) && forall i :: 0 <= i < |cs| ==> Plain(cs[i])
    ensures AllKept(LotsOf(os)) && ReferenceRun(LotsOf(os), cs).1 == PlainRun(os, n, cs)
    decreases |cs|
  {
    LotsKept(os);
    if cs != [] {
      SameStep(os, n, cs[0]);
      var (next, m, fills) := PlainStep(os, n, cs[0]);
      SameRun(next, m, cs[1..]);
    }
  }

  /** From empty books, every run of plain limits and cancels gives the fills of the plain reference matcher. */
  lemma BookRefinesPlain(cs: seq<Command>)
    requires AllProper(Book([], [], 0), cs) && forall i :: 0 <= i < |cs| ==> Plain(cs[i])
    ensures BookRun(Book([], [], 0), cs).1 == PlainRun([], 0, cs)
  {
    BookRefinesReference(cs);
    SameRun([], 0, cs);
    assert LotsOf([]) == [];
  }
}
