/** Per-symbol trading rules: the row checks of the gateway and of the core accept the same rows, and a row
    is accepted exactly when it admits an order quantity. */
module SymbolRules {
  import opened Arithmetic
  import opened Decimal

  const TWO_64 := 0x1_0000_0000_0000_0000
  const TWO_32 := 0x1_0000_0000
  const MAX_INT32 := 0x7fff_ffff

  datatype Rules = Rules(scale: nat, tick: nat, lot: nat, minQty: nat, maxQty: nat)

  function Wrap64(x: int): nat {
    x % TWO_64
  }

  /** The gateway: five uint64 columns, the lot size bounded directly. */
  predicate GatewayAccepts(r: Rules) {
    r.scale < TWO_64 && r.tick < TWO_64 && r.lot < TWO_64 && r.minQty < TWO_64 && r.maxQty < TWO_64
    && r.scale <= 8 && r.tick != 0 && r.tick <= MAX_INT64 && r.lot != 0 && r.lot <= MAX_INT32
    && r.minQty != 0 && r.minQty <= r.maxQty && r.maxQty <= MAX_INT32
    && Wrap64((Wrap64(r.minQty + r.lot - 1) / r.lot) * r.lot) <= r.maxQty
  }

  function DivCeil(a: nat, b: nat): nat
    requires b > 0
  {
    if a % b == 0 then a / b else a / b + 1
  }

  /** The core: each column in its own width, no direct bound on the lot size. */
  predicate CoreAccepts(r: Rules) {
    r.scale < TWO_32 && r.tick <= MAX_INT64 && r.lot < TWO_32 && r.minQty < TWO_32 && r.maxQty < TWO_32
    && r.scale <= 8 && r.tick > 0 && r.lot != 0 && r.minQty != 0 && r.minQty <= r.maxQty && r.maxQty <= MAX_INT32
    && Wrap64(DivCeil(r.minQty, r.lot) * r.lot) <= r.maxQty
  }

  predicate ValidQuantity(r: Rules, q: nat) {
    r.lot != 0 && r.minQty <= q <= r.maxQty && q % r.lot == 0
  }

  /** The smallest multiple of the lot that is at least the minimum. */
  function Smallest(r: Rules): nat
    requires r.lot > 0
  {
    DivCeil(r.minQty, r.lot) * r.lot
  }

  lemma CeilBounds(a: nat, b: nat)
    requires b > 0
    ensures a <= DivCeil(a, b) * b < a + b && DivCeil(a, b) * b % b == 0 && (a + b - 1) / b == DivCeil(a, b)
  {
    Quotient(a, b);
    var q, r := a / b, a % b;
    assert a == b * q + r;
    Divides(DivCeil(a, b) * b, DivCeil(a, b), b, 0);
    assert (q + 1) * b == q * b + b;
    DivIs(a + b - 1, b, DivCeil(a, b));
  }

  lemma NoMultipleBetween(a: nat, b: nat, q: nat)
    requires b > 0 && q % b == 0 && q >= a
    ensures DivCeil(a, b) * b <= q
  {
    CeilBounds(a, b);
    Quotient(q, b);
    assert q == (q / b) * b;
    Steps(q / b, DivCeil(a, b), b);
  }

  /** Both programs accept exactly the same rows. */
  lemma SameRows(r: Rules)
    ensures GatewayAccepts(r) <==> CoreAccepts(r)
  {
    if r.lot > 0 && r.lot < TWO_32 && r.minQty < TWO_32 {
      SameSmallest(r.minQty, r.lot);
      if r.lot > MAX_INT32 && 0 < r.minQty <= MAX_INT32 { LargeLot(r.minQty, r.lot); }
    }
  }

  /** Within 32 bits neither computation wraps, and both give the same quantity. */
  lemma SameSmallest(a: nat, b: nat)
    requires 0 < b < TWO_32 && a < TWO_32
    ensures Wrap64((Wrap64(a + b - 1) / b) * b) == DivCeil(a, b) * b && Wrap64(DivCeil(a, b) * b) == DivCeil(a, b) * b
  {
    CeilBounds(a, b);
    Unwrapped(a + b - 1);
    Unwrapped(DivCeil(a, b) * b);
  }

  lemma Unwrapped(x: nat)
    requires x < TWO_64
    ensures Wrap64(x) == x
  {
  }

  /** A lot larger than the minimum is itself the smallest quantity. */
  lemma LargeLot(a: nat, b: nat)
    requires 0 < a < b
    ensures DivCeil(a, b) * b == b
  {
    DivIs(a, b, 0);
    Divides(a, 0, b, a);
  }

  /** A row that passes the other checks is accepted exactly when some quantity is valid under it. */
  lemma AcceptedIffTradable(r: Rules)
    requires r.scale <= 8 && 0 < r.tick <= MAX_INT64 && 0 < r.lot < TWO_32 && 0 < r.minQty <= r.maxQty <= MAX_INT32
    ensures CoreAccepts(r) <==> exists q: nat :: ValidQuantity(r, q)
  {
    CeilBounds(r.minQty, r.lot);
    if CoreAccepts(r) {
      assert ValidQuantity(r, Smallest(r));
    }
    forall q: nat | ValidQuantity(r, q) ensures CoreAccepts(r) { NoMultipleBetween(r.minQty, r.lot, q); }
  }
}
