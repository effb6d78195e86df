/** The bounded order-status cache of an engine: what it shows of an order is the last report emitted for it,
    though the reports of a clock tick are processed twice, and it never forgets an open order. */
module StatusCache {

  import opened Decimal

  const MAX_TERMINAL := 100_000

  /** exec numbers the reports; a replace report names the order it replaces. */
  datatype Report = Report(id: string, exec: nat, leaves: nat, rejected: bool, replaced: Option<string>)

  /** The owner of an order and the last report about it, if any came yet. */
  datatype Entry = Entry(owner: string, last: Option<Report>)

  datatype Pair = Pair(id: string, exec: nat)

  datatype Cache = Cache(entries: map<string, Entry>, queue: seq<Pair>)

  // ── Operations ─────────────────────────────────────────────────────────────

  function LastFor(rs: seq<Report>, id: string): Option<Report> {
    if rs == [] then None
    else if rs[|rs| - 1].id == id then Some(rs[|rs| - 1])
    else LastFor(rs[..|rs| - 1], id)
  }

  /** Take over the owner when the request's own order was accepted. */
  function Bind(c: Cache, id: string, sender: string, rs: seq<Report>): Cache {
    match LastFor(rs, id)
    case None => c
    case Some(r) =>
      if r.rejected then c
      else c.(entries := c.entries[id := Entry(sender, if id in c.entries then c.entries[id].last else None)])
  }

  function Push(c: Cache, id: string, r: Report): Cache {
    Cache(c.entries[id := Entry(if id in c.entries then c.entries[id].owner else "", Some(r))],
          if r.leaves == 0 then c.queue + [Pair(id, r.exec)] else c.queue)
  }

  /** A replaced order is closed. */
  function Close(c: Cache, id: string): Cache
    requires id in c.entries
  {
    match c.entries[id].last
    case None => c
    case Some(r) => Push(c, id, r.(leaves := 0))
  }

  /** Only bound orders are followed, and a report already shown is skipped. */
  function RememberOne(c: Cache, r: Report): Cache {
    if r.rejected then c
    else if r.id in c.entries && c.entries[r.id].last.Some? && c.entries[r.id].last.value.exec == r.exec then c
    else
      var taken := if r.id in c.entries then Push(c, r.id, r) else c;
      if r.replaced.Some? && r.replaced.value in taken.entries then Close(taken, r.replaced.value) else taken
  }

  function RememberAll(c: Cache, rs: seq<Report>): Cache
    decreases |rs|
  {
    if rs == [] then c else RememberOne(RememberAll(c, rs[..|rs| - 1]), rs[|rs| - 1])
  }

  predicate Ended(e: Entry, exec: nat) {
    e.last.Some? && e.last.value.exec == exec && e.last.value.leaves == 0
  }

  /** Beyond the limit the oldest terminal report goes, and its order with it if that is still its last word. */
  function Trim(c: Cache): Cache
    decreases |c.queue|
  {
    if |c.queue| <= MAX_TERMINAL then c
    else
      var p := c.queue[0];
      var gone := p.id in c.entries && Ended(c.entries[p.id], p.exec);
      Trim(Cache(if gone then c.entries - {p.id} else c.entries, c.queue[1..]))
  }

  function Remember(c: Cache, rs: seq<Report>): Cache {
    Trim(RememberAll(c, rs))
  }

  // ── What the cache should show ─────────────────────────────────────────────

  function Effect(r: Report): Report {
    if r.replaced.Some? then r.(leaves := 0) else r
  }

  /** The last report about the order that was not a rejection; a replace closes the order. */
  function Shown(h: seq<Report>, id: string): Option<Report> {
    if h == [] then None
    else if h[|h| - 1].id == id && !h[|h| - 1].rejected then Some(Effect(h[|h| - 1]))
    else Shown(h[..|h| - 1], id)
  }

  /** Reports are numbered upwards, and a replace report is filed under the order it replaces. */
  predicate WellNumbered(h: seq<Report>) {
    && (forall i, j :: 0 <= i < j < |h| ==> h[i].exec < h[j].exec)
    && (forall i :: 0 <= i < |h| && h[i].replaced.Some? ==> h[i].replaced.value == h[i].id)
  }

  lemma {:induction false} ShownIsOne(h: seq<Report>, id: string)
    ensures Shown(h, id).Some? ==>
      exists i :: 0 <= i < |h| && h[i].id == id && !h[i].rejected && Shown(h, id) == Some(Effect(h[i]))
    decreases |h|
  {
    if h != [] {
      var init := h[..|h| - 1];
      ShownIsOne(init, id);
      if Shown(h, id).Some? && !(h[|h| - 1].id == id && !h[|h| - 1].rejected) {
        var i :| 0 <= i < |init| && init[i].id == id && !init[i].rejected && Shown(init, id) == Some(Effect(init[i]));
        assert h[i] == init[i];
      }
    }
  }

  lemma {:induction false} ShownConcat(a: seq<Report>, b: seq<Report>, id: string)
    ensures Shown(a + b, id) == if Shown(b, id).Some? then Shown(b, id) else Shown(a, id)
    decreases |b|
  {
    if b == [] {
      assert a + b == a;
    } else {
      assert (a + b)[..|a + b| - 1] == a + b[..|b| - 1];
      ShownConcat(a, b[..|b| - 1], id);
    }
  }

  function Last(c: Cache, id: string): Option<Report> {
    if id in c.entries then c.entries[id].last else None
  }

  /** A report with the number of what is shown is what is shown. */
  predicate Consistent(base: Option<Report>, rs: seq<Report>, id: string) {
    base.Some? ==>
      forall k :: 0 <= k < |rs| && rs[k].id == id && rs[k].exec == base.value.exec ==> base == Some(Effect(rs[k]))
  }

  lemma OneStep(c: Cache, r: Report, id: string)
    requires r.replaced.Some? ==> r.replaced.value == r.id
    requires id in c.entries
    requires Last(c, id).Some? && Last(c, id).value.exec == r.exec && r.id == id ==> Last(c, id) == Some(Effect(r))
    ensures id in RememberOne(c, r).entries
    ensures Last(RememberOne(c, r), id) == if r.id == id && !r.rejected then Some(Effect(r)) else Last(c, id)
  {
  }

  /** Processing reports, for the first or the second time, leaves the last of them. */
  lemma {:induction false} RememberShows(c: Cache, rs: seq<Report>, id: string)
    requires WellNumbered(rs) && id in c.entries && Consistent(Last(c, id), rs, id)
    ensures id in RememberAll(c, rs).entries
    ensures Last(RememberAll(c, rs), id) == if Shown(rs, id).Some? then Shown(rs, id) else Last(c, id)
    decreases |rs|
  {
    if rs != [] {
      var init, r := rs[..|rs| - 1], rs[|rs| - 1];
      RememberShows(c, init, id);
      ShownIsOne(init, id);
      OneStep(RememberAll(c, init), r, id);
    }
  }

  lemma {:induction false} TrimKeeps(c: Cache, id: string)
    ensures id in Trim(c).entries ==> id in c.entries && Last(Trim(c), id) == Last(c, id)
    ensures id in c.entries && (Last(c, id).None? || Last(c, id).value.leaves > 0) ==> id in Trim(c).entries
    decreases |c.queue|
  {
    if |c.queue| > MAX_TERMINAL {
      var p := c.queue[0];
      var gone := p.id in c.entries && Ended(c.entries[p.id], p.exec);
      TrimKeeps(Cache(if gone then c.entries - {p.id} else c.entries, c.queue[1..]), id);
    }
  }

  // ── Terminal orders ────────────────────────────────────────────────────────

  /** Every order shown as ended has its own place in the queue. */
  ghost predicate Paired(c: Cache) {
    forall id :: id in c.entries && c.entries[id].last.Some? && c.entries[id].last.value.leaves == 0 ==>
      Pair(id, c.entries[id].last.value.exec) in c.queue
  }

  lemma {:induction false} RememberPaired(c: Cache, rs: seq<Report>)
    requires Paired(c)
    ensures Paired(RememberAll(c, rs))
    decreases |rs|
  {
    if rs != [] { RememberPaired(c, rs[..|rs| - 1]); }
  }

  lemma {:induction false} TrimPaired(c: Cache)
    requires Paired(c)
    ensures Paired(Trim(c)) && |Trim(c).queue| <= MAX_TERMINAL
    decreases |c.queue|
  {
    if |c.queue| > MAX_TERMINAL {
      var p := c.queue[0];
      var gone := p.id in c.entries && Ended(c.entries[p.id], p.exec);
      var next := Cache(if gone then c.entries - {p.id} else c.entries, c.queue[1..]);
      forall id | id in next.entries && next.entries[id].last.Some? && next.entries[id].last.value.leaves == 0
        ensures Pair(id, next.entries[id].last.value.exec) in next.queue
      {
        var q := Pair(id, c.entries[id].last.value.exec);
        assert q in c.queue && q != p;
      }
      TrimPaired(next);
    }
  }

  function Queued(queue: seq<Pair>): set<string> {
    if queue == [] then {} else Queued(queue[1..]) + {queue[0].id}
  }

  lemma {:induction false} QueuedSize(queue: seq<Pair>)
    ensures |Queued(queue)| <= |queue| && forall p :: p in queue ==> p.id in Queued(queue)
  {
    if queue != [] { QueuedSize(queue[1..]); }
  }

  function EndedIds(c: Cache): set<string> {
    set id | id in c.entries && c.entries[id].last.Some? && c.entries[id].last.value.leaves == 0
  }

  lemma {:induction false} SubsetSize(a: set<string>, b: set<string>)
    requires a <= b
    ensures |a| <= |b|
    decreases a
  {
    if x :| x in a {
      SubsetSize(a - {x}, b - {x});
    } else {
      assert a == {};
    }
  }

  /** No more ended orders than the limit. */
  lemma EndedAreBounded(c: Cache)
    requires Paired(c) && |c.queue| <= MAX_TERMINAL
    ensures |EndedIds(c)| <= MAX_TERMINAL
  {
    QueuedSize(c.queue);
    SubsetSize(EndedIds(c), Queued(c.queue));
  }

  // ── Whole runs ─────────────────────────────────────────────────────────────

  /** A tick; an entry or a replace, which bind the order they name; or a request that binds none. */
  datatype Call =
    | Ticked(ticks: seq<Report>)
    | Requested(ticks: seq<Report>, own: seq<Report>, id: string, sender: string)
    | Served(ticks: seq<Report>, own: seq<Report>)

  function Emitted(q: Call): seq<Report> {
    if q.Ticked? then q.ticks else q.ticks + q.own
  }

  /** The cache between the two passes over the tick's reports. */
  function Between(c: Cache, q: Call): Cache {
    match q
    case Requested(ticks, own, id, sender) => Bind(Remember(c, ticks), id, sender, ticks + own)
    case _ => Remember(c, q.ticks)
  }

  function Called(c: Cache, q: Call): Cache {
    if q.Ticked? then Remember(c, q.ticks) else Remember(Between(c, q), q.ticks + q.own)
  }

  ghost predicate Faithful(c: Cache, h: seq<Report>) {
    (forall id :: id in c.entries ==> Last(c, id) == Shown(h, id)) && Paired(c) && |c.queue| <= MAX_TERMINAL
  }

  lemma Numbered(h: seq<Report>, rs: seq<Report>, k: nat)
    requires WellNumbered(h + rs) && k <= |rs|
    ensures WellNumbered(h + rs[..k]) && WellNumbered(rs) && WellNumbered(rs[..k])
  {
    assert forall i :: 0 <= i < |h| + k ==> (h + rs[..k])[i] == (h + rs)[i];
    assert forall i :: 0 <= i < |rs| ==> rs[i] == (h + rs)[|h| + i];
  }

  /** What is shown from a history agrees with any report of it under the same number. */
  lemma ShownConsistent(h: seq<Report>, rs: seq<Report>, k: nat, id: string)
    requires WellNumbered(h + rs) && k <= |rs|
    ensures Consistent(Shown(h + rs[..k], id), rs, id)
  {
    var g := h + rs[..k];
    ShownIsOne(g, id);
    if Shown(g, id).Some? {
      var i :| 0 <= i < |g| && g[i].id == id && !g[i].rejected && Shown(g, id) == Some(Effect(g[i]));
      forall j | 0 <= j < |rs| && rs[j].id == id && rs[j].exec == Shown(g, id).value.exec
        ensures Shown(g, id) == Some(Effect(rs[j]))
      {
        assert (h + rs)[i] == g[i] && (h + rs)[|h| + j] == rs[j];
      }
    }
  }

  lemma FirstPass(c: Cache, h: seq<Report>, rs: seq<Report>, id: string)
    requires Faithful(c, h) && WellNumbered(h + rs)
    ensures id in Remember(c, rs).entries ==> id in c.entries && Last(Remember(c, rs), id) == Shown(h + rs, id)
  {
    TrimKeeps(RememberAll(c, rs), id);
    Numbered(h, rs, |rs|);
    if id in c.entries {
      assert h + rs[..0] == h;
      ShownConsistent(h, rs, 0, id);
      RememberShows(c, rs, id);
      ShownConcat(h, rs, id);
    } else {
      Unbound(c, rs, id);
    }
  }

  lemma {:induction false} Unbound(c: Cache, rs: seq<Report>, id: string)
    requires id !in c.entries
    ensures id !in RememberAll(c, rs).entries
    decreases |rs|
  {
    if rs != [] { Unbound(c, rs[..|rs| - 1], id); }
  }

  lemma {:induction false} AcceptedIsShown(rs: seq<Report>, id: string)
    ensures LastFor(rs, id).Some? && !LastFor(rs, id).value.rejected ==> Shown(rs, id).Some?
    decreases |rs|
  {
    if rs != [] { AcceptedIsShown(rs[..|rs| - 1], id); }
  }

  /** An order the first pass ends with, or one the request binds, is followed through the second pass. */
  lemma {:induction false} SecondPass(c: Cache, h: seq<Report>, q: Call, id: string)
    requires Faithful(c, h) && WellNumbered(h + Emitted(q)) && !q.Ticked? && id in Between(c, q).entries
    ensures var all := RememberAll(Between(c, q), q.ticks + q.own);
            id in all.entries && Last(all, id) == Shown(h + (q.ticks + q.own), id)
  {
    var w, c2 := q.ticks + q.own, Between(c, q);
    assert w[..|q.ticks|] == q.ticks;
    Numbered(h, w, |q.ticks|);
    FirstPass(c, h, q.ticks, id);
    ShownConcat(h, w, id);
    AcceptedIsShown(w, id);
    ShownConsistent(h, w, |q.ticks|, id);
    RememberShows(c2, w, id);
    ShownConcat(h, q.ticks, id);
    ShownConcat(q.ticks, q.own, id);
  }

  lemma {:induction false} AfterCall(c: Cache, h: seq<Report>, q: Call, id: string)
    requires Faithful(c, h) && WellNumbered(h + Emitted(q)) && id in Called(c, q).entries
    ensures Last(Called(c, q), id) == Shown(h + Emitted(q), id)
  {
    if q.Ticked? {
      FirstPass(c, h, q.ticks, id);
    } else {
      TrimKeeps(RememberAll(Between(c, q), q.ticks + q.own), id);
      if id !in Between(c, q).entries { Unbound(Between(c, q), q.ticks + q.own, id); } else { SecondPass(c, h, q, id); }
    }
  }

  lemma BindPaired(c: Cache, id: string, sender: string, rs: seq<Report>)
    requires Paired(c)
    ensures Paired(Bind(c, id, sender, rs))
  {
  }

  lemma BetweenPaired(c: Cache, q: Call)
    requires Paired(c)
    ensures Paired(Between(c, q))
  {
    RememberPaired(c, q.ticks);
    TrimPaired(RememberAll(c, q.ticks));
    if q.Requested? { BindPaired(Remember(c, q.ticks), q.id, q.sender, q.ticks + q.own); }
  }

  /** Each call keeps the cache faithful to everything emitted so far. */
  lemma {:induction false} CallKeeps(c: Cache, h: seq<Report>, q: Call)
    requires Faithful(c, h) && WellNumbered(h + Emitted(q))
    ensures Faithful(Called(c, q), h + Emitted(q))
  {
    forall id | id in Called(c, q).entries ensures Last(Called(c, q), id) == Shown(h + Emitted(q), id) {
      AfterCall(c, h, q, id);
    }
    if q.Ticked? {
      RememberPaired(c, q.ticks);
      TrimPaired(RememberAll(c, q.ticks));
    } else {
      BetweenPaired(c, q);
      RememberPaired(Between(c, q), q.ticks + q.own);
      TrimPaired(RememberAll(Between(c, q), q.ticks + q.own));
    }
  }

  // ── Nothing open is forgotten ──────────────────────────────────────────────

  predicate IsOpen(r: Option<Report>) {
    r.Some? && r.value.leaves > 0
  }

  /** The call accepted the order it names, and so bound it to its sender. */
  predicate Binds(q: Call, id: string) {
    q.Requested? && q.id == id && var last := LastFor(Emitted(q), id); last.Some? && !last.value.rejected
  }

  /** A tick opens no order; only the request that names an order and has it accepted opens it. */
  ghost predicate Opens(h: seq<Report>, q: Call) {
    forall id ::
      (IsOpen(Shown(h + q.ticks, id)) ==> IsOpen(Shown(h, id)))
      && (IsOpen(Shown(h + Emitted(q), id)) ==> IsOpen(Shown(h + q.ticks, id)) || Binds(q, id))
  }

  ghost predicate Complete(c: Cache, h: seq<Report>) {
    forall id :: IsOpen(Shown(h, id)) ==> id in c.entries
  }

  /** An order that was open before the tick and after it is kept by the tick's own pass. */
  lemma {:induction false} TickKeepsOpen(c: Cache, h: seq<Report>, ticks: seq<Report>, id: string)
    requires Faithful(c, h) && WellNumbered(h + ticks) && id in c.entries && IsOpen(Shown(h + ticks, id))
    ensures id in Remember(c, ticks).entries
  {
    Numbered(h, ticks, |ticks|);
    assert h + ticks[..0] == h;
    ShownConsistent(h, ticks, 0, id);
    RememberShows(c, ticks, id);
    ShownConcat(h, ticks, id);
    TrimKeeps(RememberAll(c, ticks), id);
  }

  lemma {:induction false} CallKeepsOpen(c: Cache, h: seq<Report>, q: Call, id: string)
    requires Faithful(c, h) && WellNumbered(h + Emitted(q)) && Complete(c, h) && Opens(h, q)
    requires IsOpen(Shown(h + Emitted(q), id))
    ensures id in Called(c, q).entries
  {
    assert Emitted(q)[..|q.ticks|] == q.ticks;
    Numbered(h, Emitted(q), |q.ticks|);
    if IsOpen(Shown(h + q.ticks, id)) { TickKeepsOpen(c, h, q.ticks, id); }
    if !q.Ticked? {
      SecondPass(c, h, q, id);
      TrimKeeps(RememberAll(Between(c, q), q.ticks + q.own), id);
    }
  }

  // ── Every run ──────────────────────────────────────────────────────────────

  function History(qs: seq<Call>): seq<Report> {
    if qs == [] then [] else History(qs[..|qs| - 1]) + Emitted(qs[|qs| - 1])
  }

  function Run(qs: seq<Call>): Cache {
    if qs == [] then Cache(map[], []) else Called(Run(qs[..|qs| - 1]), qs[|qs| - 1])
  }

  ghost predicate OpenedByEntry(qs: seq<Call>) {
    qs == [] || (OpenedByEntry(qs[..|qs| - 1]) && Opens(History(qs[..|qs| - 1]), qs[|qs| - 1]))
  }

  lemma HistoryNumbered(qs: seq<Call>)
    requires qs != [] && WellNumbered(History(qs))
    ensures WellNumbered(History(qs[..|qs| - 1]))
  {
    var init := qs[..|qs| - 1];
    Numbered([], History(qs), |History(init)|);
    assert [] + History(qs) == History(qs) && History(qs)[..|History(init)|] == History(init);
  }

  /** After any sequence of calls every entry shows the last report about its order, and at most the limit
      of ended orders is kept. */
  lemma {:induction false} CacheIsFaithful(qs: seq<Call>)
    requires WellNumbered(History(qs))
    ensures Faithful(Run(qs), History(qs)) && |EndedIds(Run(qs))| <= MAX_TERMINAL
    decreases |qs|
  {
    if qs != [] {
      HistoryNumbered(qs);
      CacheIsFaithful(qs[..|qs| - 1]);
      CallKeeps(Run(qs[..|qs| - 1]), History(qs[..|qs| - 1]), qs[|qs| - 1]);
    }
    EndedAreBounded(Run(qs));
  }

  /** After any sequence of calls every order whose last report leaves something open is in the cache, with
      that report, however many ended orders were forgotten. */
  lemma {:induction false} NothingOpenForgotten(qs: seq<Call>, id: string)
    requires WellNumbered(History(qs)) && OpenedByEntry(qs) && IsOpen(Shown(History(qs), id))
    ensures id in Run(qs).entries && Run(qs).entries[id].last == Shown(History(qs), id)
  {
    CacheIsFaithful(qs);
    OpenAreCached(qs);
  }

  lemma {:induction false} OpenAreCached(qs: seq<Call>)
    requires WellNumbered(History(qs)) && OpenedByEntry(qs)
    ensures Complete(Run(qs), History(qs))
    decreases |qs|
  {
    if qs != [] {
      var init, q := qs[..|qs| - 1], qs[|qs| - 1];
      HistoryNumbered(qs);
      OpenAreCached(init);
      CacheIsFaithful(init);
      forall id | IsOpen(Shown(History(qs), id)) ensures id in Run(qs).entries {
        CallKeepsOpen(Run(init), History(init), q, id);
      }
    }
  }

  // ── The cache as the source runs it ────────────────────────────────────────

  class StatusHistory {
    var entries: map<string, Entry>
    var queue: seq<Pair>

    function View(): Cache
      reads this
    {
      Cache(entries, queue)
    }

    constructor ()
      ensures View() == Cache(map[], [])
    {
      entries, queue := map[], [];
    }

    method BindOwner(id: string, sender: string, rs: seq<Report>)
      modifies this
      ensures View() == Bind(old(View()), id, sender, rs)
    {
      var i := |rs|;
      assert rs[..i] == rs;
      while i > 0
        invariant i <= |rs| && LastFor(rs, id) == LastFor(rs[..i], id)
        invariant View() == old(View())
      {
        i := i - 1;
        assert rs[..i + 1][..i] == rs[..i];
        if rs[i].id == id {
          if !rs[i].rejected {
            entries := entries[id := Entry(sender, if id in entries then entries[id].last else None)];
          }
          return;
        }
      }
    }

    method TakeOne(r: Report)
      modifies this
      ensures View() == RememberOne(old(View()), r)
    {
      if r.rejected { return; }
      if r.id in entries {
        if entries[r.id].last.Some? && entries[r.id].last.value.exec == r.exec { return; }
        entries := entries[r.id := Entry(entries[r.id].owner, Some(r))];
        if r.leaves == 0 { queue := queue + [Pair(r.id, r.exec)]; }
      }
      if r.replaced.Some? && r.replaced.value in entries && entries[r.replaced.value].last.Some? {
        var closed := entries[r.replaced.value].last.value.(leaves := 0);
        queue := queue + [Pair(r.replaced.value, closed.exec)];
        entries := entries[r.replaced.value := Entry(entries[r.replaced.value].owner, Some(closed))];
      }
    }

    /** One public call: the tick's pass, the binding, and the pass over everything emitted. */
    method Handle(q: Call)
      modifies this
      ensures View() == Called(old(View()), q)
    {
      TakeAll(q.ticks);
      if q.Requested? { BindOwner(q.id, q.sender, q.ticks + q.own); }
      if !q.Ticked? { TakeAll(q.ticks + q.own); }
    }

    method TakeAll(rs: seq<Report>)
      modifies this
      ensures View() == Remember(old(View()), rs)
    {
      var i := 0;
      while i < |rs|
        invariant i <= |rs| && View() == RememberAll(old(View()), rs[..i])
      {
        assert rs[..i + 1][..i] == rs[..i];
        TakeOne(rs[i]);
        i := i + 1;
      }
      assert rs[..i] == rs;
      while |queue| > MAX_TERMINAL
        invariant Trim(View()) == Remember(old(View()), rs)
        decreases |queue|
      {
        var p := queue[0];
        queue := queue[1..];
        if p.id in entries && Ended(entries[p.id], p.exec) { entries := entries - {p.id}; }
      }
    }
  }
}
