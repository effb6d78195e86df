/** Routing of market data to a client's requests: one snapshot each, increments only to streaming requests
    and only after their snapshot, nothing after unsubscribing. */
module MarketData {
  datatype Request = Request(id: string, stream: bool, owed: bool)

  /** The requests of each symbol, in the order they came; no symbol has an empty list. */
  type Subscriptions = map<string, seq<Request>>

  function Of(s: Subscriptions, symbol: string): seq<Request> {
    if symbol in s then s[symbol] else []
  }

  function Put(s: Subscriptions, symbol: string, rs: seq<Request>): Subscriptions {
    if rs == [] then s - {symbol} else s[symbol := rs]
  }

  function Remove(rs: seq<Request>, id: string): seq<Request> {
    if rs == [] then []
    else if rs[|rs| - 1].id == id then Remove(rs[..|rs| - 1], id)
    else Remove(rs[..|rs| - 1], id) + [rs[|rs| - 1]]
  }

  function SubscribeOne(s: Subscriptions, id: string, stream: bool, symbol: string): Subscriptions {
    s[symbol := Remove(Of(s, symbol), id) + [Request(id, stream, true)]]
  }

  function Subscribe(s: Subscriptions, id: string, stream: bool, symbols: seq<string>): Subscriptions
    decreases |symbols|
  {
    if symbols == [] then s
    else SubscribeOne(Subscribe(s, id, stream, symbols[..|symbols| - 1]), id, stream, symbols[|symbols| - 1])
  }

  /** From the named symbols, or from all of them when none is named. */
  function Unsubscribe(s: Subscriptions, id: string, symbols: seq<string>): Subscriptions {
    map x | x in s && (!(symbols == [] || x in symbols) || Remove(s[x], id) != []) ::
      if symbols == [] || x in symbols then Remove(s[x], id) else s[x]
  }

  /** Those owed a snapshot get it; snapshot-only requests are then complete. */
  function Served(rs: seq<Request>): seq<Request> {
    if rs == [] then []
    else
      var r := rs[|rs| - 1];
      Served(rs[..|rs| - 1]) + if r.owed && !r.stream then [] else [r.(owed := false)]
  }

  function Owed(rs: seq<Request>): seq<string> {
    if rs == [] then [] else Owed(rs[..|rs| - 1]) + if rs[|rs| - 1].owed then [rs[|rs| - 1].id] else []
  }

  function Streaming(rs: seq<Request>): seq<string> {
    if rs == [] then []
    else Streaming(rs[..|rs| - 1]) + if rs[|rs| - 1].stream && !rs[|rs| - 1].owed then [rs[|rs| - 1].id] else []
  }

  function Snapshot(s: Subscriptions, symbol: string): Subscriptions {
    Put(s, symbol, Served(Of(s, symbol)))
  }

  // ── Requests are unique ────────────────────────────────────────────────────

  predicate Has(rs: seq<Request>, id: string) {
    exists i :: 0 <= i < |rs| && rs[i].id == id
  }

  predicate Unique(rs: seq<Request>) {
    forall i, j :: 0 <= i < j < |rs| ==> rs[i].id != rs[j].id
  }

  /** What the client is due for one request id: nothing, a snapshot, or increments. */
  datatype Due = Nothing | Due(stream: bool) | Increments

  function DueOf(rs: seq<Request>, id: string): Due {
    if rs == [] then Nothing
    else
      var r := rs[|rs| - 1];
      if r.id != id then DueOf(rs[..|rs| - 1], id)
      else if r.owed then Due(r.stream)
      else if r.stream then Increments
      else Nothing
  }

  lemma DueSnoc(init: seq<Request>, last: Request, id: string)
    ensures DueOf(init + [last], id)
         == (if last.id != id then DueOf(init, id) else if last.owed then Due(last.stream)
            else if last.stream then Increments else Nothing)
  {
    assert (init + [last])[..|init|] == init;
  }

  lemma RemoveSnoc(init: seq<Request>, last: Request, id: string)
    ensures Remove(init + [last], id) == if last.id == id then Remove(init, id) else Remove(init, id) + [last]
  {
    assert (init + [last])[..|init|] == init;
  }

  lemma {:induction false} RemoveDue(rs: seq<Request>, id: string, other: string)
    ensures DueOf(Remove(rs, id), other) == if other == id then Nothing else DueOf(rs, other)
    decreases |rs|
  {
    if rs != [] {
      var init, last := rs[..|rs| - 1], rs[|rs| - 1];
      RemoveDue(init, id, other);
      RemoveSnoc(init, last, id);
      assert rs == init + [last];
      DueSnoc(init, last, other);
      DueSnoc(Remove(init, id), last, other);
    }
  }

  predicate Lacks(rs: seq<Request>, id: string) {
    forall i :: 0 <= i < |rs| ==> rs[i].id != id
  }

  /** Every id of r is an id of rs. */
  predicate Among(r: seq<Request>, rs: seq<Request>) {
    forall i :: 0 <= i < |r| ==> Has(rs, r[i].id)
  }

  lemma AmongSnoc(r: seq<Request>, init: seq<Request>, last: Request, o: Request)
    requires Among(r, init) && o.id == last.id
    ensures Among(r, init + [last]) && Among(r + [o], init + [last])
  {
    var rs := init + [last];
    forall i | 0 <= i < |r| ensures Has(rs, r[i].id) {
      var j :| 0 <= j < |init| && init[j].id == r[i].id;
      assert rs[j].id == r[i].id;
    }
    assert rs[|init|].id == last.id;
  }

  lemma UniqueSnoc(r: seq<Request>, init: seq<Request>, last: Request, o: Request)
    requires Unique(r) && Among(r, init) && Unique(init + [last]) && o.id == last.id
    ensures Unique(r + [o])
  {
    forall i | 0 <= i < |r| ensures r[i].id != last.id {
      var j :| 0 <= j < |init| && init[j].id == r[i].id;
      assert (init + [last])[j].id != (init + [last])[|init|].id;
    }
  }

  lemma {:induction false} RemoveAmong(rs: seq<Request>, id: string)
    ensures Among(Remove(rs, id), rs) && (Unique(rs) ==> Unique(Remove(rs, id))) && Lacks(Remove(rs, id), id)
    decreases |rs|
  {
    if rs != [] {
      var init, last := rs[..|rs| - 1], rs[|rs| - 1];
      RemoveAmong(init, id);
      RemoveSnoc(init, last, id);
      assert rs == init + [last];
      AmongSnoc(Remove(init, id), init, last, last);
      if Unique(rs) { UniqueSnoc(Remove(init, id), init, last, last); }
    }
  }

  lemma RemoveKeeps(rs: seq<Request>, id: string, other: string)
    requires Unique(rs)
    ensures Unique(Remove(rs, id)) && Lacks(Remove(rs, id), id)
    ensures DueOf(Remove(rs, id), other) == if other == id then Nothing else DueOf(rs, other)
  {
    RemoveAmong(rs, id);
    RemoveDue(rs, id, other);
  }

  function Count(ids: seq<string>, id: string): nat {
    if ids == [] then 0 else Count(ids[..|ids| - 1], id) + if ids[|ids| - 1] == id then 1 else 0
  }

  lemma CountSnoc(ids: seq<string>, last: string, id: string)
    ensures Count(ids + [last], id) == Count(ids, id) + if last == id then 1 else 0
  {
    assert (ids + [last])[..|ids|] == ids;
  }

  lemma ServedSnoc(init: seq<Request>, last: Request)
    ensures Served(init + [last]) == if last.owed && !last.stream then Served(init)
            else Served(init) + [last.(owed := false)]
  {
    assert (init + [last])[..|init|] == init;
    assert Served(init) + [] == Served(init);
  }

  lemma OwedSnoc(init: seq<Request>, last: Request, id: string)
    ensures Count(Owed(init + [last]), id) == Count(Owed(init), id) + if last.owed && last.id == id then 1 else 0
  {
    assert (init + [last])[..|init|] == init;
    assert Owed(init) + [] == Owed(init);
    CountSnoc(Owed(init), last.id, id);
  }

  lemma StreamingSnoc(init: seq<Request>, last: Request, id: string)
    ensures Count(Streaming(init + [last]), id)
            == Count(Streaming(init), id) + if last.stream && !last.owed && last.id == id then 1 else 0
  {
    assert (init + [last])[..|init|] == init;
    assert Streaming(init) + [] == Streaming(init);
    CountSnoc(Streaming(init), last.id, id);
  }

  lemma {:induction false} AbsentDue(rs: seq<Request>, id: string)
    requires Lacks(rs, id)
    ensures DueOf(rs, id) == Nothing
    decreases |rs|
  {
    if rs != [] { AbsentDue(rs[..|rs| - 1], id); }
  }

  lemma UniqueInit(rs: seq<Request>)
    requires rs != [] && Unique(rs)
    ensures var init, last := rs[..|rs| - 1], rs[|rs| - 1];
            rs == init + [last] && Unique(init) && DueOf(init, last.id) == Nothing
  {
    AbsentDue(rs[..|rs| - 1], rs[|rs| - 1].id);
  }

  function AfterSnapshot(d: Due): Due {
    match d case Due(stream) => if stream then Increments else Nothing case _ => d
  }

  /** A snapshot goes exactly once to each request that is owed one. */
  lemma {:induction false} OwedCount(rs: seq<Request>, id: string)
    requires Unique(rs)
    ensures Count(Owed(rs), id) == (if DueOf(rs, id).Due? then 1 else 0)
    decreases |rs|
  {
    if rs != [] {
      UniqueInit(rs);
      OwedCount(rs[..|rs| - 1], id);
      OwedSnoc(rs[..|rs| - 1], rs[|rs| - 1], id);
      DueSnoc(rs[..|rs| - 1], rs[|rs| - 1], id);
    }
  }

  /** An increment goes exactly once to each streaming request that has had its snapshot. */
  lemma {:induction false} StreamingCount(rs: seq<Request>, id: string)
    requires Unique(rs)
    ensures Count(Streaming(rs), id) == (if DueOf(rs, id).Increments? then 1 else 0)
    decreases |rs|
  {
    if rs != [] {
      UniqueInit(rs);
      StreamingCount(rs[..|rs| - 1], id);
      StreamingSnoc(rs[..|rs| - 1], rs[|rs| - 1], id);
      DueSnoc(rs[..|rs| - 1], rs[|rs| - 1], id);
    }
  }

  /** Serving a snapshot moves each request on. */
  lemma {:induction false} ServedDue(rs: seq<Request>, id: string)
    requires Unique(rs)
    ensures DueOf(Served(rs), id) == AfterSnapshot(DueOf(rs, id))
    decreases |rs|
  {
    if rs != [] {
      var init, last := rs[..|rs| - 1], rs[|rs| - 1];
      UniqueInit(rs);
      ServedDue(init, id);
      ServedSnoc(init, last);
      DueSnoc(init, last, id);
      DueSnoc(Served(init), last.(owed := false), id);
    }
  }

  lemma {:induction false} ServedKeeps(rs: seq<Request>)
    requires Unique(rs)
    ensures Unique(Served(rs)) && Among(Served(rs), rs)
    decreases |rs|
  {
    if rs != [] {
      var init, last := rs[..|rs| - 1], rs[|rs| - 1];
      UniqueInit(rs);
      ServedKeeps(init);
      ServedSnoc(init, last);
      AmongSnoc(Served(init), init, last, last.(owed := false));
      UniqueSnoc(Served(init), init, last, last.(owed := false));
    }
  }

  // ── Undo ───────────────────────────────────────────────────────────────────

  /** The lists as they were, for the symbols of a request. */
  function Saved(s: Subscriptions, symbols: seq<string>): map<string, seq<Request>> {
    map x | x in symbols :: Of(s, x)
  }

  /** Put saved lists back. */
  function Restore(s: Subscriptions, prev: map<string, seq<Request>>): Subscriptions {
    map x | x in s.Keys + prev.Keys && (x in prev ==> prev[x] != []) :: if x in prev then prev[x] else s[x]
  }

  predicate NoEmpty(s: Subscriptions) {
    forall x :: x in s ==> s[x] != []
  }

  // ── Whole runs ─────────────────────────────────────────────────────────────

  datatype Command =
    | Ask(id: string, stream: bool, symbols: seq<string>)
    | Leave(id: string, symbols: seq<string>)
    | PublishSnapshot(symbol: string)
    | PublishIncrement(symbol: string)
    | Undo(id: string, prev: map<string, seq<Request>>)

  function Step(s: Subscriptions, c: Command): Subscriptions {
    match c
    case Ask(id, stream, symbols) => Subscribe(s, id, stream, symbols)
    case Leave(id, symbols) => Unsubscribe(s, id, symbols)
    case PublishSnapshot(symbol) => Snapshot(s, symbol)
    case PublishIncrement(_) => s
    case Undo(_, prev) => Restore(s, prev)
  }

  function Run(s: Subscriptions, cs: seq<Command>): Subscriptions
    decreases |cs|
  {
    if cs == [] then s else Run(Step(s, cs[0]), cs[1..])
  }

  /** What happens to one request id on one symbol. */
  datatype Fact = Asked(stream: bool) | Left | GotSnapshot | GotIncrement | Restored(due: Due, own: bool)

  function Repeat(f: Fact, n: nat): seq<Fact> {
    if n == 0 then [] else [f] + Repeat(f, n - 1)
  }

  function Facts(s: Subscriptions, c: Command, symbol: string, id: string): seq<Fact> {
    match c
    case Ask(x, stream, symbols) => if x == id && symbol in symbols then [Asked(stream)] else []
    case Leave(x, symbols) => if x == id && (symbols == [] || symbol in symbols) then [Left] else []
    case PublishSnapshot(y) => if y == symbol then Repeat(GotSnapshot, Count(Owed(Of(s, symbol)), id)) else []
    case PublishIncrement(y) => if y == symbol then Repeat(GotIncrement, Count(Streaming(Of(s, symbol)), id)) else []
    case Undo(owner, prev) => if symbol in prev then [Restored(DueOf(prev[symbol], id), owner == id)] else []
  }

  function History(s: Subscriptions, cs: seq<Command>, symbol: string, id: string): seq<Fact>
    decreases |cs|
  {
    if cs == [] then [] else Facts(s, cs[0], symbol, id) + History(Step(s, cs[0]), cs[1..], symbol, id)
  }

  /** After asking: at most one snapshot; increments only when streaming and only after it; after leaving
      or completion, nothing until the next asking. An undo takes its own request back to what it was due,
      and must leave every other request as it is. */
  predicate Proper(h: seq<Fact>, d: Due)
    decreases |h|
  {
    h == []
    || match h[0]
       case Asked(stream) => Proper(h[1..], Due(stream))
       case Left => Proper(h[1..], Nothing)
       case GotSnapshot => d.Due? && Proper(h[1..], AfterSnapshot(d))
       case GotIncrement => d.Increments? && Proper(h[1..], d)
       case Restored(due, own) => (own || due == d) && Proper(h[1..], due)
  }

  /** What is due after the facts. */
  function Follow(h: seq<Fact>, d: Due): Due
    decreases |h|
  {
    if h == [] then d else Follow(h[1..], Next(h[0], d))
  }

  function Next(f: Fact, d: Due): Due {
    match f
    case Asked(stream) => Due(stream)
    case Left => Nothing
    case GotSnapshot => AfterSnapshot(d)
    case GotIncrement => d
    case Restored(due, _) => due
  }

  ghost predicate AllUnique(s: Subscriptions) {
    forall x :: x in s ==> Unique(s[x])
  }

  /** A request replaces the one with its id, at the end of its symbol's list. */
  lemma Replaced(rs: seq<Request>, id: string, stream: bool, other: string)
    requires Unique(rs)
    ensures var r := Remove(rs, id) + [Request(id, stream, true)];
            Unique(r) && DueOf(r, other) == if other == id then Due(stream) else DueOf(rs, other)
  {
    RemoveKeeps(rs, id, other);
    DueSnoc(Remove(rs, id), Request(id, stream, true), other);
    NewUnique(Remove(rs, id), Request(id, stream, true));
  }

  lemma NewUnique(r: seq<Request>, last: Request)
    requires Unique(r) && Lacks(r, last.id)
    ensures Unique(r + [last])
  {
  }

  lemma InSnoc(init: seq<string>, last: string, y: string)
    ensures y in init + [last] <==> y in init || y == last
  {
  }

  lemma {:induction false} RemoveTwice(rs: seq<Request>, id: string)
    ensures Remove(Remove(rs, id), id) == Remove(rs, id)
    decreases |rs|
  {
    if rs != [] {
      var init, last := rs[..|rs| - 1], rs[|rs| - 1];
      RemoveTwice(init, id);
      if last.id != id { assert (Remove(init, id) + [last])[..|Remove(init, id)|] == Remove(init, id); }
    }
  }

  lemma {:induction false} ReplaceTwice(rs: seq<Request>, id: string, stream: bool)
    ensures Remove(Remove(rs, id) + [Request(id, stream, true)], id) == Remove(rs, id)
  {
    RemoveTwice(rs, id);
    assert (Remove(rs, id) + [Request(id, stream, true)])[..|Remove(rs, id)|] == Remove(rs, id);
  }

  /** A symbol named more than once is asked for once. */
  lemma {:induction false} SubscribedList(s: Subscriptions, id: string, stream: bool, symbols: seq<string>, y: string)
    ensures Of(Subscribe(s, id, stream, symbols), y)
         == if y in symbols then Remove(Of(s, y), id) + [Request(id, stream, true)] else Of(s, y)
    decreases |symbols|
  {
    if symbols != [] {
      var init, last := symbols[..|symbols| - 1], symbols[|symbols| - 1];
      SubscribedList(s, id, stream, init, y);
      InSnoc(init, last, y);
      assert symbols == init + [last];
      if y == last && y in init { ReplaceTwice(Of(s, y), id, stream); }
    }
  }

  lemma {:induction false} AskedAll(s: Subscriptions, id: string, stream: bool, symbols: seq<string>, y: string,
        other: string)
    requires Unique(Of(s, y))
    ensures Unique(Of(Subscribe(s, id, stream, symbols), y))
    ensures DueOf(Of(Subscribe(s, id, stream, symbols), y), other)
         == if y in symbols && other == id then Due(stream) else DueOf(Of(s, y), other)
  {
    SubscribedList(s, id, stream, symbols, y);
    Replaced(Of(s, y), id, stream, other);
  }

  lemma SubscribeUnique(s: Subscriptions, id: string, stream: bool, symbols: seq<string>)
    requires AllUnique(s)
    ensures AllUnique(Subscribe(s, id, stream, symbols))
  {
    forall x | x in Subscribe(s, id, stream, symbols) ensures Unique(Subscribe(s, id, stream, symbols)[x]) {
      AskedAll(s, id, stream, symbols, x, id);
    }
  }

  lemma LeftAll(s: Subscriptions, id: string, symbols: seq<string>, y: string, other: string)
    requires AllUnique(s)
    ensures AllUnique(Unsubscribe(s, id, symbols))
    ensures DueOf(Of(Unsubscribe(s, id, symbols), y), other)
         == if other == id && (symbols == [] || y in symbols) then Nothing else DueOf(Of(s, y), other)
  {
    if y in s { RemoveKeeps(s[y], id, other); }
    forall x | x in Unsubscribe(s, id, symbols) ensures Unique(Unsubscribe(s, id, symbols)[x]) {
      RemoveKeeps(s[x], id, other);
    }
  }

  lemma SnapshotMoves(s: Subscriptions, symbol: string, y: string, id: string)
    requires AllUnique(s)
    ensures AllUnique(Snapshot(s, symbol))
    ensures DueOf(Of(Snapshot(s, symbol), y), id) == if y == symbol then AfterSnapshot(DueOf(Of(s, y), id))
            else DueOf(Of(s, y), id)
  {
    ServedDue(Of(s, symbol), id);
    ServedKeeps(Of(s, symbol));
  }

  lemma RestoredOf(s: Subscriptions, prev: map<string, seq<Request>>, y: string)
    ensures Of(Restore(s, prev), y) == if y in prev then prev[y] else Of(s, y)
  {
  }

  /** An undo puts back lists without a repeated id and disturbs no other request. */
  ghost predicate Sheltered(s: Subscriptions, c: Command) {
    c.Undo? ==> forall x :: x in c.prev ==>
      Unique(c.prev[x]) && forall id :: id == c.id || DueOf(c.prev[x], id) == DueOf(Of(s, x), id)
  }

  lemma {:induction false} StepUnique(s: Subscriptions, c: Command)
    requires AllUnique(s) && (c.Undo? ==> AllUnique(c.prev))
    ensures AllUnique(Step(s, c))
  {
    match c {
      case Ask(id, stream, symbols) => SubscribeUnique(s, id, stream, symbols);
      case Leave(id, symbols) => LeftAll(s, id, symbols, "", id);
      case PublishSnapshot(y) => SnapshotMoves(s, y, y, "");
      case PublishIncrement(_) =>
      case Undo(_, prev) =>
    }
  }

  /** One command leaves due what its facts say. */
  lemma {:induction false} StepFollows(s: Subscriptions, c: Command, symbol: string, id: string)
    requires AllUnique(s)
    ensures DueOf(Of(Step(s, c), symbol), id) == Follow(Facts(s, c, symbol, id), DueOf(Of(s, symbol), id))
  {
    var f := Facts(s, c, symbol, id);
    assert |f| == 1 ==> f[1..] == [];
    match c {
      case Ask(x, stream, symbols) => AskedAll(s, x, stream, symbols, symbol, id);
      case Leave(x, symbols) => LeftAll(s, x, symbols, symbol, id);
      case PublishSnapshot(y) => SnapshotFollows(s, y, symbol, id);
      case PublishIncrement(y) => StreamingCount(Of(s, symbol), id);
      case Undo(_, prev) => RestoredOf(s, prev, symbol);
    }
  }

  lemma {:induction false} SnapshotFollows(s: Subscriptions, y: string, symbol: string, id: string)
    requires AllUnique(s)
    ensures DueOf(Of(Snapshot(s, y), symbol), id)
            == Follow(Facts(s, PublishSnapshot(y), symbol, id), DueOf(Of(s, symbol), id))
  {
    SnapshotMoves(s, y, symbol, id);
    OwedCount(Of(s, symbol), id);
    var f := Facts(s, PublishSnapshot(y), symbol, id);
    assert |f| == 1 ==> f[1..] == [];
  }

  /** One command other than a disturbing undo: its facts are proper. */
  lemma {:induction false} StepProper(s: Subscriptions, c: Command, symbol: string, id: string)
    requires AllUnique(s) && Sheltered(s, c)
    ensures Proper(Facts(s, c, symbol, id), DueOf(Of(s, symbol), id))
  {
    var f := Facts(s, c, symbol, id);
    assert |f| == 1 ==> f[1..] == [];
    match c {
      case Ask(_, _, _) =>
      case Leave(_, _) =>
      case PublishSnapshot(y) => OwedCount(Of(s, symbol), id);
      case PublishIncrement(y) => StreamingCount(Of(s, symbol), id);
      case Undo(_, prev) =>
    }
  }

  lemma {:induction false} ProperConcat(a: seq<Fact>, b: seq<Fact>, d: Due)
    ensures Proper(a + b, d) <==> Proper(a, d) && Proper(b, Follow(a, d))
    ensures Follow(a + b, d) == Follow(b, Follow(a, d))
    decreases |a|
  {
    if a == [] {
      assert a + b == b;
    } else {
      assert (a + b)[1..] == a[1..] + b;
      ProperConcat(a[1..], b, Next(a[0], d));
    }
  }

  ghost predicate AllSheltered(s: Subscriptions, cs: seq<Command>)
    decreases |cs|
  {
    cs == [] || (Sheltered(s, cs[0]) && AllSheltered(Step(s, cs[0]), cs[1..]))
  }

  /** Over every run in which no undo disturbs another request, each request is served properly. */
  lemma {:induction false} RunIsProper(s: Subscriptions, cs: seq<Command>, symbol: string, id: string)
    requires AllUnique(s) && AllSheltered(s, cs)
    ensures Proper(History(s, cs, symbol, id), DueOf(Of(s, symbol), id))
    decreases |cs|
  {
    if cs != [] {
      StepUnique(s, cs[0]);
      RunIsProper(Step(s, cs[0]), cs[1..], symbol, id);
      StepProper(s, cs[0], symbol, id);
      StepFollows(s, cs[0], symbol, id);
      ProperConcat(Facts(s, cs[0], symbol, id), History(Step(s, cs[0]), cs[1..], symbol, id), DueOf(Of(s, symbol), id));
    }
  }

  lemma {:induction false} StepNoEmpty(s: Subscriptions, c: Command)
    requires NoEmpty(s)
    ensures NoEmpty(Step(s, c))
  {
    if c.Ask? { SubscribeNoEmpty(s, c.id, c.stream, c.symbols); }
  }

  lemma {:induction false} SubscribeNoEmpty(s: Subscriptions, id: string, stream: bool, symbols: seq<string>)
    requires NoEmpty(s)
    ensures NoEmpty(Subscribe(s, id, stream, symbols))
    decreases |symbols|
  {
    if symbols != [] { SubscribeNoEmpty(s, id, stream, symbols[..|symbols| - 1]); }
  }

  /** No symbol ever keeps an empty list. */
  lemma {:induction false} RunNoEmpty(s: Subscriptions, cs: seq<Command>)
    requires NoEmpty(s)
    ensures NoEmpty(Run(s, cs))
    decreases |cs|
  {
    if cs != [] {
      StepNoEmpty(s, cs[0]);
      RunNoEmpty(Step(s, cs[0]), cs[1..]);
    }
  }

  // ── Undone later ───────────────────────────────────────────────────────────

  /** Neither asked again nor restored. */
  predicate Steady(h: seq<Fact>) {
    forall k :: 0 <= k < |h| ==> !h[k].Asked? && !h[k].Restored?
  }

  /** No snapshot came, and it did not leave if there was something to leave. */
  predicate Undisturbed(h: seq<Fact>, d: Due) {
    forall k :: 0 <= k < |h| ==> !h[k].GotSnapshot? && (h[k].Left? ==> d.Nothing?)
  }

  function Worth(d: Due): nat {
    match d case Nothing => 0 case Increments => 1 case Due(_) => 2
  }

  lemma {:induction false} DueDescends(h: seq<Fact>, d: Due)
    requires Steady(h) && Proper(h, d)
    ensures Worth(Follow(h, d)) <= Worth(d) && (Worth(Follow(h, d)) == Worth(d) ==> Follow(h, d) == d)
    ensures Follow(h, d) == d <==> Undisturbed(h, d)
    decreases |h|
  {
    if h != [] {
      var rest := h[1..];
      assert forall k :: 0 <= k < |rest| ==> rest[k] == h[k + 1];
      assert forall k :: 1 <= k < |h| ==> h[k] == rest[k - 1];
      match h[0] {
        case Left => DueDescends(rest, Nothing);
        case GotSnapshot => DueDescends(rest, AfterSnapshot(d));
        case GotIncrement => DueDescends(rest, d);
      }
    }
  }

  lemma {:induction false} RunFollows(s: Subscriptions, cs: seq<Command>, symbol: string, id: string)
    requires AllUnique(s) && AllSheltered(s, cs)
    ensures DueOf(Of(Run(s, cs), symbol), id) == Follow(History(s, cs, symbol, id), DueOf(Of(s, symbol), id))
    decreases |cs|
  {
    if cs != [] {
      StepUnique(s, cs[0]);
      StepFollows(s, cs[0], symbol, id);
      RunFollows(Step(s, cs[0]), cs[1..], symbol, id);
      ProperConcat(Facts(s, cs[0], symbol, id), History(Step(s, cs[0]), cs[1..], symbol, id), DueOf(Of(s, symbol), id));
    }
  }

  /** A request that fails to be forwarded is undone after cs. For another request that did not ask again
      meanwhile this is proper if and only if, meanwhile, it got no snapshot and did not leave. */
  lemma {:induction false} UndoProperIff(s: Subscriptions, id: string, stream: bool, symbols: seq<string>,
        cs: seq<Command>, x: string, other: string)
    requires AllUnique(s) && x in symbols && other != id
    requires var asked := Subscribe(s, id, stream, symbols);
             AllSheltered(asked, cs) && Steady(History(asked, cs, x, other))
    ensures var asked := Subscribe(s, id, stream, symbols);
            Proper(Facts(Run(asked, cs), Undo(id, Saved(s, symbols)), x, other), DueOf(Of(Run(asked, cs), x), other))
            <==> Undisturbed(History(asked, cs, x, other), DueOf(Of(s, x), other))
  {
    var asked := Subscribe(s, id, stream, symbols);
    AskedAll(s, id, stream, symbols, x, other);
    SubscribeUnique(s, id, stream, symbols);
    RunIsProper(asked, cs, x, other);
    RunFollows(asked, cs, x, other);
    DueDescends(History(asked, cs, x, other), DueOf(Of(s, x), other));
    UndoFact(Run(asked, cs), id, Saved(s, symbols), x, other);
  }

  lemma {:induction false} UndoFact(t: Subscriptions, id: string, prev: map<string, seq<Request>>, x: string,
        other: string)
    requires x in prev && other != id
    ensures Proper(Facts(t, Undo(id, prev), x, other), DueOf(Of(t, x), other))
            <==> DueOf(Of(t, x), other) == DueOf(prev[x], other)
  {
    var f := Facts(t, Undo(id, prev), x, other);
    assert f[1..] == [];
  }

  /** The smallest failing run: a asks for a snapshot of x, b asks for x, the snapshot arrives and serves a,
      and b's request is undone. That is not proper for a, and the next snapshot goes to a a second time. */
  lemma {:induction false} SecondSnapshot(a: string, b: string, x: string)
    requires a != b
    ensures var s := Subscribe(map[], a, false, [x]);
            var asked := Subscribe(s, b, false, [x]);
            var t, undo := Snapshot(asked, x), Undo(b, Saved(s, [x]));
            Facts(asked, PublishSnapshot(x), x, a) == [GotSnapshot]
            && !Proper(Facts(t, undo, x, a), DueOf(Of(t, x), a))
            && Facts(Step(t, undo), PublishSnapshot(x), x, a) == [GotSnapshot]
  {
    var s := Subscribe(map[], a, false, [x]);
    AskedAll(map[], a, false, [x], x, a);
    SubscribeUnique(map[], a, false, [x]);
    AskedAll(s, b, false, [x], x, a);
    SubscribeUnique(s, b, false, [x]);
    OwedTwice(s, Subscribe(s, b, false, [x]), a, b, x);
  }

  lemma {:induction false} OwedTwice(s: Subscriptions, asked: Subscriptions, a: string, b: string, x: string)
    requires AllUnique(s) && AllUnique(asked) && a != b
    requires DueOf(Of(s, x), a) == Due(false) && DueOf(Of(asked, x), a) == Due(false)
    ensures var t, undo := Snapshot(asked, x), Undo(b, Saved(s, [x]));
            Facts(asked, PublishSnapshot(x), x, a) == [GotSnapshot]
            && !Proper(Facts(t, undo, x, a), DueOf(Of(t, x), a))
            && Facts(Step(t, undo), PublishSnapshot(x), x, a) == [GotSnapshot]
  {
    var t, prev := Snapshot(asked, x), Saved(s, [x]);
    SnapshotFact(asked, x, a, false);
    SnapshotMoves(asked, x, x, a);
    UndoFact(t, b, prev, x, a);
    RestoredOf(t, prev, x);
    SnapshotFact(Restore(t, prev), x, a, false);
  }

  lemma {:induction false} SnapshotFact(s: Subscriptions, x: string, id: string, stream: bool)
    requires Unique(Of(s, x)) && DueOf(Of(s, x), id) == Due(stream)
    ensures Facts(s, PublishSnapshot(x), x, id) == [GotSnapshot]
  {
    OwedCount(Of(s, x), id);
    assert Repeat(GotSnapshot, 0) == [];
  }

  // ── Undone at once ────────────────────────────────────────────────────────

  lemma {:induction false} OthersUntouched(s: Subscriptions, id: string, stream: bool, symbols: seq<string>, x: string)
    requires x !in symbols
    ensures x in Subscribe(s, id, stream, symbols) <==> x in s
    ensures x in s ==> Subscribe(s, id, stream, symbols)[x] == s[x]
    decreases |symbols|
  {
    if symbols != [] { OthersUntouched(s, id, stream, symbols[..|symbols| - 1], x); }
  }

  /** Undoing a subscription restores what was there, replaced requests included. */
  lemma UndoRestores(s: Subscriptions, id: string, stream: bool, symbols: seq<string>)
    requires NoEmpty(s)
    ensures Restore(Subscribe(s, id, stream, symbols), Saved(s, symbols)) == s
  {
    var r := Restore(Subscribe(s, id, stream, symbols), Saved(s, symbols));
    forall x ensures (x in r <==> x in s) && (x in s ==> r[x] == s[x]) {
      if x !in symbols { OthersUntouched(s, id, stream, symbols, x); }
    }
  }

  // ── The router as the source runs it ───────────────────────────────────────

  lemma PassStep(rs: seq<Request>, i: nat)
    requires i < |rs|
    ensures Served(rs[..i + 1]) == if rs[i].owed && !rs[i].stream then Served(rs[..i])
            else Served(rs[..i]) + [rs[i].(owed := false)]
    ensures Owed(rs[..i + 1]) == if rs[i].owed then Owed(rs[..i]) + [rs[i].id] else Owed(rs[..i])
  {
    assert rs[..i + 1] == rs[..i] + [rs[i]];
    ServedSnoc(rs[..i], rs[i]);
    assert Owed(rs[..i]) + [] == Owed(rs[..i]);
  }

  /** The filtering pass writes over the list it reads: the write position never passes the read position. */
  method ServeInPlace(a: array<Request>) returns (k: nat, ids: seq<string>)
    modifies a
    ensures k <= a.Length && a[..k] == Served(old(a[..])) && ids == Owed(old(a[..]))
  {
    k, ids := 0, [];
    var i := 0;
    ghost var was := a[..];
    while i < a.Length
      invariant k <= i <= a.Length && forall j :: i <= j < a.Length ==> a[j] == was[j]
      invariant a[..k] == Served(was[..i]) && ids == Owed(was[..i])
    {
      PassStep(was, i);
      var r := a[i];
      i := i + 1;
      if r.owed {
        ids := ids + [r.id];
        r := r.(owed := false);
        if !r.stream { continue; }
      }
      a[k] := r;
      k := k + 1;
    }
    assert was[..i] == was;
  }

  /** Unsubscribing with the symbols in keys still to do. */
  function UnsubscribeBut(s: Subscriptions, id: string, symbols: seq<string>, keys: set<string>): Subscriptions {
    map x | x in s && (x in keys || !(symbols == [] || x in symbols) || Remove(s[x], id) != []) ::
      if x !in keys && (symbols == [] || x in symbols) then Remove(s[x], id) else s[x]
  }

  lemma UnsubscribeStep(s: Subscriptions, id: string, symbols: seq<string>, keys: set<string>, x: string)
    requires x in keys && keys <= s.Keys
    ensures var now := UnsubscribeBut(s, id, symbols, keys);
            x in now && now[x] == s[x]
            && UnsubscribeBut(s, id, symbols, keys - {x})
               == if symbols == [] || x in symbols then Put(now, x, Remove(s[x], id)) else now
  {
  }

  /** Restoring with the symbols in keys still to do. */
  function RestoreBut(s: Subscriptions, prev: map<string, seq<Request>>, keys: set<string>): Subscriptions {
    map x | x in s.Keys + prev.Keys && (if x in prev && x !in keys then prev[x] != [] else x in s) ::
      if x in prev && x !in keys then prev[x] else s[x]
  }

  lemma RestoreStep(s: Subscriptions, prev: map<string, seq<Request>>, keys: set<string>, x: string)
    requires x in keys && x in prev
    ensures RestoreBut(s, prev, keys - {x}) == Put(RestoreBut(s, prev, keys), x, prev[x])
  {
  }

  lemma RestoreEnds(s: Subscriptions, prev: map<string, seq<Request>>)
    ensures RestoreBut(s, prev, prev.Keys) == s && RestoreBut(s, prev, {}) == Restore(s, prev)
  {
  }

  lemma UnsubscribeEnds(s: Subscriptions, id: string, symbols: seq<string>)
    ensures UnsubscribeBut(s, id, symbols, s.Keys) == s
    ensures UnsubscribeBut(s, id, symbols, {}) == Unsubscribe(s, id, symbols)
  {
  }

  class Router {
    var bySymbol: Subscriptions

    constructor ()
      ensures bySymbol == map[]
    {
      bySymbol := map[];
    }

    /** Replaces an earlier request with the same id; gives back what undo needs. */
    method AskFor(id: string, stream: bool, symbols: seq<string>) returns (prev: map<string, seq<Request>>)
      modifies this
      ensures bySymbol == Subscribe(old(bySymbol), id, stream, symbols) && prev == Saved(old(bySymbol), symbols)
    {
      prev := Saved(bySymbol, symbols);
      var i := 0;
      while i < |symbols|
        invariant i <= |symbols| && bySymbol == Subscribe(old(bySymbol), id, stream, symbols[..i])
      {
        assert symbols[..i + 1][..i] == symbols[..i];
        var kept := Remove(Of(bySymbol, symbols[i]), id);
        bySymbol := bySymbol[symbols[i] := kept + [Request(id, stream, true)]];
        i := i + 1;
      }
      assert symbols[..i] == symbols;
    }

    method Undo(prev: map<string, seq<Request>>)
      modifies this
      ensures bySymbol == Restore(old(bySymbol), prev)
    {
      var keys := prev.Keys;
      RestoreEnds(bySymbol, prev);
      while keys != {}
        invariant keys <= prev.Keys && bySymbol == RestoreBut(old(bySymbol), prev, keys)
        decreases |keys|
      {
        var x :| x in keys;
        RestoreStep(old(bySymbol), prev, keys, x);
        keys := keys - {x};
        bySymbol := Put(bySymbol, x, prev[x]);
      }
    }

    method LeaveFor(id: string, symbols: seq<string>)
      modifies this
      ensures bySymbol == Unsubscribe(old(bySymbol), id, symbols)
    {
      var keys := bySymbol.Keys;
      UnsubscribeEnds(bySymbol, id, symbols);
      while keys != {}
        invariant keys <= old(bySymbol).Keys && bySymbol == UnsubscribeBut(old(bySymbol), id, symbols, keys)
        decreases |keys|
      {
        var x :| x in keys;
        UnsubscribeStep(old(bySymbol), id, symbols, keys, x);
        keys := keys - {x};
        if symbols == [] || x in symbols { bySymbol := Put(bySymbol, x, Remove(bySymbol[x], id)); }
      }
    }

    method SnapshotTargets(symbol: string) returns (ids: seq<string>)
      modifies this
      ensures bySymbol == Snapshot(old(bySymbol), symbol) && ids == Owed(Of(old(bySymbol), symbol))
    {
      var rs := Of(bySymbol, symbol);
      var a := new Request[|rs|](i requires 0 <= i < |rs| => rs[i]);
      assert a[..] == rs;
      var k;
      k, ids := ServeInPlace(a);
      bySymbol := Put(bySymbol, symbol, a[..k]);
    }

    method IncrementalTargets(symbol: string) returns (ids: seq<string>)
      ensures ids == Streaming(Of(bySymbol, symbol))
    {
      ids := [];
      var rs, i := Of(bySymbol, symbol), 0;
      while i < |rs|
        invariant i <= |rs| && ids == Streaming(rs[..i])
      {
        assert rs[..i + 1][..i] == rs[..i];
        if rs[i].stream && !rs[i].owed { ids := ids + [rs[i].id]; }
        i := i + 1;
      }
      assert rs[..i] == rs;
    }
  }
}
