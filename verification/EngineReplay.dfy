/** The matching engine behind the journal: each live order keeps the handle its reports are sent to, and
    the engine never looks at one, so replay rebuilds the very book and accounts of the live run. */
module EngineReplay {
  import opened Decimal
  import opened EventLog
  import OrderBook
  import Accounting
  import Engine
  import opened Journal

  /** An engine and the handle of each live order. */
  datatype Routed<R> = Routed(desk: Engine.Desk, routes: map<string, R>)

  /** What the messages ask for: the fields of a new order and of a cancel. */
  datatype Reading = Reading(order: Msg -> (OrderBook.Order, OrderBook.Kind), cancel: Msg -> (string, string))

  function RequestOf(g: Reading, i: Input): Option<Engine.Request> {
    match i
    case New(m) => Some(Engine.Submit(g.order(m).0, g.order(m).1))
    case Cancel(m) => Some(Engine.Withdraw(g.cancel(m).0, g.cancel(m).1))
    case _ => None
  }

  /** Every report takes an execution id. */
  function Reports(out: seq<Accounting.Output>): nat {
    if out == [] then 0 else (if out[0].Er? then 1 else 0) + Reports(out[1..])
  }

  /** A new order is answered at its sender's handle for as long as it is live. */
  function Routes<R>(routes: map<string, R>, live: Accounting.Accounts, q: Engine.Request, owner: R): map<string, R> {
    var known := if q.Submit? && q.o.id !in routes then routes[q.o.id := owner] else routes;
    map id | id in known && id in live :: known[id]
  }

  function StepRouted<R>(g: Reading, e: Routed<R>, ids: nat, i: Input, owner: R): Stepped<Routed<R>> {
    match RequestOf(g, i)
    case None => Stepped(e, ids)
    case Some(q) =>
      if !OrderBook.Valid(e.desk.book) then Stepped(e, ids)
      else
        var (desk, out) := Engine.Process(e.desk, q);
        Stepped(Routed(desk, Routes(e.routes, desk.accounts, q, owner)), ids + Reports(out))
  }

  function EngineMachine<R>(g: Reading): Machine<Routed<R>, R> {
    Machine((symbol: string, at: Time) => Routed(Engine.Empty(), map[]),
            (e: Routed<R>, ids: nat, at: Time, i: Input, owner: R) => StepRouted(g, e, ids, i, owner),
            (e: Routed<R>) => e.(routes := map[]))
  }

  /** Handles do not influence what the engine does. */
  lemma EngineIsBlind<R(!new)>(g: Reading)
    ensures Blind(EngineMachine<R>(g))
  {
    var m := EngineMachine<R>(g);
    forall a, b, ids, at, i, p, q ensures BlindAt(m, a, b, ids, at, i, p, q) {
      if m.erase(a) == m.erase(b) { StepBlind(g, a, b, ids, i, p, q); }
    }
  }

  lemma StepBlind<R>(g: Reading, a: Routed<R>, b: Routed<R>, ids: nat, i: Input, p: R, q: R)
    requires a.desk == b.desk
    ensures var x, y := StepRouted(g, a, ids, i, p), StepRouted(g, b, ids, i, q);
            x.engine.desk == y.engine.desk && x.ids == y.ids
  {
  }

  // ── Every input is processed ───────────────────────────────────────────────

  /** The engine of a symbol; one that has had no input is empty. */
  function DeskOf<R>(s: State<Routed<R>>, symbol: string): Engine.Desk {
    if symbol in s.engines then s.engines[symbol].desk else Engine.Empty()
  }

  /** The entries and cancels for a symbol, in order. */
  function Addressed<R>(g: Reading, qs: seq<Request<R>>, symbol: string): seq<Engine.Request>
    decreases |qs|
  {
    if qs == [] then []
    else
      var q := RequestOf(g, qs[0].input);
      (if qs[0].symbol == symbol && q.Some? then [q.value] else []) + Addressed(g, qs[1..], symbol)
  }

  /** Every engine's book is one that Process accepts, so no input is passed over. */
  predicate AllValid<R>(s: State<Routed<R>>) {
    forall x :: x in s.engines ==> OrderBook.Valid(s.engines[x].desk.book)
  }

  lemma ExecuteProcesses<R>(g: Reading, s: State<Routed<R>>, q: Request<R>, symbol: string)
    requires AllValid(s)
    ensures var t := Execute(EngineMachine(g), s, q.symbol, q.at, q.input, q.owner);
            AllValid(t)
            && DeskOf(t, symbol) == Engine.Run(DeskOf(s, symbol), Addressed(g, [q], symbol))
  {
    var d, r := DeskOf(s, q.symbol), RequestOf(g, q.input);
    if r.Some? { Engine.ProcessValid(d, r.value); }
    assert [q][1..] == [] && Addressed(g, [q], symbol) == if q.symbol == symbol && r.Some? then [r.value] else [];
    if q.symbol == symbol && r.Some? { assert [r.value][1..] == []; }
  }

  /** After any run of the journal, each symbol's engine is the one its entries and cancels lead to. */
  lemma {:induction false} RunProcesses<R>(l: Layout, c: Codecs, g: Reading, j: Journal<Routed<R>>, qs: seq<Request<R>>,
                                           symbol: string)
    requires AllValid(j.state) && Run(l, c, EngineMachine<R>(g), j, qs).Some?
    ensures var t := Run(l, c, EngineMachine<R>(g), j, qs).value.state;
            AllValid(t) && DeskOf(t, symbol) == Engine.Run(DeskOf(j.state, symbol), Addressed(g, qs, symbol))
    decreases |qs|
  {
    if qs != [] {
      var next := Apply(l, c, EngineMachine<R>(g), j, qs[0]).value;
      ExecuteProcesses(g, j.state, qs[0], symbol);
      RunProcesses(l, c, g, next, qs[1..], symbol);
      Engine.RunConcat(DeskOf(j.state, symbol), Addressed(g, [qs[0]], symbol), Addressed(g, qs[1..], symbol));
      AddressedCons(g, qs, symbol);
    }
  }

  lemma AddressedCons<R>(g: Reading, qs: seq<Request<R>>, symbol: string)
    requires qs != []
    ensures Addressed(g, qs, symbol) == Addressed(g, [qs[0]], symbol) + Addressed(g, qs[1..], symbol)
  {
    assert [qs[0]][1..] == [];
  }

  /** The same books, accounts, trade numbers and execution-id counter. */
  ghost predicate SameDesks<R>(a: State<Routed<R>>, b: State<Routed<R>>) {
    a.ids == b.ids && a.engines.Keys == b.engines.Keys
    && forall x :: x in a.engines ==> a.engines[x].desk == b.engines[x].desk
  }

  /** After any run of the journal from an empty file and a crash at byte k of the next append, reopening
      rebuilds the exact books, accounts, trade numbers and execution-id counter of the acknowledged inputs,
      or of those and the one in flight; and each symbol's engine is the one that processing its entries and
      cancels from the empty desk leads to. */
  lemma EngineReopens<R(!new)>(l: Layout, c: Codecs, g: Reading, qs: seq<Request<R>>, q: Request<R>, k: nat,
                               detached: R)
    requires Sound(l) && RoundTrips(c) && Run(l, c, EngineMachine<R>(g), FreshJournal(l), qs).Some?
    requires forall i :: 0 <= i < |qs| ==> Replayable(qs[i].symbol, qs[i].at, qs[i].input)
    requires Replayable(q.symbol, q.at, q.input)
    requires var live := Run(l, c, EngineMachine<R>(g), FreshJournal(l), qs).value;
             Apply(l, c, EngineMachine(g), live, q).Some?
             && k <= |l.enc(RecordOf(c, live.log.next, q.symbol, q.at, q.input))|
    ensures var m := EngineMachine<R>(g);
            var live := Run(l, c, m, FreshJournal(l), qs).value;
            var e := l.enc(RecordOf(c, live.log.next, q.symbol, q.at, q.input));
            var reached := if k < |e| then live else Apply(l, c, m, live, q).value;
            var inputs := if k < |e| then qs else qs + [q];
            var again := OpenJournal(l, c, m, live.log.file + e[..k], detached);
            again.Some? && again.value.log == reached.log && SameDesks(again.value.state, reached.state)
            && AllValid(again.value.state)
            && forall x :: DeskOf(again.value.state, x) == Engine.Run(Engine.Empty(), Addressed(g, inputs, x))
  {
    var m := EngineMachine<R>(g);
    EngineIsBlind<R>(g);
    FreshFollows(l, c, m, detached);
    var again, kept := ReopenAfterCrash(l, c, m, FreshJournal(l), [], qs, q, k, detached);
    var live := Run(l, c, m, FreshJournal(l), qs).value;
    var whole := k >= |l.enc(RecordOf(c, live.log.next, q.symbol, q.at, q.input))|;
    RunSnoc(l, c, m, FreshJournal(l), qs, q);
    var inputs := if whole then qs + [q] else qs;
    var reached := Run(l, c, m, FreshJournal(l), inputs).value.state;
    AlikeDesks(g, again.state, reached);
    forall x ensures DeskOf(again.state, x) == Engine.Run(Engine.Empty(), Addressed(g, inputs, x)) {
      RunProcesses(l, c, g, FreshJournal(l), inputs, x);
    }
    RunProcesses(l, c, g, FreshJournal(l), inputs, "");
  }

  lemma AlikeDesks<R>(g: Reading, a: State<Routed<R>>, b: State<Routed<R>>)
    requires Alike(EngineMachine<R>(g), a, b)
    ensures SameDesks(a, b)
  {
    forall x | x in a.engines ensures a.engines[x].desk == b.engines[x].desk {
      assert EngineMachine<R>(g).erase(a.engines[x]) == EngineMachine<R>(g).erase(b.engines[x]);
    }
  }
}
