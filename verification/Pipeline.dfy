/**
 The pipeline that runs the core over markets: it hands each step the exposure it tracks, and books
 what the step reports. Over any run the tracked exposure stays under the cap.
 */
module Pipeline {
  import opened Wrappers
  import opened BigInt
  import opened LiveAccounting
  import opened PositionTracker
  import ExecutorSteps
  import MoneyKernel
  import G4
  import RiskGate
  import ExecutorFills

  // ----- runs, on the tracked book alone -----

  /** One pipeline action as the tracker sees it: a step that booked something, a settlement, a durable snapshot. */
  datatype Action =
    | Market(token: string, supplied: Option<real>, notional: real, booked: real)
    | Settle(tokens: seq<string>)
    | Replace(entries: seq<(string, real)>)

  /** A step may book only after its notional fitted under the cap, and for at most that notional. */
  ghost predicate Allowed(book: Book, cap: real, a: Action) {
    a.Market? ==>
      && 0.0 <= a.booked <= a.notional
      && (a.booked > 0.0 ==> CombineExposure(a.supplied, Sum(book)) + a.notional <= cap)
  }

  function Acted(book: Book, a: Action): Book {
    match a
    case Market(token, _, _, booked) => Added(book, token, booked)
    case Settle(tokens) => Without(book, tokens)
    case Replace(entries) => Snapshot(entries)
  }

  function Run(book: Book, actions: seq<Action>): Book
    decreases |actions|
  {
    if actions == [] then book else Run(Acted(book, actions[0]), actions[1..])
  }

  ghost predicate AllAllowed(book: Book, cap: real, actions: seq<Action>)
    decreases |actions|
  {
    actions != [] ==> Allowed(book, cap, actions[0]) && AllAllowed(Acted(book, actions[0]), cap, actions[1..])
  }

  /** The largest total any snapshot brought in. */
  ghost function Loaded(actions: seq<Action>): real
    decreases |actions|
  {
    if actions == [] then 0.0
    else Larger(if actions[0].Replace? then Sum(Snapshot(actions[0].entries)) else 0.0, Loaded(actions[1..]))
  }

  lemma AddedSum(book: Book, token: string, usd: real)
    requires Positive(book)
    ensures Positive(Added(book, token, usd))
    ensures Sum(book) <= Sum(Added(book, token, usd)) <= Sum(book) + PositivePart(usd)
  {
    SumPut(book, token, ExposureOf(book, token) + usd);
  }

  lemma {:induction false} WithoutSum(book: Book, tokens: seq<string>)
    requires Positive(book)
    ensures Positive(Without(book, tokens)) && Sum(Without(book, tokens)) <= Sum(book)
    decreases |tokens|
  {
    if tokens == [] {
      assert Without(book, tokens) == book;
    } else {
      var n := |tokens| - 1;
      WithoutSum(book, tokens[..n]);
      WithoutNext(book, tokens, n);
      assert tokens[..n + 1] == tokens;
      LeaveOne(Without(book, tokens[..n]), tokens[n]);
      ExposureWithinSum(Without(book, tokens[..n]), tokens[n]);
    }
  }

  lemma {:induction false} SnapshotPositive(entries: seq<(string, real)>)
    ensures Positive(Snapshot(entries))
    decreases |entries|
  {
    if entries != [] { SnapshotPositive(entries[..|entries| - 1]); }
  }

  lemma ActedUnderCap(book: Book, cap: real, a: Action)
    requires Positive(book) && Allowed(book, cap, a)
    ensures Positive(Acted(book, a))
    ensures Sum(Acted(book, a)) <= Larger(cap, if a.Replace? then Sum(Snapshot(a.entries)) else Sum(book))
  {
    match a
    case Market(token, supplied, notional, booked) =>
      AddedSum(book, token, booked);
      SumNonNegative(book);
    case Settle(tokens) => WithoutSum(book, tokens);
    case Replace(entries) => SnapshotPositive(entries);
  }

  /**
   The exposure cap over runs: what starts at or under the cap stays there, and what starts over it, or is
   loaded over it, never grows.
   */
  lemma {:induction false} RunUnderCap(book: Book, cap: real, actions: seq<Action>)
    requires Positive(book) && AllAllowed(book, cap, actions)
    ensures Positive(Run(book, actions))
    ensures Sum(Run(book, actions)) <= Larger(cap, Larger(Sum(book), Loaded(actions)))
    decreases |actions|
  {
    if actions != [] {
      ActedUnderCap(book, cap, actions[0]);
      RunUnderCap(Acted(book, actions[0]), cap, actions[1..]);
    }
  }

  // ----- one run after another -----

  lemma {:induction false} RunThen(book: Book, first: seq<Action>, second: seq<Action>)
    ensures Run(book, first + second) == Run(Run(book, first), second)
    decreases |first|
  {
    if first == [] {
      assert first + second == second;
    } else {
      assert (first + second)[1..] == first[1..] + second;
      RunThen(Acted(book, first[0]), first[1..], second);
    }
  }

  lemma {:induction false} AllAllowedThen(book: Book, cap: real, first: seq<Action>, second: seq<Action>)
    requires AllAllowed(book, cap, first) && AllAllowed(Run(book, first), cap, second)
    ensures AllAllowed(book, cap, first + second)
    decreases |first|
  {
    if first == [] {
      assert first + second == second;
    } else {
      assert (first + second)[1..] == first[1..] + second;
      AllAllowedThen(Acted(book, first[0]), cap, first[1..], second);
    }
  }

  lemma {:induction false} LoadedThen(first: seq<Action>, second: seq<Action>)
    ensures Loaded(first + second) == Larger(Loaded(first), Loaded(second)) && Loaded(first) >= 0.0
    decreases |first|
  {
    if first == [] {
      assert first + second == second;
      LoadedNonNegative(second);
    } else {
      assert (first + second)[1..] == first[1..] + second;
      LoadedThen(first[1..], second);
    }
  }

  lemma {:induction false} LoadedNonNegative(actions: seq<Action>)
    ensures Loaded(actions) >= 0.0
    decreases |actions|
  {
    if actions != [] { LoadedNonNegative(actions[1..]); }
  }

  /** From `book` the actions lead to `book'`, and load at most `loaded`; with a fair venue each is allowed. */
  ghost predicate Leads(book: Book, book': Book, limit: real, fair: bool, loaded: real, actions: seq<Action>) {
    && book' == Run(book, actions) && Loaded(actions) <= loaded
    && (fair ==> AllAllowed(book, limit, actions))
  }

  lemma {:induction false} LeadsNowhere(book: Book, limit: real)
    ensures Leads(book, book, limit, true, 0.0, [])
  {}

  lemma {:induction false} LeadsOne(book: Book, limit: real, fair: bool, a: Action)
    requires fair ==> Allowed(book, limit, a)
    ensures Leads(book, Acted(book, a), limit, fair,
                  if a.Replace? then Larger(0.0, Sum(Snapshot(a.entries))) else 0.0, [a])
  {
    assert [a][1..] == [];
    assert Run(Acted(book, a), []) == Acted(book, a) && Loaded([]) == 0.0;
  }

  lemma {:induction false} LeadsThen(
    a: Book, b: Book, c: Book, limit: real, fair: bool, fair': bool, loaded: real, loaded': real,
    first: seq<Action>, second: seq<Action>)
    requires Leads(a, b, limit, fair, loaded, first) && Leads(b, c, limit, fair', loaded', second)
    ensures Leads(a, c, limit, fair && fair', Larger(loaded, loaded'), first + second)
  {
    RunThen(a, first, second);
    LoadedThen(first, second);
    if fair && fair' { AllAllowedThen(a, limit, first, second); }
  }

  // ----- the pipeline as an object -----

  datatype Metrics = Metrics(totalOrders: nat, filledOrders: nat, fillRatio: real, currentExposure: real, maxExposure: real)

  /** One market's turn: the step's input, and what the caller supplies of the exposures. */
  datatype Turn = Turn(step: G4.StepInput, portfolio: Option<real>, market: Option<real>)

  /** The venue filled within the order's size and limit. */
  predicate FairResult(r: G4.StepResult) {
    r.Trade? && r.result.Some? ==> ExecutorFills.WithinTerms(r.result.value, r.order.size, r.order.price)
  }

  predicate AllFair(results: seq<G4.StepResult>) { forall i :: 0 <= i < |results| ==> FairResult(results[i]) }

  function BookedBy(r: G4.StepResult): real { if r.Trade? then r.booked else 0.0 }

  predicate Filled(r: G4.StepResult) { r.Trade? && r.result.Some? && G4.FillOf(r.order, r.result.value).Some? }

  /** The venue reports a fill, at an average or a limit that can be a price. */
  predicate Fills(r: G4.StepResult) {
    && r.Trade? && r.result.Some? && r.result.value.filled > 0
    && (0 < r.order.price <= 1_000_000 || (r.result.value.average.Some? && 0 < r.result.value.average.value <= 1_000_000))
  }

  /** The larger of what is supplied and what is tracked, and never negative. */
  predicate AtLeast(usd: real, supplied: Option<real>, tracked: real) {
    && usd >= 0.0 && usd >= tracked && (supplied.Some? ==> usd >= supplied.value)
    && (usd == 0.0 || usd == tracked || supplied == Some(usd))
  }

  /** `exposureForStep`: portfolio and market exposure, each the larger of what is supplied and what is tracked. */
  function Exposed(t: Turn, book: Book, total: real): (x: G4.StepInput)
    ensures x == t.step.(exposure := x.exposure,
                         gate := t.step.gate.(marketExposure := x.gate.marketExposure, portfolioExposure := x.exposure))
    ensures AtLeast(x.exposure, t.portfolio, total)
    ensures AtLeast(x.gate.marketExposure, t.market, ExposureOf(book, t.step.gate.market))
  {
    var portfolio := CombineExposure(t.portfolio, total);
    t.step.(exposure := portfolio,
            gate := t.step.gate.(marketExposure := CombineExposure(t.market, ExposureOf(book, t.step.gate.market)),
                                 portfolioExposure := portfolio))
  }

  /** The step as the tracker sees it. */
  function Seen(t: Turn, r: G4.StepResult): Action {
    Market(t.step.gate.market, t.portfolio, G4.StepNotional(t.step.gate), BookedBy(r))
  }

  /**
   `limit` is at least one of the two a step's portfolio exposure is held to: the cap, or the policy's fraction of
   capital. Without a cap no step trades, and any limit does.
   */
  predicate Limits(limit: real, cap: Option<real>, x: RiskGate.Input) {
    || cap.None?
    || cap.value <= limit
    || (x.capital.Some? && Usd(RiskGate.Cap(x.capital.value, x.portfolioBps) + 1) <= limit)
  }

  predicate AllLimited(limit: real, cap: Option<real>, turns: seq<Turn>) {
    forall i :: 0 <= i < |turns| ==> Limits(limit, cap, turns[i].step.gate)
  }

  /** What the core guarantees of a step that trades. */
  ghost predicate Checked(x: G4.StepInput, r: G4.StepResult, cap: Option<real>) {
    r.Trade? ==>
      && cap.Some? && x.exposure + G4.StepNotional(x.gate) <= cap.value
      && RiskGate.WithinPolicy(x.gate)
      && r.order.size <= x.gate.size && r.order.price == x.gate.price
      && r.booked == G4.BookedFor(r.order, r.result)
  }

  /** What it sent, and what it books. */
  ghost predicate TradesFor(x: G4.StepInput, r: G4.StepResult) {
    r.Trade? ==>
      r.order == G4.OrderFor(x) && r.booked == G4.BookedFor(r.order, r.result) && G4.Books(r.order, r.result, r.booked) && r.booked >= 0.0
  }

  lemma {:induction false} TradeChecks(
    x: G4.StepInput, c: G4.Guards, s: MoneyKernel.KernelState, g: ExecutorSteps.Shared, w: ExecutorSteps.Worker, r: G4.StepResult)
    requires G4.Ended(x, c, s, g, w, r) && TradesFor(x, r)
    ensures Checked(x, r, c.capUsd)
  {
    RiskGate.AdmitsIff(x.gate);
    if r.Trade? { assert G4.Requests(x, c, s, g, w); }
  }

  /** A step that is not armed makes no request, and one that is makes its own. */
  lemma {:induction false} StepSends(
    t: Turn, x: G4.StepInput, c: G4.Guards, s: MoneyKernel.KernelState, g: ExecutorSteps.Shared, w: ExecutorSteps.Worker)
    requires x == t.step.(exposure := x.exposure,
                          gate := t.step.gate.(marketExposure := x.gate.marketExposure, portfolioExposure := x.exposure))
    ensures Sends(g.calls, G4.CallsAfter(x, c, s, g, w), [t], c)
  {
    assert [t][0] == t;
    if G4.Requests(x, c, s, g, w) {
      assert Armed(t.step, c) && G4.OrderFor(x) == G4.OrderFor(t.step);
      assert SentFor(G4.OrderFor(x), [t], c);
    }
  }

  /** What has to stand before any request: entries allowed, a signature, both caps configured, and the guard wired with its latch off. */
  predicate Armed(x: G4.StepInput, c: G4.Guards) {
    && x.entry && x.signing == G4.Signs
    && c.capUsd.Some? && c.capUsd.value > 0.0 && c.lossCap.Some? && c.lossCap.value > 0.0
    && c.wired && !x.latched
  }

  /** Every request made since is the one limit order of a turn that was armed. */
  ghost predicate Sends(before: seq<ExecutorSteps.Call>, after: seq<ExecutorSteps.Call>, turns: seq<Turn>, c: G4.Guards) {
    && before <= after
    && forall j :: |before| <= j < |after| ==> SentFor(after[j].order, turns, c)
  }

  ghost predicate SentFor(o: ExecutorSteps.Order, turns: seq<Turn>, c: G4.Guards) {
    exists i :: 0 <= i < |turns| && Armed(turns[i].step, c) && o == G4.OrderFor(turns[i].step)
  }

  lemma {:induction false} SendsMore(
    a: seq<ExecutorSteps.Call>, b: seq<ExecutorSteps.Call>, d: seq<ExecutorSteps.Call>, turns: seq<Turn>, i: nat, c: G4.Guards)
    requires i < |turns| && Sends(a, b, turns, c) && Sends(b, d, [turns[i]], c)
    ensures Sends(a, d, turns, c)
  {
    forall j | |a| <= j < |d| ensures SentFor(d[j].order, turns, c) {
      if j < |b| {
        assert b[j] == d[j];
      } else {
        assert SentFor(d[j].order, [turns[i]], c);
      }
    }
  }

  /** With no turn armed the venue hears nothing. */
  lemma {:induction false} UnarmedSendsNothing(a: seq<ExecutorSteps.Call>, b: seq<ExecutorSteps.Call>, turns: seq<Turn>, c: G4.Guards)
    requires Sends(a, b, turns, c) && forall i :: 0 <= i < |turns| ==> !Armed(turns[i].step, c)
    ensures b == a
  {
    assert forall o :: !SentFor(o, turns, c);
    assert |b| > |a| ==> SentFor(b[|a|].order, turns, c);
  }

  /** An exact exposure within the policy's fraction leaves the step's notional under it, up to one base unit. */
  lemma {:induction false} WithinPortfolio(x: RiskGate.Input)
    requires RiskGate.FitsPortfolio(x) && x.portfolioExposure >= 0.0
    ensures x.portfolioExposure + G4.StepNotional(x) <= Usd(RiskGate.Cap(x.capital.value, x.portfolioBps) + 1)
  {
    var base, cash := RiskGate.ToBase(x.portfolioExposure).value, RiskGate.Notional(x);
    CashBounds(x.size, x.price);
    NotionalInUsd(x, cash);
    assert x.portfolioExposure == Usd(base);
    G4.UsdMonotone(base + cash + 1, RiskGate.Cap(x.capital.value, x.portfolioBps) + 1);
  }

  lemma {:induction false} NotionalInUsd(x: RiskGate.Input, cash: int)
    requires x.size * x.price < (cash + 1) * UNIT
    ensures G4.StepNotional(x) <= Usd(cash + 1)
  {
    var product := x.size * x.price;
    assert (x.size as real) * (x.price as real) == product as real;
    assert G4.StepNotional(x) == Usd(x.size) * Usd(x.price) == product as real / (USD_UNIT * USD_UNIT);
    assert product as real <= (cash + 1) as real * USD_UNIT;
  }

  /** With a fair venue the step is one the run theorem admits, for the cap and for the policy's limit alike. */
  lemma {:induction false} CheckedIsAllowed(book: Book, t: Turn, r: G4.StepResult, cap: Option<real>, limit: real)
    requires Positive(book) && Checked(Exposed(t, book, Sum(book)), r, cap) && FairResult(r)
    requires Limits(limit, cap, t.step.gate)
    ensures Allowed(book, limit, Seen(t, r))
  {
    var x := Exposed(t, book, Sum(book));
    NotionalNonNegative(x.gate);
    assert G4.StepNotional(x.gate) == G4.StepNotional(t.step.gate);
    if r.Trade? {
      G4.BookedAtMostNotional(x.gate, r.order, r.result);
      WithinPortfolio(x.gate);
    }
  }

  /** Neither the tracked exposure nor a supplied one left the order over the cap. */
  predicate HasRoom(cap: Option<real>, tracked: real, t: Turn) {
    && cap.Some?
    && tracked + G4.StepNotional(t.step.gate) <= cap.value
    && (t.portfolio.Some? ==> t.portfolio.value + G4.StepNotional(t.step.gate) <= cap.value)
  }

  lemma {:induction false} RoomLeft(t: Turn, book: Book, r: G4.StepResult, cap: Option<real>)
    requires Checked(Exposed(t, book, Sum(book)), r, cap)
    ensures r.Trade? ==> HasRoom(cap, Sum(book), t) && t.step.gate.market != ""
  {
    assert G4.StepNotional(Exposed(t, book, Sum(book)).gate) == G4.StepNotional(t.step.gate);
  }

  /** The portfolio has no room: the cap is reached, or a thousand dollars without one. */
  predicate Full(usd: real, cap: Option<real>) {
    match cap
    case Some(limit) => limit <= usd
    case None => 1000.0 <= usd
  }

  const DEFAULT_CAP_USD := 1000.0

  /** One round of the loop: whether entries may proceed, what the feeds answered, and the markets selected. */
  datatype Round = Round(
    enabled: bool, snapshot: Option<seq<(string, real)>>, settled: Option<seq<string>>, turns: seq<Turn>)

  /** What a round's snapshot brings in. */
  ghost function LoadedBy(p: Round): real { if p.snapshot.Some? then Sum(Snapshot(p.snapshot.value)) else 0.0 }

  ghost function LoadedByAll(rounds: seq<Round>): real {
    if rounds == [] then 0.0
    else Larger(LoadedByAll(rounds[..|rounds| - 1]), LoadedBy(rounds[|rounds| - 1]))
  }

  lemma {:induction false} LoadedByNonNegative(p: Round)
    ensures LoadedBy(p) >= 0.0
  {
    if p.snapshot.Some? {
      SnapshotPositive(p.snapshot.value);
      SumNonNegative(Snapshot(p.snapshot.value));
    }
  }

  function Syncs(p: Round): seq<Action> {
    (if p.snapshot.Some? then [Replace(p.snapshot.value)] else [])
    + [Settle(if p.settled.Some? then p.settled.value else [])]
  }

  /** The book the markets are looked at with. */
  function Synced(p: Round, book: Book): Book { Run(book, Syncs(p)) }

  lemma {:induction false} SyncsLead(p: Round, book: Book, limit: real)
    ensures Leads(book, Synced(p, book), limit, true, LoadedBy(p), Syncs(p))
    ensures Synced(p, book) == Without(if p.snapshot.Some? then Snapshot(p.snapshot.value) else book,
                                       if p.settled.Some? then p.settled.value else [])
  {
    var settle := Settle(if p.settled.Some? then p.settled.value else []);
    var book1 := if p.snapshot.Some? then Snapshot(p.snapshot.value) else book;
    LoadedByNonNegative(p);
    LeadsOne(book1, limit, true, settle);
    if p.snapshot.Some? {
      LeadsOne(book, limit, true, Replace(p.snapshot.value));
      LeadsThen(book, book1, Acted(book1, settle), limit, true, true, LoadedBy(p), 0.0, [Replace(p.snapshot.value)], [settle]);
    } else {
      assert Syncs(p) == [settle];
    }
  }

  class Pipeline {
    const core: G4.Core
    const tracker: Tracker
    var metrics: Metrics

    ghost predicate Valid()
      reads this, tracker
    {
      && core.Wired() && tracker.Valid()
      && metrics.filledOrders <= metrics.totalOrders
      && metrics.currentExposure <= metrics.maxExposure
      && 0.0 <= metrics.fillRatio <= 1.0
    }

    constructor (core: G4.Core)
      requires core.Wired()
      ensures Valid() && this.core == core && fresh(tracker) && tracker.open == map[]
    {
      this.core := core;
      tracker := new Tracker();
      metrics := Metrics(0, 0, 0.0, 0.0, 0.0);
    }

    /**
     `accountAfterStep`: exactly what the step booked is added, a fill is counted once, the ratio stays one,
     and the maximum is over every total seen.
     */
    method AccountAfterStep(token: string, r: G4.StepResult)
      requires Valid()
      modifies this, tracker
      ensures Valid() && tracker.open == Added(old(tracker.open), token, BookedBy(r))
      ensures Sum(tracker.open) == Sum(old(tracker.open)) + if token == "" then 0.0 else PositivePart(BookedBy(r))
      ensures metrics.currentExposure == Sum(tracker.open)
      ensures metrics.maxExposure == Larger(Sum(tracker.open), old(metrics.maxExposure))
      ensures metrics.totalOrders == old(metrics.totalOrders) + 1
      ensures metrics.filledOrders == old(metrics.filledOrders) + if Fills(r) then 1 else 0
      ensures metrics.fillRatio * metrics.totalOrders as real == metrics.filledOrders as real
    {
      SumPut(tracker.open, token, ExposureOf(tracker.open, token) + BookedBy(r));
      if r.Trade? && r.booked > 0.0 { tracker.Add(token, r.booked); }
      var filledOrders := metrics.filledOrders + if Filled(r) then 1 else 0;
      var totalOrders := metrics.totalOrders + 1;
      var total := tracker.Total();
      var ratio := filledOrders as real / totalOrders as real;
      RatioWithin(filledOrders, totalOrders);
      metrics := Metrics(totalOrders, filledOrders, ratio, total, if total > metrics.maxExposure then total else metrics.maxExposure);
    }

    /** `exposureForStep` and the step; what the core promises of it stays. */
    method RunStep(t: Turn) returns (r: G4.StepResult)
      requires Valid()
      modifies core.kernel, core.kernel.store, core.executor
      ensures old(core.kernel.store.Valid()) ==> core.kernel.store.Valid()
      ensures old(core.kernel.store.Valid()) && !r.Trade? ==> core.kernel.store.balances == old(core.kernel.store.balances)
      ensures Checked(Exposed(t, tracker.open, Sum(tracker.open)), r, core.capUsd)
      ensures TradesFor(t.step, r)
      ensures Sends(old(core.executor.calls), core.executor.calls, [t], core.Config())
    {
      var total := tracker.Total();
      var x := Exposed(t, tracker.open, total);
      ghost var s, g := core.kernel.View(), core.executor.View();
      r := core.ExecuteStep(x);
      TradeChecks(x, core.Config(), s, g, core.executor.worker, r);
      StepSends(t, x, core.Config(), s, g, core.executor.worker);
    }

    /**
     `processMarket`: one step, held to the larger of the supplied and the tracked exposures, then booked; an
     exception leaves the book alone. The books of the money stay in order, and a step without a trade
     leaves every balance.
     */
    method ProcessMarket(t: Turn) returns (r: G4.StepResult)
      requires Valid()
      modifies this, tracker, core.kernel, core.kernel.store, core.executor
      ensures Valid()
      ensures old(core.kernel.store.Valid()) ==> core.kernel.store.Valid()
      ensures old(core.kernel.store.Valid()) && !r.Trade? ==> core.kernel.store.balances == old(core.kernel.store.balances)
      ensures Sends(old(core.executor.calls), core.executor.calls, [t], core.Config())
      ensures TradesFor(t.step, r)
      ensures r.Trade? ==>
                HasRoom(core.capUsd, Sum(old(tracker.open)), t) && Sum(tracker.open) == Sum(old(tracker.open)) + r.booked
      ensures !r.Trade? ==> tracker.open == old(tracker.open)
      ensures tracker.open == Acted(old(tracker.open), Seen(t, r))
      ensures FairResult(r) ==>
                forall limit :: Limits(limit, core.capUsd, t.step.gate) ==> Allowed(old(tracker.open), limit, Seen(t, r))
      ensures r.Threw? ==> metrics == old(metrics)
    {
      ghost var book := tracker.open;
      r := RunStep(t);
      RoomLeft(t, book, r, core.capUsd);
      if FairResult(r) {
        forall limit | Limits(limit, core.capUsd, t.step.gate) ensures Allowed(book, limit, Seen(t, r)) {
          CheckedIsAllowed(book, t, r, core.capUsd, limit);
        }
      }
      if r.Threw? { return; }
      AccountAfterStep(t.step.gate.market, r);
    }

    /**
     `processMarkets`: over any markets and any answers, with a venue that fills within size and limit, the
     tracked exposure ends at or under the cap, and under the policy's portfolio limit, or at most where it
     started. An exception ends the pass.
     */
    method ProcessMarkets(turns: seq<Turn>, ghost limit: real) returns (results: seq<G4.StepResult>, ghost actions: seq<Action>)
      requires Valid()
      requires AllLimited(limit, core.capUsd, turns)
      modifies this, tracker, core.kernel, core.kernel.store, core.executor
      ensures Valid()
      ensures old(core.kernel.store.Valid()) ==> core.kernel.store.Valid()
      ensures |results| <= |turns|
      ensures |results| < |turns| ==> results != [] && results[|results| - 1].Threw?
      ensures Leads(old(tracker.open), tracker.open, limit, AllFair(results), 0.0, actions)
      ensures AllFair(results) ==> Sum(tracker.open) <= Larger(limit, Sum(old(tracker.open)))
      ensures Sends(old(core.executor.calls), core.executor.calls, turns, core.Config())
    {
      results, actions := [], [];
      ghost var book, calls := tracker.open, core.executor.calls;
      LeadsNowhere(book, limit);
      for i := 0 to |turns|
        invariant Valid() && |results| == i
        invariant old(core.kernel.store.Valid()) ==> core.kernel.store.Valid()
        invariant Leads(book, tracker.open, limit, AllFair(results), 0.0, actions)
        invariant Sends(calls, core.executor.calls, turns, core.Config())
      {
        ghost var before, open, sent := results, tracker.open, core.executor.calls;
        var r := ProcessMarket(turns[i]);
        SendsMore(calls, sent, core.executor.calls, turns, i, core.Config());
        results := results + [r];
        LeadsTurn(book, open, limit, before, actions, turns[i], r);
        actions := actions + [Seen(turns[i], r)];
        if r.Threw? { break; }
      }
      EndsUnder(book, tracker.open, limit, AllFair(results), 0.0, actions);
    }

    /** `syncSettlements`; the feed may be missing, or fail. */
    method SyncSettlements(settled: Option<seq<string>>)
      requires Valid()
      modifies tracker
      ensures Valid() && Sum(tracker.open) <= Sum(old(tracker.open))
      ensures tracker.open == Acted(old(tracker.open), Settle(if settled.Some? then settled.value else []))
    {
      if settled.None? || |settled.value| == 0 {
        assert Without(tracker.open, []) == tracker.open;
        return;
      }
      var _, _ := tracker.Resolve(settled.value);
    }

    /** `syncOpenExposure`: a loaded snapshot replaces the book, whatever stood there; a failed load does not. */
    method SyncOpenExposure(snapshot: Option<seq<(string, real)>>)
      requires Valid()
      modifies tracker
      ensures Valid()
      ensures tracker.open == if snapshot.Some? then Snapshot(snapshot.value) else old(tracker.open)
    {
      if snapshot.Some? { tracker.ReplaceAll(snapshot.value); }
    }

    /** `portfolioCapUsd`. */
    function PortfolioCap(): real { if core.capUsd.Some? then core.capUsd.value else DEFAULT_CAP_USD }

    /**
     One round of `runContinuous`: exposure and settlements first; a full portfolio, or halted entries, skip
     the markets, and then the venue hears nothing.
     */
    method Pass(p: Round, ghost limit: real) returns (results: seq<G4.StepResult>, ghost actions: seq<Action>)
      requires Valid() && AllLimited(limit, core.capUsd, p.turns)
      modifies this, tracker, core.kernel, core.kernel.store, core.executor
      ensures Valid()
      ensures old(core.kernel.store.Valid()) ==> core.kernel.store.Valid()
      ensures Leads(old(tracker.open), tracker.open, limit, AllFair(results), LoadedBy(p), actions)
      ensures !p.enabled || Full(Sum(Synced(p, old(tracker.open))), core.capUsd) ==>
                results == [] && core.kernel.View() == old(core.kernel.View()) && core.executor.calls == old(core.executor.calls)
      ensures Sends(old(core.executor.calls), core.executor.calls, p.turns, core.Config())
      ensures (forall i :: 0 <= i < |p.turns| ==> !Armed(p.turns[i].step, core.Config())) ==> core.executor.calls == old(core.executor.calls)
    {
      results, actions := [], [];
      LeadsNowhere(tracker.open, limit);
      LoadedByNonNegative(p);
      if !p.enabled { return; }
      ghost var book := tracker.open;
      SyncOpenExposure(p.snapshot);
      SyncSettlements(p.settled);
      actions := Syncs(p);
      SyncsLead(p, book, limit);
      var total := tracker.Total();
      if total >= PortfolioCap() { return; }
      ghost var more: seq<Action>;
      ghost var synced := tracker.open;
      ghost var calls := core.executor.calls;
      results, more := ProcessMarkets(p.turns, limit);
      if forall i :: 0 <= i < |p.turns| ==> !Armed(p.turns[i].step, core.Config()) {
        UnarmedSendsNothing(calls, core.executor.calls, p.turns, core.Config());
      }
      LeadsThen(book, synced, tracker.open, limit, true, AllFair(results), LoadedBy(p), 0.0, actions, more);
      actions := actions + more;
    }

    /**
     `runContinuous`: over any rounds, with a venue that fills within size and limit, the tracked exposure
     never exceeds the largest of the cap (and the policy's portfolio limit), where it started, and what a
     durable snapshot brought in.
     */
    method RunContinuous(rounds: seq<Round>, ghost limit: real) returns (results: seq<G4.StepResult>)
      requires Valid()
      requires forall i :: 0 <= i < |rounds| ==> AllLimited(limit, core.capUsd, rounds[i].turns)
      modifies this, tracker, core.kernel, core.kernel.store, core.executor
      ensures Valid()
      ensures old(core.kernel.store.Valid()) ==> core.kernel.store.Valid()
      ensures AllFair(results) ==>
                Sum(tracker.open) <= Larger(limit, Larger(Sum(old(tracker.open)), LoadedByAll(rounds)))
    {
      results := [];
      ghost var book, actions := tracker.open, [];
      LeadsNowhere(book, limit);
      for i := 0 to |rounds|
        invariant Valid()
        invariant old(core.kernel.store.Valid()) ==> core.kernel.store.Valid()
        invariant Leads(book, tracker.open, limit, AllFair(results), LoadedByAll(rounds[..i]), actions)
      {
        ghost var open := tracker.open;
        var some;
        ghost var more: seq<Action>;
        some, more := Pass(rounds[i], limit);
        LeadsThen(book, open, tracker.open, limit, AllFair(results), AllFair(some),
                  LoadedByAll(rounds[..i]), LoadedBy(rounds[i]), actions, more);
        FairThen(results, some);
        assert rounds[..i + 1][..i] == rounds[..i];
        results, actions := results + some, actions + more;
      }
      assert rounds[..|rounds|] == rounds;
      EndsUnder(book, tracker.open, limit, AllFair(results), LoadedByAll(rounds), actions);
    }
  }

  lemma {:induction false} FairNext(results: seq<G4.StepResult>, r: G4.StepResult)
    ensures AllFair(results + [r]) <==> AllFair(results) && FairResult(r)
  {
    assert (results + [r])[|results|] == r;
    assert forall i :: 0 <= i < |results| ==> (results + [r])[i] == results[i];
  }

  lemma {:induction false} LeadsTurn(
    book: Book, open: Book, limit: real, results: seq<G4.StepResult>, actions: seq<Action>, t: Turn, r: G4.StepResult)
    requires Leads(book, open, limit, AllFair(results), 0.0, actions)
    requires FairResult(r) ==> Allowed(open, limit, Seen(t, r))
    ensures Leads(book, Acted(open, Seen(t, r)), limit, AllFair(results + [r]), 0.0, actions + [Seen(t, r)])
  {
    LeadsOne(open, limit, FairResult(r), Seen(t, r));
    LeadsThen(book, open, Acted(open, Seen(t, r)), limit, AllFair(results), FairResult(r), 0.0, 0.0, actions, [Seen(t, r)]);
    FairNext(results, r);
  }

  lemma {:induction false} FairThen(results: seq<G4.StepResult>, more: seq<G4.StepResult>)
    ensures AllFair(results + more) <==> AllFair(results) && AllFair(more)
  {
    assert forall i :: 0 <= i < |results| ==> (results + more)[i] == results[i];
    assert forall i :: 0 <= i < |more| ==> (results + more)[|results| + i] == more[i];
  }

  lemma {:induction false} EndsUnder(book: Book, book': Book, limit: real, fair: bool, loaded: real, actions: seq<Action>)
    requires Positive(book) && Leads(book, book', limit, fair, loaded, actions)
    ensures Sum(book) >= 0.0
    ensures fair ==> Sum(book') <= Larger(limit, Larger(Sum(book), loaded))
  {
    if fair { RunUnderCap(book, limit, actions); }
    SumNonNegative(book);
  }

  lemma {:induction false} RatioWithin(filled: nat, total: nat)
    requires filled <= total && total > 0
    ensures 0.0 <= filled as real / total as real <= 1.0
    ensures filled as real / total as real * total as real == filled as real
  {}

  lemma NotionalNonNegative(x: RiskGate.Input)
    ensures G4.StepNotional(x) >= 0.0
  {
    G4.UsdMonotone(0, x.size);
    G4.UsdMonotone(0, x.price);
    TimesMonotone(0.0, Usd(x.size), Usd(x.price));
  }
}
