/** Startup recovery: consistency checks over the paper-trading tables, the repairs it may make, and the
    status it ends in. */
module Recovery {
  import opened Common
  import opened Timeframes

  datatype RunStatus = RunRunning | RunCompleted | RunFailed | RunSkipped

  datatype RunRow = RunRow(id: nat, job: string, status: RunStatus)

  datatype IntentStatus =
    | Created | Approved | Scheduled | Submitted | IntentPartiallyFilled | IntentFilled | IntentCancelled
    | IntentRejected | IntentExpired | IntentFailed

  datatype Intent = Intent(id: nat, status: IntentStatus)

  datatype OrderStatus =
    | OrderPending | OrderOpen | OrderPartiallyFilled | OrderFilled | OrderCancelled | OrderRejected | OrderExpired

  datatype Order = Order(id: nat, intent: nat, status: OrderStatus, remaining: real)

  datatype FillKind = Entry | Exit

  datatype Fill = Fill(
    id: nat, kind: FillKind, order: Option<nat>, position: Option<nat>, symbol: string, quantity: real, price: real,
    key: string, sequence: nat)

  datatype PositionStatus = PositionOpen | PositionClosing | PositionClosed

  datatype Position = Position(
    id: nat, symbol: string, status: PositionStatus, entryIntent: nat, quantity: real, averageEntry: real,
    currentStop: real, initialStop: real, highestClose: real)

  datatype StopEvent = StopEvent(id: nat, position: nat, previous: real, next: real, time: Time)

  datatype RuntimeStatus =
    Stopped | Starting | Recovering | Syncing | Ready | Degraded | Paused | Killed | ShuttingDown | Failed

  datatype Runtime = Runtime(status: RuntimeStatus, heartbeat: Time, lastError: string, paused: bool, killSwitch: bool,
      version: nat)

  datatype Tables = Tables(
    runs: seq<RunRow>, intents: seq<Intent>, orders: seq<Order>, fills: seq<Fill>, positions: seq<Position>,
    stopEvents: seq<StopEvent>, hasWallet: bool, runtime: Option<Runtime>)

  predicate IsTerminal(s: IntentStatus) {
    s == IntentRejected || s == IntentCancelled || s == IntentExpired || s == IntentFailed || s == IntentFilled
  }

  /* ---------- lookups ---------- */

  function OrderFor(orders: seq<Order>, intent: nat): Option<Order> {
    if orders == [] then None else if orders[0].intent == intent then Some(orders[0]) else OrderFor(orders[1..], intent)
  }

  function OrderById(orders: seq<Order>, id: nat): Option<Order> {
    if orders == [] then None else if orders[0].id == id then Some(orders[0]) else OrderById(orders[1..], id)
  }

  function PlaceFill(fills: seq<Fill>, f: Fill): seq<Fill> {
    if fills == [] || f.sequence < fills[0].sequence then [f] + fills else [fills[0]] + PlaceFill(fills[1..], f)
  }

  /** The fills of an order, in sequence. */
  function FillsFor(fills: seq<Fill>, order: nat): seq<Fill> {
    if fills == [] then [] else
    var front, last := FillsFor(fills[..|fills| - 1], order), fills[|fills| - 1];
    if last.order == Some(order) then PlaceFill(front, last) else front
  }

  predicate IsOpen(p: Position) { p.status != PositionClosed }

  function OpenPositionOf(positions: seq<Position>, symbol: string): Option<Position> {
    if positions == [] then None
    else if positions[0].symbol == symbol && IsOpen(positions[0]) then Some(positions[0])
    else OpenPositionOf(positions[1..], symbol)
  }

  predicate HasIntent(t: Tables, id: nat) { exists i :: 0 <= i < |t.intents| && t.intents[i].id == id }

  predicate HasPositionFor(t: Tables, intent: nat) { exists i :: 0 <= i < |t.positions| && t.positions[i].entryIntent == intent }

  /** The first fill of an order is an entry that an open position of the order's intent matches exactly, and
      there is a wallet. */
  predicate ChainHolds(t: Tables, order: nat) {
    var fills := FillsFor(t.fills, order);
    if fills == [] || fills[0].kind != Entry || OrderById(t.orders, order).None? then false else
    var p := OpenPositionOf(t.positions, fills[0].symbol);
    && p.Some? && p.value.entryIntent == OrderById(t.orders, order).value.intent
    && p.value.quantity == fills[0].quantity && p.value.averageEntry == fills[0].price && t.hasWallet
  }

  predicate ChainHoldsForIntent(t: Tables, intent: nat) {
    var o := OrderFor(t.orders, intent);
    o.Some? && ChainHolds(t, o.value.id)
  }

  /* ---------- issues ---------- */

  datatype Severity = Auto | Manual | Fatal

  datatype Code =
    | OrphanRun | StaleHeartbeat | MultipleOpenPositions | FilledWithoutFill | FilledWithoutStatus | FillWithoutChain
    | OpenOrderWithFill | TerminalWithoutOrder | PositionWithoutIntent | PositionWithoutFill | ClosingPosition
    | ExitWithoutPosition | EntryWithoutOrder | FillWithoutOrder | FillWithoutPosition | StopBelowInitial
    | HighestCloseBelowEntry | StopHistoryFalls | DuplicateFill | AccountingMismatch | MigrationNotAtHead

  datatype Issue = Issue(code: Code, severity: Severity, id: int, detail: string)

  function Orphans(runs: seq<RunRow>): seq<Issue> {
    if runs == [] then [] else
    var last := runs[|runs| - 1];
    Orphans(runs[..|runs| - 1]) + if last.status == RunRunning then [Issue(OrphanRun, Auto, last.id, last.job)] else []
  }

  predicate IsStale(r: Option<Runtime>, now: Time, threshold: nat) { r.Some? && now - r.value.heartbeat > threshold }

  function Stale(r: Option<Runtime>, now: Time, threshold: nat): seq<Issue> {
    if IsStale(r, now, threshold) then [Issue(StaleHeartbeat, Auto, now - r.value.heartbeat, "")] else []
  }

  function OpenSymbols(positions: seq<Position>): seq<string> {
    if positions == [] then [] else
    var last := positions[|positions| - 1];
    OpenSymbols(positions[..|positions| - 1]) + if IsOpen(last) then [last.symbol] else []
  }

  function Count(symbols: seq<string>, s: string): nat {
    if symbols == [] then 0 else (if symbols[0] == s then 1 else 0) + Count(symbols[1..], s)
  }

  function MultipleOpen(symbols: seq<string>, among: seq<string>): seq<Issue> {
    if symbols == [] then [] else
    (if Count(among, symbols[0]) > 1 then [Issue(MultipleOpenPositions, Fatal, Count(among, symbols[0]), symbols[0])] else []) +
    MultipleOpen(symbols[1..], among)
  }

  function StatusIssues(t: Tables, i: Intent, fills: seq<Fill>): seq<Issue> {
    if i.status == IntentFilled && fills == [] then [Issue(FilledWithoutFill, Manual, i.id, "")]
    else if fills != [] && !IsTerminal(i.status) then
      if ChainHoldsForIntent(t, i.id) then [Issue(FilledWithoutStatus, Auto, i.id, "")]
      else [Issue(FillWithoutChain, Fatal, i.id, "intent")]
    else []
  }

  function OrderIssues(t: Tables, order: Option<Order>, fills: seq<Fill>): seq<Issue> {
    if order.Some? && order.value.status == OrderOpen && fills != [] then
      if ChainHolds(t, order.value.id) then [Issue(OpenOrderWithFill, Auto, order.value.id, "")]
      else [Issue(FillWithoutChain, Fatal, order.value.id, "order")]
    else []
  }

  function TerminalIssues(i: Intent, order: Option<Order>): seq<Issue> {
    if IsTerminal(i.status) && i.status != IntentFilled && order.None? && i.status != IntentRejected &&
        i.status != IntentCancelled
    then [Issue(TerminalWithoutOrder, Manual, i.id, "")]
    else []
  }

  function IntentIssues(t: Tables, i: Intent): seq<Issue> {
    var order := OrderFor(t.orders, i.id);
    var fills := if order.Some? then FillsFor(t.fills, order.value.id) else [];
    StatusIssues(t, i, fills) + OrderIssues(t, order, fills) + TerminalIssues(i, order)
  }

  function AllIntentIssues(t: Tables, intents: seq<Intent>): seq<Issue> {
    if intents == [] then []
    else AllIntentIssues(t, intents[..|intents| - 1]) + IntentIssues(t, intents[|intents| - 1])
  }

  function PositionIssues(t: Tables, p: Position): seq<Issue> {
    var hasIntent := HasIntent(t, p.entryIntent);
    var order := if hasIntent then OrderFor(t.orders, p.entryIntent) else None;
    var fills := if order.Some? then FillsFor(t.fills, order.value.id) else [];
    (if !hasIntent && IsOpen(p) then [Issue(PositionWithoutIntent, Fatal, p.id, "")] else []) +
    (if IsOpen(p) && fills == [] then [Issue(PositionWithoutFill, Fatal, p.id, "")] else []) +
    (if p.status == PositionClosing then [Issue(ClosingPosition, Manual, p.id, "")] else [])
  }

  function AllPositionIssues(t: Tables, positions: seq<Position>): seq<Issue> {
    if positions == [] then []
    else AllPositionIssues(t, positions[..|positions| - 1]) + PositionIssues(t, positions[|positions| - 1])
  }

  function FillIssues(t: Tables, f: Fill): seq<Issue> {
    if f.kind == Exit then (if f.position.None? then [Issue(ExitWithoutPosition, Fatal, f.id, "")] else [])
    else if f.order.None? then [Issue(EntryWithoutOrder, Fatal, f.id, "")]
    else
      var order := OrderById(t.orders, f.order.value);
      if order.None? then [Issue(FillWithoutOrder, Fatal, f.id, "")]
      else if !HasPositionFor(t, order.value.intent) && order.value.status == OrderFilled
      then [Issue(FillWithoutPosition, Fatal, f.id, "")]
      else []
  }

  function AllFillIssues(t: Tables, fills: seq<Fill>): seq<Issue> {
    if fills == [] then [] else AllFillIssues(t, fills[..|fills| - 1]) + FillIssues(t, fills[|fills| - 1])
  }

  function FallingStops(events: seq<StopEvent>, position: nat): seq<Issue> {
    if events == [] then [] else
    var last := events[|events| - 1];
    FallingStops(events[..|events| - 1], position) +
    if last.position == position && last.next < last.previous then [Issue(StopHistoryFalls, Fatal, last.id, "")] else []
  }

  function StopIssues(p: Position, events: seq<StopEvent>): seq<Issue> {
    (if p.currentStop < p.initialStop then [Issue(StopBelowInitial, Fatal, p.id, "")] else []) +
    (if p.highestClose < p.averageEntry then [Issue(HighestCloseBelowEntry, Manual, p.id, "")] else []) +
    FallingStops(events, p.id)
  }

  function AllStopIssues(positions: seq<Position>, events: seq<StopEvent>): seq<Issue> {
    if positions == [] then []
    else AllStopIssues(positions[..|positions| - 1], events) + StopIssues(positions[|positions| - 1], events)
  }

  predicate KeySeen(fills: seq<Fill>, key: string) { exists i :: 0 <= i < |fills| && fills[i].key == key }

  function Duplicates(fills: seq<Fill>): seq<Issue> {
    if fills == [] then [] else
    var front, last := fills[..|fills| - 1], fills[|fills| - 1];
    Duplicates(front) + if KeySeen(front, last.key) then [Issue(DuplicateFill, Fatal, last.id, last.key)] else []
  }

  /** The checks after runs and heartbeat, in order. */
  function Rest(t: Tables): seq<Issue> {
    MultipleOpen(Dedup(OpenSymbols(t.positions)), OpenSymbols(t.positions)) + AllIntentIssues(t, t.intents) +
    AllPositionIssues(t, t.positions) + AllFillIssues(t, t.fills) + AllStopIssues(t.positions, t.stopEvents) + Duplicates(t.fills)
  }

  function Checks(t: Tables, now: Time, threshold: nat): seq<Issue> {
    Orphans(t.runs) + (Stale(t.runtime, now, threshold) + Rest(t))
  }

  /* ---------- repairs ---------- */

  /** What a repair reports of itself. */
  datatype Repair = RunsFailed(count: nat) | OrderSetFilled(id: int) | IntentSetFilled(id: int) | HeartbeatRefreshed

  function FailRun(r: RunRow): RunRow { if r.status == RunRunning then r.(status := RunFailed) else r }

  function FailRuns(runs: seq<RunRow>): seq<RunRow> { seq(|runs|, i requires 0 <= i < |runs| => FailRun(runs[i])) }

  function SetOrder(o: Order, id: int): Order { if o.id == id then o.(status := OrderFilled, remaining := 0.0) else o }

  function SetOrders(orders: seq<Order>, id: int): seq<Order> {
    seq(|orders|, i requires 0 <= i < |orders| => SetOrder(orders[i], id))
  }

  function SetIntent(x: Intent, id: int): Intent { if x.id == id then x.(status := IntentFilled) else x }

  function SetIntents(intents: seq<Intent>, id: int): seq<Intent> {
    seq(|intents|, i requires 0 <= i < |intents| => SetIntent(intents[i], id))
  }

  function Refreshed(r: Option<Runtime>, now: Time): Option<Runtime> {
    if r.Some? then Some(r.value.(heartbeat := now, version := r.value.version + 1)) else None
  }

  function RepairOne(t: Tables, issue: Issue, now: Time): Tables {
    if issue.severity != Auto then t else
    match issue.code
    case OrphanRun => t.(runs := FailRuns(t.runs))
    case OpenOrderWithFill => if issue.id >= 0 && ChainHolds(t, issue.id) then t.(orders := SetOrders(t.orders, issue.id)) else t
    case FilledWithoutStatus =>
      if issue.id >= 0 && ChainHoldsForIntent(t, issue.id) then t.(intents := SetIntents(t.intents, issue.id)) else t
    case StaleHeartbeat => t.(runtime := Refreshed(t.runtime, now))
    case _ => t
  }

  function RepairAll(t: Tables, issues: seq<Issue>, now: Time): Tables {
    if issues == [] then t else RepairOne(RepairAll(t, issues[..|issues| - 1], now), issues[|issues| - 1], now)
  }

  function RunningCount(runs: seq<RunRow>): nat {
    if runs == [] then 0
    else RunningCount(runs[..|runs| - 1]) + if runs[|runs| - 1].status == RunRunning then 1 else 0
  }

  /** What repairing an issue reports: nothing if there was nothing left to do. */
  function ReportOf(t: Tables, issue: Issue): seq<Repair> {
    if issue.severity != Auto then [] else
    match issue.code
    case OrphanRun => if RunningCount(t.runs) > 0 then [RunsFailed(RunningCount(t.runs))] else []
    case OpenOrderWithFill => if issue.id >= 0 && ChainHolds(t, issue.id) then [OrderSetFilled(issue.id)] else []
    case FilledWithoutStatus => if issue.id >= 0 && ChainHoldsForIntent(t, issue.id) then [IntentSetFilled(issue.id)] else []
    case StaleHeartbeat => if t.runtime.Some? then [HeartbeatRefreshed] else []
    case _ => []
  }

  function RepairsMade(t: Tables, issues: seq<Issue>, now: Time): seq<Repair> {
    if issues == [] then [] else
    var front, last := issues[..|issues| - 1], issues[|issues| - 1];
    RepairsMade(t, front, now) + ReportOf(RepairAll(t, front, now), last)
  }

  predicate NotAuto(i: Issue) { i.severity != Auto }

  function Left(issues: seq<Issue>): seq<Issue> {
    if issues == [] then [] else
    var last := issues[|issues| - 1];
    Left(issues[..|issues| - 1]) + if NotAuto(last) then [last] else []
  }
}
