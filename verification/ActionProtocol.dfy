/**
 The durable action protocol: how one Resource Action is dispatched to a region at most once and
 settled later by reads alone.

 The state holds the committed rows, the row locks, what each worker is doing, every call that left
 Central, and the region's machines. Any number of workers may run the same action and each may stop
 after every step, so the expiry of the job lock and every crash are part of every run. A write that
 the code makes without reading the row again is a write on the committed row here too.
 */
module ActionProtocol {
  import opened Base
  import CreatedSearch

  const PAGE: nat := CreatedSearch.SERVER_PAGE_SIZE

  type ActionId = nat
  type VmId = nat
  type WorkerId = nat
  type SnapshotId = nat

  datatype Status =
    | Queued | Dispatching | Sent | InProgress | Uncertain | Succeeded | Failed | TimedOut
  {
    predicate IsTerminal() { Succeeded? || Failed? || TimedOut? }
  }

  datatype Verb = Create | Start | Stop | Restart | Terminate

  datatype ServerStatus = Running | Stopped | Paused | Provisioning | Faulty | Terminated

  function Goal(verb: Verb): ServerStatus
  {
    match verb
    case Create => Running
    case Start => Running
    case Stop => Stopped
    case Restart => Running
    case Terminate => Terminated
  }

  /** One committed Resource Action. Times are told as the number of machines the region had built by then. `floor` is
      the time a search looks behind: the last dispatch, or the submission, `created`, where no dispatch is on record.
      `dispatches` and `retries` count the commits of the dispatch marker and the
      retries so far: the code does not store them, the properties are about them. */
  datatype Row = Row(
    verb: Verb,
    tenant: nat,
    image: nat,
    status: Status,
    remote: Option<VmId>,
    withSnapshot: bool,
    snapshot: Option<SnapshotId>,
    created: nat,
    floor: nat,
    dispatches: nat,
    retries: nat)

  datatype SnapshotStatus = Pending | Available | Broken

  /** What became of a call that left Central. A call in flight may still land. */
  datatype Fate = InFlight | Landed(vm: VmId) | Refused

  datatype Call = Call(action: ActionId, ticket: nat, fate: Fate)

  /** `marker` is the `central_action_id` in the guest metadata, `origin` the call that built the machine. */
  datatype Machine = Machine(tenant: nat, image: nat, marker: ActionId, origin: Option<nat>, isAlive: bool)

  /** A search under way: the machines built when it began, the time of the dispatch it looks behind, the offset
      of its next page, and whether a machine vanished meanwhile. The code does not know the last. */
  datatype Search = Search(since: nat, floor: nat, offset: nat, hasShrunk: bool)

  datatype Pc =
    | Idle
    | Starting(action: ActionId)                  // the job runs and has not locked the row yet
    | Holding(action: ActionId, seen: Row)        // the row is locked and read
    | Ready(action: ActionId, ticket: nat, sentAt: nat)    // the dispatch marker is committed
    | Waiting(action: ActionId, call: nat, sentAt: nat)    // the call left Central
    | Searching(action: ActionId, search: Search)          // asks the region what it built, under the row lock
    | Finalizing(action: ActionId, vm: VmId)      // the remote identity is committed
    | Handling(action: ActionId)                  // the job raised: it rolled back, and will lock the row again
    | Observing(action: ActionId, memory: Status) // reads the machine's state; `memory` is the loaded status

  datatype State = State(
    rows: map<ActionId, Row>,
    locks: map<ActionId, WorkerId>,
    pcs: map<WorkerId, Pc>,
    calls: seq<Call>,
    machines: seq<Machine>,
    snapshots: seq<SnapshotStatus>,
    servers: map<ActionId, VmId>,       // the Virtual Machine a creation is linked to
    settled: map<ActionId, Search>)     // settled as not accepted: the search that said so

  /** Why a worker writes a status and ends its job. */
  datatype Reason =
    | NotAllowed                                            // permission, inactive region, foreign server
    | SnapshotFailed                                        // or the stop that prepares it
    | Answer(isGone: bool)                                  // the region refused, or had no such machine
    | SearchFailed                                          // the region could not be read
    | LinkFailed                                            // local finalization rolled back
    | Observed(status: ServerStatus, isOverdue: bool)
    | ReadFailed
    | Raised                                                // the job's last-resort handler

  datatype Step =
    | StartJob(a: ActionId)
    | Take(a: ActionId)
    | Raise
    | Leave
    | Conclude(why: Reason)
    | StartSnapshot
    | Dispatch
    | Transmit
    | Accept
    | LoseReply
    | StartSearch
    | TurnPage
    | Find(vm: VmId)
    | FindNothing(end: Option<VmId>)
    | Resume
    | Link

  datatype Outside =
    | Submit(a: ActionId, row: Row)
    | Land(i: nat)
    | TurnAway(i: nat)
    | Confirm(a: ActionId, observed: ServerStatus)
    | Retry(a: ActionId)
    | Appear(tenant: nat, image: nat, marker: ActionId)
    | Vanish(vm: VmId)
    | SettleSnapshot(id: SnapshotId, isOk: bool)

  datatype Event = Worker(w: WorkerId, step: Step) | Environment(outside: Outside)

  // ---------------------------------------------------------------- pieces of a step

  function ActionOf(pc: Pc): Option<ActionId>
  {
    match pc
    case Idle => None
    case Starting(a) => Some(a)
    case Handling(a) => Some(a)
    case Holding(a, _) => Some(a)
    case Ready(a, _, _) => Some(a)
    case Waiting(a, _, _) => Some(a)
    case Searching(a, _) => Some(a)
    case Finalizing(a, _) => Some(a)
    case Observing(a, _) => Some(a)
  }

  /** The worker is busy with action `a` and no other worker holds its row. */
  predicate MayWrite(s: State, w: WorkerId, a: ActionId)
  {
    w in s.pcs && ActionOf(s.pcs[w]) == Some(a) && a in s.rows && (a in s.locks ==> s.locks[a] == w)
  }

  function Release(locks: map<ActionId, WorkerId>, w: WorkerId): map<ActionId, WorkerId>
  {
    map a | a in locks && locks[a] != w :: locks[a]
  }

  /** Commit one row, end the transaction, and go on at `pc`. */
  function Commit(s: State, w: WorkerId, a: ActionId, row: Row, pc: Pc): State
  {
    s.(rows := s.rows[a := row], locks := Release(s.locks, w), pcs := s.pcs[w := pc])
  }

  /** End the transaction with nothing written. */
  function Rollback(s: State, w: WorkerId, pc: Pc): State
  {
    s.(locks := Release(s.locks, w), pcs := s.pcs[w := pc])
  }

  /** The machine a creation may adopt: tenant, image and marker all match, and it still exists. */
  predicate Matches(m: Machine, a: ActionId, row: Row)
  {
    m.isAlive && m.tenant == row.tenant && m.image == row.image && m.marker == a
  }

  predicate IsFresh(row: Row)
  {
    && row.status == Queued && row.floor == row.created && row.dispatches == 0 && row.retries == 0
    && row.snapshot == None
    && (row.verb == Create <==> row.remote == None)
    && (row.withSnapshot ==> row.verb == Terminate)
  }

  predicate IsSnapshot(s: State, row: Row, status: SnapshotStatus)
  {
    row.snapshot.Some? && row.snapshot.value < |s.snapshots| && s.snapshots[row.snapshot.value] == status
  }

  /** A queued action that may be sent. A terminate with a final snapshot waits for it. */
  predicate MayDispatch(s: State, seen: Row)
  {
    && seen.status == Queued
    && (seen.verb == Create ==> seen.remote == None)
    && (seen.withSnapshot ==> IsSnapshot(s, seen, Available))
  }

  /** What `finish` writes for an observed state, from the row read again: a settled row stays as it is, and any other
      succeeds at its goal, fails where the server did, times out if it is a command overdue, and else stays open. */
  function Finished(row: Row, observed: ServerStatus, isOverdue: bool): (status: Status)
    ensures row.status in {Succeeded, Failed, TimedOut} ==> status == row.status
    ensures row.status !in {Succeeded, Failed, TimedOut} ==>
              var isGoal := match row.verb
                            case Create | Start | Restart => observed == Running
                            case Stop => observed == Stopped
                            case Terminate => observed == Terminated;
              && (status == Succeeded <==> isGoal)
              && (status == Failed <==> !isGoal && observed in {Faulty, Terminated})
              && (status == TimedOut <==>
                    !isGoal && observed !in {Faulty, Terminated} && row.verb != Create && isOverdue)
              && (status == InProgress <==>
                    !isGoal && observed !in {Faulty, Terminated} && (row.verb == Create || !isOverdue))
  {
    if row.status.IsTerminal() then row.status
    else if observed == Goal(row.verb) then Succeeded
    else if observed == Faulty || observed == Terminated then Failed
    else if row.verb != Create && isOverdue then TimedOut
    else InProgress
  }

  /** What the job's last-resort handler writes after it rolled back and read the row again. */
  function Handled(row: Row): (status: Status)
    ensures status != Queued
    ensures status == Failed <==> row.status == Queued
  {
    if row.status == Queued then Failed
    else if row.remote.Some? then Sent
    else Uncertain
  }

  /** The status a worker writes when its job ends for `why`; None where that reason cannot arise. */
  function Verdict(s: State, pc: Pc, row: Row, why: Reason): Option<Status>
  {
    match why
    case NotAllowed =>
      if pc.Holding? && (pc.seen.status == Queued || (pc.seen.verb != Create && !pc.seen.status.IsTerminal()))
      then Some(Failed) else None
    case SnapshotFailed =>
      if pc.Holding? && pc.seen.status == Queued && pc.seen.withSnapshot
         && (pc.seen.snapshot == None || IsSnapshot(s, pc.seen, Broken))
      then Some(Failed) else None
    case Answer(isGone) =>
      if pc.Waiting? && pc.call < |s.calls| && s.calls[pc.call].fate == Refused
      then Some(if isGone && row.verb == Terminate then Succeeded else Failed) else None
    case SearchFailed => if pc.Searching? then Some(Uncertain) else None
    case LinkFailed => if pc.Finalizing? then Some(Sent) else None
    case Observed(observed, isOverdue) => if pc.Observing? then Some(Finished(row, observed, isOverdue)) else None
    case ReadFailed => if pc.Observing? then Some(pc.memory) else None
    case Raised => if pc.Handling? then Some(Handled(row)) else None
  }

  // ---------------------------------------------------------------- the steps of a worker

  predicate MayStartJob(s: State, w: WorkerId, a: ActionId)
  {
    w in s.pcs && s.pcs[w] == Idle && a in s.rows
  }

  function DoStartJob(s: State, w: WorkerId, a: ActionId): State
    requires MayStartJob(s, w, a)
  {
    s.(pcs := s.pcs[w := Starting(a)])
  }

  predicate MayTake(s: State, w: WorkerId, a: ActionId)
  {
    w in s.pcs && s.pcs[w] == Starting(a) && a in s.rows && a !in s.locks
  }

  function DoTake(s: State, w: WorkerId, a: ActionId): State
    requires MayTake(s, w, a)
  {
    s.(locks := s.locks[a := w], pcs := s.pcs[w := Holding(a, s.rows[a])])
  }

  /** Anything a job does can raise. Its transaction is rolled back before its handler locks the row again. */
  predicate MayRaise(s: State, w: WorkerId)
  {
    w in s.pcs && s.pcs[w] != Idle && !s.pcs[w].Handling?
  }

  function DoRaise(s: State, w: WorkerId): State
    requires MayRaise(s, w)
  {
    Rollback(s, w, Handling(ActionOf(s.pcs[w]).value))
  }

  predicate MayConclude(s: State, w: WorkerId, why: Reason)
  {
    && w in s.pcs && ActionOf(s.pcs[w]).Some?
    && var a := ActionOf(s.pcs[w]).value;
       MayWrite(s, w, a) && Verdict(s, s.pcs[w], s.rows[a], why).Some?
  }

  function DoConclude(s: State, w: WorkerId, why: Reason): State
    requires MayConclude(s, w, why)
  {
    var a := ActionOf(s.pcs[w]).value;
    Commit(s, w, a, s.rows[a].(status := Verdict(s, s.pcs[w], s.rows[a], why).value), Idle)
  }

  /** The worker holds its row and read `seen` from it. */
  predicate Holds(s: State, w: WorkerId)
  {
    w in s.pcs && s.pcs[w].Holding?
  }

  predicate MayStartSnapshot(s: State, w: WorkerId)
  {
    Holds(s, w) && s.pcs[w].seen.status == Queued && s.pcs[w].seen.withSnapshot && s.pcs[w].seen.snapshot == None
  }

  function DoStartSnapshot(s: State, w: WorkerId): State
    requires MayStartSnapshot(s, w)
  {
    var Holding(a, seen) := s.pcs[w];
    Commit(s, w, a, seen.(snapshot := Some(|s.snapshots|)), Idle).(snapshots := s.snapshots + [Pending])
  }

  predicate MayCommitDispatch(s: State, w: WorkerId)
  {
    Holds(s, w) && MayDispatch(s, s.pcs[w].seen)
  }

  function Dispatched(seen: Row, now: nat): Row
  {
    seen.(status := Dispatching, floor := now, dispatches := seen.dispatches + 1)
  }

  function DoDispatch(s: State, w: WorkerId): State
    requires MayCommitDispatch(s, w)
  {
    var Holding(a, seen) := s.pcs[w];
    Commit(s, w, a, Dispatched(seen, |s.machines|), Ready(a, seen.dispatches, |s.machines|))
  }

  predicate MayTransmit(s: State, w: WorkerId)
  {
    w in s.pcs && s.pcs[w].Ready?
  }

  function DoTransmit(s: State, w: WorkerId): State
    requires MayTransmit(s, w)
  {
    var Ready(a, ticket, sentAt) := s.pcs[w];
    s.(calls := s.calls + [Call(a, ticket, InFlight)], pcs := s.pcs[w := Waiting(a, |s.calls|, sentAt)])
  }

  predicate Awaits(s: State, w: WorkerId)
  {
    w in s.pcs && s.pcs[w].Waiting? && MayWrite(s, w, s.pcs[w].action)
  }

  predicate MayAccept(s: State, w: WorkerId)
  {
    Awaits(s, w) && s.pcs[w].call < |s.calls| && s.calls[s.pcs[w].call].fate.Landed?
  }

  function DoAccept(s: State, w: WorkerId): State
    requires MayAccept(s, w)
  {
    var Waiting(a, i, _) := s.pcs[w];
    if s.rows[a].verb == Create then Bind(s, w, a, s.calls[i].fate.vm)
    else Commit(s, w, a, s.rows[a].(status := Sent), Observing(a, Sent))
  }

  /** Record the machine a creation built. */
  function Bind(s: State, w: WorkerId, a: ActionId, vm: VmId): State
    requires a in s.rows
  {
    Commit(s, w, a, s.rows[a].(remote := Some(vm), status := Sent), Finalizing(a, vm))
  }

  /** A search that begins now, behind the dispatch at `floor`. */
  function Begin(s: State, floor: nat): Search
  {
    Search(|s.machines|, floor, 0, false)
  }

  function DoLoseReply(s: State, w: WorkerId): State
    requires Awaits(s, w)
  {
    var Waiting(a, _, sentAt) := s.pcs[w];
    if s.rows[a].verb == Create then
      // The diagnostic is written first, so the row stays locked while the region is searched.
      s.(locks := s.locks[a := w], pcs := s.pcs[w := Searching(a, Begin(s, sentAt))])
    else
      Commit(s, w, a, s.rows[a].(status := Uncertain), Observing(a, Uncertain))
  }

  predicate MayStartSearch(s: State, w: WorkerId)
  {
    && Holds(s, w)
    && var seen := s.pcs[w].seen;
       seen.verb == Create && seen.remote == None && seen.status != Queued && !seen.status.IsTerminal()
  }

  function DoStartSearch(s: State, w: WorkerId): State
    requires MayStartSearch(s, w)
  {
    s.(pcs := s.pcs[w := Searching(s.pcs[w].action, Begin(s, s.pcs[w].seen.floor))])
  }

  // ---------------------------------------------------------------- the tenant's list, a page at a time

  predicate IsListed(m: Machine, tenant: nat)
  {
    m.isAlive && m.tenant == tenant
  }

  /** The machines of the tenant's list among those built from number `from` on. The newest is listed first. */
  function Listed(machines: seq<Machine>, tenant: nat, from: nat): nat
    decreases |machines| - from
  {
    if from >= |machines| then 0
    else (if IsListed(machines[from], tenant) then 1 else 0) + Listed(machines, tenant, from + 1)
  }

  /** Where a listed machine stands: behind every newer one. */
  function Position(machines: seq<Machine>, tenant: nat, m: VmId): nat
  {
    Listed(machines, tenant, m + 1)
  }

  predicate IsOnPage(machines: seq<Machine>, tenant: nat, m: VmId, offset: nat)
  {
    m < |machines| && IsListed(machines[m], tenant) && offset <= Position(machines, tenant, m) < offset + PAGE
  }

  predicate Searches(s: State, w: WorkerId)
  {
    w in s.pcs && s.pcs[w].Searching? && s.pcs[w].action in s.rows
  }

  predicate IsMatch(s: State, a: ActionId, m: VmId)
    requires a in s.rows
  {
    m < |s.machines| && Matches(s.machines[m], a, s.rows[a])
  }

  /** The page the search reads next shows no match newer than number `end`. */
  predicate IsPageClear(s: State, a: ActionId, offset: nat, end: nat)
    requires a in s.rows
  {
    forall m :: end <= m < |s.machines| && IsOnPage(s.machines, s.rows[a].tenant, m, offset) ==> !IsMatch(s, a, m)
  }

  predicate MayFind(s: State, w: WorkerId, vm: VmId)
  {
    && Searches(s, w) && IsMatch(s, s.pcs[w].action, vm)
    && IsOnPage(s.machines, s.rows[s.pcs[w].action].tenant, vm, s.pcs[w].search.offset)
  }

  predicate IsPageFull(s: State, tenant: nat, offset: nat)
  {
    Listed(s.machines, tenant, 0) >= offset + PAGE
  }

  /** A full page without a match is followed by the next one. */
  predicate MayTurnPage(s: State, w: WorkerId)
  {
    && Searches(s, w)
    && var Searching(a, search) := s.pcs[w];
       IsPageFull(s, s.rows[a].tenant, search.offset) && IsPageClear(s, a, search.offset, 0)
  }

  function DoTurnPage(s: State, w: WorkerId): State
    requires MayTurnPage(s, w)
  {
    var Searching(a, search) := s.pcs[w];
    s.(pcs := s.pcs[w := Searching(a, search.(offset := search.offset + PAGE))])
  }

  /** The search ends on a short page without a match, or at a machine `end` older than the dispatch, before any
      match and before it asks whether that one is ours. Which machines are too old is the clocks' to say, within
      those built before the dispatch. */
  predicate MayFindNothing(s: State, w: WorkerId, end: Option<VmId>)
  {
    && Searches(s, w)
    && var Searching(a, search) := s.pcs[w];
       match end
       case None => !IsPageFull(s, s.rows[a].tenant, search.offset) && IsPageClear(s, a, search.offset, 0)
       case Some(x) =>
         x < search.floor && IsOnPage(s.machines, s.rows[a].tenant, x, search.offset)
         && IsPageClear(s, a, search.offset, x + 1)
  }

  /** No machine numbered from `floor` to below `bound` matches. */
  predicate NoneMatch(s: State, a: ActionId, floor: nat, bound: nat)
    requires a in s.rows
  {
    forall m :: floor <= m < bound ==> !IsMatch(s, a, m)
  }

  function DoFindNothing(s: State, w: WorkerId, end: Option<VmId>): State
    requires MayFindNothing(s, w, end)
  {
    var Searching(a, search) := s.pcs[w];
    Commit(s, w, a, s.rows[a].(status := Failed), Idle).(settled := s.settled[a := search])
  }

  predicate MayResume(s: State, w: WorkerId)
  {
    && Holds(s, w) && !s.pcs[w].seen.status.IsTerminal()
    && var seen := s.pcs[w].seen;
       if seen.verb == Create then seen.remote.Some? else seen.status != Queued
  }

  function DoResume(s: State, w: WorkerId): State
    requires MayResume(s, w)
  {
    var Holding(a, seen) := s.pcs[w];
    Rollback(s, w, if seen.verb == Create then Finalizing(a, seen.remote.value) else Observing(a, seen.status))
  }

  predicate MayLink(s: State, w: WorkerId)
  {
    w in s.pcs && s.pcs[w].Finalizing? && MayWrite(s, w, s.pcs[w].action)
  }

  /** The server record is made once: a repeat finds it and keeps it. */
  function DoLink(s: State, w: WorkerId): State
    requires MayLink(s, w)
  {
    var Finalizing(a, vm) := s.pcs[w];
    Rollback(s, w, Observing(a, Sent)).(servers := if a in s.servers then s.servers else s.servers[a := vm])
  }

  ghost predicate WorkerEnabled(s: State, w: WorkerId, step: Step)
  {
    match step
    case StartJob(a) => MayStartJob(s, w, a)
    case Take(a) => MayTake(s, w, a)
    case Raise => MayRaise(s, w)
    case Leave => w in s.pcs
    case Conclude(why) => MayConclude(s, w, why)
    case StartSnapshot => MayStartSnapshot(s, w)
    case Dispatch => MayCommitDispatch(s, w)
    case Transmit => MayTransmit(s, w)
    case Accept => MayAccept(s, w)
    case LoseReply => Awaits(s, w)
    case StartSearch => MayStartSearch(s, w)
    case TurnPage => MayTurnPage(s, w)
    case Find(vm) => MayFind(s, w, vm)
    case FindNothing(end) => MayFindNothing(s, w, end)
    case Resume => MayResume(s, w)
    case Link => MayLink(s, w)
  }

  ghost function WorkerStep(s: State, w: WorkerId, step: Step): State
    requires WorkerEnabled(s, w, step)
  {
    match step
    case StartJob(a) => DoStartJob(s, w, a)
    case Take(a) => DoTake(s, w, a)
    case Raise => DoRaise(s, w)
    case Leave => Rollback(s, w, Idle)
    case Conclude(why) => DoConclude(s, w, why)
    case StartSnapshot => DoStartSnapshot(s, w)
    case Dispatch => DoDispatch(s, w)
    case Transmit => DoTransmit(s, w)
    case Accept => DoAccept(s, w)
    case LoseReply => DoLoseReply(s, w)
    case StartSearch => DoStartSearch(s, w)
    case TurnPage => DoTurnPage(s, w)
    case Find(vm) => Bind(s, w, s.pcs[w].action, vm)
    case FindNothing(end) => DoFindNothing(s, w, end)
    case Resume => DoResume(s, w)
    case Link => DoLink(s, w)
  }

  // ---------------------------------------------------------------- the steps around the workers

  predicate MaySubmit(s: State, a: ActionId, row: Row)
  {
    && a !in s.rows && IsFresh(row) && row.created == |s.machines|
    && forall m :: 0 <= m < |s.machines| ==> s.machines[m].marker != a
  }

  predicate IsInFlight(s: State, i: nat)
  {
    i < |s.calls| && s.calls[i].fate == InFlight && s.calls[i].action in s.rows
  }

  /** The region acts on a call: it builds the machine of a create, or changes a machine's power. */
  function DoLand(s: State, i: nat): State
    requires IsInFlight(s, i)
  {
    var a := s.calls[i].action;
    var row := s.rows[a];
    if row.verb == Create then
      s.(calls := s.calls[i := s.calls[i].(fate := Landed(|s.machines|))],
         machines := s.machines + [Machine(row.tenant, row.image, a, Some(i), true)])
    else
      s.(calls := s.calls[i := s.calls[i].(fate := Landed(if row.remote.Some? then row.remote.value else 0))])
  }

  function PutRow(s: State, a: ActionId, row: Row): State
  {
    s.(rows := s.rows[a := row])
  }

  function DoTurnAway(s: State, i: nat): State
    requires IsInFlight(s, i)
  {
    s.(calls := s.calls[i := s.calls[i].(fate := Refused)])
  }

  /** A machine somebody else built; no action's marker is on it, now or later. */
  predicate MayAppear(s: State, marker: ActionId)
  {
    marker !in s.rows
  }

  function DoAppear(s: State, tenant: nat, image: nat, marker: ActionId): State
  {
    s.(machines := s.machines + [Machine(tenant, image, marker, None, true)])
  }

  function Shrunk(pc: Pc): Pc
  {
    if pc.Searching? then pc.(search := pc.search.(hasShrunk := true)) else pc
  }

  /** A machine is gone, and every search under way reads a shorter list. */
  function DoVanish(s: State, vm: VmId): State
    requires vm < |s.machines|
  {
    s.(machines := s.machines[vm := s.machines[vm].(isAlive := false)],
       pcs := map w | w in s.pcs :: Shrunk(s.pcs[w]))
  }

  function DoSettleSnapshot(s: State, id: SnapshotId, isOk: bool): State
    requires id < |s.snapshots|
  {
    s.(snapshots := s.snapshots[id := if isOk then Available else Broken])
  }

  predicate MayConfirm(s: State, a: ActionId, observed: ServerStatus)
  {
    && a in s.rows && a !in s.locks && !s.rows[a].status.IsTerminal() && observed == Goal(s.rows[a].verb)
    && (s.rows[a].verb == Create ==> a in s.servers)
  }

  /** `retry` checks a copy it read without the lock, so its write may meet any status. */
  predicate MayRetry(s: State, a: ActionId)
  {
    a in s.rows && a !in s.locks && s.rows[a].verb == Create
  }

  /** Queued again, with the time of the last dispatch taken off the record. */
  function Retried(r: Row): Row
  {
    r.(status := Queued, floor := r.created, retries := r.retries + 1)
  }

  ghost function DoRetry(s: State, a: ActionId): State
    requires a in s.rows
  {
    PutRow(s, a, Retried(s.rows[a]))
  }

  ghost predicate OutsideEnabled(s: State, o: Outside)
  {
    match o
    case Submit(a, row) => MaySubmit(s, a, row)
    case Land(i) => IsInFlight(s, i)
    case TurnAway(i) => IsInFlight(s, i)
    case Confirm(a, observed) => MayConfirm(s, a, observed)
    case Retry(a) => MayRetry(s, a)
    case Appear(_, _, marker) => MayAppear(s, marker)
    case Vanish(vm) => vm < |s.machines|
    case SettleSnapshot(id, _) => id < |s.snapshots| && s.snapshots[id] == Pending
  }

  ghost function OutsideStep(s: State, o: Outside): State
    requires OutsideEnabled(s, o)
  {
    match o
    case Submit(a, row) => PutRow(s, a, row)
    case Land(i) => DoLand(s, i)
    case TurnAway(i) => DoTurnAway(s, i)
    case Confirm(a, _) => PutRow(s, a, s.rows[a].(status := Succeeded))
    case Retry(a) => DoRetry(s, a)
    case Appear(tenant, image, marker) => DoAppear(s, tenant, image, marker)
    case Vanish(vm) => DoVanish(s, vm)
    case SettleSnapshot(id, isOk) => DoSettleSnapshot(s, id, isOk)
  }

  ghost predicate Enabled(s: State, e: Event)
  {
    match e
    case Worker(w, step) => WorkerEnabled(s, w, step)
    case Environment(o) => OutsideEnabled(s, o)
  }

  ghost function Apply(s: State, e: Event): State
    requires Enabled(s, e)
  {
    match e
    case Worker(w, step) => WorkerStep(s, w, step)
    case Environment(o) => OutsideStep(s, o)
  }

  /** No action yet, no worker in the middle of a job, and only machines Central did not ask for. */
  predicate Init(s: State)
  {
    && s.rows == map[] && s.locks == map[] && s.calls == [] && s.servers == map[] && s.settled == map[]
    && (forall w :: w in s.pcs ==> s.pcs[w] == Idle)
    && forall m :: 0 <= m < |s.machines| ==> s.machines[m].origin == None
  }

  /** A run: states joined by enabled events. */
  ghost predicate IsRun(states: seq<State>, events: seq<Event>)
  {
    && |states| == |events| + 1
    && forall i :: 0 <= i < |events| ==> Enabled(states[i], events[i]) && states[i + 1] == Apply(states[i], events[i])
  }
}
