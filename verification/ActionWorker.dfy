/**
 The worker's side of the protocol as the code runs it: a row read under its lock, fields set in the open
 transaction, and a commit that publishes them. Each method is one stretch of the job between two points
 where a crash can separate it from the next, and is proved to be one step of `ActionProtocol`.
 */
module ActionWorker {
  import opened Base
  import opened ActionProtocol
  import opened ActionSafety
  import ActionList
  import CreatedSearch

  /** How the region answered a search for the machine of a creation. */
  datatype SearchResult = Found(vm: VmId) | NothingFound | Unreachable

  /** What the region answered to a call. */
  datatype Reply = Accepted | Declined(isGone: bool) | NoAnswer

  /** What the worker learns before it decides: whether the server is still the team's and the region's, whether the
      requester may act, whether another snapshot of the server runs, and whether the server stops for one. */
  datatype Facts = Facts(isOwned: bool, isAllowed: bool, isBusy: bool, stops: bool)

  /** The step a worker takes on a row it has just read. */
  function NextStep(s: State, row: Row, f: Facts): (step: Step)
    requires row.withSnapshot ==> row.verb == Terminate
    ensures step == Dispatch ==> f.isAllowed && MayDispatch(s, row)
  {
    if row.status.IsTerminal() then Leave
    else if row.verb == Create then
      if row.remote.Some? then Resume
      else if row.status != Queued then StartSearch
      else if !f.isAllowed then Conclude(NotAllowed)
      else Dispatch
    else if !f.isOwned then Conclude(NotAllowed)
    else if row.status != Queued then Resume
    else if !f.isAllowed then Conclude(NotAllowed)
    else if !row.withSnapshot || IsSnapshot(s, row, Available) then Dispatch
    else SnapshotStep(s, row, f)
  }

  /** Before the final snapshot is Available: wait for it, fail with it, or wait for another, stop and start it. */
  function SnapshotStep(s: State, row: Row, f: Facts): Step
  {
    if row.snapshot.Some? then if IsSnapshot(s, row, Broken) then Conclude(SnapshotFailed) else Leave
    else if f.isBusy then Leave
    else if !f.stops then Conclude(SnapshotFailed)
    else StartSnapshot
  }

  /** What became of the snapshot the row names, if it names one. */
  function SnapshotOf(s: State, row: Row): Option<SnapshotStatus>
  {
    if row.snapshot.Some? && row.snapshot.value < |s.snapshots| then Some(s.snapshots[row.snapshot.value]) else None
  }

  /** The final snapshot is not there yet and nothing is to be done about it: it runs, or another one of the
      server does. */
  predicate IsAwaited(s: State, row: Row, f: Facts)
  {
    && row.withSnapshot
    && if row.snapshot.Some? then SnapshotOf(s, row) !in {Some(Available), Some(Broken)} else f.isBusy
  }

  /** From one row, exactly one thing happens. A call is made when the action is queued, allowed, unbound, its server is
      still its own, and its final snapshot, if it asked for one, is Available. What an earlier worker sent is searched
      for, finalized or observed, and only a settled action and an awaited snapshot are left as they are. */
  lemma DispatchExactly(s: State, row: Row, f: Facts)
    requires row.withSnapshot ==> row.verb == Terminate
    ensures NextStep(s, row, f) == Dispatch <==>
            && row.status == Queued && f.isAllowed && (if row.verb == Create then row.remote == None else f.isOwned)
            && (row.withSnapshot ==> SnapshotOf(s, row) == Some(Available))
    ensures NextStep(s, row, f) == StartSearch <==>
            row.verb == Create && row.remote == None && row.status in {Dispatching, Sent, InProgress, Uncertain}
    ensures NextStep(s, row, f) == Resume <==>
            if row.verb == Create then row.remote.Some? && row.status !in {Succeeded, Failed, TimedOut}
            else f.isOwned && row.status in {Dispatching, Sent, InProgress, Uncertain}
    ensures NextStep(s, row, f) == Leave <==>
            row.status in {Succeeded, Failed, TimedOut}
            || (row.status == Queued && f.isOwned && f.isAllowed && IsAwaited(s, row, f))
    ensures NextStep(s, row, f) == StartSnapshot <==>
            row.status == Queued && f.isOwned && f.isAllowed && row.withSnapshot && row.snapshot == None
            && !f.isBusy && f.stops
  {
  }

  /** Locking the row does not change what the worker decides on it. */
  lemma SameNextStep(s: State, w: WorkerId, a: ActionId, f: Facts)
    requires MayTake(s, w, a) && (s.rows[a].withSnapshot ==> s.rows[a].verb == Terminate)
    ensures NextStep(DoTake(s, w, a), s.rows[a], f) == NextStep(s, s.rows[a], f)
  {
  }

  lemma TakenStepKeeps(s: State, w: WorkerId, a: ActionId, step: Step)
    requires Inv(s) && MayTake(s, w, a) && WorkerEnabled(DoTake(s, w, a), w, step)
    ensures Inv(WorkerStep(DoTake(s, w, a), w, step))
  {
    TakeKeeps(s, w, a);
    WorkerStepKeeps(DoTake(s, w, a), w, step);
  }

  /** What the lock and the worker's decision leave on a creation, with the row as it was read: a settled one as it is,
      a bound one to be finalized, an unanswered one searched for behind its dispatch, a queued one refused or
      marked. */
  predicate CreateLeaves(s: State, w: WorkerId, a: ActionId, f: Facts, t: State)
    requires a in s.rows
  {
    var row := s.rows[a];
    && t == s.(rows := t.rows, locks := t.locks, pcs := t.pcs)
    && if row.status in {Succeeded, Failed, TimedOut} then
         t.rows == s.rows && t.pcs == s.pcs[w := Idle]
       else if row.remote.Some? then
         t.rows == s.rows && t.pcs == s.pcs[w := Finalizing(a, row.remote.value)]
       else if row.status in {Dispatching, Sent, InProgress, Uncertain} then
         && t.rows == s.rows && t.locks == s.locks[a := w]
         && t.pcs == s.pcs[w := Searching(a, Search(|s.machines|, row.floor, 0, false))]
       else if !f.isAllowed then
         t.rows == s.rows[a := row.(status := Failed)] && t.pcs == s.pcs[w := Idle]
       else
         && t.rows == s.rows[a := row.(status := Dispatching, floor := |s.machines|, dispatches := row.dispatches + 1)]
         && t.pcs == s.pcs[w := Ready(a, row.dispatches, |s.machines|)]
  }

  /** And on a command: one whose server changed hands is refused, one that was sent is observed, and a queued one is
      refused, or marked once its final snapshot is there, which is waited for, fails the command, or begins. */
  predicate CommandLeaves(s: State, w: WorkerId, a: ActionId, f: Facts, t: State)
    requires a in s.rows
  {
    var row := s.rows[a];
    && t == s.(rows := t.rows, locks := t.locks, pcs := t.pcs, snapshots := t.snapshots)
    && if row.status in {Succeeded, Failed, TimedOut} then
         t.rows == s.rows && t.snapshots == s.snapshots && t.pcs == s.pcs[w := Idle]
       else if !f.isOwned || (row.status == Queued && !f.isAllowed) then
         t.rows == s.rows[a := row.(status := Failed)] && t.snapshots == s.snapshots && t.pcs == s.pcs[w := Idle]
       else if row.status in {Dispatching, Sent, InProgress, Uncertain} then
         t.rows == s.rows && t.snapshots == s.snapshots && t.pcs == s.pcs[w := Observing(a, row.status)]
       else if !row.withSnapshot || SnapshotOf(s, row) == Some(Available) then
         && t.rows == s.rows[a := row.(status := Dispatching, floor := |s.machines|, dispatches := row.dispatches + 1)]
         && t.snapshots == s.snapshots && t.pcs == s.pcs[w := Ready(a, row.dispatches, |s.machines|)]
       else
         && t.pcs == s.pcs[w := Idle]
         && (SnapshotOf(s, row) == Some(Broken) || (row.snapshot == None && !f.isBusy && !f.stops) ==>
               t.rows == s.rows[a := row.(status := Failed)] && t.snapshots == s.snapshots)
         && (SnapshotOf(s, row) == Some(Pending) || (row.snapshot == None && f.isBusy) ==>
               t.rows == s.rows && t.snapshots == s.snapshots)
         && (row.snapshot == None && !f.isBusy && f.stops ==>
               && t.rows == s.rows[a := row.(snapshot := Some(|s.snapshots|))]
               && t.snapshots == s.snapshots + [Pending])
  }

  lemma CreateStepLeaves(s: State, w: WorkerId, a: ActionId, f: Facts)
    requires MayTake(s, w, a) && s.rows[a].verb == Create && !s.rows[a].withSnapshot
    ensures WorkerEnabled(DoTake(s, w, a), w, NextStep(s, s.rows[a], f))
    ensures CreateLeaves(s, w, a, f, WorkerStep(DoTake(s, w, a), w, NextStep(s, s.rows[a], f)))
  {
  }

  lemma CommandStepLeaves(s: State, w: WorkerId, a: ActionId, f: Facts)
    requires MayTake(s, w, a) && s.rows[a].verb != Create
    requires s.rows[a].withSnapshot ==> s.rows[a].verb == Terminate
    ensures WorkerEnabled(DoTake(s, w, a), w, NextStep(s, s.rows[a], f))
    ensures CommandLeaves(s, w, a, f, WorkerStep(DoTake(s, w, a), w, NextStep(s, s.rows[a], f)))
  {
    if s.rows[a].status == Queued && f.isOwned && f.isAllowed {
      if s.rows[a].withSnapshot && SnapshotOf(s, s.rows[a]) != Some(Available) {
        SnapshotStepLeaves(s, w, a, f);
      } else {
        DispatchLeaves(s, w, a, f);
      }
    }
  }

  lemma DispatchLeaves(s: State, w: WorkerId, a: ActionId, f: Facts)
    requires MayTake(s, w, a) && s.rows[a].verb != Create && s.rows[a].status == Queued && f.isOwned && f.isAllowed
    requires s.rows[a].withSnapshot ==> s.rows[a].verb == Terminate && SnapshotOf(s, s.rows[a]) == Some(Available)
    ensures NextStep(s, s.rows[a], f) == Dispatch && WorkerEnabled(DoTake(s, w, a), w, Dispatch)
    ensures CommandLeaves(s, w, a, f, WorkerStep(DoTake(s, w, a), w, Dispatch))
  {
  }

  lemma SnapshotStepLeaves(s: State, w: WorkerId, a: ActionId, f: Facts)
    requires MayTake(s, w, a) && s.rows[a].verb == Terminate && s.rows[a].status == Queued && f.isOwned && f.isAllowed
    requires s.rows[a].withSnapshot && SnapshotOf(s, s.rows[a]) != Some(Available)
    ensures WorkerEnabled(DoTake(s, w, a), w, NextStep(s, s.rows[a], f))
    ensures CommandLeaves(s, w, a, f, WorkerStep(DoTake(s, w, a), w, NextStep(s, s.rows[a], f)))
  {
  }

  /** One row is written, its lock released, and the worker goes on at `pc`. */
  predicate Writes(s: State, w: WorkerId, a: ActionId, row: Row, pc: Pc, t: State)
  {
    && t == s.(rows := t.rows, locks := t.locks, pcs := t.pcs, settled := t.settled)
    && t.rows == s.rows[a := row] && t.pcs == s.pcs[w := pc] && a !in t.locks
  }

  /** What settling on an observed state leaves, with the goal of each verb spelled out as a server state. */
  predicate FinishLeaves(s: State, w: WorkerId, observed: ServerStatus, isOverdue: bool, t: State)
    requires w in s.pcs && s.pcs[w].Observing? && s.pcs[w].action in s.rows
  {
    var a := s.pcs[w].action;
    var row := s.rows[a];
    var goal := if row.verb == Stop then Stopped else if row.verb == Terminate then Terminated else Running;
    t.settled == s.settled
    && if row.status in {Succeeded, Failed, TimedOut} then Writes(s, w, a, row, Idle, t)
       else if observed == goal then Writes(s, w, a, row.(status := Succeeded), Idle, t)
       else if observed in {Faulty, Terminated} then Writes(s, w, a, row.(status := Failed), Idle, t)
       else if row.verb != Create && isOverdue then Writes(s, w, a, row.(status := TimedOut), Idle, t)
       else Writes(s, w, a, row.(status := InProgress), Idle, t)
  }

  lemma FinishedLeaves(s: State, w: WorkerId, observed: ServerStatus, isOverdue: bool)
    requires MayConclude(s, w, Observed(observed, isOverdue))
    ensures FinishLeaves(s, w, observed, isOverdue, DoConclude(s, w, Observed(observed, isOverdue)))
  {
  }

  /** What the region's answer to a call leaves: a creation accepted is bound and goes on to its local record, a command
      accepted goes on to be observed; a refusal settles the action, as done when a terminate finds the machine gone;
      after a lost reply the creation is searched for under its lock, and the command is observed. */
  predicate ReplyLeaves(s: State, w: WorkerId, reply: Reply, t: State)
    requires w in s.pcs && s.pcs[w].Waiting? && s.pcs[w].action in s.rows && s.pcs[w].call < |s.calls|
  {
    var Waiting(a, call, sentAt) := s.pcs[w];
    var row := s.rows[a];
    t.settled == s.settled
    && match reply
       case Accepted =>
         s.calls[call].fate.Landed?
         && if row.verb == Create then
              var vm := s.calls[call].fate.vm;
              Writes(s, w, a, row.(remote := Some(vm), status := Sent), Finalizing(a, vm), t)
            else Writes(s, w, a, row.(status := Sent), Observing(a, Sent), t)
       case Declined(isGone) =>
         Writes(s, w, a, row.(status := if isGone && row.verb == Terminate then Succeeded else Failed), Idle, t)
       case NoAnswer =>
         if row.verb == Create then
           && t == s.(locks := t.locks, pcs := t.pcs) && a in t.locks && t.locks[a] == w
           && t.pcs == s.pcs[w := Searching(a, Search(|s.machines|, sentAt, 0, false))]
         else Writes(s, w, a, row.(status := Uncertain), Observing(a, Uncertain), t)
  }

  lemma AnswerLeaves(s: State, w: WorkerId, isGone: bool)
    requires MayConclude(s, w, Answer(isGone))
    ensures ReplyLeaves(s, w, Declined(isGone), DoConclude(s, w, Answer(isGone)))
  {
  }

  /** What a search leaves: the machine it found bound, the creation settled as not accepted, or left open. */
  predicate SearchLeaves(s: State, w: WorkerId, result: SearchResult, t: State)
    requires Searches(s, w)
  {
    var Searching(a, search) := s.pcs[w];
    var row := s.rows[a];
    match result
    case Found(vm) =>
      Writes(s, w, a, row.(remote := Some(vm), status := Sent), Finalizing(a, vm), t) && t.settled == s.settled
    case NothingFound => Writes(s, w, a, row.(status := Failed), Idle, t) && t.settled == s.settled[a := search]
    case Unreachable => Writes(s, w, a, row.(status := Uncertain), Idle, t) && t.settled == s.settled
  }

  lemma SearchFailedLeaves(s: State, w: WorkerId)
    requires MayConclude(s, w, SearchFailed)
    ensures SearchLeaves(s, w, Unreachable, DoConclude(s, w, SearchFailed))
  {
  }

  lemma FindNothingLeaves(s: State, w: WorkerId, end: Option<VmId>)
    requires MayFindNothing(s, w, end) && MayWrite(s, w, s.pcs[w].action)
    ensures SearchLeaves(s, w, NothingFound, DoFindNothing(s, w, end))
  {
  }

  /** What local finalization leaves: the server record made once, or the remote identity kept for the next job. */
  predicate FinalizeLeaves(s: State, w: WorkerId, isOk: bool, t: State)
    requires w in s.pcs && s.pcs[w].Finalizing? && s.pcs[w].action in s.rows
  {
    var Finalizing(a, vm) := s.pcs[w];
    if isOk then
      && t == s.(locks := t.locks, pcs := t.pcs, servers := t.servers) && a !in t.locks
      && t.pcs == s.pcs[w := Observing(a, Sent)]
      && t.servers == (if a in s.servers then s.servers else s.servers[a := vm])
    else Writes(s, w, a, s.rows[a].(status := Sent), Idle, t) && t.settled == s.settled
  }

  lemma LinkLeaves(s: State, w: WorkerId)
    requires MayLink(s, w)
    ensures FinalizeLeaves(s, w, true, DoLink(s, w))
    ensures MayConclude(s, w, LinkFailed) && FinalizeLeaves(s, w, false, DoConclude(s, w, LinkFailed))
  {
  }

  /** A page settles a search: by a match on it that is not too old, or because it shows none before it ends, the last,
      or at a machine that is too old. */
  ghost predicate IsSettledByPage(s: State, w: WorkerId, oldest: int, t: State)
    requires Searches(s, w)
  {
    || (exists vm: VmId :: oldest <= vm && MayFind(s, w, vm) && SearchLeaves(s, w, Found(vm), t))
    || (SearchLeaves(s, w, NothingFound, t)
        && (MayFindNothing(s, w, None) || exists x: VmId :: x < oldest && MayFindNothing(s, w, Some(x))))
  }

  /** A machine the creation may adopt and that is not too old: it lives, and tenant, image and marker are the
      action's. */
  predicate IsRecentMatch(s: State, a: ActionId, oldest: int, vm: VmId)
    requires a in s.rows
  {
    && oldest <= vm < |s.machines| && s.machines[vm].isAlive && s.machines[vm].marker == a
    && s.machines[vm].tenant == s.rows[a].tenant && s.machines[vm].image == s.rows[a].image
  }

  /** No such machine stands before a place in the list. */
  ghost predicate NoneBefore(s: State, a: ActionId, oldest: int, offset: nat)
    requires a in s.rows
  {
    forall vm :: IsRecentMatch(s, a, oldest, vm) ==> offset <= Position(s.machines, s.rows[a].tenant, vm)
  }

  /** How a recovered creation ends: bound to a recent match if there is one, and Failed and free if there is none. */
  ghost predicate IsRecovered(s: State, w: WorkerId, a: ActionId, oldest: int, t: State)
    requires a in s.rows
  {
    var row := s.rows[a];
    if exists vm :: IsRecentMatch(s, a, oldest, vm) then
      exists vm :: IsRecentMatch(s, a, oldest, vm)
                   && Writes(s, w, a, row.(remote := Some(vm), status := Sent), Finalizing(a, vm), t)
    else Writes(s, w, a, row.(status := Failed), Idle, t)
  }

  /** After a page without a match, none stands before the next one. */
  lemma NoneBeforeNext(s: State, w: WorkerId, oldest: int)
    requires MayTurnPage(s, w) && NoneBefore(s, s.pcs[w].action, oldest, s.pcs[w].search.offset)
    ensures NoneBefore(s, s.pcs[w].action, oldest, s.pcs[w].search.offset + PAGE)
  {
    var Searching(a, search) := s.pcs[w];
    forall vm | IsRecentMatch(s, a, oldest, vm)
      ensures search.offset + PAGE <= Position(s.machines, s.rows[a].tenant, vm)
    {
      assert IsMatch(s, a, vm);
      assert !IsOnPage(s.machines, s.rows[a].tenant, vm, search.offset);
    }
  }

  /** A page that shows none and ends the list, or stops at a machine too old, leaves none behind it. */
  lemma NoneAtEnd(s: State, w: WorkerId, oldest: int, end: Option<VmId>)
    requires MayFindNothing(s, w, end) && (end.Some? ==> end.value < oldest)
    requires NoneBefore(s, s.pcs[w].action, oldest, s.pcs[w].search.offset)
    ensures forall vm :: !IsRecentMatch(s, s.pcs[w].action, oldest, vm)
  {
    var Searching(a, search) := s.pcs[w];
    var tenant := s.rows[a].tenant;
    forall vm ensures !IsRecentMatch(s, a, oldest, vm) {
      if IsRecentMatch(s, a, oldest, vm) {
        assert IsMatch(s, a, vm);
        match end
        case None => NewerStandsBefore(s.machines, tenant, vm, 0);
        case Some(x) => NewerStandsBefore(s.machines, tenant, vm, x);
        assert IsOnPage(s.machines, tenant, vm, search.offset);
      }
    }
  }

  /** The search that began in `s` is at `offset` in `now`, nothing else has changed, and no match stands before it. */
  ghost predicate IsAt(s: State, w: WorkerId, oldest: int, offset: nat, now: State)
  {
    && Searches(s, w) && Searches(now, w)
    && now == s.(pcs := s.pcs[w := Searching(s.pcs[w].action, s.pcs[w].search.(offset := offset))])
    && NoneBefore(now, s.pcs[w].action, oldest, offset)
  }

  lemma BeginsAt(s: State, w: WorkerId, oldest: int)
    requires Searches(s, w) && s.pcs[w].search.offset == 0
    ensures IsAt(s, w, oldest, 0, s)
  {
    assert s.pcs == s.pcs[w := Searching(s.pcs[w].action, s.pcs[w].search.(offset := 0))];
  }

  lemma TurnsTo(s: State, w: WorkerId, oldest: int, offset: nat, now: State)
    requires IsAt(s, w, oldest, offset, now) && MayTurnPage(now, w)
    ensures IsAt(s, w, oldest, offset + PAGE, DoTurnPage(now, w))
    ensures Listed(s.machines, s.rows[s.pcs[w].action].tenant, 0) >= offset + PAGE
  {
    NoneBeforeNext(now, w, oldest);
  }

  lemma PageRecovers(s: State, w: WorkerId, oldest: int, offset: nat, now: State, t: State)
    requires IsAt(s, w, oldest, offset, now) && IsSettledByPage(now, w, oldest, t)
    ensures IsRecovered(s, w, s.pcs[w].action, oldest, t)
  {
    var a := s.pcs[w].action;
    if vm: VmId :| oldest <= vm && MayFind(now, w, vm) && SearchLeaves(now, w, Found(vm), t) {
      assert IsRecentMatch(s, a, oldest, vm);
      assert s.pcs[w := Finalizing(a, vm)] == now.pcs[w := Finalizing(a, vm)];
    } else {
      if MayFindNothing(now, w, None) {
        NoneAtEnd(now, w, oldest, None);
      } else {
        var x: VmId :| x < oldest && MayFindNothing(now, w, Some(x));
        NoneAtEnd(now, w, oldest, Some(x));
      }
      assert forall vm :: IsRecentMatch(s, a, oldest, vm) ==> IsRecentMatch(now, a, oldest, vm);
      assert s.pcs[w := Idle] == now.pcs[w := Idle];
    }
  }

  /** What is written after the lock is written from before it. */
  lemma WritesFrom(s: State, w: WorkerId, a: ActionId, row: Row, pc: Pc, locked: State, t: State)
    requires w in locked.pcs && locked == s.(locks := locked.locks, pcs := s.pcs[w := locked.pcs[w]])
    requires Writes(locked, w, a, row, pc, t)
    ensures Writes(s, w, a, row, pc, t)
  {
    assert s.pcs[w := pc] == locked.pcs[w := pc];
  }

  lemma SearchBegins(s: State, w: WorkerId, a: ActionId, f: Facts, locked: State)
    requires a in s.rows && s.rows[a].remote == None && s.rows[a].status in {Dispatching, Sent, InProgress, Uncertain}
    requires CreateLeaves(s, w, a, f, locked)
    ensures Searches(locked, w) && locked.pcs[w].action == a
    ensures locked.pcs[w].search == Search(|s.machines|, s.rows[a].floor, 0, false)
    ensures locked == s.(locks := locked.locks, pcs := s.pcs[w := locked.pcs[w]])
  {
  }

  lemma LockedRecovers(s: State, w: WorkerId, a: ActionId, oldest: int, locked: State, t: State)
    requires a in s.rows && w in locked.pcs
    requires locked == s.(locks := locked.locks, pcs := s.pcs[w := locked.pcs[w]])
    requires IsRecovered(locked, w, a, oldest, t)
    ensures IsRecovered(s, w, a, oldest, t)
  {
    assert forall vm :: IsRecentMatch(s, a, oldest, vm) <==> IsRecentMatch(locked, a, oldest, vm);
    var row := s.rows[a];
    if vm :| IsRecentMatch(locked, a, oldest, vm)
             && Writes(locked, w, a, row.(remote := Some(vm), status := Sent), Finalizing(a, vm), t) {
      WritesFrom(s, w, a, row.(remote := Some(vm), status := Sent), Finalizing(a, vm), locked, t);
    } else {
      WritesFrom(s, w, a, row.(status := Failed), Idle, locked, t);
    }
  }

  // ---------------------------------------------------------------- what others write on a row

  /** A retry makes the creation Queued again as it was submitted, with no dispatch on record, so that a worker may send
      it once more unless a machine is bound to it. */
  lemma RetryLeaves(s: State, a: ActionId)
    requires MayRetry(s, a) && !s.rows[a].withSnapshot
    ensures var row, t := s.rows[a], OutsideStep(s, Retry(a));
            && t == s.(rows := s.rows[a := row.(status := Queued, floor := row.created, retries := row.retries + 1)])
            && (MayDispatch(t, t.rows[a]) <==> row.remote == None)
  {
  }

  /** A report settles an action that nobody holds, is not settled, and has reached the goal of its verb, a creation
      only once its server is on record: as Succeeded, whatever a job of it remembers. */
  lemma ConfirmLeaves(s: State, a: ActionId, observed: ServerStatus)
    ensures OutsideEnabled(s, Confirm(a, observed)) <==>
            && a in s.rows && a !in s.locks && s.rows[a].status in {Queued, Dispatching, Sent, InProgress, Uncertain}
            && observed == (if s.rows[a].verb == Stop then Stopped
                            else if s.rows[a].verb == Terminate then Terminated else Running)
            && (s.rows[a].verb == Create ==> a in s.servers)
    ensures OutsideEnabled(s, Confirm(a, observed)) ==>
              OutsideStep(s, Confirm(a, observed)) == s.(rows := s.rows[a := s.rows[a].(status := Succeeded)])
  {
  }

  class Central {
    var rows: map<ActionId, Row>
    var staged: map<WorkerId, Row>        // the row as the open transaction of a worker has it
    var locks: map<ActionId, WorkerId>
    var pcs: map<WorkerId, Pc>
    var calls: seq<Call>
    var machines: seq<Machine>
    var snapshots: seq<SnapshotStatus>
    var servers: map<ActionId, VmId>
    var settled: map<ActionId, Search>

    function Abs(): State
      reads this
    {
      State(rows, locks, pcs, calls, machines, snapshots, servers, settled)
    }

    // ---------------------------------------------------------------- transactions

    method ReadForUpdate(w: WorkerId, a: ActionId) returns (row: Row)
      requires MayTake(Abs(), w, a)
      modifies this`locks, this`pcs, this`staged
      ensures Abs() == DoTake(old(Abs()), w, a)
      ensures row == rows[a] && staged == old(staged)[w := row]
    {
      locks := locks[a := w];
      row := rows[a];
      pcs := pcs[w := Holding(a, row)];
      staged := staged[w := row];
    }

    method DbSet(w: WorkerId, row: Row)
      modifies this`staged
      ensures staged == old(staged)[w := row] && Abs() == old(Abs())
    {
      staged := staged[w := row];
    }

    method CommitTransaction(w: WorkerId, a: ActionId, pc: Pc)
      requires w in staged
      modifies this`rows, this`locks, this`pcs, this`staged
      ensures Abs() == Commit(old(Abs()), w, a, old(staged[w]), pc)
      ensures staged == old(staged) - {w}
    {
      rows := rows[a := staged[w]];
      locks := map b | b in locks && locks[b] != w :: locks[b];
      pcs := pcs[w := pc];
      staged := staged - {w};
    }

    method RollbackTransaction(w: WorkerId, pc: Pc)
      modifies this`locks, this`pcs, this`staged
      ensures Abs() == Rollback(old(Abs()), w, pc)
      ensures staged == old(staged) - {w}
    {
      locks := map b | b in locks && locks[b] != w :: locks[b];
      pcs := pcs[w := pc];
      staged := staged - {w};
    }

    // ---------------------------------------------------------------- the stretches of a job

    /** Lock and read the action, then refuse it, send it, or go back to what an earlier worker left. */
    method ProcessLocked(w: WorkerId, a: ActionId, f: Facts)
      requires Inv(Abs()) && MayTake(Abs(), w, a)
      modifies this
      ensures WorkerEnabled(DoTake(old(Abs()), w, a), w, NextStep(old(Abs()), old(rows[a]), f))
      ensures Abs() == WorkerStep(DoTake(old(Abs()), w, a), w, NextStep(old(Abs()), old(rows[a]), f))
      ensures Inv(Abs())
      ensures if old(rows[a]).verb == Create then CreateLeaves(old(Abs()), w, a, f, Abs())
              else CommandLeaves(old(Abs()), w, a, f, Abs())
    {
      ghost var before := Abs();
      assert SnapshotFirst(before, rows[a]);
      LockAndDecide(w, a, f);
      if before.rows[a].verb == Create {
        CreateStepLeaves(before, w, a, f);
      } else {
        CommandStepLeaves(before, w, a, f);
      }
      TakenStepKeeps(before, w, a, NextStep(before, before.rows[a], f));
    }

    method LockAndDecide(w: WorkerId, a: ActionId, f: Facts)
      requires MayTake(Abs(), w, a) && (rows[a].withSnapshot ==> rows[a].verb == Terminate)
      modifies this
      ensures WorkerEnabled(DoTake(old(Abs()), w, a), w, NextStep(old(Abs()), old(rows[a]), f))
      ensures Abs() == WorkerStep(DoTake(old(Abs()), w, a), w, NextStep(old(Abs()), old(rows[a]), f))
    {
      SameNextStep(Abs(), w, a, f);
      var row := ReadForUpdate(w, a);
      if row.status.IsTerminal() {
        RollbackTransaction(w, Idle);
      } else if row.verb == Create {
        ProcessCreate(w, a, row, f);
      } else {
        ProcessCommand(w, a, row, f);
      }
    }

    /** The dispatch marker is committed: the row is Dispatching since now, and the worker may make the one call. */
    predicate IsDispatched(w: WorkerId, a: ActionId, was: map<ActionId, Row>, pcsWas: map<WorkerId, Pc>)
      requires a in was
      reads this
    {
      && rows == was[a := was[a].(status := Dispatching, floor := |machines|, dispatches := was[a].dispatches + 1)]
      && pcs == pcsWas[w := Ready(a, was[a].dispatches, |machines|)]
    }

    method ProcessCreate(w: WorkerId, a: ActionId, row: Row, f: Facts)
      requires IsHeld(w, a, row) && row.verb == Create && !row.withSnapshot && !row.status.IsTerminal()
      modifies this
      ensures WorkerEnabled(old(Abs()), w, NextStep(old(Abs()), row, f))
      ensures Abs() == WorkerStep(old(Abs()), w, NextStep(old(Abs()), row, f))
      ensures row.remote.Some? ==> rows == old(rows) && pcs == old(pcs)[w := Finalizing(a, row.remote.value)]
      ensures row.remote == None && row.status != Queued ==>
                && rows == old(rows) && locks == old(locks)
                && pcs == old(pcs)[w := Searching(a, Search(|machines|, row.floor, 0, false))]
      ensures row.remote == None && row.status == Queued && !f.isAllowed ==>
                rows == old(rows)[a := row.(status := Failed)] && pcs == old(pcs)[w := Idle]
      ensures row.remote == None && row.status == Queued && f.isAllowed ==>
                IsDispatched(w, a, old(rows), old(pcs))
    {
      if row.remote.Some? {
        RollbackTransaction(w, Finalizing(a, row.remote.value));
      } else if row.status != Queued {
        pcs := pcs[w := Searching(a, Search(|machines|, row.floor, 0, false))];
      } else if !f.isAllowed {
        DbSet(w, row.(status := Failed));
        CommitTransaction(w, a, Idle);
      } else {
        // The marker is committed before the region can act on the call.
        DbSet(w, Dispatched(row, |machines|));
        CommitTransaction(w, a, Ready(a, row.dispatches, |machines|));
      }
    }

    /** The worker holds the lock of the row it read. */
    predicate IsHeld(w: WorkerId, a: ActionId, row: Row)
      reads this
    {
      && w in pcs && pcs[w] == Holding(a, row) && w in staged && staged[w] == row && a in rows && rows[a] == row
      && a in locks && locks[a] == w
    }

    method ProcessCommand(w: WorkerId, a: ActionId, row: Row, f: Facts)
      requires IsHeld(w, a, row) && row.verb != Create && !row.status.IsTerminal()
      requires row.withSnapshot ==> row.verb == Terminate
      modifies this
      ensures WorkerEnabled(old(Abs()), w, NextStep(old(Abs()), row, f))
      ensures Abs() == WorkerStep(old(Abs()), w, NextStep(old(Abs()), row, f))
      ensures !f.isOwned || (row.status == Queued && !f.isAllowed) ==>
                rows == old(rows)[a := row.(status := Failed)] && pcs == old(pcs)[w := Idle]
      ensures f.isOwned && row.status != Queued ==>
                rows == old(rows) && snapshots == old(snapshots) && pcs == old(pcs)[w := Observing(a, row.status)]
      ensures row.status == Queued && f.isOwned && f.isAllowed ==>
                var isNew := row.withSnapshot && row.snapshot == None;
                && (!row.withSnapshot || SnapshotOf(old(Abs()), row) == Some(Available) ==>
                      snapshots == old(snapshots) && IsDispatched(w, a, old(rows), old(pcs)))
                && ((row.withSnapshot && SnapshotOf(old(Abs()), row) == Some(Broken))
                    || (isNew && !f.isBusy && !f.stops) ==>
                      && rows == old(rows)[a := row.(status := Failed)] && snapshots == old(snapshots)
                      && pcs == old(pcs)[w := Idle])
                && ((row.withSnapshot && SnapshotOf(old(Abs()), row) == Some(Pending)) || (isNew && f.isBusy) ==>
                      rows == old(rows) && snapshots == old(snapshots) && pcs == old(pcs)[w := Idle])
                && (isNew && !f.isBusy && f.stops ==>
                      && rows == old(rows)[a := row.(snapshot := Some(|snapshots| - 1))]
                      && snapshots == old(snapshots) + [Pending] && pcs == old(pcs)[w := Idle])
    {
      if !f.isOwned {
        DbSet(w, row.(status := Failed));
        CommitTransaction(w, a, Idle);
        return;
      }
      if row.status != Queued {
        RollbackTransaction(w, Observing(a, row.status));
        return;
      }
      if !f.isAllowed {
        DbSet(w, row.(status := Failed));
        CommitTransaction(w, a, Idle);
        return;
      }
      if row.withSnapshot {
        var isReady := IsFinalSnapshotReady(w, a, row, f);
        if !isReady {
          return;
        }
      }
      DbSet(w, Dispatched(row, |machines|));
      CommitTransaction(w, a, Ready(a, row.dispatches, |machines|));
    }

    /** True once the final snapshot is Available. Until then the action stays Queued, or fails with the snapshot or
        with the stop that prepares it. */
    method IsFinalSnapshotReady(w: WorkerId, a: ActionId, row: Row, f: Facts) returns (isReady: bool)
      requires IsHeld(w, a, row) && row.verb != Create && row.status == Queued && row.withSnapshot
      modifies this
      ensures isReady <==> SnapshotOf(old(Abs()), row) == Some(Available)
      ensures isReady ==> Abs() == old(Abs()) && staged == old(staged)
      ensures !isReady ==>
                && WorkerEnabled(old(Abs()), w, SnapshotStep(old(Abs()), row, f))
                && Abs() == WorkerStep(old(Abs()), w, SnapshotStep(old(Abs()), row, f))
    {
      if row.snapshot.Some? {
        var id := row.snapshot.value;
        if id < |snapshots| && snapshots[id] == Available {
          return true;
        }
        if id < |snapshots| && snapshots[id] == Broken {
          DbSet(w, row.(status := Failed));
          CommitTransaction(w, a, Idle);
        } else {
          RollbackTransaction(w, Idle);
        }
        return false;
      }
      isReady := false;
      if f.isBusy {
        RollbackTransaction(w, Idle);
      } else if !f.stops {
        DbSet(w, row.(status := Failed));
        CommitTransaction(w, a, Idle);
      } else {
        var id := |snapshots|;
        snapshots := snapshots + [Pending];
        DbSet(w, row.(snapshot := Some(id)));
        CommitTransaction(w, a, Idle);
      }
    }

    /** `transition` and the commit behind it. */
    method Transition(w: WorkerId, a: ActionId, status: Status, pc: Pc)
      requires a in rows
      modifies this`rows, this`locks, this`pcs, this`staged
      ensures Abs() == Commit(old(Abs()), w, a, old(rows[a]).(status := status), pc)
    {
      DbSet(w, rows[a].(status := status));
      CommitTransaction(w, a, pc);
    }

    /** Retain the remote identity before anything local can fail. */
    method KeepRemote(w: WorkerId, a: ActionId, vm: VmId)
      requires a in rows
      modifies this`rows, this`locks, this`pcs, this`staged
      ensures Abs() == Bind(old(Abs()), w, a, vm)
    {
      DbSet(w, rows[a].(remote := Some(vm), status := Sent));
      CommitTransaction(w, a, Finalizing(a, vm));
    }

    /** Record what the region answered to the call. */
    method RecordReply(w: WorkerId, reply: Reply)
      requires Inv(Abs()) && Awaits(Abs(), w)
      requires reply == Accepted ==> MayAccept(Abs(), w)
      requires reply.Declined? ==> pcs[w].call < |calls| && calls[pcs[w].call].fate == Refused
      modifies this
      ensures reply == Accepted ==> Abs() == DoAccept(old(Abs()), w)
      ensures reply.Declined? ==>
                && MayConclude(old(Abs()), w, Answer(reply.isGone))
                && Abs() == DoConclude(old(Abs()), w, Answer(reply.isGone))
      ensures reply == NoAnswer ==> Abs() == DoLoseReply(old(Abs()), w)
      ensures Inv(Abs())
      ensures ReplyLeaves(old(Abs()), w, reply, Abs())
    {
      match reply
      case Accepted => RecordAccepted(w);
      case Declined(isGone) => RecordDeclined(w, isGone);
      case NoAnswer => RecordNoAnswer(w);
    }

    method RecordAccepted(w: WorkerId)
      requires Inv(Abs()) && MayAccept(Abs(), w)
      modifies this
      ensures Abs() == DoAccept(old(Abs()), w) && Inv(Abs()) && ReplyLeaves(old(Abs()), w, Accepted, Abs())
    {
      AcceptKeeps(Abs(), w);
      var a := pcs[w].action;
      if rows[a].verb == Create {
        KeepRemote(w, a, calls[pcs[w].call].fate.vm);
      } else {
        Transition(w, a, Sent, Observing(a, Sent));
      }
    }

    method RecordDeclined(w: WorkerId, isGone: bool)
      requires Inv(Abs()) && MayConclude(Abs(), w, Answer(isGone))
      modifies this
      ensures Abs() == DoConclude(old(Abs()), w, Answer(isGone)) && Inv(Abs())
      ensures ReplyLeaves(old(Abs()), w, Declined(isGone), Abs())
    {
      ConcludeKeeps(Abs(), w, Answer(isGone));
      AnswerLeaves(Abs(), w, isGone);
      var a := pcs[w].action;
      Transition(w, a, if isGone && rows[a].verb == Terminate then Succeeded else Failed, Idle);
    }

    method RecordNoAnswer(w: WorkerId)
      requires Inv(Abs()) && Awaits(Abs(), w)
      modifies this
      ensures Abs() == DoLoseReply(old(Abs()), w) && Inv(Abs()) && ReplyLeaves(old(Abs()), w, NoAnswer, Abs())
    {
      LoseReplyKeeps(Abs(), w);
      var a := pcs[w].action;
      if rows[a].verb == Create {
        locks := locks[a := w];
        pcs := pcs[w := Searching(a, Search(|machines|, pcs[w].sentAt, 0, false))];
      } else {
        Transition(w, a, Uncertain, Observing(a, Uncertain));
      }
    }

    /** A full page without a match: the search asks for the next one. */
    method TurnPage(w: WorkerId)
      requires Inv(Abs()) && MayTurnPage(Abs(), w)
      modifies this`pcs
      ensures Abs() == DoTurnPage(old(Abs()), w) && Inv(Abs())
    {
      TurnPageKeeps(Abs(), w);
      var Searching(a, search) := pcs[w];
      pcs := pcs[w := Searching(a, search.(offset := search.offset + PAGE))];
    }

    /** Settle a creation the region never answered by what a search found. `end` is the machine the search stopped at,
        if it did not end on a short page. */
    method RecoverUnanswered(w: WorkerId, result: SearchResult, ghost end: Option<VmId>)
      requires Inv(Abs()) && Searches(Abs(), w)
      requires result.Found? ==> MayFind(Abs(), w, result.vm)
      requires result.NothingFound? ==> MayFindNothing(Abs(), w, end)
      modifies this
      ensures result.Found? ==> Abs() == Bind(old(Abs()), w, old(pcs[w].action), result.vm)
      ensures result.NothingFound? ==> Abs() == DoFindNothing(old(Abs()), w, end)
      ensures result == Unreachable ==>
                MayConclude(old(Abs()), w, SearchFailed) && Abs() == DoConclude(old(Abs()), w, SearchFailed)
      ensures Inv(Abs())
      ensures SearchLeaves(old(Abs()), w, result, Abs())
    {
      ghost var before := Abs();
      assert LockHolds(before, pcs[w], w);
      var Searching(a, search) := pcs[w];
      match result
      case Found(vm) =>
        FindKeeps(before, w, vm);
        KeepRemote(w, a, vm);
      case NothingFound =>
        FindNothingKeeps(before, w, end);
        FindNothingLeaves(before, w, end);
        SettleNotAccepted(w, end);
      case Unreachable =>
        ConcludeKeeps(before, w, SearchFailed);
        SearchFailedLeaves(before, w);
        Transition(w, a, Uncertain, Idle);
    }

    /** Read the next page of the tenant's list, and settle by it, or go on to the one after it. */
    method ReadNextPage(w: WorkerId, started: int) returns (isSettled: bool)
      requires Inv(Abs()) && Searches(Abs(), w) && started - CreatedSearch.CLOCK_SKEW_SECONDS <= pcs[w].search.floor
      modifies this
      ensures Inv(Abs())
      ensures !isSettled ==> MayTurnPage(old(Abs()), w) && Abs() == DoTurnPage(old(Abs()), w)
      ensures isSettled ==> IsSettledByPage(old(Abs()), w, started - CreatedSearch.CLOCK_SKEW_SECONDS, Abs())
    {
      ghost var before := Abs();
      var Searching(a, search) := pcs[w];
      var page := ActionList.PageOf(Abs(), rows[a].tenant, search.offset);
      var verdict := CreatedSearch.ReadPage(page, started, ActionList.OursIn(Abs(), a));
      ActionList.ScanIsProtocolStep(before, w, started);
      isSettled := true;
      match verdict
      case Shows(vm) => RecoverUnanswered(w, Found(vm), None);
      case Stops =>
        ghost var x: VmId :| x < started - CreatedSearch.CLOCK_SKEW_SECONDS && MayFindNothing(before, w, Some(x));
        RecoverUnanswered(w, NothingFound, Some(x));
      case Clears =>
        if |page| == PAGE {
          TurnPage(w);
          isSettled := false;
        } else {
          RecoverUnanswered(w, NothingFound, None);
        }
    }

    /** A search that nothing interrupts, in a region that answers, ends: each page is clear, full and turned, or
        settles the creation, and the list is finite. */
    method SearchList(w: WorkerId, started: int)
      requires Inv(Abs()) && Searches(Abs(), w) && pcs[w].search.offset == 0
      requires started - CreatedSearch.CLOCK_SKEW_SECONDS <= pcs[w].search.floor
      modifies this
      ensures Inv(Abs())
      ensures IsRecovered(old(Abs()), w, old(pcs[w].action), started - CreatedSearch.CLOCK_SKEW_SECONDS, Abs())
    {
      ghost var before, oldest := Abs(), started - CreatedSearch.CLOCK_SKEW_SECONDS;
      ghost var last, offset: nat := before, 0;
      BeginsAt(before, w, oldest);
      var isSettled := false;
      while !isSettled
        invariant Inv(Abs()) && IsAt(before, w, oldest, offset, last)
        invariant if isSettled then IsSettledByPage(last, w, oldest, Abs()) else Abs() == last
        decreases !isSettled, Listed(before.machines, before.rows[before.pcs[w].action].tenant, 0) - offset
      {
        isSettled := ReadNextPage(w, started);
        if !isSettled {
          TurnsTo(before, w, oldest, offset, last);
          last, offset := Abs(), offset + PAGE;
        }
      }
      PageRecovers(before, w, oldest, offset, last, Abs());
    }

    /** An unanswered creation is settled by any one job that nothing interrupts, in a region that answers: it ends
        bound to a match that is not too old, if there is one, and else Failed, with its row free. */
    method RecoverCreation(w: WorkerId, a: ActionId, f: Facts, started: int)
      requires Inv(Abs()) && MayTake(Abs(), w, a) && rows[a].verb == Create && rows[a].remote == None
      requires rows[a].status in {Dispatching, Sent, InProgress, Uncertain}
      requires started - CreatedSearch.CLOCK_SKEW_SECONDS <= rows[a].floor
      modifies this
      ensures Inv(Abs())
      ensures IsRecovered(old(Abs()), w, a, started - CreatedSearch.CLOCK_SKEW_SECONDS, Abs())
    {
      ghost var before := Abs();
      ProcessLocked(w, a, f);
      ghost var locked := Abs();
      SearchBegins(before, w, a, f, locked);
      SearchList(w, started);
      LockedRecovers(before, w, a, started - CreatedSearch.CLOCK_SKEW_SECONDS, locked, Abs());
    }

    method SettleNotAccepted(w: WorkerId, ghost end: Option<VmId>)
      requires MayFindNothing(Abs(), w, end)
      modifies this
      ensures Abs() == DoFindNothing(old(Abs()), w, end)
    {
      var Searching(a, search) := pcs[w];
      Transition(w, a, Failed, Idle);
      settled := settled[a := search];
    }

    /** Make the server record once, or keep the remote identity when local finalization fails. */
    method FinalizeLocally(w: WorkerId, isOk: bool)
      requires Inv(Abs()) && MayLink(Abs(), w)
      modifies this
      ensures isOk ==> Abs() == DoLink(old(Abs()), w)
      ensures !isOk ==> MayConclude(old(Abs()), w, LinkFailed) && Abs() == DoConclude(old(Abs()), w, LinkFailed)
      ensures Inv(Abs())
      ensures FinalizeLeaves(old(Abs()), w, isOk, Abs())
    {
      ghost var before := Abs();
      LinkLeaves(before, w);
      var a, vm := pcs[w].action, pcs[w].vm;
      if isOk {
        LinkKeeps(before, w);
        if a !in servers {
          servers := servers[a := vm];
        }
        RollbackTransaction(w, Observing(a, Sent));
      } else {
        ConcludeKeeps(before, w, LinkFailed);
        Transition(w, a, Sent, Idle);
      }
    }

    /** Settle the action against the state the region reported, from the row read again. */
    method Finish(w: WorkerId, observed: ServerStatus, isOverdue: bool)
      requires Inv(Abs()) && MayConclude(Abs(), w, Observed(observed, isOverdue))
      modifies this
      ensures Abs() == DoConclude(old(Abs()), w, Observed(observed, isOverdue)) && Inv(Abs())
      ensures FinishLeaves(old(Abs()), w, observed, isOverdue, Abs())
    {
      ghost var before := Abs();
      ConcludeKeeps(before, w, Observed(observed, isOverdue));
      var a := pcs[w].action;
      var row := rows[a];
      var status := row.status;
      if !row.status.IsTerminal() {
        if observed == Goal(row.verb) {
          status := Succeeded;
        } else if observed == Faulty || observed == Terminated {
          status := Failed;
        } else if row.verb != Create && isOverdue {
          status := TimedOut;
        } else {
          status := InProgress;
        }
      }
      assert Verdict(before, pcs[w], row, Observed(observed, isOverdue)) == Some(status);
      Transition(w, a, status, Idle);
      FinishedLeaves(before, w, observed, isOverdue);
    }

    /** The last-resort handler first rolls back, which frees the row. */
    method RaiseException(w: WorkerId)
      requires Inv(Abs()) && MayRaise(Abs(), w)
      modifies this`locks, this`pcs, this`staged
      ensures Abs() == DoRaise(old(Abs()), w) && Inv(Abs())
      ensures rows == old(rows) && pcs == old(pcs)[w := Handling(pcs[w].action)]
      ensures pcs[w].action == old(pcs[w]).action
      ensures forall a :: a in locks ==> locks[a] != w
    {
      RaiseKeeps(Abs(), w);
      RollbackTransaction(w, Handling(ActionOf(pcs[w]).value));
    }

    /** Then it reads the row again under its lock: a crash of the job leaves a record and repeats no mutation. */
    method HandleException(w: WorkerId)
      requires Inv(Abs()) && MayConclude(Abs(), w, Raised)
      modifies this
      ensures Abs() == DoConclude(old(Abs()), w, Raised) && Inv(Abs())
      ensures var a := old(pcs[w]).action;
              var row := old(rows[a]);
              && pcs == old(pcs)[w := Idle]
              && rows == old(rows)[a := row.(status := if row.status == Queued then Failed
                                                       else if row.remote.Some? then Sent else Uncertain)]
    {
      ConcludeKeeps(Abs(), w, Raised);
      var a := ActionOf(pcs[w]).value;
      var row := rows[a];
      if row.status == Queued {
        Transition(w, a, Failed, Idle);
      } else if row.remote.Some? {
        Transition(w, a, Sent, Idle);
      } else {
        Transition(w, a, Uncertain, Idle);
      }
    }
  }
}
