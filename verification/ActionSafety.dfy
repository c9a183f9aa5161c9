/** What every run of the action protocol keeps, one step at a time. */
module ActionSafety {
  import opened Base
  import opened ActionProtocol

  // ---------------------------------------------------------------- the invariant

  /** A worker that holds a row holds its lock, and what it read is what is committed. */
  ghost predicate LocksHold(s: State)
  {
    forall w :: w in s.pcs ==> LockHolds(s, s.pcs[w], w)
  }

  /** Without a retry nobody remembers a dispatch later than the row's own. */
  predicate IsBehind(time: nat, row: Row)
  {
    row.retries == 0 ==> time <= row.floor
  }

  predicate LockHolds(s: State, pc: Pc, w: WorkerId)
  {
    match pc
    case Idle => true
    case Starting(a) => a in s.rows
    case Handling(a) => a in s.rows
    case Holding(a, seen) => a in s.rows && a in s.locks && s.locks[a] == w && s.rows[a] == seen
    case Searching(a, search) =>
      a in s.rows && s.rows[a].verb == Create && a in s.locks && s.locks[a] == w && search.since <= |s.machines|
      && IsBehind(search.floor, s.rows[a])
    case Ready(a, _, sentAt) => a in s.rows && IsBehind(sentAt, s.rows[a])
    case Waiting(a, i, sentAt) =>
      a in s.rows && i < |s.calls| && s.calls[i].action == a && IsBehind(sentAt, s.rows[a])
    case Finalizing(a, _) => a in s.rows && s.rows[a].verb == Create
    case Observing(a, memory) => a in s.rows && memory != Queued
  }

  /** One dispatch at most for the submission and one for each retry; only a creation is retried. */
  ghost predicate DispatchesBounded(s: State)
  {
    forall a :: a in s.rows ==> DispatchBounded(s.rows[a])
  }

  predicate DispatchBounded(row: Row)
  {
    && row.dispatches + (if row.status == Queued then 1 else 0) <= 1 + row.retries
    && (row.verb != Create ==> row.retries == 0)
  }

  /** Each dispatch is a ticket, used by one worker that has not called yet or by one call. */
  ghost predicate TicketsUsedOnce(s: State)
  {
    && (forall i :: 0 <= i < |s.calls| ==> IsTicket(s, s.calls[i].action, s.calls[i].ticket))
    && (forall i, j :: 0 <= i < j < |s.calls| ==>
          s.calls[i].action != s.calls[j].action || s.calls[i].ticket != s.calls[j].ticket)
    && (forall w :: w in s.pcs && s.pcs[w].Ready? ==> IsTicket(s, s.pcs[w].action, s.pcs[w].ticket))
    && (forall w, v :: w in s.pcs && v in s.pcs && w != v && s.pcs[w].Ready? && s.pcs[v].Ready? ==>
          s.pcs[w].action != s.pcs[v].action || s.pcs[w].ticket != s.pcs[v].ticket)
    && (forall w, i :: w in s.pcs && s.pcs[w].Ready? && 0 <= i < |s.calls| ==>
          s.calls[i].action != s.pcs[w].action || s.calls[i].ticket != s.pcs[w].ticket)
  }

  predicate IsTicket(s: State, a: ActionId, ticket: nat)
  {
    a in s.rows && ticket < s.rows[a].dispatches
  }

  /** Every machine that carries an action's marker was built by one call of that action. */
  ghost predicate MachinesAccounted(s: State)
  {
    && (forall m :: 0 <= m < |s.machines| ==> IsAccounted(s, s.machines[m], m))
    && (forall i :: 0 <= i < |s.calls| ==> IsLandingKnown(s, s.calls[i]))
  }

  predicate IsAccounted(s: State, machine: Machine, m: nat)
  {
    match machine.origin
    case None => machine.marker !in s.rows
    case Some(i) =>
      && machine.marker in s.rows && i < |s.calls| && s.calls[i].action == machine.marker
      && s.calls[i].fate == Landed(m)
  }

  predicate IsLandingKnown(s: State, call: Call)
  {
    call.fate.Landed? && call.action in s.rows && s.rows[call.action].verb == Create ==>
      IsMarked(s, call.fate.vm, call.action)
  }

  predicate IsMarked(s: State, vm: VmId, a: ActionId)
  {
    vm < |s.machines| && s.machines[vm].marker == a
  }

  /** Every machine a creation is bound to, in a row, a server record or a worker, carries its marker. */
  ghost predicate BindingsMarked(s: State)
  {
    && (forall a :: a in s.rows && s.rows[a].verb == Create && s.rows[a].remote.Some? ==>
          IsMarked(s, s.rows[a].remote.value, a))
    && (forall a :: a in s.servers ==> a in s.rows && s.rows[a].verb == Create && IsMarked(s, s.servers[a], a))
    && (forall w :: w in s.pcs && s.pcs[w].Finalizing? ==> IsMarked(s, s.pcs[w].vm, s.pcs[w].action))
  }

  /** Every machine of an action is newer than its submission, and than its dispatch if there was one only. */
  ghost predicate FloorsHold(s: State)
  {
    forall a :: a in s.rows ==> FloorHolds(s, a, s.rows[a])
  }

  ghost predicate FloorHolds(s: State, a: ActionId, row: Row)
  {
    && row.floor <= |s.machines| && row.created <= |s.machines|
    && (forall m :: 0 <= m < |s.machines| && s.machines[m].marker == a ==> row.created <= m)
    && (row.dispatches <= 1 ==> forall m :: 0 <= m < |s.machines| && s.machines[m].marker == a ==> row.floor <= m)
  }

  /** Of the machines it started from, a search in a list that did not shrink has passed by no match. */
  ghost predicate SearchesHold(s: State)
  {
    forall w :: w in s.pcs ==> SearchHolds(s, s.pcs[w])
  }

  ghost predicate SearchHolds(s: State, pc: Pc)
  {
    pc.Searching? && pc.action in s.rows && !pc.search.hasShrunk ==>
      forall m :: pc.search.floor <= m < pc.search.since && IsMatch(s, pc.action, m) ==>
        pc.search.offset <= Position(s.machines, s.rows[pc.action].tenant, m)
  }

  /** An action settled by a search in a list that did not shrink has no match built between the dispatch that
      search looked behind and its own start. */
  ghost predicate SettledHolds(s: State)
  {
    forall a :: a in s.settled ==> SettledFor(s, a, s.settled[a])
  }

  ghost predicate SettledFor(s: State, a: ActionId, search: Search)
  {
    && a in s.rows && search.since <= |s.machines| && IsBehind(search.floor, s.rows[a])
    && (!search.hasShrunk ==> NoneMatch(s, a, search.floor, search.since))
  }

  /** A terminate with a final snapshot was dispatched only after that snapshot was Available. */
  ghost predicate SnapshotsFirst(s: State)
  {
    forall a :: a in s.rows ==> SnapshotFirst(s, s.rows[a])
  }

  predicate SnapshotFirst(s: State, row: Row)
  {
    && (row.withSnapshot ==> row.verb == Terminate)
    && (row.snapshot.Some? ==> row.snapshot.value < |s.snapshots|)
    && (row.withSnapshot && row.dispatches > 0 ==> IsSnapshot(s, row, Available))
  }

  ghost predicate Inv(s: State)
  {
    LocksHold(s) && DispatchesBounded(s) && TicketsUsedOnce(s) && MachinesAccounted(s) && BindingsMarked(s)
    && SettledHolds(s) && SnapshotsFirst(s) && FloorsHold(s) && SearchesHold(s)
  }

  // ---------------------------------------------------------------- a committed row

  /** What a commit may change in a row without care for the calls and machines around it. */
  predicate IsCarefulWrite(s: State, a: ActionId, row: Row)
    requires a in s.rows
  {
    var was := s.rows[a];
    && row.verb == was.verb && row.tenant == was.tenant && row.image == was.image
    && row.withSnapshot == was.withSnapshot && row.snapshot == was.snapshot
    && row.created == was.created && row.floor == was.floor
    && row.dispatches == was.dispatches && row.retries == was.retries
    && (row.status == Queued ==> was.status == Queued)
    && (row.remote == was.remote || (row.remote.Some? && IsMarked(s, row.remote.value, a)))
  }

  predicate IsQuietPc(s: State, pc: Pc, a: ActionId)
    requires a in s.rows
  {
    match pc
    case Idle => true
    case Handling(b) => b == a
    case Finalizing(b, vm) => b == a && s.rows[a].verb == Create && IsMarked(s, vm, a)
    case Observing(b, memory) => b == a && memory != Queued
    case _ => false
  }

  lemma CommitLocks(s: State, w: WorkerId, a: ActionId, row: Row, pc: Pc)
    requires LocksHold(s) && MayWrite(s, w, a) && IsCarefulWrite(s, a, row) && IsQuietPc(s, pc, a)
    ensures LocksHold(Commit(s, w, a, row, pc))
  {
  }

  lemma CommitTickets(s: State, w: WorkerId, a: ActionId, row: Row, pc: Pc)
    requires TicketsUsedOnce(s) && MayWrite(s, w, a) && IsCarefulWrite(s, a, row) && IsQuietPc(s, pc, a)
    ensures TicketsUsedOnce(Commit(s, w, a, row, pc))
  {
  }

  lemma CommitMachines(s: State, w: WorkerId, a: ActionId, row: Row, pc: Pc)
    requires MachinesAccounted(s) && BindingsMarked(s)
    requires MayWrite(s, w, a) && IsCarefulWrite(s, a, row) && IsQuietPc(s, pc, a)
    ensures MachinesAccounted(Commit(s, w, a, row, pc)) && BindingsMarked(Commit(s, w, a, row, pc))
  {
  }

  lemma CommitRows(s: State, w: WorkerId, a: ActionId, row: Row, pc: Pc)
    requires DispatchesBounded(s) && SettledHolds(s) && SnapshotsFirst(s)
    requires MayWrite(s, w, a) && IsCarefulWrite(s, a, row) && IsQuietPc(s, pc, a)
    ensures DispatchesBounded(Commit(s, w, a, row, pc))
    ensures SettledHolds(Commit(s, w, a, row, pc))
    ensures SnapshotsFirst(Commit(s, w, a, row, pc))
  {
    var t := Commit(s, w, a, row, pc);
    forall b | b in t.settled ensures SettledFor(t, b, t.settled[b]) {
      assert SettledFor(s, b, s.settled[b]);
      SettledMoves(s, t, b, t.settled[b]);
    }
  }

  /** A settlement stays true while machines only vanish or join, and its row keeps what it looks for. */
  lemma SettledMoves(s: State, t: State, a: ActionId, search: Search)
    requires SettledFor(s, a, search) && a in t.rows && |s.machines| <= |t.machines|
    requires forall m :: 0 <= m < |s.machines| ==> MachineGrows(s.machines[m], t.machines[m])
    requires RowGrows(s.rows[a], t.rows[a])
    ensures SettledFor(t, a, search)
  {
    forall m | search.floor <= m < search.since && !search.hasShrunk ensures !IsMatch(t, a, m) {
      assert !IsMatch(s, a, m);
    }
  }

  lemma CommitLists(s: State, w: WorkerId, a: ActionId, row: Row, pc: Pc)
    requires FloorsHold(s) && SearchesHold(s)
    requires MayWrite(s, w, a) && IsCarefulWrite(s, a, row) && IsQuietPc(s, pc, a)
    ensures FloorsHold(Commit(s, w, a, row, pc)) && SearchesHold(Commit(s, w, a, row, pc))
  {
    var t := Commit(s, w, a, row, pc);
    forall b | b in t.rows ensures FloorHolds(t, b, t.rows[b]) {
      assert FloorHolds(s, b, s.rows[b]);
    }
    forall v | v in t.pcs ensures SearchHolds(t, t.pcs[v]) {
    }
  }

  lemma CommitKeeps(s: State, w: WorkerId, a: ActionId, row: Row, pc: Pc)
    requires Inv(s) && MayWrite(s, w, a) && IsCarefulWrite(s, a, row) && IsQuietPc(s, pc, a)
    ensures Inv(Commit(s, w, a, row, pc))
  {
    CommitLocks(s, w, a, row, pc);
    CommitTickets(s, w, a, row, pc);
    CommitMachines(s, w, a, row, pc);
    CommitRows(s, w, a, row, pc);
    CommitLists(s, w, a, row, pc);
  }

  // ---------------------------------------------------------------- history only grows

  /** No step forgets a row, a call, a machine or an Available snapshot, or changes what identifies it. */
  ghost predicate Grows(s: State, t: State)
  {
    && (forall a :: a in s.rows ==> a in t.rows && RowGrows(s.rows[a], t.rows[a]))
    && |s.machines| <= |t.machines|
    && (forall m :: 0 <= m < |s.machines| ==> MachineGrows(s.machines[m], t.machines[m]))
    && |s.calls| <= |t.calls|
    && (forall i :: 0 <= i < |s.calls| ==> CallGrows(s.calls[i], t.calls[i]))
    && |s.snapshots| <= |t.snapshots|
    && (forall id :: 0 <= id < |s.snapshots| && s.snapshots[id] == Available ==> t.snapshots[id] == Available)
  }

  predicate RowGrows(r: Row, q: Row)
  {
    r.verb == q.verb && r.tenant == q.tenant && r.image == q.image && r.withSnapshot == q.withSnapshot
    && r.created == q.created && r.dispatches <= q.dispatches && r.retries <= q.retries
    && IsBehind(r.floor, q)
  }

  predicate MachineGrows(m: Machine, n: Machine)
  {
    n == m || n == m.(isAlive := false)
  }

  predicate CallGrows(c: Call, d: Call)
  {
    c.action == d.action && c.ticket == d.ticket && (c.fate != InFlight ==> d.fate == c.fate)
  }

  lemma FrameSettled(s: State, t: State)
    requires SettledHolds(s) && Grows(s, t) && t.settled == s.settled
    ensures SettledHolds(t)
  {
    forall a | a in t.settled ensures SettledFor(t, a, t.settled[a]) {
      assert SettledFor(s, a, s.settled[a]) && RowGrows(s.rows[a], t.rows[a]);
      SettledMoves(s, t, a, s.settled[a]);
    }
  }

  lemma FrameBindings(s: State, t: State)
    requires BindingsMarked(s) && Grows(s, t) && t.servers == s.servers
    requires forall a :: a in t.rows && t.rows[a].verb == Create && t.rows[a].remote.Some? ==>
               a in s.rows && s.rows[a].remote == t.rows[a].remote
    requires forall w :: w in t.pcs && t.pcs[w].Finalizing? ==>
               (w in s.pcs && s.pcs[w] == t.pcs[w]) || IsMarked(t, t.pcs[w].vm, t.pcs[w].action)
    ensures BindingsMarked(t)
  {
  }

  lemma FrameMachines(s: State, t: State)
    requires MachinesAccounted(s) && Grows(s, t) && t.rows.Keys == s.rows.Keys && |t.machines| == |s.machines|
    requires forall i :: 0 <= i < |t.calls| && t.calls[i].fate.Landed? ==> i < |s.calls| && s.calls[i] == t.calls[i]
    ensures MachinesAccounted(t)
  {
  }

  lemma FrameTickets(s: State, t: State)
    requires TicketsUsedOnce(s) && Grows(s, t) && |t.calls| == |s.calls|
    requires forall w :: w in t.pcs && t.pcs[w].Ready? ==> w in s.pcs && s.pcs[w] == t.pcs[w]
    ensures TicketsUsedOnce(t)
  {
  }

  lemma FrameSnapshots(s: State, t: State)
    requires SnapshotsFirst(s) && Grows(s, t)
    requires forall a :: a in t.rows ==>
               || (a in s.rows && s.rows[a].snapshot == t.rows[a].snapshot
                   && s.rows[a].dispatches == t.rows[a].dispatches)
               || SnapshotFirst(t, t.rows[a])
    ensures SnapshotsFirst(t)
  {
  }

  /** A step that builds and removes no machine, moves no dispatch, and turns no page. */
  lemma FrameLists(s: State, t: State)
    requires FloorsHold(s) && SearchesHold(s) && Grows(s, t) && t.machines == s.machines
    requires forall a :: a in t.rows ==> KeepsFloor(s, t, a)
    requires forall w :: w in t.pcs ==> KeepsSearch(s, t, w)
    ensures FloorsHold(t) && SearchesHold(t)
  {
    forall a | a in t.rows ensures FloorHolds(t, a, t.rows[a]) {
      if a in s.rows {
        assert FloorHolds(s, a, s.rows[a]);
      }
    }
    forall w | w in t.pcs ensures SearchHolds(t, t.pcs[w]) {
    }
  }

  ghost predicate KeepsFloor(s: State, t: State, a: ActionId)
    requires a in t.rows
  {
    if a in s.rows then
      t.rows[a].created == s.rows[a].created && t.rows[a].dispatches == s.rows[a].dispatches
      && (t.rows[a].floor == s.rows[a].floor || t.rows[a].floor == t.rows[a].created)
    else
      FloorHolds(t, a, t.rows[a])
  }

  ghost predicate KeepsSearch(s: State, t: State, w: WorkerId)
    requires w in t.pcs
  {
    t.pcs[w].Searching? ==>
      (w in s.pcs && s.pcs[w] == t.pcs[w] && t.pcs[w].action in s.rows) || SearchHolds(t, t.pcs[w])
  }

  /** A step that only moves a worker or a lock. */
  lemma FrameControl(s: State, t: State)
    requires forall w :: w in t.pcs ==> KeepsSearch(s, t, w)
    requires Inv(s) && LocksHold(t) && t == s.(locks := t.locks, pcs := t.pcs)
    requires forall w :: w in t.pcs && t.pcs[w].Ready? ==> w in s.pcs && s.pcs[w] == t.pcs[w]
    requires forall w :: w in t.pcs && t.pcs[w].Finalizing? ==>
               (w in s.pcs && s.pcs[w] == t.pcs[w]) || IsMarked(t, t.pcs[w].vm, t.pcs[w].action)
    ensures Inv(t)
  {
    GrowsReflexive(s, t);
    FrameTickets(s, t);
    FrameMachines(s, t);
    FrameBindings(s, t);
    FrameSettled(s, t);
    FrameSnapshots(s, t);
    FrameLists(s, t);
  }

  lemma GrowsReflexive(s: State, t: State)
    requires t.rows == s.rows && t.calls == s.calls && t.machines == s.machines && t.snapshots == s.snapshots
    ensures Grows(s, t)
  {
  }

  // ---------------------------------------------------------------- the steps of a worker

  lemma RollbackKeeps(s: State, w: WorkerId, pc: Pc)
    requires Inv(s) && w in s.pcs
    requires pc == Idle || (ActionOf(pc).Some? && ActionOf(pc).value in s.rows && IsQuietPc(s, pc, ActionOf(pc).value))
    ensures Inv(Rollback(s, w, pc))
  {
    FrameControl(s, Rollback(s, w, pc));
  }

  lemma StartJobKeeps(s: State, w: WorkerId, a: ActionId)
    requires Inv(s) && MayStartJob(s, w, a)
    ensures Inv(DoStartJob(s, w, a))
  {
    StartJobLocks(s, w, a);
    FrameControl(s, DoStartJob(s, w, a));
  }

  lemma StartJobLocks(s: State, w: WorkerId, a: ActionId)
    requires LocksHold(s) && MayStartJob(s, w, a)
    ensures LocksHold(DoStartJob(s, w, a))
  {
  }

  lemma RaiseKeeps(s: State, w: WorkerId)
    requires Inv(s) && MayRaise(s, w)
    ensures Inv(DoRaise(s, w))
  {
    assert LockHolds(s, s.pcs[w], w);
    RollbackKeeps(s, w, Handling(ActionOf(s.pcs[w]).value));
  }

  lemma TakeKeeps(s: State, w: WorkerId, a: ActionId)
    requires Inv(s) && MayTake(s, w, a)
    ensures Inv(DoTake(s, w, a))
  {
    TakeLocks(s, w, a);
    FrameControl(s, DoTake(s, w, a));
  }

  lemma TakeLocks(s: State, w: WorkerId, a: ActionId)
    requires LocksHold(s) && MayTake(s, w, a)
    ensures LocksHold(DoTake(s, w, a))
  {
  }

  lemma ConcludeKeeps(s: State, w: WorkerId, why: Reason)
    requires Inv(s) && MayConclude(s, w, why)
    ensures Inv(DoConclude(s, w, why))
  {
    var a := ActionOf(s.pcs[w]).value;
    assert LockHolds(s, s.pcs[w], w);
    CommitKeeps(s, w, a, s.rows[a].(status := Verdict(s, s.pcs[w], s.rows[a], why).value), Idle);
  }

  lemma StartSnapshotLocks(s: State, w: WorkerId)
    requires LocksHold(s) && MayStartSnapshot(s, w)
    ensures LocksHold(DoStartSnapshot(s, w))
  {
    assert LockHolds(s, s.pcs[w], w);
  }

  lemma StartSnapshotGrows(s: State, w: WorkerId)
    requires LocksHold(s) && DispatchesBounded(s) && MayStartSnapshot(s, w)
    ensures Grows(s, DoStartSnapshot(s, w)) && DispatchesBounded(DoStartSnapshot(s, w))
  {
    assert LockHolds(s, s.pcs[w], w);
    assert DispatchBounded(s.rows[s.pcs[w].action]);
  }

  lemma StartSnapshotKeeps(s: State, w: WorkerId)
    requires Inv(s) && MayStartSnapshot(s, w)
    ensures Inv(DoStartSnapshot(s, w))
  {
    StartSnapshotLocks(s, w);
    StartSnapshotGrows(s, w);
    StartSnapshotOthers(s, w);
    StartSnapshotLists(s, w);
    StartSnapshotFirsts(s, w);
  }

  lemma StartSnapshotOthers(s: State, w: WorkerId)
    requires LocksHold(s) && TicketsUsedOnce(s) && MachinesAccounted(s) && BindingsMarked(s)
    requires MayStartSnapshot(s, w) && Grows(s, DoStartSnapshot(s, w))
    ensures var t := DoStartSnapshot(s, w); TicketsUsedOnce(t) && MachinesAccounted(t) && BindingsMarked(t)
  {
    var t := DoStartSnapshot(s, w);
    assert LockHolds(s, s.pcs[w], w);
    FrameTickets(s, t);
    FrameMachines(s, t);
    FrameBindings(s, t);
  }

  lemma StartSnapshotLists(s: State, w: WorkerId)
    requires LocksHold(s) && SettledHolds(s) && FloorsHold(s) && SearchesHold(s)
    requires MayStartSnapshot(s, w) && Grows(s, DoStartSnapshot(s, w))
    ensures var t := DoStartSnapshot(s, w); SettledHolds(t) && FloorsHold(t) && SearchesHold(t)
  {
    var t := DoStartSnapshot(s, w);
    assert LockHolds(s, s.pcs[w], w);
    FrameSettled(s, t);
    forall v | v in t.pcs ensures KeepsSearch(s, t, v) {
      if v != w { assert LockHolds(s, s.pcs[v], v); }
    }
    FrameLists(s, t);
  }

  lemma StartSnapshotFirsts(s: State, w: WorkerId)
    requires Inv(s) && MayStartSnapshot(s, w) && Grows(s, DoStartSnapshot(s, w))
    ensures SnapshotsFirst(DoStartSnapshot(s, w))
  {
  }

  lemma DispatchLocks(s: State, w: WorkerId)
    requires LocksHold(s) && FloorsHold(s) && MayCommitDispatch(s, w)
    ensures LocksHold(DoDispatch(s, w))
  {
    assert LockHolds(s, s.pcs[w], w);
  }

  lemma DispatchGrows(s: State, w: WorkerId)
    requires LocksHold(s) && FloorsHold(s) && MayCommitDispatch(s, w)
    ensures Grows(s, DoDispatch(s, w))
  {
    assert LockHolds(s, s.pcs[w], w);
    assert FloorHolds(s, s.pcs[w].action, s.pcs[w].seen);
  }

  lemma DispatchCounts(s: State, w: WorkerId)
    requires Inv(s) && MayCommitDispatch(s, w)
    ensures DispatchesBounded(DoDispatch(s, w))
  {
    assert LockHolds(s, s.pcs[w], w);
  }

  lemma DispatchTickets(s: State, w: WorkerId)
    requires Inv(s) && MayCommitDispatch(s, w)
    ensures TicketsUsedOnce(DoDispatch(s, w))
  {
  }

  /** A first dispatch finds no machine of its action; a later one makes no promise about the earlier machines. */
  lemma DispatchLists(s: State, w: WorkerId)
    requires Inv(s) && MayCommitDispatch(s, w)
    ensures FloorsHold(DoDispatch(s, w)) && SearchesHold(DoDispatch(s, w))
  {
    var t := DoDispatch(s, w);
    var Holding(a, seen) := s.pcs[w];
    assert LockHolds(s, s.pcs[w], w);
    forall b | b in t.rows ensures FloorHolds(t, b, t.rows[b]) {
      assert FloorHolds(s, b, s.rows[b]);
    }
    forall v | v in t.pcs ensures SearchHolds(t, t.pcs[v]) {
    }
  }

  lemma DispatchKeeps(s: State, w: WorkerId)
    requires Inv(s) && MayCommitDispatch(s, w)
    ensures Inv(DoDispatch(s, w))
  {
    DispatchLocks(s, w);
    DispatchGrows(s, w);
    DispatchCounts(s, w);
    DispatchTickets(s, w);
    DispatchLists(s, w);
    DispatchOthers(s, w);
  }

  lemma DispatchOthers(s: State, w: WorkerId)
    requires Inv(s) && MayCommitDispatch(s, w) && Grows(s, DoDispatch(s, w))
    ensures var t := DoDispatch(s, w);
            MachinesAccounted(t) && BindingsMarked(t) && SettledHolds(t) && SnapshotsFirst(t)
  {
    var t := DoDispatch(s, w);
    assert LockHolds(s, s.pcs[w], w);
    FrameMachines(s, t);
    FrameBindings(s, t);
    FrameSettled(s, t);
    FrameSnapshots(s, t);
  }

  lemma TransmitTickets(s: State, w: WorkerId)
    requires Inv(s) && MayTransmit(s, w)
    ensures TicketsUsedOnce(DoTransmit(s, w))
  {
  }

  lemma TransmitKeeps(s: State, w: WorkerId)
    requires Inv(s) && MayTransmit(s, w)
    ensures Inv(DoTransmit(s, w))
  {
    var t := DoTransmit(s, w);
    TransmitLocks(s, w);
    TransmitTickets(s, w);
    FrameMachines(s, t);
    FrameBindings(s, t);
    FrameSettled(s, t);
    FrameSnapshots(s, t);
    FrameLists(s, t);
  }

  lemma TransmitLocks(s: State, w: WorkerId)
    requires LocksHold(s) && MayTransmit(s, w)
    ensures LocksHold(DoTransmit(s, w)) && Grows(s, DoTransmit(s, w))
  {
  }

  lemma BindKeeps(s: State, w: WorkerId, a: ActionId, vm: VmId)
    requires Inv(s) && MayWrite(s, w, a) && s.rows[a].verb == Create && IsMarked(s, vm, a)
    ensures Inv(Bind(s, w, a, vm))
  {
    CommitKeeps(s, w, a, s.rows[a].(remote := Some(vm), status := Sent), Finalizing(a, vm));
  }

  lemma AcceptKeeps(s: State, w: WorkerId)
    requires Inv(s) && MayAccept(s, w)
    ensures Inv(DoAccept(s, w))
  {
    var Waiting(a, i, _) := s.pcs[w];
    assert LockHolds(s, s.pcs[w], w);
    if s.rows[a].verb == Create {
      assert IsLandingKnown(s, s.calls[i]);
      BindKeeps(s, w, a, s.calls[i].fate.vm);
    } else {
      CommitKeeps(s, w, a, s.rows[a].(status := Sent), Observing(a, Sent));
    }
  }

  /** Lock the row (again) and turn to the region. */
  lemma TurnToSearchKeeps(s: State, w: WorkerId, a: ActionId, floor: nat)
    requires Inv(s) && MayWrite(s, w, a) && s.rows[a].verb == Create && IsBehind(floor, s.rows[a])
    ensures Inv(s.(locks := s.locks[a := w], pcs := s.pcs[w := Searching(a, Begin(s, floor))]))
  {
    var t := s.(locks := s.locks[a := w], pcs := s.pcs[w := Searching(a, Begin(s, floor))]);
    TurnToSearchLocks(s, w, a, floor);
    assert KeepsSearch(s, t, w);
    forall v | v in t.pcs ensures KeepsSearch(s, t, v) {
    }
    FrameControl(s, t);
  }

  lemma TurnToSearchLocks(s: State, w: WorkerId, a: ActionId, floor: nat)
    requires LocksHold(s) && MayWrite(s, w, a) && s.rows[a].verb == Create && IsBehind(floor, s.rows[a])
    ensures LocksHold(s.(locks := s.locks[a := w], pcs := s.pcs[w := Searching(a, Begin(s, floor))]))
  {
  }

  lemma LoseReplyKeeps(s: State, w: WorkerId)
    requires Inv(s) && Awaits(s, w)
    ensures Inv(DoLoseReply(s, w))
  {
    var Waiting(a, _, sentAt) := s.pcs[w];
    assert LockHolds(s, s.pcs[w], w);
    if s.rows[a].verb == Create {
      TurnToSearchKeeps(s, w, a, sentAt);
    } else {
      CommitKeeps(s, w, a, s.rows[a].(status := Uncertain), Observing(a, Uncertain));
    }
  }

  lemma StartSearchKeeps(s: State, w: WorkerId)
    requires Inv(s) && MayStartSearch(s, w)
    ensures Inv(DoStartSearch(s, w))
  {
    var Holding(a, seen) := s.pcs[w];
    assert LockHolds(s, s.pcs[w], w);
    assert s.locks[a := w] == s.locks;
    TurnToSearchKeeps(s, w, a, seen.floor);
  }

  lemma FindKeeps(s: State, w: WorkerId, vm: VmId)
    requires Inv(s) && MayFind(s, w, vm)
    ensures Inv(Bind(s, w, s.pcs[w].action, vm))
  {
    assert LockHolds(s, s.pcs[w], w);
    BindKeeps(s, w, s.pcs[w].action, vm);
  }

  // ---------------------------------------------------------------- the list

  lemma {:induction false} ListedFalls(machines: seq<Machine>, tenant: nat, from: nat, later: nat)
    requires from <= later
    ensures Listed(machines, tenant, later) <= Listed(machines, tenant, from)
    decreases later
  {
    if from < later {
      ListedFalls(machines, tenant, from, later - 1);
    }
  }

  /** A listed machine stands before the older ones and within the list. */
  lemma NewerStandsBefore(machines: seq<Machine>, tenant: nat, newer: VmId, older: nat)
    requires newer < |machines| && IsListed(machines[newer], tenant) && older <= newer
    ensures Position(machines, tenant, newer) < Listed(machines, tenant, older)
    ensures older < newer ==> Position(machines, tenant, newer) < Position(machines, tenant, older)
  {
    ListedFalls(machines, tenant, older, newer);
    if older < newer {
      ListedFalls(machines, tenant, older + 1, newer);
    }
  }

  /** A machine built in front pushes the others back. */
  lemma {:induction false} ListedAppend(machines: seq<Machine>, m: Machine, tenant: nat, from: nat)
    requires from <= |machines|
    ensures Listed(machines + [m], tenant, from)
            == Listed(machines, tenant, from) + (if IsListed(m, tenant) then 1 else 0)
    decreases |machines| - from
  {
    if from < |machines| {
      ListedAppend(machines, m, tenant, from + 1);
    } else {
      assert Listed(machines + [m], tenant, from + 1) == 0;
    }
  }

  /** A page without a match is behind every match. */
  lemma PagePassed(s: State, a: ActionId, search: Search, m: VmId)
    requires a in s.rows && IsPageClear(s, a, search.offset, 0) && IsMatch(s, a, m)
    requires search.offset <= Position(s.machines, s.rows[a].tenant, m)
    ensures search.offset + PAGE <= Position(s.machines, s.rows[a].tenant, m)
    ensures IsPageFull(s, s.rows[a].tenant, search.offset)
  {
    assert !IsOnPage(s.machines, s.rows[a].tenant, m, search.offset);
    NewerStandsBefore(s.machines, s.rows[a].tenant, m, 0);
  }

  lemma TurnPageKeeps(s: State, w: WorkerId)
    requires Inv(s) && MayTurnPage(s, w)
    ensures Inv(DoTurnPage(s, w))
  {
    var t := DoTurnPage(s, w);
    TurnPageSearch(s, w);
    forall v | v in t.pcs ensures KeepsSearch(s, t, v) {
    }
    FrameControl(s, t);
  }

  lemma TurnPageSearch(s: State, w: WorkerId)
    requires SearchesHold(s) && MayTurnPage(s, w)
    ensures SearchHolds(DoTurnPage(s, w), DoTurnPage(s, w).pcs[w])
  {
    var t := DoTurnPage(s, w);
    var Searching(a, search) := s.pcs[w];
    assert SearchHolds(s, s.pcs[w]);
    forall m | search.floor <= m < search.since && IsMatch(t, a, m) && !search.hasShrunk
      ensures search.offset + PAGE <= Position(t.machines, t.rows[a].tenant, m)
    {
      assert IsMatch(s, a, m);
      PagePassed(s, a, search, m);
    }
  }

  /** What a search that did not shrink says when it finds nothing is true of the machines it started from. */
  lemma CleanSearchIsRight(s: State, w: WorkerId, end: Option<VmId>)
    requires SearchesHold(s) && MayFindNothing(s, w, end) && !s.pcs[w].search.hasShrunk
    ensures var Searching(a, search) := s.pcs[w]; NoneMatch(s, a, search.floor, search.since)
  {
    var Searching(a, search) := s.pcs[w];
    var tenant := s.rows[a].tenant;
    assert SearchHolds(s, s.pcs[w]);
    forall m | search.floor <= m < search.since ensures !IsMatch(s, a, m) {
      if IsMatch(s, a, m) {
        match end
        case None => PagePassed(s, a, search, m);
        case Some(x) =>
          NewerStandsBefore(s.machines, tenant, m, x);
          assert IsOnPage(s.machines, tenant, m, search.offset);
        assert false;
      }
    }
  }

  lemma FindNothingKeeps(s: State, w: WorkerId, end: Option<VmId>)
    requires Inv(s) && MayFindNothing(s, w, end)
    ensures Inv(DoFindNothing(s, w, end))
  {
    var Searching(a, search) := s.pcs[w];
    assert LockHolds(s, s.pcs[w], w);
    if !search.hasShrunk {
      CleanSearchIsRight(s, w, end);
    }
    var u := Commit(s, w, a, s.rows[a].(status := Failed), Idle);
    CommitKeeps(s, w, a, s.rows[a].(status := Failed), Idle);
    SettledByCommit(s, u, a, search);
    SettleKeeps(u, a, search);
  }

  lemma SettledByCommit(s: State, u: State, a: ActionId, search: Search)
    requires a in s.rows && u.machines == s.machines && u.rows == s.rows[a := s.rows[a].(status := Failed)]
    requires search.since <= |s.machines| && IsBehind(search.floor, s.rows[a])
    requires !search.hasShrunk ==> NoneMatch(s, a, search.floor, search.since)
    ensures SettledFor(u, a, search)
  {
    forall m | search.floor <= m < search.since && !search.hasShrunk ensures !IsMatch(u, a, m) {
      assert !IsMatch(s, a, m);
    }
  }

  lemma SettleKeeps(s: State, a: ActionId, search: Search)
    requires Inv(s) && SettledFor(s, a, search)
    ensures Inv(s.(settled := s.settled[a := search]))
  {
    var t := s.(settled := s.settled[a := search]);
    SameLocks(s, t);
    GrowsReflexive(s, t);
    FrameTickets(s, t);
    FrameMachines(s, t);
    FrameBindings(s, t);
    FrameSnapshots(s, t);
    forall v | v in t.pcs ensures KeepsSearch(s, t, v) { assert LockHolds(s, s.pcs[v], v); }
    FrameLists(s, t);
    forall b | b in t.settled ensures SettledFor(t, b, t.settled[b]) {
      assert b != a ==> SettledFor(s, b, s.settled[b]);
      SettledMoves(s, t, b, t.settled[b]);
    }
  }

  lemma ResumeKeeps(s: State, w: WorkerId)
    requires Inv(s) && MayResume(s, w)
    ensures Inv(DoResume(s, w))
  {
    var Holding(a, seen) := s.pcs[w];
    assert LockHolds(s, s.pcs[w], w);
    RollbackKeeps(s, w, if seen.verb == Create then Finalizing(a, seen.remote.value) else Observing(a, seen.status));
  }

  lemma LinkKeeps(s: State, w: WorkerId)
    requires Inv(s) && MayLink(s, w)
    ensures Inv(DoLink(s, w))
  {
    var Finalizing(a, vm) := s.pcs[w];
    assert LockHolds(s, s.pcs[w], w);
    RollbackKeeps(s, w, Observing(a, Sent));
    if a !in s.servers {
      AddServerKeeps(Rollback(s, w, Observing(a, Sent)), a, vm);
    }
  }

  lemma AddServerKeeps(s: State, a: ActionId, vm: VmId)
    requires Inv(s) && a in s.rows && s.rows[a].verb == Create && IsMarked(s, vm, a)
    ensures Inv(s.(servers := s.servers[a := vm]))
  {
    var t := s.(servers := s.servers[a := vm]);
    SameLocks(s, t);
    GrowsReflexive(s, t);
    AddServerBindings(s, a, vm);
    FrameTickets(s, t);
    FrameMachines(s, t);
    FrameSettled(s, t);
    FrameSnapshots(s, t);
    FrameLists(s, t);
  }

  lemma AddServerBindings(s: State, a: ActionId, vm: VmId)
    requires BindingsMarked(s) && a in s.rows && s.rows[a].verb == Create && IsMarked(s, vm, a)
    ensures BindingsMarked(s.(servers := s.servers[a := vm]))
  {
  }

  lemma SameLocks(s: State, t: State)
    requires LocksHold(s) && t == s.(servers := t.servers, settled := t.settled)
    ensures LocksHold(t)
  {
  }

  // ---------------------------------------------------------------- the steps around the workers

  lemma SubmitKeeps(s: State, a: ActionId, row: Row)
    requires Inv(s) && MaySubmit(s, a, row)
    ensures Inv(PutRow(s, a, row))
  {
    var t := PutRow(s, a, row);
    SubmitLocks(s, a, row);
    FrameTickets(s, t);
    SubmitMachines(s, a, row);
    FrameBindings(s, t);
    FrameSettled(s, t);
    FrameSnapshots(s, t);
    FrameLists(s, t);
  }

  lemma SubmitLocks(s: State, a: ActionId, row: Row)
    requires LocksHold(s) && MaySubmit(s, a, row)
    ensures LocksHold(PutRow(s, a, row)) && Grows(s, PutRow(s, a, row))
  {
  }

  lemma SubmitMachines(s: State, a: ActionId, row: Row)
    requires MachinesAccounted(s) && TicketsUsedOnce(s) && MaySubmit(s, a, row)
    ensures MachinesAccounted(PutRow(s, a, row))
  {
  }

  lemma LandKeeps(s: State, i: nat)
    requires Inv(s) && IsInFlight(s, i)
    ensures Inv(DoLand(s, i))
  {
    LandLocks(s, i);
    LandMachines(s, i);
    LandLists(s, i);
    LandTickets(s, i);
    LandBindings(s, i);
    LandSettled(s, i);
  }

  lemma LandTickets(s: State, i: nat)
    requires TicketsUsedOnce(s) && IsInFlight(s, i) && Grows(s, DoLand(s, i))
    ensures TicketsUsedOnce(DoLand(s, i))
  {
    FrameTickets(s, DoLand(s, i));
  }

  lemma LandBindings(s: State, i: nat)
    requires BindingsMarked(s) && IsInFlight(s, i) && Grows(s, DoLand(s, i))
    ensures BindingsMarked(DoLand(s, i))
  {
    FrameBindings(s, DoLand(s, i));
  }

  lemma LandSettled(s: State, i: nat)
    requires SettledHolds(s) && SnapshotsFirst(s) && IsInFlight(s, i) && Grows(s, DoLand(s, i))
    ensures SettledHolds(DoLand(s, i)) && SnapshotsFirst(DoLand(s, i))
  {
    FrameSettled(s, DoLand(s, i));
    FrameSnapshots(s, DoLand(s, i));
  }

  lemma LandLists(s: State, i: nat)
    requires LocksHold(s) && FloorsHold(s) && SearchesHold(s) && IsInFlight(s, i)
    ensures FloorsHold(DoLand(s, i)) && SearchesHold(DoLand(s, i))
  {
    var t := DoLand(s, i);
    if t.machines != s.machines {
      BuiltLists(s, t, t.machines[|s.machines|]);
    }
  }

  /** One more machine, in front of every list. */
  lemma BuiltLists(s: State, t: State, m: Machine)
    requires LocksHold(s) && FloorsHold(s) && SearchesHold(s)
    requires t.rows == s.rows && t.pcs == s.pcs && t.machines == s.machines + [m]
    ensures FloorsHold(t) && SearchesHold(t)
  {
    forall a | a in t.rows ensures FloorHolds(t, a, t.rows[a]) {
      assert FloorHolds(s, a, s.rows[a]);
    }
    forall w | w in t.pcs ensures SearchHolds(t, t.pcs[w]) {
      assert LockHolds(s, s.pcs[w], w) && SearchHolds(s, s.pcs[w]);
      BuiltSearch(s, t, m, t.pcs[w]);
    }
  }

  lemma BuiltSearch(s: State, t: State, m: Machine, pc: Pc)
    requires SearchHolds(s, pc) && t.rows == s.rows && t.machines == s.machines + [m]
    requires pc.Searching? ==> pc.search.since <= |s.machines|
    ensures SearchHolds(t, pc)
  {
    if pc.Searching? && pc.action in t.rows && !pc.search.hasShrunk {
      forall n | pc.search.floor <= n < pc.search.since && IsMatch(t, pc.action, n)
        ensures pc.search.offset <= Position(t.machines, t.rows[pc.action].tenant, n)
      {
        assert IsMatch(s, pc.action, n);
        ListedAppend(s.machines, m, s.rows[pc.action].tenant, n + 1);
      }
    }
  }

  lemma LandLocks(s: State, i: nat)
    requires LocksHold(s) && IsInFlight(s, i)
    ensures LocksHold(DoLand(s, i)) && Grows(s, DoLand(s, i))
  {
  }

  lemma LandMachines(s: State, i: nat)
    requires MachinesAccounted(s) && IsInFlight(s, i)
    ensures MachinesAccounted(DoLand(s, i))
  {
  }

  lemma AppearKeeps(s: State, tenant: nat, image: nat, marker: ActionId)
    requires Inv(s) && MayAppear(s, marker)
    ensures Inv(DoAppear(s, tenant, image, marker))
  {
    var t := DoAppear(s, tenant, image, marker);
    BuiltLists(s, t, t.machines[|s.machines|]);
    AppearMachines(s, tenant, image, marker);
    AppearOthers(s, tenant, image, marker);
  }

  lemma AppearMachines(s: State, tenant: nat, image: nat, marker: ActionId)
    requires MachinesAccounted(s) && MayAppear(s, marker)
    ensures MachinesAccounted(DoAppear(s, tenant, image, marker))
  {
    var t := DoAppear(s, tenant, image, marker);
    forall m | 0 <= m < |t.machines| ensures IsAccounted(t, t.machines[m], m) {
      if m < |s.machines| { assert IsAccounted(s, s.machines[m], m); }
    }
    forall i | 0 <= i < |t.calls| ensures IsLandingKnown(t, t.calls[i]) { assert IsLandingKnown(s, s.calls[i]); }
  }

  lemma AppearOthers(s: State, tenant: nat, image: nat, marker: ActionId)
    requires Inv(s) && Grows(s, DoAppear(s, tenant, image, marker))
    ensures var t := DoAppear(s, tenant, image, marker);
            TicketsUsedOnce(t) && BindingsMarked(t) && SettledHolds(t) && SnapshotsFirst(t)
  {
    var t := DoAppear(s, tenant, image, marker);
    FrameTickets(s, t);
    FrameBindings(s, t);
    FrameSettled(s, t);
    FrameSnapshots(s, t);
  }

  lemma TurnAwayKeeps(s: State, i: nat)
    requires Inv(s) && IsInFlight(s, i)
    ensures Inv(DoTurnAway(s, i))
  {
    var t := DoTurnAway(s, i);
    TurnAwayLocks(s, i);
    FrameTickets(s, t);
    FrameMachines(s, t);
    FrameBindings(s, t);
    FrameSettled(s, t);
    FrameSnapshots(s, t);
    FrameLists(s, t);
  }

  lemma TurnAwayLocks(s: State, i: nat)
    requires LocksHold(s) && IsInFlight(s, i)
    ensures LocksHold(DoTurnAway(s, i)) && Grows(s, DoTurnAway(s, i))
  {
  }

  lemma RewriteKeeps(s: State, a: ActionId, row: Row)
    requires Inv(s) && a in s.rows && a !in s.locks
    requires row == s.rows[a].(status := row.status, floor := row.floor, retries := row.retries) && DispatchBounded(row)
    requires s.rows[a].retries <= row.retries
    requires row.floor == s.rows[a].floor || (row.floor == row.created && row.retries > 0)
    ensures Inv(PutRow(s, a, row))
  {
    RewriteLocks(s, a, row);
    RewriteLists(s, a, row);
    RewriteOthers(s, a, row);
  }

  lemma RewriteOthers(s: State, a: ActionId, row: Row)
    requires Inv(s) && a in s.rows && Grows(s, PutRow(s, a, row))
    requires row == s.rows[a].(status := row.status, floor := row.floor, retries := row.retries)
    ensures var t := PutRow(s, a, row);
            TicketsUsedOnce(t) && MachinesAccounted(t) && BindingsMarked(t) && SettledHolds(t) && SnapshotsFirst(t)
  {
    var t := PutRow(s, a, row);
    FrameTickets(s, t);
    FrameMachines(s, t);
    FrameBindings(s, t);
    FrameSettled(s, t);
    FrameSnapshots(s, t);
  }

  lemma RewriteLists(s: State, a: ActionId, row: Row)
    requires LocksHold(s) && FloorsHold(s) && SearchesHold(s) && a in s.rows && Grows(s, PutRow(s, a, row))
    requires row == s.rows[a].(status := row.status, floor := row.floor, retries := row.retries)
    requires row.floor == s.rows[a].floor || row.floor == row.created
    ensures FloorsHold(PutRow(s, a, row)) && SearchesHold(PutRow(s, a, row))
  {
    var t := PutRow(s, a, row);
    forall v | v in t.pcs ensures KeepsSearch(s, t, v) { assert LockHolds(s, s.pcs[v], v); }
    FrameLists(s, t);
  }

  lemma RewriteLocks(s: State, a: ActionId, row: Row)
    requires LocksHold(s) && a in s.rows && a !in s.locks && RowGrows(s.rows[a], row)
      && row.verb == s.rows[a].verb
    ensures LocksHold(PutRow(s, a, row)) && Grows(s, PutRow(s, a, row))
  {
  }

  lemma ConfirmKeeps(s: State, a: ActionId, observed: ServerStatus)
    requires Inv(s) && MayConfirm(s, a, observed)
    ensures Inv(PutRow(s, a, s.rows[a].(status := Succeeded)))
  {
    RewriteKeeps(s, a, s.rows[a].(status := Succeeded));
  }

  lemma RetryKeeps(s: State, a: ActionId)
    requires Inv(s) && MayRetry(s, a)
    ensures Inv(DoRetry(s, a))
  {
    assert DispatchBounded(s.rows[a]);
    RewriteKeeps(s, a, Retried(s.rows[a]));
  }

  lemma VanishKeeps(s: State, vm: VmId)
    requires Inv(s) && vm < |s.machines|
    ensures Inv(DoVanish(s, vm))
  {
    VanishLocks(s, vm);
    VanishLists(s, vm);
    VanishOthers(s, vm);
  }

  /** Every search under way is marked, so none promises anything any more. */
  lemma VanishLists(s: State, vm: VmId)
    requires FloorsHold(s) && vm < |s.machines|
    ensures FloorsHold(DoVanish(s, vm)) && SearchesHold(DoVanish(s, vm))
  {
    var t := DoVanish(s, vm);
    forall a | a in t.rows ensures FloorHolds(t, a, t.rows[a]) {
      assert FloorHolds(s, a, s.rows[a]);
    }
  }

  lemma VanishOthers(s: State, vm: VmId)
    requires Inv(s) && vm < |s.machines| && Grows(s, DoVanish(s, vm))
    ensures var t := DoVanish(s, vm);
            TicketsUsedOnce(t) && MachinesAccounted(t) && BindingsMarked(t) && SettledHolds(t) && SnapshotsFirst(t)
  {
    var t := DoVanish(s, vm);
    FrameTickets(s, t);
    FrameMachines(s, t);
    FrameBindings(s, t);
    FrameSettled(s, t);
    FrameSnapshots(s, t);
  }

  lemma VanishLocks(s: State, vm: VmId)
    requires LocksHold(s) && vm < |s.machines|
    ensures LocksHold(DoVanish(s, vm)) && Grows(s, DoVanish(s, vm))
  {
    forall w | w in s.pcs ensures LockHolds(DoVanish(s, vm), Shrunk(s.pcs[w]), w) {
      assert LockHolds(s, s.pcs[w], w);
    }
  }

  lemma SettleSnapshotKeeps(s: State, id: SnapshotId, isOk: bool)
    requires Inv(s) && id < |s.snapshots| && s.snapshots[id] == Pending
    ensures Inv(DoSettleSnapshot(s, id, isOk))
  {
    var t := DoSettleSnapshot(s, id, isOk);
    SettleSnapshotLocks(s, id, isOk);
    FrameTickets(s, t);
    FrameMachines(s, t);
    FrameBindings(s, t);
    FrameSettled(s, t);
    FrameSnapshots(s, t);
    FrameLists(s, t);
  }

  lemma SettleSnapshotLocks(s: State, id: SnapshotId, isOk: bool)
    requires LocksHold(s) && id < |s.snapshots| && s.snapshots[id] == Pending
    ensures LocksHold(DoSettleSnapshot(s, id, isOk)) && Grows(s, DoSettleSnapshot(s, id, isOk))
  {
  }

  // ---------------------------------------------------------------- every run

  predicate IsSearchStep(step: Step)
  {
    step.StartSearch? || step.Find? || step.TurnPage? || step.FindNothing? || step.LoseReply?
  }

  lemma SearchStepKeeps(s: State, w: WorkerId, step: Step)
    requires Inv(s) && WorkerEnabled(s, w, step) && IsSearchStep(step)
    ensures Inv(WorkerStep(s, w, step))
  {
    match step
    case LoseReply => LoseReplyKeeps(s, w);
    case StartSearch => StartSearchKeeps(s, w);
    case Find(vm) => FindKeeps(s, w, vm);
    case TurnPage => TurnPageKeeps(s, w);
    case FindNothing(end) => FindNothingKeeps(s, w, end);
  }

  predicate IsCallStep(step: Step)
  {
    step.Dispatch? || step.Transmit? || step.Accept? || step.StartSnapshot?
  }

  lemma CallStepKeeps(s: State, w: WorkerId, step: Step)
    requires Inv(s) && WorkerEnabled(s, w, step) && IsCallStep(step)
    ensures Inv(WorkerStep(s, w, step))
  {
    match step
    case StartSnapshot => StartSnapshotKeeps(s, w);
    case Dispatch => DispatchKeeps(s, w);
    case Transmit => TransmitKeeps(s, w);
    case Accept => AcceptKeeps(s, w);
  }

  lemma JobStepKeeps(s: State, w: WorkerId, step: Step)
    requires Inv(s) && WorkerEnabled(s, w, step) && !IsSearchStep(step) && !IsCallStep(step)
    ensures Inv(WorkerStep(s, w, step))
  {
    match step
    case StartJob(a) => StartJobKeeps(s, w, a);
    case Take(a) => TakeKeeps(s, w, a);
    case Raise => RaiseKeeps(s, w);
    case Leave => RollbackKeeps(s, w, Idle);
    case Conclude(why) => ConcludeKeeps(s, w, why);
    case Resume => ResumeKeeps(s, w);
    case Link => LinkKeeps(s, w);
  }

  lemma WorkerStepKeeps(s: State, w: WorkerId, step: Step)
    requires Inv(s) && WorkerEnabled(s, w, step)
    ensures Inv(WorkerStep(s, w, step))
  {
    if IsSearchStep(step) {
      SearchStepKeeps(s, w, step);
    } else if IsCallStep(step) {
      CallStepKeeps(s, w, step);
    } else {
      JobStepKeeps(s, w, step);
    }
  }

  lemma OutsideStepKeeps(s: State, o: Outside)
    requires Inv(s) && OutsideEnabled(s, o)
    ensures Inv(OutsideStep(s, o))
  {
    if o.Submit? || o.Confirm? || o.Retry? {
      RowStepKeeps(s, o);
    } else {
      match o
      case Land(i) => LandKeeps(s, i);
      case TurnAway(i) => TurnAwayKeeps(s, i);
      case Appear(tenant, image, marker) => AppearKeeps(s, tenant, image, marker);
      case Vanish(vm) => VanishKeeps(s, vm);
      case SettleSnapshot(id, isOk) => SettleSnapshotKeeps(s, id, isOk);
    }
  }

  lemma RowStepKeeps(s: State, o: Outside)
    requires Inv(s) && OutsideEnabled(s, o) && (o.Submit? || o.Confirm? || o.Retry?)
    ensures Inv(OutsideStep(s, o))
  {
    match o
    case Submit(a, row) => SubmitStepKeeps(s, a, row);
    case Confirm(a, observed) => ConfirmStepKeeps(s, a, observed);
    case Retry(a) => RetryStepKeeps(s, a);
  }

  lemma SubmitStepKeeps(s: State, a: ActionId, row: Row)
    requires Inv(s) && OutsideEnabled(s, Submit(a, row))
    ensures Inv(OutsideStep(s, Submit(a, row)))
  {
    SubmitKeeps(s, a, row);
  }

  lemma ConfirmStepKeeps(s: State, a: ActionId, observed: ServerStatus)
    requires Inv(s) && OutsideEnabled(s, Confirm(a, observed))
    ensures Inv(OutsideStep(s, Confirm(a, observed)))
  {
    ConfirmKeeps(s, a, observed);
  }

  lemma RetryStepKeeps(s: State, a: ActionId)
    requires Inv(s) && OutsideEnabled(s, Retry(a))
    ensures Inv(OutsideStep(s, Retry(a)))
  {
    RetryKeeps(s, a);
  }

  lemma {:induction false} RunKeepsFrom(states: seq<State>, events: seq<Event>, n: nat)
    requires IsRun(states, events) && Inv(states[0]) && n < |states|
    ensures Inv(states[n])
  {
    if n > 0 {
      RunKeepsFrom(states, events, n - 1);
      match events[n - 1]
      case Worker(w, step) => WorkerStepKeeps(states[n - 1], w, step);
      case Environment(o) => OutsideStepKeeps(states[n - 1], o);
    }
  }

  lemma RunKeeps(states: seq<State>, events: seq<Event>, n: nat)
    requires IsRun(states, events) && Init(states[0]) && n < |states|
    ensures Inv(states[n])
  {
    RunKeepsFrom(states, events, n);
  }
}
