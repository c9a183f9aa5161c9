/** The properties of whole runs: one call at most, one owner for each machine, sound settlement. */
module ActionResults {
  import opened Base
  import opened ActionProtocol
  import opened ActionSafety

  // ---------------------------------------------------------------- one call at most

  function CallsOf(s: State, a: ActionId): (calls: set<nat>)
  {
    set i | 0 <= i < |s.calls| && s.calls[i].action == a
  }

  function MachinesOf(s: State, a: ActionId): (machines: set<nat>)
  {
    set m | 0 <= m < |s.machines| && s.machines[m].marker == a
  }

  /** An injective image is as large as its source. */
  lemma {:induction false} BoundedByInjection(source: set<nat>, target: set<nat>, f: map<nat, nat>)
    requires source <= f.Keys
    requires forall x :: x in source ==> f[x] in target
    requires forall x, y :: x in source && y in source && x != y ==> f[x] != f[y]
    ensures |source| <= |target|
  {
    if source != {} {
      var x :| x in source;
      BoundedByInjection(source - {x}, target - {f[x]}, f);
    }
  }

  function Below(n: nat): (s: set<nat>)
    ensures |s| == n && forall i :: i in s <==> 0 <= i < n
  {
    if n == 0 then {} else Below(n - 1) + {n - 1}
  }

  lemma CallsBounded(s: State, a: ActionId)
    requires TicketsUsedOnce(s) && a in s.rows
    ensures |CallsOf(s, a)| <= s.rows[a].dispatches
  {
    var f := map i | 0 <= i < |s.calls| :: s.calls[i].ticket;
    forall i | i in CallsOf(s, a) ensures f[i] in Below(s.rows[a].dispatches) {
      assert IsTicket(s, s.calls[i].action, s.calls[i].ticket);
    }
    BoundedByInjection(CallsOf(s, a), Below(s.rows[a].dispatches), f);
  }

  lemma MachinesBounded(s: State, a: ActionId)
    requires MachinesAccounted(s) && a in s.rows
    ensures |MachinesOf(s, a)| <= |CallsOf(s, a)|
  {
    var f := map m | 0 <= m < |s.machines| :: if s.machines[m].origin.Some? then s.machines[m].origin.value else 0;
    forall m | m in MachinesOf(s, a) ensures s.machines[m].origin == Some(f[m]) && f[m] in CallsOf(s, a) {
      assert IsAccounted(s, s.machines[m], m);
    }
    forall m, n | m in MachinesOf(s, a) && n in MachinesOf(s, a) && m != n ensures f[m] != f[n] {
      assert IsAccounted(s, s.machines[m], m) && IsAccounted(s, s.machines[n], n);
    }
    BoundedByInjection(MachinesOf(s, a), CallsOf(s, a), f);
  }

  predicate IsRetryOf(e: Event, a: ActionId)
  {
    e.Environment? && e.outside == Retry(a)
  }

  function Retries(events: seq<Event>, a: ActionId): nat
  {
    if events == [] then 0
    else Retries(events[..|events| - 1], a) + (if IsRetryOf(events[|events| - 1], a) then 1 else 0)
  }

  lemma WorkerKeepsRetries(s: State, w: WorkerId, step: Step, a: ActionId)
    requires LocksHold(s) && WorkerEnabled(s, w, step)
    ensures WorkerStep(s, w, step).rows.Keys == s.rows.Keys
    ensures a in s.rows ==> WorkerStep(s, w, step).rows[a].retries == s.rows[a].retries
  {
    assert w in s.pcs && LockHolds(s, s.pcs[w], w);
  }

  lemma OutsideKeepsRetries(s: State, o: Outside, a: ActionId)
    requires OutsideEnabled(s, o)
    ensures s.rows.Keys <= OutsideStep(s, o).rows.Keys
    ensures a in s.rows ==>
              OutsideStep(s, o).rows[a].retries == s.rows[a].retries + (if o == Retry(a) then 1 else 0)
    ensures a !in s.rows ==>
              o != Retry(a) && (a in OutsideStep(s, o).rows ==> OutsideStep(s, o).rows[a].retries == 0)
  {
  }

  lemma {:induction false} RetriesCounted(states: seq<State>, events: seq<Event>, a: ActionId, n: nat)
    requires IsRun(states, events) && Init(states[0]) && n < |states|
    ensures a in states[n].rows ==> states[n].rows[a].retries == Retries(events[..n], a)
    ensures a !in states[n].rows ==> Retries(events[..n], a) == 0
  {
    if n > 0 {
      RetriesCounted(states, events, a, n - 1);
      RunKeeps(states, events, n - 1);
      assert events[..n][..n - 1] == events[..n - 1];
      match events[n - 1]
      case Worker(w, step) => WorkerKeepsRetries(states[n - 1], w, step, a);
      case Environment(o) => OutsideKeepsRetries(states[n - 1], o, a);
    }
  }

  /** Over every run, however many workers take the action and wherever they crash, the region is called
      and builds at most once for the submission and once for each retry. A command is never retried. */
  lemma AtMostOneCall(states: seq<State>, events: seq<Event>, a: ActionId, n: nat)
    requires IsRun(states, events) && Init(states[0]) && n < |states| && a in states[n].rows
    ensures |MachinesOf(states[n], a)| <= |CallsOf(states[n], a)| <= 1 + Retries(events[..n], a)
    ensures states[n].rows[a].verb != Create ==> |CallsOf(states[n], a)| <= 1
  {
    RunKeeps(states, events, n);
    RetriesCounted(states, events, a, n);
    CallsBounded(states[n], a);
    MachinesBounded(states[n], a);
    assert DispatchBounded(states[n].rows[a]);
  }

  /** No call for a terminate with a final snapshot leaves before that snapshot is Available. */
  lemma SnapshotBeforeTerminate(states: seq<State>, events: seq<Event>, n: nat, i: nat)
    requires IsRun(states, events) && Init(states[0]) && n < |states| && i < |states[n].calls|
    ensures states[n].calls[i].action in states[n].rows
    ensures var row := states[n].rows[states[n].calls[i].action];
            row.withSnapshot ==>
              && row.snapshot.Some? && row.snapshot.value < |states[n].snapshots|
              && states[n].snapshots[row.snapshot.value] == Available
  {
    RunKeeps(states, events, n);
    var s := states[n];
    assert IsTicket(s, s.calls[i].action, s.calls[i].ticket);
    assert SnapshotFirst(s, s.rows[s.calls[i].action]);
  }

  // ---------------------------------------------------------------- one owner for each machine

  /** A creation, its server record and its machine agree on the marker, so no machine has two owners. */
  lemma NoSharedMachine(states: seq<State>, events: seq<Event>, n: nat, a: ActionId, b: ActionId)
    requires IsRun(states, events) && Init(states[0]) && n < |states| && a != b
    ensures IsBoundCreation(states[n], a) && IsBoundCreation(states[n], b) ==>
              states[n].rows[a].remote != states[n].rows[b].remote
    ensures a in states[n].servers && b in states[n].servers ==> states[n].servers[a] != states[n].servers[b]
  {
    RunKeeps(states, events, n);
  }

  predicate IsBoundCreation(s: State, a: ActionId)
  {
    a in s.rows && s.rows[a].verb == Create && s.rows[a].remote.Some?
  }

  /** What a creation is bound to in its row or its server record is a machine that carries its marker. */
  lemma BoundMachineIsItsOwn(states: seq<State>, events: seq<Event>, n: nat, a: ActionId)
    requires IsRun(states, events) && Init(states[0]) && n < |states|
    ensures IsBoundCreation(states[n], a) ==> IsMarked(states[n], states[n].rows[a].remote.value, a)
    ensures a in states[n].servers ==> IsMarked(states[n], states[n].servers[a], a)
  {
    RunKeeps(states, events, n);
  }

  /** A creation sent once has one machine, and its row, its server record and its workers all name it. */
  lemma OneIdentity(states: seq<State>, events: seq<Event>, n: nat, a: ActionId, vm: VmId, other: VmId)
    requires IsRun(states, events) && Init(states[0]) && n < |states| && Retries(events[..n], a) == 0
    requires a in states[n].rows
    requires IsMarked(states[n], vm, a) && IsMarked(states[n], other, a)
    ensures vm == other
  {
    AtMostOneCall(states, events, a, n);
    if vm != other {
      assert {vm, other} <= MachinesOf(states[n], a);
      SubsetIsSmaller({vm, other}, MachinesOf(states[n], a));
    }
  }

  // ---------------------------------------------------------------- sound settlement

  /** A call of the action may still reach the region: it is on its way, or a worker is about to make it. */
  ghost predicate IsOutstanding(s: State, a: ActionId)
  {
    || (exists i :: 0 <= i < |s.calls| && s.calls[i].action == a && s.calls[i].fate == InFlight)
    || (exists w :: w in s.pcs && s.pcs[w].Ready? && s.pcs[w].action == a)
  }

  /** Nothing can build another machine for the action, and every one it has is among the first `bound`. */
  ghost predicate IsQuiet(s: State, a: ActionId, bound: nat)
  {
    && a in s.rows && s.rows[a].status != Queued && !IsOutstanding(s, a)
    && forall m :: 0 <= m < |s.machines| && s.machines[m].marker == a ==> m < bound
  }

  lemma WorkerKeepsQuiet(s: State, w: WorkerId, step: Step, a: ActionId, bound: nat)
    requires LocksHold(s) && WorkerEnabled(s, w, step) && IsQuiet(s, a, bound)
    ensures IsQuiet(WorkerStep(s, w, step), a, bound)
  {
    assert w in s.pcs && LockHolds(s, s.pcs[w], w);
    var t := WorkerStep(s, w, step);
    WorkerKeepsRetries(s, w, step, a);
    assert t.machines == s.machines;
    QuietRow(s, w, step, a);
    QuietCalls(s, w, step, a);
  }

  lemma QuietCalls(s: State, w: WorkerId, step: Step, a: ActionId)
    requires LocksHold(s) && WorkerEnabled(s, w, step) && a in s.rows && s.rows[a].status != Queued
    requires !IsOutstanding(s, a)
    ensures !IsOutstanding(WorkerStep(s, w, step), a)
  {
    assert w in s.pcs && LockHolds(s, s.pcs[w], w);
    var t := WorkerStep(s, w, step);
    if step == Transmit {
      assert s.pcs[w].action != a;
      forall i | 0 <= i < |t.calls| && t.calls[i].action == a ensures t.calls[i].fate != InFlight {
        assert t.calls[i] == s.calls[i];
      }
    } else {
      assert t.calls == s.calls;
    }
    forall v | v in t.pcs && t.pcs[v].Ready? ensures t.pcs[v].action != a {
      if v != w {
        assert t.pcs[v] == s.pcs[v];
      }
    }
  }

  lemma QuietRow(s: State, w: WorkerId, step: Step, a: ActionId)
    requires LocksHold(s) && WorkerEnabled(s, w, step) && a in s.rows && s.rows[a].status != Queued
    ensures a in WorkerStep(s, w, step).rows && WorkerStep(s, w, step).rows[a].status != Queued
  {
    assert w in s.pcs && LockHolds(s, s.pcs[w], w);
  }

  lemma OutsideKeepsQuiet(s: State, o: Outside, a: ActionId, bound: nat)
    requires OutsideEnabled(s, o) && IsQuiet(s, a, bound) && o != Retry(a)
    ensures IsQuiet(OutsideStep(s, o), a, bound)
  {
  }

  lemma QuietStep(s: State, e: Event, a: ActionId, bound: nat)
    requires LocksHold(s) && Enabled(s, e) && IsQuiet(s, a, bound) && !IsRetryOf(e, a)
    ensures IsQuiet(Apply(s, e), a, bound)
  {
    match e
    case Worker(w, step) => WorkerKeepsQuiet(s, w, step, a, bound);
    case Environment(o) => OutsideKeepsQuiet(s, o, a, bound);
  }

  lemma {:induction false} QuietStays(states: seq<State>, events: seq<Event>, a: ActionId, k: nat, n: nat)
    requires IsRun(states, events) && Init(states[0]) && k <= n < |states|
    requires IsQuiet(states[k], a, |states[k].machines|)
    requires forall i :: k <= i < n ==> !IsRetryOf(events[i], a)
    ensures IsQuiet(states[n], a, |states[k].machines|)
  {
    if k < n {
      QuietStays(states, events, a, k, n - 1);
      QuietAt(states, events, a, n - 1, |states[k].machines|);
    }
  }

  lemma QuietAt(states: seq<State>, events: seq<Event>, a: ActionId, i: nat, bound: nat)
    requires IsRun(states, events) && Init(states[0]) && i < |events|
    requires IsQuiet(states[i], a, bound) && !IsRetryOf(events[i], a)
    ensures IsQuiet(states[i + 1], a, bound)
  {
    RunKeeps(states, events, i);
    QuietStep(states[i], events[i], a, bound);
  }

  predicate HasMatch(s: State, a: ActionId)
    requires a in s.rows
  {
    exists m :: 0 <= m < |s.machines| && IsMatch(s, a, m)
  }

  /** Sound settlement. Let no call of the action be outstanding at step `k`, let no machine vanish during a search
      that began at `k` or later and settles the action as not accepted, and let no match be older than the dispatch
      that search looks behind. Then no machine of the action exists from then on. */
  lemma SettlementSound(states: seq<State>, events: seq<Event>, a: ActionId, k: nat, n: nat)
    requires IsRun(states, events) && Init(states[0]) && k <= n < |states|
    requires a in states[k].rows && states[k].rows[a].status != Queued && !IsOutstanding(states[k], a)
    requires forall i :: k <= i < n ==> !IsRetryOf(events[i], a)
    requires a in states[n].settled && |states[k].machines| <= states[n].settled[a].since
    requires !states[n].settled[a].hasShrunk
    requires a in states[n].rows && NoneMatch(states[n], a, 0, states[n].settled[a].floor)
    ensures !HasMatch(states[n], a)
  {
    QuietStays(states, events, a, k, n);
    RunKeeps(states, events, n);
    var s := states[n];
    assert SettledFor(s, a, s.settled[a]);
    forall m | 0 <= m < |s.machines| ensures !IsMatch(s, a, m) {
      assert s.machines[m].marker == a ==> m < s.settled[a].since;
    }
  }

  /** Without a retry no match is older than the dispatch: a creation sent once leaves only that to the search. */
  lemma OwnMachinesAreNewer(states: seq<State>, events: seq<Event>, a: ActionId, n: nat)
    requires IsRun(states, events) && Init(states[0]) && n < |states|
    requires a in states[n].settled && Retries(events[..n], a) == 0
    ensures a in states[n].rows && NoneMatch(states[n], a, 0, states[n].settled[a].floor)
  {
    RunKeeps(states, events, n);
    RetriesCounted(states, events, a, n);
    var s := states[n];
    assert SettledFor(s, a, s.settled[a]) && DispatchBounded(s.rows[a]) && FloorHolds(s, a, s.rows[a]);
  }

  // ---------------------------------------------------------------- when a settlement can be false

  predicate IsVanish(e: Event)
  {
    e.Environment? && e.outside.Vanish?
  }

  /** The step settles the action as not accepted. */
  predicate Settles(s: State, e: Event, a: ActionId)
  {
    e.Worker? && e.step.FindNothing? && e.w in s.pcs && s.pcs[e.w].Searching? && s.pcs[e.w].action == a
  }

  /** `t` can follow from `s` without a retry of the action, and without a machine that vanishes unless
      `mayVanish`. `settles` says that the action is settled as not accepted on the way. */
  ghost predicate Leads(s: State, t: State, a: ActionId, mayVanish: bool, settles: bool)
  {
    exists states, events :: IsWay(states, events, s, t, a, mayVanish, settles)
  }

  ghost predicate IsWay(states: seq<State>, events: seq<Event>, s: State, t: State, a: ActionId, mayVanish: bool,
                        settles: bool)
  {
    && IsRun(states, events) && states[0] == s && states[|events|] == t
    && (forall i :: 0 <= i < |events| ==> !IsRetryOf(events[i], a) && (mayVanish || !IsVanish(events[i])))
    && (settles ==> exists i :: 0 <= i < |events| && Settles(states[i], events[i], a))
  }

  lemma LeadsToItself(s: State, a: ActionId, mayVanish: bool)
    ensures Leads(s, s, a, mayVanish, false)
  {
    assert IsWay([s], [], s, s, a, mayVanish, false);
  }

  lemma LeadsOn(s: State, t: State, a: ActionId, mayVanish: bool, settles: bool, e: Event)
    requires Leads(s, t, a, mayVanish, settles) && Enabled(t, e)
    requires !IsRetryOf(e, a) && (mayVanish || !IsVanish(e))
    ensures Leads(s, Apply(t, e), a, mayVanish, settles || Settles(t, e, a))
  {
    var states, events :| IsWay(states, events, s, t, a, mayVanish, settles);
    RunGoesOn(states, events, e);
    WayGoesOn(states, events, states + [Apply(t, e)], events + [e], s, t, a, mayVanish, settles, e);
  }

  lemma RunGoesOn(states: seq<State>, events: seq<Event>, e: Event)
    requires IsRun(states, events) && Enabled(states[|events|], e)
    ensures IsRun(states + [Apply(states[|events|], e)], events + [e])
  {
  }

  lemma WayGoesOn(states: seq<State>, events: seq<Event>, more: seq<State>, longer: seq<Event>, s: State, t: State,
                  a: ActionId, mayVanish: bool, settles: bool, e: Event)
    requires IsWay(states, events, s, t, a, mayVanish, settles) && IsRun(more, longer)
    requires longer == events + [e] && states <= more && !IsRetryOf(e, a) && (mayVanish || !IsVanish(e))
    ensures IsWay(more, longer, s, more[|longer|], a, mayVanish, settles || Settles(t, e, a))
  {
    if settles {
      var i :| 0 <= i < |events| && Settles(states[i], events[i], a);
      assert more[i] == states[i] && longer[i] == events[i];
    } else if Settles(t, e, a) {
      assert more[|events|] == t && longer[|events|] == e;
    }
  }

  /** From `s` the action can end settled as not accepted while a machine of it exists. */
  ghost predicate CanOrphan(s: State, a: ActionId, mayVanish: bool)
  {
    exists t :: Leads(s, t, a, mayVanish, true) && a in t.rows && HasMatch(t, a)
  }

  /** A search of the action's last dispatch that has just begun. */
  predicate HasJustBegun(s: State, w: WorkerId, a: ActionId)
  {
    w in s.pcs && a in s.rows && s.pcs[w] == Searching(a, Begin(s, s.rows[a].floor)) && s.rows[a].status != Queued
  }

  /** The exact condition over all runs. A search that begins can end in a false "not accepted" if and only if a call
      of the action is still outstanding, or a machine of it is listed: machines that join and vanish between two
      pages can carry any listed machine past both. */
  lemma FalseSettlementIff(states: seq<State>, events: seq<Event>, n: nat, w: WorkerId, a: ActionId)
    requires IsRun(states, events) && Init(states[0]) && n < |states| && HasJustBegun(states[n], w, a)
    ensures CanOrphan(states[n], a, true) <==> IsOutstanding(states[n], a) || HasMatch(states[n], a)
  {
    var s := states[n];
    RunKeeps(states, events, n);
    if IsOutstanding(s, a) {
      OutstandingOrphans(s, w, a);
    } else if HasMatch(s, a) {
      ListedOrphans(s, w, a);
    }
    if CanOrphan(s, a, true) && !IsOutstanding(s, a) && !HasMatch(s, a) {
      var t :| Leads(s, t, a, true, true) && a in t.rows && HasMatch(t, a);
      BarrenLeads(s, t, a, true, true);
      assert false;
    }
  }

  /** A time every search of the action looks behind, or will without a retry: the row's floor, and every dispatch a
      worker of the action remembers. */
  ghost predicate IsInView(s: State, a: ActionId, m: VmId)
    requires a in s.rows
  {
    && s.rows[a].floor <= m
    && forall w :: w in s.pcs && ActionOf(s.pcs[w]) == Some(a) ==> LooksBehind(s.pcs[w], m)
  }

  predicate LooksBehind(pc: Pc, m: VmId)
  {
    match pc
    case Ready(_, _, sentAt) => sentAt <= m
    case Waiting(_, _, sentAt) => sentAt <= m
    case Searching(_, search) => search.floor <= m
    case _ => true
  }

  ghost predicate NoneInView(s: State, a: ActionId)
    requires a in s.rows
  {
    forall m :: 0 <= m < |s.machines| && IsMatch(s, a, m) ==> !IsInView(s, a, m)
  }

  /** The exact condition while no machine vanishes: every listed match is older than a dispatch some search still
      looks behind, which takes a retry, and there is one such match or a call is outstanding. */
  lemma FalseSettlementIffStill(states: seq<State>, events: seq<Event>, n: nat, w: WorkerId, a: ActionId)
    requires IsRun(states, events) && Init(states[0]) && n < |states| && HasJustBegun(states[n], w, a)
    ensures CanOrphan(states[n], a, false) <==>
            NoneInView(states[n], a) && (IsOutstanding(states[n], a) || HasMatch(states[n], a))
  {
    RunKeeps(states, events, n);
    if CanOrphan(states[n], a, false) {
      StillOrphanNeeds(states[n], w, a);
    }
    if NoneInView(states[n], a) && (IsOutstanding(states[n], a) || HasMatch(states[n], a)) {
      StillOrphanComes(states[n], w, a);
    }
  }

  lemma StillOrphanNeeds(s: State, w: WorkerId, a: ActionId)
    requires Inv(s) && HasJustBegun(s, w, a) && CanOrphan(s, a, false)
    ensures NoneInView(s, a) && (IsOutstanding(s, a) || HasMatch(s, a))
  {
    var t :| Leads(s, t, a, false, true) && a in t.rows && HasMatch(t, a);
    if !IsOutstanding(s, a) && !HasMatch(s, a) {
      BarrenLeads(s, t, a, false, true);
    }
    forall m | 0 <= m < |s.machines| && IsMatch(s, a, m) ensures !IsInView(s, a, m) {
      if IsInView(s, a, m) {
        SeenLeads(s, w, t, a, m);
      }
    }
  }

  lemma StillOrphanComes(s: State, w: WorkerId, a: ActionId)
    requires Inv(s) && HasJustBegun(s, w, a) && (IsOutstanding(s, a) || HasMatch(s, a))
    requires NoneInView(s, a)
    ensures CanOrphan(s, a, false)
  {
    assert LockHolds(s, s.pcs[w], w);
    LeadsToItself(s, a, false);
    var v := LatestDispatch(s, a, s.pcs.Keys);
    if v == None {
      SettlesHere(s, s, w, a);
    } else {
      var t := LateSearchBegins(s, w, v.value, a);
      SettlesHere(s, t, v.value, a);
    }
  }

  /** The worker remembers a dispatch of the action, not yet answered. */
  predicate Remembers(pc: Pc, a: ActionId)
  {
    (pc.Ready? || pc.Waiting?) && pc.action == a
  }

  /** Among `workers`, the one that remembers the latest dispatch of the action later than the row's floor. */
  lemma {:induction false} LatestDispatch(s: State, a: ActionId, workers: set<WorkerId>) returns (v: Option<WorkerId>)
    requires a in s.rows && workers <= s.pcs.Keys
    ensures v.Some? ==> v.value in workers && Remembers(s.pcs[v.value], a) && s.rows[a].floor < s.pcs[v.value].sentAt
    ensures forall w :: w in workers && Remembers(s.pcs[w], a) ==>
              s.pcs[w].sentAt <= if v.Some? then s.pcs[v.value].sentAt else s.rows[a].floor
    decreases |workers|
  {
    v := None;
    if workers != {} {
      var w :| w in workers;
      v := LatestDispatch(s, a, workers - {w});
      if Remembers(s.pcs[w], a) && s.pcs[w].sentAt > (if v.Some? then s.pcs[v.value].sentAt else s.rows[a].floor) {
        v := Some(w);
      }
      assert forall x :: x in workers ==> x == w || x in workers - {w};
    }
  }

  /** The first search crashes, and the worker with the latest dispatch loses its reply and searches. */
  lemma LateSearchBegins(s: State, w: WorkerId, v: WorkerId, a: ActionId) returns (t: State)
    requires LocksHold(s) && HasJustBegun(s, w, a) && NoneInView(s, a)
    requires v in s.pcs && Remembers(s.pcs[v], a) && s.rows[a].floor < s.pcs[v].sentAt
    requires forall u :: u in s.pcs && Remembers(s.pcs[u], a) ==> s.pcs[u].sentAt <= s.pcs[v].sentAt
    ensures Leads(s, t, a, false, false) && SearchesBarely(t, v, a) && t.rows == s.rows && t.machines == s.machines
    ensures IsOutstanding(s, a) ==> IsOutstanding(t, a)
    ensures HasMatch(s, a) ==> HasMatch(t, a)
  {
    assert LockHolds(s, s.pcs[w], w);
    LeadsToItself(s, a, false);
    LeadsOn(s, s, a, false, false, Worker(w, Leave));
    var free := Rollback(s, w, Idle);
    var sent := ReplyIsAwaited(s, free, v, a);
    LeadsOn(s, sent, a, false, false, Worker(v, LoseReply));
    t := DoLoseReply(sent, v);
    if IsOutstanding(s, a) {
      OutstandingStays(s, free, w, a);
      OutstandingStays(sent.(pcs := sent.pcs[v := Idle]), t, v, a);
    }
    forall m ensures IsMatch(t, a, m) <==> IsMatch(s, a, m) {
    }
  }

  /** The worker makes its call, if it has not yet, and waits. */
  lemma ReplyIsAwaited(s: State, free: State, v: WorkerId, a: ActionId) returns (sent: State)
    requires Leads(s, free, a, false, false) && v in free.pcs && Remembers(free.pcs[v], a)
    requires a in free.rows && a !in free.locks
    ensures Leads(s, sent, a, false, false) && Awaits(sent, v) && sent.pcs[v].action == a
    ensures sent.pcs[v].sentAt == free.pcs[v].sentAt && sent.rows == free.rows && sent.machines == free.machines
    ensures IsOutstanding(free, a) ==> IsOutstanding(sent.(pcs := sent.pcs[v := Idle]), a)
  {
    if free.pcs[v].Ready? {
      LeadsOn(s, free, a, false, false, Worker(v, Transmit));
      sent := DoTransmit(free, v);
      assert sent.calls[|free.calls|] == Call(a, free.pcs[v].ticket, InFlight);
    } else {
      sent := free;
      var other := sent.(pcs := sent.pcs[v := Idle]);
      assert forall w :: w in free.pcs && free.pcs[w].Ready? ==> w in other.pcs && other.pcs[w] == free.pcs[w];
    }
  }

  /** A search that can meet no match settles the action, and a match is there or still comes. */
  lemma SettlesHere(s: State, t: State, w: WorkerId, a: ActionId)
    requires Leads(s, t, a, false, false) && SearchesBarely(t, w, a) && t.rows[a].verb == Create
    requires IsOutstanding(t, a) || HasMatch(t, a)
    ensures CanOrphan(s, a, false)
  {
    var u := SearchEnds(s, t, w, a);
    SettledThenMatched(s, u, a, t);
  }

  // ---------------------------------------------------------------- nothing to find

  /** Nothing of the action is listed and nothing more can be built for it. */
  ghost predicate IsBarren(s: State, a: ActionId)
  {
    a in s.rows && s.rows[a].status != Queued && !IsOutstanding(s, a) && !HasMatch(s, a)
  }

  lemma BarrenStep(s: State, e: Event, a: ActionId)
    requires Inv(s) && Enabled(s, e) && IsBarren(s, a) && !IsRetryOf(e, a)
    ensures IsBarren(Apply(s, e), a)
  {
    match e
    case Worker(w, step) => WorkerKeepsBarren(s, w, step, a);
    case Environment(o) => OutsideKeepsBarren(s, o, a);
  }

  lemma WorkerKeepsBarren(s: State, w: WorkerId, step: Step, a: ActionId)
    requires LocksHold(s) && WorkerEnabled(s, w, step) && IsBarren(s, a)
    ensures IsBarren(WorkerStep(s, w, step), a)
  {
    assert IsQuiet(s, a, |s.machines|);
    WorkerKeepsQuiet(s, w, step, a, |s.machines|);
    WorkerBuildsNothing(s, w, step, a);
  }

  lemma OutsideKeepsBarren(s: State, o: Outside, a: ActionId)
    requires OutsideEnabled(s, o) && IsBarren(s, a) && o != Retry(a)
    ensures IsBarren(OutsideStep(s, o), a)
  {
    assert IsQuiet(s, a, |s.machines|);
    OutsideKeepsQuiet(s, o, a, |s.machines|);
    OutsideBuildsNothing(s, o, a);
  }

  lemma OutsideBuildsNothing(s: State, o: Outside, a: ActionId)
    requires OutsideEnabled(s, o) && IsBarren(s, a) && o != Retry(a)
    ensures a in OutsideStep(s, o).rows && !HasMatch(OutsideStep(s, o), a)
  {
    var t := OutsideStep(s, o);
    forall m | 0 <= m < |t.machines| ensures !IsMatch(t, a, m) {
      assert m < |s.machines| ==> !IsMatch(s, a, m);
    }
  }

  lemma WorkerBuildsNothing(s: State, w: WorkerId, step: Step, a: ActionId)
    requires LocksHold(s) && WorkerEnabled(s, w, step) && a in s.rows
    ensures var t := WorkerStep(s, w, step);
            && t.machines == s.machines && a in t.rows
            && (forall m :: IsMatch(t, a, m) <==> IsMatch(s, a, m))
            && (s.rows[a].status != Queued ==> t.rows[a].floor == s.rows[a].floor)
  {
    assert w in s.pcs && LockHolds(s, s.pcs[w], w);
  }

  lemma {:induction false} BarrenStays(states: seq<State>, events: seq<Event>, a: ActionId, n: nat)
    requires IsRun(states, events) && Inv(states[0]) && n < |states| && IsBarren(states[0], a)
    requires forall i :: 0 <= i < |events| ==> !IsRetryOf(events[i], a)
    ensures IsBarren(states[n], a)
  {
    if n > 0 {
      BarrenStays(states, events, a, n - 1);
      RunKeepsFrom(states, events, n - 1);
      BarrenStep(states[n - 1], events[n - 1], a);
    }
  }

  lemma BarrenLeads(s: State, t: State, a: ActionId, mayVanish: bool, settles: bool)
    requires Inv(s) && IsBarren(s, a) && Leads(s, t, a, mayVanish, settles)
    ensures IsBarren(t, a)
  {
    var states, events :| IsWay(states, events, s, t, a, mayVanish, settles);
    BarrenStays(states, events, a, |events|);
  }

  // ---------------------------------------------------------------- a match no search passes by

  /** A match in view that every search under way started from. */
  ghost predicate IsSeen(s: State, a: ActionId, m: VmId)
  {
    && a in s.rows && s.rows[a].status != Queued && IsMatch(s, a, m) && IsInView(s, a, m)
    && forall w :: w in s.pcs && s.pcs[w].Searching? && s.pcs[w].action == a ==>
                   !s.pcs[w].search.hasShrunk && m < s.pcs[w].search.since
  }

  lemma SeenStep(s: State, e: Event, a: ActionId, m: VmId)
    requires Inv(s) && Enabled(s, e) && IsSeen(s, a, m) && !IsRetryOf(e, a) && !IsVanish(e)
    ensures IsSeen(Apply(s, e), a, m) && !Settles(s, e, a)
  {
    match e
    case Worker(w, step) =>
      SeenIsNotSettled(s, w, step, a, m);
      WorkerKeepsSeen(s, w, step, a, m);
    case Environment(o) => OutsideKeepsSeen(s, o, a, m);
  }

  lemma SeenIsNotSettled(s: State, w: WorkerId, step: Step, a: ActionId, m: VmId)
    requires LocksHold(s) && SearchesHold(s) && WorkerEnabled(s, w, step) && IsSeen(s, a, m)
    ensures !Settles(s, Worker(w, step), a)
  {
    if Settles(s, Worker(w, step), a) {
      assert LockHolds(s, s.pcs[w], w);
      CleanSearchIsRight(s, w, step.end);
      assert false;
    }
  }

  lemma WorkerKeepsSeen(s: State, w: WorkerId, step: Step, a: ActionId, m: VmId)
    requires LocksHold(s) && WorkerEnabled(s, w, step) && IsSeen(s, a, m)
    ensures IsSeen(WorkerStep(s, w, step), a, m)
  {
    QuietRow(s, w, step, a);
    WorkerBuildsNothing(s, w, step, a);
    WorkerKeepsView(s, w, step, a, m);
    WorkerSearchesSee(s, w, step, a, m);
  }

  lemma WorkerKeepsView(s: State, w: WorkerId, step: Step, a: ActionId, m: VmId)
    requires LocksHold(s) && WorkerEnabled(s, w, step) && a in s.rows && s.rows[a].status != Queued
    requires IsInView(s, a, m) && m < |s.machines| && a in WorkerStep(s, w, step).rows
    ensures IsInView(WorkerStep(s, w, step), a, m)
  {
    var t := WorkerStep(s, w, step);
    WorkerBuildsNothing(s, w, step, a);
    forall v | v in t.pcs && ActionOf(t.pcs[v]) == Some(a) ensures LooksBehind(t.pcs[v], m) {
      if v == w {
        OwnStepLooksBehind(s, w, step, a, m);
      }
    }
  }

  lemma OwnStepLooksBehind(s: State, w: WorkerId, step: Step, a: ActionId, m: VmId)
    requires LocksHold(s) && WorkerEnabled(s, w, step) && a in s.rows && s.rows[a].status != Queued
    requires IsInView(s, a, m)
    ensures var t := WorkerStep(s, w, step);
            w in t.pcs && (ActionOf(t.pcs[w]) == Some(a) ==> LooksBehind(t.pcs[w], m))
  {
    assert w in s.pcs && LockHolds(s, s.pcs[w], w);
  }

  lemma OutsideKeepsSeen(s: State, o: Outside, a: ActionId, m: VmId)
    requires OutsideEnabled(s, o) && IsSeen(s, a, m) && o != Retry(a) && !o.Vanish?
    ensures IsSeen(OutsideStep(s, o), a, m)
  {
    var t := OutsideStep(s, o);
    assert t.pcs == s.pcs && t.machines[m] == s.machines[m];
  }

  lemma WorkerSearchesSee(s: State, w: WorkerId, step: Step, a: ActionId, m: VmId)
    requires LocksHold(s) && WorkerEnabled(s, w, step) && IsSeen(s, a, m)
    ensures var t := WorkerStep(s, w, step);
            forall v :: v in t.pcs && t.pcs[v].Searching? && t.pcs[v].action == a ==>
                        !t.pcs[v].search.hasShrunk && m < t.pcs[v].search.since
  {
    var t := WorkerStep(s, w, step);
    forall v | v in t.pcs && t.pcs[v].Searching? && t.pcs[v].action == a
      ensures !t.pcs[v].search.hasShrunk && m < t.pcs[v].search.since
    {
      if v == w {
        OwnSearchSees(s, w, step, a, m);
      }
    }
  }

  lemma OwnSearchSees(s: State, w: WorkerId, step: Step, a: ActionId, m: VmId)
    requires LocksHold(s) && WorkerEnabled(s, w, step) && IsSeen(s, a, m)
    ensures var t := WorkerStep(s, w, step);
            w in t.pcs
            && (t.pcs[w].Searching? && t.pcs[w].action == a ==>
                  !t.pcs[w].search.hasShrunk && m < t.pcs[w].search.since)
  {
  }

  lemma {:induction false} SeenStays(states: seq<State>, events: seq<Event>, a: ActionId, m: VmId, n: nat)
    requires IsRun(states, events) && Inv(states[0]) && n < |states| && IsSeen(states[0], a, m)
    requires forall i :: 0 <= i < |events| ==> !IsRetryOf(events[i], a) && !IsVanish(events[i])
    ensures IsSeen(states[n], a, m) && forall i :: 0 <= i < n ==> !Settles(states[i], events[i], a)
  {
    if n > 0 {
      SeenStays(states, events, a, m, n - 1);
      RunKeepsFrom(states, events, n - 1);
      SeenStep(states[n - 1], events[n - 1], a, m);
    }
  }

  lemma SeenLeads(s: State, w: WorkerId, t: State, a: ActionId, m: VmId)
    requires Inv(s) && HasJustBegun(s, w, a) && IsMatch(s, a, m) && IsInView(s, a, m)
    ensures !Leads(s, t, a, false, true)
  {
    forall v | v in s.pcs && s.pcs[v].Searching? && s.pcs[v].action == a
      ensures !s.pcs[v].search.hasShrunk && m < s.pcs[v].search.since
    {
      assert LockHolds(s, s.pcs[v], v) && LockHolds(s, s.pcs[w], w);
    }
    if Leads(s, t, a, false, true) {
      var states, events :| IsWay(states, events, s, t, a, false, true);
      SeenStays(states, events, a, m, |events|);
      assert false;
    }
  }

  // ---------------------------------------------------------------- the ways into a false settlement

  /** The newest machine of the page older than the dispatch, if there is one. */
  lemma {:induction false} FirstOld(s: State, a: ActionId, search: Search, below: nat) returns (x: Option<VmId>)
    requires a in s.rows && below <= search.floor
    ensures x.Some? ==> x.value < below && IsOnPage(s.machines, s.rows[a].tenant, x.value, search.offset)
    ensures forall m :: (if x.Some? then x.value + 1 else 0) <= m < below ==>
                        !IsOnPage(s.machines, s.rows[a].tenant, m, search.offset)
    decreases below
  {
    if below == 0 {
      x := None;
    } else if IsOnPage(s.machines, s.rows[a].tenant, below - 1, search.offset) {
      x := Some(below - 1);
    } else {
      x := FirstOld(s, a, search, below - 1);
    }
  }

  /** A search with no match built since its dispatch runs to its end and finds nothing. */
  lemma {:induction false} SearchEnds(s: State, t: State, w: WorkerId, a: ActionId) returns (u: State)
    requires Leads(s, t, a, false, false) && SearchesBarely(t, w, a)
    ensures Leads(s, u, a, false, true) && u.machines == t.machines && u.calls == t.calls
    ensures a in t.rows && u.rows == t.rows[a := t.rows[a].(status := Failed)]
    ensures w in t.pcs && u.pcs == t.pcs[w := Idle]
    decreases Listed(t.machines, t.rows[a].tenant, 0) + PAGE - t.pcs[w].search.offset
  {
    var x := PageEnd(t, w, a);
    if x.Some? || !IsPageFull(t, t.rows[a].tenant, t.pcs[w].search.offset) {
      LeadsOn(s, t, a, false, false, Worker(w, FindNothing(x)));
      u := DoFindNothing(t, w, x);
    } else {
      LeadsOn(s, t, a, false, false, Worker(w, TurnPage));
      PageTurned(t, w, a);
      u := SearchEnds(s, DoTurnPage(t, w), w, a);
    }
  }

  ghost predicate SearchesBarely(t: State, w: WorkerId, a: ActionId)
  {
    && w in t.pcs && a in t.rows && t.pcs[w].Searching? && t.pcs[w].action == a
    && NoneMatch(t, a, t.pcs[w].search.floor, |t.machines|)
  }

  /** Where the search stops on this page, if it does, and that it meets no match before. */
  lemma PageEnd(t: State, w: WorkerId, a: ActionId) returns (x: Option<VmId>)
    requires SearchesBarely(t, w, a)
    ensures x.Some? || !IsPageFull(t, t.rows[a].tenant, t.pcs[w].search.offset) ==> MayFindNothing(t, w, x)
    ensures x == None && IsPageFull(t, t.rows[a].tenant, t.pcs[w].search.offset) ==> MayTurnPage(t, w)
  {
    var search := t.pcs[w].search;
    x := FirstOld(t, a, search, search.floor);
    forall m | (if x.Some? then x.value + 1 else 0) <= m < |t.machines|
               && IsOnPage(t.machines, t.rows[a].tenant, m, search.offset)
      ensures !IsMatch(t, a, m)
    {
      assert search.floor <= m;
    }
  }

  lemma PageTurned(t: State, w: WorkerId, a: ActionId)
    requires SearchesBarely(t, w, a) && MayTurnPage(t, w)
    ensures SearchesBarely(DoTurnPage(t, w), w, a)
  {
    forall m | t.pcs[w].search.floor <= m < |t.machines| ensures !IsMatch(DoTurnPage(t, w), a, m) {
      assert !IsMatch(t, a, m);
    }
  }

  /** After the settlement the match is there already, or an outstanding call lands. */
  lemma SettledThenMatched(s: State, t: State, a: ActionId, was: State)
    requires Leads(s, t, a, false, true) && a in was.rows && (IsOutstanding(was, a) || HasMatch(was, a))
    requires t.machines == was.machines && t.calls == was.calls && was.rows[a].verb == Create
    requires t.rows == was.rows[a := was.rows[a].(status := Failed)]
    requires forall v :: v in was.pcs && was.pcs[v].Ready? ==> v in t.pcs && t.pcs[v] == was.pcs[v]
    ensures CanOrphan(s, a, false)
  {
    if HasMatch(was, a) {
      var m :| 0 <= m < |was.machines| && IsMatch(was, a, m);
      assert IsMatch(t, a, m);
    } else {
      OutstandingLands(s, t, a, false);
    }
  }

  lemma OutstandingLands(s: State, t: State, a: ActionId, mayVanish: bool)
    requires Leads(s, t, a, mayVanish, true) && a in t.rows && t.rows[a].verb == Create && IsOutstanding(t, a)
    ensures CanOrphan(s, a, mayVanish)
  {
    if i :| 0 <= i < |t.calls| && t.calls[i].action == a && t.calls[i].fate == InFlight {
      CallLands(s, t, a, mayVanish, i);
    } else {
      var v :| v in t.pcs && t.pcs[v].Ready? && t.pcs[v].action == a;
      LeadsOn(s, t, a, mayVanish, true, Worker(v, Transmit));
      CallLands(s, DoTransmit(t, v), a, mayVanish, |t.calls|);
    }
  }

  lemma CallLands(s: State, t: State, a: ActionId, mayVanish: bool, i: nat)
    requires Leads(s, t, a, mayVanish, true) && a in t.rows && t.rows[a].verb == Create
    requires IsInFlight(t, i) && t.calls[i].action == a
    ensures CanOrphan(s, a, mayVanish)
  {
    LeadsOn(s, t, a, mayVanish, true, Environment(Land(i)));
    var u := DoLand(t, i);
    assert IsMatch(u, a, |t.machines|);
  }

  /** What a run of vanishing machines leaves as it was. */
  ghost predicate OnlyShrank(t: State, u: State)
  {
    && u.rows == t.rows && u.calls == t.calls && |u.machines| == |t.machines| && u.pcs.Keys == t.pcs.Keys
    && (forall v :: v in t.pcs ==> u.pcs[v] == t.pcs[v] || u.pcs[v] == Shrunk(t.pcs[v]))
    && forall m :: 0 <= m < |t.machines| ==> MachineGrows(t.machines[m], u.machines[m])
  }

  lemma VanishOn(s: State, t: State, a: ActionId, m: VmId) returns (u: State)
    requires Leads(s, t, a, true, false) && m < |t.machines|
    ensures Leads(s, u, a, true, false) && u == DoVanish(t, m)
  {
    LeadsOn(s, t, a, true, false, Environment(Vanish(m)));
    u := DoVanish(t, m);
  }

  /** Every machine but `keep` can vanish, one after the other. */
  lemma {:induction false} AllVanish(s: State, t: State, a: ActionId, keep: nat, upTo: nat)
    returns (u: State)
    requires Leads(s, t, a, true, false) && upTo <= |t.machines|
    ensures Leads(s, u, a, true, false) && OnlyShrank(t, u)
    ensures forall m :: 0 <= m < upTo && m != keep ==> !u.machines[m].isAlive
    ensures keep < |t.machines| ==> u.machines[keep] == t.machines[keep]
    decreases upTo
  {
    if upTo == 0 {
      u := t;
    } else {
      u := AllVanish(s, t, a, keep, upTo - 1);
      if upTo - 1 != keep {
        u := VanishOn(s, u, a, upTo - 1);
      }
    }
  }

  /** When at most one machine is left, one page shows the whole list. */
  lemma {:induction false} FewListed(machines: seq<Machine>, tenant: nat, keep: nat, from: nat)
    requires forall m :: 0 <= m < |machines| && m != keep ==> !machines[m].isAlive
    ensures Listed(machines, tenant, from) <= (if from <= keep then 1 else 0)
    decreases |machines| - from
  {
    if from < |machines| {
      FewListed(machines, tenant, keep, from + 1);
    }
  }

  lemma OneIsLeft(s: State, t: State, a: ActionId, keep: nat) returns (u: State)
    requires Leads(s, t, a, true, false) && a in t.rows
    ensures Leads(s, u, a, true, false) && OnlyShrank(t, u) && Listed(u.machines, u.rows[a].tenant, 0) <= 1
    ensures keep < |t.machines| ==> u.machines[keep] == t.machines[keep]
    ensures keep >= |t.machines| ==> !HasMatch(u, a)
  {
    u := AllVanish(s, t, a, keep, |t.machines|);
    FewListed(u.machines, u.rows[a].tenant, keep, 0);
  }

  /** A call is outstanding: the list empties, the search finds nothing, and the call lands. */
  lemma OutstandingOrphans(s: State, w: WorkerId, a: ActionId)
    requires Inv(s) && HasJustBegun(s, w, a) && IsOutstanding(s, a)
    ensures CanOrphan(s, a, true)
  {
    assert LockHolds(s, s.pcs[w], w);
    LeadsToItself(s, a, true);
    var t := OneIsLeft(s, s, a, |s.machines|);
    SettledWhileOut(s, t, w, a);
  }

  lemma SettledWhileOut(s: State, t: State, w: WorkerId, a: ActionId)
    requires Leads(s, t, a, true, false) && HasJustBegun(s, w, a) && OnlyShrank(s, t)
    requires Listed(t.machines, t.rows[a].tenant, 0) <= 1 && !HasMatch(t, a)
    requires s.rows[a].verb == Create && IsOutstanding(s, a)
    ensures CanOrphan(s, a, true)
  {
    var u := EmptyPageEnds(s, t, w, a);
    OutstandingStays(s, u, w, a);
    OutstandingLands(s, u, a, true);
  }

  lemma OutstandingStays(s: State, u: State, w: WorkerId, a: ActionId)
    requires IsOutstanding(s, a) && u.calls == s.calls && w in s.pcs && !s.pcs[w].Ready?
    requires forall v :: v in s.pcs && v != w && s.pcs[v].Ready? ==> v in u.pcs && u.pcs[v] == s.pcs[v]
    ensures IsOutstanding(u, a)
  {
  }

  /** The search's next page is short and shows no match. */
  lemma EmptyPageEnds(s: State, t: State, w: WorkerId, a: ActionId) returns (u: State)
    requires Leads(s, t, a, true, false) && w in t.pcs && a in t.rows && t.pcs[w].Searching? && t.pcs[w].action == a
    requires Listed(t.machines, t.rows[a].tenant, 0) <= 1
    requires t.pcs[w].search.offset > 0 || !HasMatch(t, a)
    ensures Leads(s, u, a, true, true) && MayFindNothing(t, w, None) && u == DoFindNothing(t, w, None)
  {
    var search := t.pcs[w].search;
    forall m | 0 <= m < |t.machines| && IsOnPage(t.machines, t.rows[a].tenant, m, search.offset)
      ensures !IsMatch(t, a, m)
    {
      if search.offset > 0 {
        NewerStandsBefore(t.machines, t.rows[a].tenant, m, 0);
      }
    }
    assert MayFindNothing(t, w, None);
    LeadsOn(s, t, a, true, false, Worker(w, FindNothing(None)));
    u := DoFindNothing(t, w, None);
  }

  /** `n` machines of nobody's join the tenant's list. */
  lemma {:induction false} Crowd(s: State, w: WorkerId, a: ActionId, marker: ActionId, n: nat) returns (t: State)
    requires a in s.rows && marker !in s.rows
    ensures Leads(s, t, a, true, false) && t == s.(machines := t.machines) && |t.machines| == |s.machines| + n
    ensures t.machines[..|s.machines|] == s.machines
    ensures forall m :: |s.machines| <= m < |t.machines| ==>
              t.machines[m] == Machine(s.rows[a].tenant, s.rows[a].image, marker, None, true)
    decreases n
  {
    if n == 0 {
      LeadsToItself(s, a, true);
      t := s;
    } else {
      var r := Crowd(s, w, a, marker, n - 1);
      LeadsOn(s, r, a, true, false, Environment(Appear(s.rows[a].tenant, s.rows[a].image, marker)));
      t := DoAppear(r, s.rows[a].tenant, s.rows[a].image, marker);
    }
  }

  lemma {:induction false} CrowdListed(machines: seq<Machine>, tenant: nat, from: nat)
    requires from <= |machines| && forall m :: from <= m < |machines| ==> IsListed(machines[m], tenant)
    ensures Listed(machines, tenant, from) == |machines| - from
    decreases |machines| - from
  {
    if from < |machines| {
      CrowdListed(machines, tenant, from + 1);
    }
  }

  lemma FreshMarker(s: State) returns (marker: ActionId)
    ensures marker !in s.rows
  {
    marker := FreshFor(s.rows.Keys);
  }

  lemma {:induction false} FreshFor(keys: set<nat>) returns (k: nat)
    ensures forall x :: x in keys ==> x < k
    decreases |keys|
  {
    k := 0;
    if keys != {} {
      var x :| x in keys;
      var other := FreshFor(keys - {x});
      k := if x < other then other else x + 1;
      assert forall y :: y in keys ==> y == x || y in keys - {x};
    }
  }

  /** A machine of the action is listed: a page of others joins in front of it, that page is read, and then it is the
      only one left, in front of the next page. */
  lemma ListedOrphans(s: State, w: WorkerId, a: ActionId)
    requires Inv(s) && HasJustBegun(s, w, a) && HasMatch(s, a)
    ensures CanOrphan(s, a, true)
  {
    var m :| 0 <= m < |s.machines| && IsMatch(s, a, m);
    var marker := FreshMarker(s);
    var t := Crowd(s, w, a, marker, PAGE);
    assert t.machines[m] == s.machines[m];
    CrowdFillsPage(s, t, a, marker);
    assert MayTurnPage(t, w);
    LeadsOn(s, t, a, true, false, Worker(w, TurnPage));
    AloneBehindPage(s, DoTurnPage(t, w), w, a, m);
  }

  lemma AloneBehindPage(s: State, t: State, w: WorkerId, a: ActionId, m: VmId)
    requires Leads(s, t, a, true, false) && a in t.rows && IsMatch(t, a, m)
    requires w in t.pcs && t.pcs[w].Searching? && t.pcs[w].action == a && t.pcs[w].search.offset > 0
    ensures CanOrphan(s, a, true)
  {
    var alone := OneIsLeft(s, t, a, m);
    var u := EmptyPageEnds(s, alone, w, a);
    assert IsMatch(u, a, m);
  }

  lemma CrowdFillsPage(s: State, t: State, a: ActionId, marker: ActionId)
    requires a in s.rows && marker !in s.rows && t == s.(machines := t.machines)
    requires |t.machines| == |s.machines| + PAGE && t.machines[..|s.machines|] == s.machines
    requires forall m :: |s.machines| <= m < |t.machines| ==>
               t.machines[m] == Machine(s.rows[a].tenant, s.rows[a].image, marker, None, true)
    ensures IsPageFull(t, t.rows[a].tenant, 0) && IsPageClear(t, a, 0, 0)
  {
    var tenant := s.rows[a].tenant;
    CrowdListed(t.machines, tenant, |s.machines|);
    ListedFalls(t.machines, tenant, 0, |s.machines|);
    forall m | 0 <= m < |t.machines| && IsOnPage(t.machines, tenant, m, 0) ensures !IsMatch(t, a, m) {
      if m < |s.machines| {
        ListedFalls(t.machines, tenant, m + 1, |s.machines|);
      }
    }
  }

  // ---------------------------------------------------------------- when a terminal status is final

  /** A job of the action is under way. */
  ghost predicate HasJob(s: State, a: ActionId)
  {
    exists w :: IsAtWork(s, w, a)
  }

  predicate IsAtWork(s: State, w: WorkerId, a: ActionId)
  {
    w in s.pcs && ActionOf(s.pcs[w]) == Some(a)
  }

  /** A worker's next step writes over the row's status, or its handler's does after it raised. */
  ghost predicate CanReopen(s: State, a: ActionId)
    requires a in s.rows
  {
    exists w :: ReopensNext(s, w, a) || ReopensOnceRaised(s, w, a)
  }

  ghost predicate ReopensNext(s: State, w: WorkerId, a: ActionId)
    requires a in s.rows
  {
    exists step :: Reopens(s, w, step, a)
  }

  ghost predicate ReopensOnceRaised(s: State, w: WorkerId, a: ActionId)
    requires a in s.rows
  {
    MayRaise(s, w) && a in DoRaise(s, w).rows && Reopens(DoRaise(s, w), w, Conclude(Raised), a)
  }

  ghost predicate Reopens(s: State, w: WorkerId, step: Step, a: ActionId)
    requires a in s.rows
  {
    WorkerEnabled(s, w, step) && a in WorkerStep(s, w, step).rows
    && WorkerStep(s, w, step).rows[a].status != s.rows[a].status
  }

  /** A terminal status is written over by a worker if and only if a job of the action is under way: one that outlived
      its job lock, the only one, after a report settled the action, or one that raised before it had the row. */
  lemma TerminalReopensIffJob(s: State, a: ActionId)
    requires Inv(s) && a in s.rows && s.rows[a].status.IsTerminal() && a !in s.locks
    ensures CanReopen(s, a) <==> HasJob(s, a)
  {
    if HasJob(s, a) {
      var w :| IsAtWork(s, w, a);
      JobReopens(s, w, a);
    }
    if CanReopen(s, a) {
      var w :| ReopensNext(s, w, a) || ReopensOnceRaised(s, w, a);
      if ReopensNext(s, w, a) {
        var step :| Reopens(s, w, step, a);
        OnlyJobReopens(s, w, step, a);
      } else {
        OnlyJobRaises(s, w, a);
      }
      assert IsAtWork(s, w, a);
    }
  }

  lemma OnlyJobRaises(s: State, w: WorkerId, a: ActionId)
    requires Inv(s) && a in s.rows && ReopensOnceRaised(s, w, a)
    ensures IsAtWork(s, w, a)
  {
    RaiseKeeps(s, w);
    OnlyJobReopens(DoRaise(s, w), w, Conclude(Raised), a);
  }

  lemma JobReopens(s: State, w: WorkerId, a: ActionId)
    requires a in s.rows && s.rows[a].status.IsTerminal() && a !in s.locks && IsAtWork(s, w, a)
    ensures CanReopen(s, a)
  {
    if s.pcs[w].Handling? {
      assert Reopens(s, w, Conclude(Raised), a);
      assert ReopensNext(s, w, a);
    } else {
      var t := DoRaise(s, w);
      assert MayConclude(t, w, Raised);
      assert ReopensOnceRaised(s, w, a);
    }
  }

  lemma OnlyJobReopens(s: State, w: WorkerId, step: Step, a: ActionId)
    requires LocksHold(s) && a in s.rows && Reopens(s, w, step, a)
    ensures IsAtWork(s, w, a)
  {
    assert w in s.pcs && LockHolds(s, s.pcs[w], w);
    match step
    case StartJob(_) =>
    case Take(_) =>
    case Raise =>
    case Leave =>
    case Conclude(_) =>
    case StartSnapshot =>
    case Dispatch =>
    case Transmit =>
    case Accept =>
    case LoseReply =>
    case StartSearch =>
    case TurnPage =>
    case Find(_) =>
    case FindNothing(_) =>
    case Resume =>
    case Link =>
  }

  // ---------------------------------------------------------------- both failures, step by step

  lemma Then(states: seq<State>, events: seq<Event>, e: Event) returns (more: seq<State>, longer: seq<Event>, t: State)
    requires IsRun(states, events) && Enabled(states[|events|], e)
    ensures IsRun(more, longer) && more == states + [t] && longer == events + [e]
    ensures more[0] == states[0] && more[|longer|] == t && t == Apply(states[|events|], e)
  {
    RunGoesOn(states, events, e);
    t := Apply(states[|events|], e);
    more, longer := states + [t], events + [e];
  }

  function FreshRow(verb: Verb): Row
  {
    Row(verb, 0, 0, Queued, if verb == Create then None else Some(0), false, None, 0, 0, 0, 0)
  }

  /** One action, one worker, no machine of Central's yet. */
  function Lone(row: Row, locks: map<ActionId, WorkerId>, pc: Pc, calls: seq<Call>): State
  {
    State(map[0 := row], locks, map[0 := pc], calls, [], [], map[], map[])
  }

  function SentRow(verb: Verb): Row
  {
    Dispatched(FreshRow(verb), 0)
  }

  predicate AreNoRetries(events: seq<Event>)
  {
    forall i :: 0 <= i < |events| ==> !IsRetryOf(events[i], 0)
  }

  lemma OneJobStarts(verb: Verb) returns (states: seq<State>, events: seq<Event>)
    ensures IsRun(states, events) && Init(states[0]) && AreNoRetries(events)
    ensures states[|events|] == Lone(FreshRow(verb), map[], Starting(0), [])
  {
    var t := State(map[], map[], map[0 := Idle], [], [], [], map[], map[]);
    states, events := [t], [];
    states, events, t := Then(states, events, Environment(Submit(0, FreshRow(verb))));
    assert t == Lone(FreshRow(verb), map[], Idle, []);
    states, events, t := Then(states, events, Worker(0, StartJob(0)));
  }

  lemma OneWorkerTakes(verb: Verb) returns (states: seq<State>, events: seq<Event>)
    ensures IsRun(states, events) && Init(states[0]) && AreNoRetries(events)
    ensures states[|events|] == Lone(FreshRow(verb), map[0 := 0], Holding(0, FreshRow(verb)), [])
  {
    states, events := OneJobStarts(verb);
    var t;
    states, events, t := Then(states, events, Worker(0, Take(0)));
  }

  lemma OneWorkerDispatches(verb: Verb) returns (states: seq<State>, events: seq<Event>)
    ensures IsRun(states, events) && Init(states[0]) && AreNoRetries(events)
    ensures states[|events|] == Lone(SentRow(verb), map[], Ready(0, 0, 0), [])
  {
    states, events := OneWorkerTakes(verb);
    var t := states[|events|];
    assert MayCommitDispatch(t, 0);
    states, events, t := Then(states, events, Worker(0, Dispatch));
  }

  /** One worker takes a new action and makes its call. */
  lemma OneCallLeaves(verb: Verb) returns (states: seq<State>, events: seq<Event>)
    ensures IsRun(states, events) && Init(states[0]) && AreNoRetries(events)
    ensures states[|events|] == Lone(SentRow(verb), map[], Waiting(0, 0, 0), [Call(0, 0, InFlight)])
  {
    states, events := OneWorkerDispatches(verb);
    var t;
    states, events, t := Then(states, events, Worker(0, Transmit));
  }

  lemma LostReplySearches() returns (states: seq<State>, events: seq<Event>)
    ensures IsRun(states, events) && Init(states[0]) && AreNoRetries(events)
    ensures states[|events|] ==
            Lone(SentRow(Create), map[0 := 0], Searching(0, Search(0, 0, 0, false)), [Call(0, 0, InFlight)])
  {
    states, events := OneCallLeaves(Create);
    var t;
    states, events, t := Then(states, events, Worker(0, LoseReply));
  }

  /** The reply is lost, the search meets an empty list, the action is Failed, and then the call lands. */
  lemma LateLandingOrphans() returns (states: seq<State>, events: seq<Event>)
    ensures IsRun(states, events) && Init(states[0]) && AreNoRetries(events)
    ensures var t := states[|events|];
            0 in t.rows && t.rows[0].status == Failed && 0 in t.settled && !t.settled[0].hasShrunk && HasMatch(t, 0)
  {
    states, events := LostReplySearches();
    var t := states[|events|];
    assert MayFindNothing(t, 0, None);
    states, events, t := Then(states, events, Worker(0, FindNothing(None)));
    states, events, t := Then(states, events, Environment(Land(0)));
    assert IsMatch(t, 0, 0);
  }

  lemma OneStartObserves() returns (states: seq<State>, events: seq<Event>)
    ensures IsRun(states, events) && Init(states[0])
    ensures states[|events|] ==
            Lone(SentRow(Start).(status := Sent), map[], Observing(0, Sent), [Call(0, 0, Landed(0))])
  {
    states, events := OneCallLeaves(Start);
    var t := states[|events|];
    states, events, t := Then(states, events, Environment(Land(0)));
    assert t == Lone(SentRow(Start), map[], Waiting(0, 0, 0), [Call(0, 0, Landed(0))]);
    states, events, t := Then(states, events, Worker(0, Accept));
  }

  /** A report settles a start while its only worker still looks at the server; its read fails, and it writes the
      status it remembers over Succeeded. */
  lemma FailedReadReopens() returns (states: seq<State>, events: seq<Event>, n: nat)
    ensures IsRun(states, events) && Init(states[0]) && n < |events|
    ensures 0 in states[n].rows && states[n].rows[0].status == Succeeded
    ensures 0 in states[|events|].rows && states[|events|].rows[0].status == Sent
  {
    states, events := OneStartObserves();
    var t := states[|events|];
    states, events, t := Then(states, events, Environment(Confirm(0, Running)));
    n := |events|;
    var settled := t;
    assert t.rows[0].status == Succeeded;
    states, events, t := Then(states, events, Worker(0, Conclude(ReadFailed)));
    assert states[n] == settled;
  }

  /** A worker that raised on a queued start before it called the region. */
  lemma OneWorkerRaises() returns (states: seq<State>, events: seq<Event>)
    ensures IsRun(states, events) && Init(states[0])
    ensures states[|events|] == Lone(FreshRow(Start), map[], Handling(0), [])
  {
    states, events := OneWorkerTakes(Start);
    var t;
    states, events, t := Then(states, events, Worker(0, Raise));
  }

  /** A worker that never called the region raises on a queued start; before its handler has the row a report settles
      the start, and the handler writes Sent over Succeeded. */
  lemma EarlyCrashReopens() returns (states: seq<State>, events: seq<Event>, n: nat)
    ensures IsRun(states, events) && Init(states[0]) && n < |events| && states[|events|].calls == []
    ensures 0 in states[n].rows && states[n].rows[0].status == Succeeded
    ensures 0 in states[|events|].rows && states[|events|].rows[0].status == Sent
  {
    states, events := OneWorkerRaises();
    var t := states[|events|];
    states, events, t := Then(states, events, Environment(Confirm(0, Running)));
    n := |events|;
    var settled := t;
    assert t == Lone(FreshRow(Start).(status := Succeeded), map[], Handling(0), []);
    states, events, t := Then(states, events, Worker(0, Conclude(Raised)));
    assert states[n] == settled;
  }
}
