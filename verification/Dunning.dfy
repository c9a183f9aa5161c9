/**
 Dunning stops what an unpaid team runs, and a payment starts it again. Power goes through the same pending
 actions as the customer's own, so a stop can be adopted, refused, or still on its way when the payment lands.
 */
module Dunning {
  import opened Base

  type SubId = nat
  type Server = nat

  datatype Standing = Current | PastDue | Suspended

  datatype Power = Running | Stopped | Paused | Failed | Provisioning | Terminated

  datatype Action = Start | Stop | Restart | Terminate | Resize

  /** A subscription. A service has no server. `isStopped` is the stopped-for-nonpayment flag. */
  datatype Sub = Sub(standing: Standing, server: Option<Server>, isStopped: bool)

  /** A server row, with its one pending action. Without a regional identity no action is accepted. */
  datatype Machine = Machine(power: Power, pending: Option<Action>, hasIdentity: bool)

  datatype Team = Team(subs: map<SubId, Sub>, machines: map<Server, Machine>)

  // ---------------------------------------------------------------- one step

  /** The states from which a stop or a start means something. */
  predicate IsFrom(a: Action, p: Power)
  {
    (a == Stop && p == Running) || (a == Start && (p == Stopped || p == Paused || p == Failed))
  }

  /** `_queue_power_for_billing` gets an action: a new one, or the same one already pending. */
  predicate IsQueued(machines: map<Server, Machine>, server: Option<Server>, a: Action)
  {
    && server.Some? && server.value in machines
    && IsFrom(a, machines[server.value].power) && machines[server.value].hasIdentity
    && (machines[server.value].pending == None || machines[server.value].pending == Some(a))
  }

  function Queue(machines: map<Server, Machine>, server: Option<Server>, a: Action): map<Server, Machine>
  {
    if IsQueued(machines, server, a) then machines[server.value := machines[server.value].(pending := Some(a))]
    else machines
  }

  /** `_suspend_one`. A subscription the standing machine will not move is left alone. */
  function SuspendOne(t: Team, s: SubId, refused: set<SubId>): Team
    requires s in t.subs
  {
    var sub := t.subs[s];
    if sub.standing == Suspended || s in refused then t
    else
      var stops := IsQueued(t.machines, sub.server, Stop);
      Team(t.subs[s := Sub(Suspended, sub.server, stops || sub.isStopped)], Queue(t.machines, sub.server, Stop))
  }

  /** One subscription of `restore_after_payment`. */
  function RestoreOne(t: Team, s: SubId): Team
    requires s in t.subs
  {
    var sub := t.subs[s];
    if sub.standing == Current then t
    else if sub.isStopped then
      Team(t.subs[s := Sub(Current, sub.server, false)], Queue(t.machines, sub.server, Start))
    else Team(t.subs[s := Sub(Current, sub.server, false)], t.machines)
  }

  function SuspendEach(t: Team, names: seq<SubId>, refused: set<SubId>): (u: Team)
    requires forall s :: s in names ==> s in t.subs
    ensures u.subs.Keys == t.subs.Keys && u.machines.Keys == t.machines.Keys
  {
    if names == [] then t
    else
      var n := |names| - 1;
      assert forall s :: s in names[..n] ==> s in names;
      assert names[n] in names;
      SuspendOne(SuspendEach(t, names[..n], refused), names[n], refused)
  }

  function RestoreEach(t: Team, names: seq<SubId>): (u: Team)
    requires forall s :: s in names ==> s in t.subs
    ensures u.subs.Keys == t.subs.Keys && u.machines.Keys == t.machines.Keys
  {
    if names == [] then t
    else
      var n := |names| - 1;
      assert forall s :: s in names[..n] ==> s in names;
      assert names[n] in names;
      RestoreOne(RestoreEach(t, names[..n]), names[n])
  }

  /** A cooperative region completes what is pending. */
  function Complete(m: Machine): Machine
  {
    match m.pending
    case None => m
    case Some(a) =>
      Machine(match a
              case Start => Running
              case Stop => Stopped
              case Restart => Running
              case Terminate => Terminated
              case Resize => m.power,
              None, m.hasIdentity)
  }

  function Settle(t: Team): Team
  {
    t.(machines := map v | v in t.machines :: Complete(t.machines[v]))
  }

  // ---------------------------------------------------------------- the flag

  datatype Event =
    | Open(s: SubId, server: Option<Server>)
    | MarkPastDue(s: SubId)
    | SuspendTeam(names: seq<SubId>, refused: set<SubId>)
    | RestoreTeam(names: seq<SubId>)
    | CustomerQueues(v: Server, a: Action)
    | RegionReports(v: Server, m: Machine)

  predicate Enabled(t: Team, e: Event)
  {
    match e
    case Open(s, _) => s !in t.subs
    case MarkPastDue(s) => s in t.subs && t.subs[s].standing == Current
    case SuspendTeam(names, _) => forall s :: s in names ==> s in t.subs
    case RestoreTeam(names) => forall s :: s in names ==> s in t.subs
    case CustomerQueues(v, _) => v in t.machines && t.machines[v].pending == None
    case RegionReports(_, _) => true
  }

  function Apply(t: Team, e: Event): Team
    requires Enabled(t, e)
  {
    match e
    case Open(s, server) => t.(subs := t.subs[s := Sub(Current, server, false)])
    case MarkPastDue(s) => t.(subs := t.subs[s := t.subs[s].(standing := PastDue)])
    case SuspendTeam(names, refused) => SuspendEach(t, names, refused)
    case RestoreTeam(names) => RestoreEach(t, names)
    case CustomerQueues(v, a) => t.(machines := t.machines[v := t.machines[v].(pending := Some(a))])
    case RegionReports(v, m) => t.(machines := t.machines[v := m])
  }

  predicate FlagMeansSuspended(t: Team)
  {
    forall s :: s in t.subs && t.subs[s].isStopped ==> t.subs[s].standing == Suspended
  }

  lemma {:induction false} SuspendKeepsFlag(t: Team, names: seq<SubId>, refused: set<SubId>)
    requires FlagMeansSuspended(t) && forall s :: s in names ==> s in t.subs
    ensures FlagMeansSuspended(SuspendEach(t, names, refused))
  {
    if names != [] {
      var n := |names| - 1;
      assert forall s :: s in names[..n] ==> s in names;
      SuspendKeepsFlag(t, names[..n], refused);
      assert names[n] in names;
    }
  }

  lemma {:induction false} RestoreKeepsFlag(t: Team, names: seq<SubId>)
    requires FlagMeansSuspended(t) && forall s :: s in names ==> s in t.subs
    ensures FlagMeansSuspended(RestoreEach(t, names))
  {
    if names != [] {
      var n := |names| - 1;
      assert forall s :: s in names[..n] ==> s in names;
      RestoreKeepsFlag(t, names[..n]);
      assert names[n] in names;
    }
  }

  lemma {:induction false} SuspendMoves(t: Team, names: seq<SubId>, refused: set<SubId>, s: SubId)
    requires s in t.subs && forall x :: x in names ==> x in t.subs
    ensures SuspendEach(t, names, refused).subs[s].standing ==
            if s in names && s !in refused then Suspended else t.subs[s].standing
  {
    if names != [] {
      var n := |names| - 1;
      assert names[n] in names && forall x :: x in names[..n] ==> x in names;
      SuspendMoves(t, names[..n], refused, s);
      assert s in names <==> s == names[n] || s in names[..n];
    }
  }

  lemma {:induction false} RestoreMoves(t: Team, names: seq<SubId>, s: SubId)
    requires s in t.subs && forall x :: x in names ==> x in t.subs
    ensures RestoreEach(t, names).subs[s].standing == if s in names then Current else t.subs[s].standing
  {
    if names != [] {
      var n := |names| - 1;
      assert names[n] in names && forall x :: x in names[..n] ==> x in names;
      RestoreMoves(t, names[..n], s);
      assert s in names <==> s == names[n] || s in names[..n];
    }
  }

  /** The standing of a subscription after a step: Past Due when its invoice is, Suspended when dunning meets it and it
      can move, Current when the team has paid, and else what it was. No step forgets a subscription. */
  lemma StandingAfter(t: Team, e: Event, s: SubId)
    requires Enabled(t, e) && s in t.subs
    ensures s in Apply(t, e).subs
    ensures e.Open? ==> Apply(t, e).subs == t.subs[e.s := Sub(Current, e.server, false)]
    ensures Apply(t, e).subs[s].standing ==
            if e == MarkPastDue(s) then PastDue
            else if e.SuspendTeam? && s in e.names && s !in e.refused then Suspended
            else if e.RestoreTeam? && s in e.names then Current
            else t.subs[s].standing
  {
    match e
    case SuspendTeam(names, refused) => SuspendMoves(t, names, refused, s);
    case RestoreTeam(names) => RestoreMoves(t, names, s);
    case _ =>
  }

  ghost predicate IsRun(states: seq<Team>, events: seq<Event>)
  {
    && |states| == |events| + 1
    && forall i :: 0 <= i < |events| ==> Enabled(states[i], events[i]) && states[i + 1] == Apply(states[i], events[i])
  }

  /** In every reachable state a server is marked stopped for nonpayment only while its subscription is suspended. */
  lemma {:induction false} FlagHolds(states: seq<Team>, events: seq<Event>, n: nat)
    requires IsRun(states, events) && FlagMeansSuspended(states[0]) && n < |states|
    ensures FlagMeansSuspended(states[n])
  {
    if n > 0 {
      FlagHolds(states, events, n - 1);
      var t := states[n - 1];
      match events[n - 1]
      case Open(s, server) =>
      case MarkPastDue(s) =>
      case SuspendTeam(names, refused) => SuspendKeepsFlag(t, names, refused);
      case RestoreTeam(names) => RestoreKeepsFlag(t, names);
      case CustomerQueues(v, a) =>
      case RegionReports(v, m) =>
    }
  }

  // ---------------------------------------------------------------- the loops, server by server

  ghost predicate IsListing(names: seq<SubId>, t: Team)
  {
    && (forall s :: s in names <==> s in t.subs)
    && (forall i, j :: 0 <= i < j < |names| ==> names[i] != names[j])
  }

  /** At most one subscription on each server. */
  predicate OwnServers(t: Team)
  {
    forall r, s :: r in t.subs && s in t.subs && r != s && t.subs[r].server.Some?
                   ==> t.subs[r].server != t.subs[s].server
  }

  /** What suspension leaves of one subscription and its server, whatever the others are. */
  predicate IsSuspendedFrom(t: Team, u: Team, s: SubId)
    requires s in t.subs && s in u.subs
  {
    var sub := t.subs[s];
    && u.subs[s] == (if sub.standing == Suspended then sub
                     else Sub(Suspended, sub.server, IsQueued(t.machines, sub.server, Stop) || sub.isStopped))
    && ServerFrom(t, u, sub.server, sub.standing != Suspended, Stop)
  }

  predicate IsRestoredFrom(t: Team, u: Team, s: SubId)
    requires s in t.subs && s in u.subs
  {
    var sub := t.subs[s];
    && u.subs[s] == (if sub.standing == Current then sub else Sub(Current, sub.server, false))
    && ServerFrom(t, u, sub.server, sub.standing != Current && sub.isStopped, Start)
  }

  predicate ServerFrom(t: Team, u: Team, server: Option<Server>, isAsked: bool, a: Action)
  {
    server.Some? && server.value in t.machines ==>
      && server.value in u.machines
      && u.machines[server.value] == (if isAsked && IsQueued(t.machines, server, a)
                                      then t.machines[server.value].(pending := Some(a))
                                      else t.machines[server.value])
  }

  predicate IsUntouched(t: Team, u: Team, s: SubId)
    requires s in t.subs && s in u.subs
  {
    u.subs[s] == t.subs[s] && ServerFrom(t, u, t.subs[s].server, false, Stop)
  }

  /** One more step of the loop, on a subscription it has not met yet. */
  lemma SuspendNext(t: Team, u: Team, refused: set<SubId>, last: SubId, s: SubId)
    requires s in t.subs && last in t.subs && s in u.subs && last in u.subs && u.machines.Keys == t.machines.Keys
    requires u.subs[s].server == t.subs[s].server && IsUntouched(t, u, last)
    requires s != last && t.subs[last].server.Some? ==> t.subs[last].server != t.subs[s].server
    ensures var w := SuspendOne(u, last, refused);
            && w.subs[s].server == t.subs[s].server
            && (s == last && s !in refused ==> IsSuspendedFrom(t, w, s))
            && (s != last && IsSuspendedFrom(t, u, s) ==> IsSuspendedFrom(t, w, s))
            && ((s != last || s in refused) && IsUntouched(t, u, s) ==> IsUntouched(t, w, s))
  {
  }

  /** The loop does to each subscription what it would do alone: one that cannot move is skipped, and the others are
      suspended all the same. */
  lemma {:induction false} SuspendEachIs(t: Team, names: seq<SubId>, refused: set<SubId>, s: SubId)
    requires OwnServers(t) && s in t.subs && forall x :: x in names ==> x in t.subs
    requires forall i, j :: 0 <= i < j < |names| ==> names[i] != names[j]
    ensures SuspendEach(t, names, refused).subs[s].server == t.subs[s].server
    ensures s in names && s !in refused ==> IsSuspendedFrom(t, SuspendEach(t, names, refused), s)
    ensures s !in names || s in refused ==> IsUntouched(t, SuspendEach(t, names, refused), s)
  {
    if names != [] {
      var n := |names| - 1;
      var last := names[n];
      assert last in names && forall x :: x in names[..n] ==> x in names;
      assert s in names <==> s == last || s in names[..n];
      SuspendEachIs(t, names[..n], refused, s);
      SuspendEachIs(t, names[..n], refused, last);
      SuspendNext(t, SuspendEach(t, names[..n], refused), refused, last, s);
    }
  }

  /** One more step of the loop, on a subscription it has not met yet. */
  lemma RestoreNext(t: Team, u: Team, last: SubId, s: SubId)
    requires s in t.subs && last in t.subs && s in u.subs && last in u.subs && u.machines.Keys == t.machines.Keys
    requires u.subs[s].server == t.subs[s].server && IsUntouched(t, u, last)
    requires s != last && t.subs[last].server.Some? ==> t.subs[last].server != t.subs[s].server
    ensures var w := RestoreOne(u, last);
            && w.subs[s].server == t.subs[s].server
            && (s == last ==> IsRestoredFrom(t, w, s))
            && (s != last && IsRestoredFrom(t, u, s) ==> IsRestoredFrom(t, w, s))
            && (s != last && IsUntouched(t, u, s) ==> IsUntouched(t, w, s))
  {
  }

  lemma {:induction false} RestoreEachIs(t: Team, names: seq<SubId>, s: SubId)
    requires OwnServers(t) && s in t.subs && forall x :: x in names ==> x in t.subs
    requires forall i, j :: 0 <= i < j < |names| ==> names[i] != names[j]
    ensures RestoreEach(t, names).subs[s].server == t.subs[s].server
    ensures s in names ==> IsRestoredFrom(t, RestoreEach(t, names), s)
    ensures s !in names ==> IsUntouched(t, RestoreEach(t, names), s)
  {
    if names != [] {
      var n := |names| - 1;
      var last := names[n];
      assert last in names && forall x :: x in names[..n] ==> x in names;
      assert s in names <==> s == last || s in names[..n];
      RestoreEachIs(t, names[..n], s);
      RestoreEachIs(t, names[..n], last);
      RestoreNext(t, RestoreEach(t, names[..n]), last, s);
    }
  }

  // ---------------------------------------------------------------- the round trip

  /** Suspended, and with the stops completed or still on their way. */
  function Unpaid(t: Team, names: seq<SubId>, isDone: bool): (u: Team)
    requires forall s :: s in names ==> s in t.subs
    ensures u.subs.Keys == t.subs.Keys && u.machines.Keys == t.machines.Keys
  {
    var suspended := SuspendEach(t, names, {});
    if isDone then Settle(suspended) else suspended
  }

  /** Suspended, then paid. `isDone` says whether the stops completed before the payment; what is pending
      completes at the end. */
  function RoundTrip(t: Team, names: seq<SubId>, isDone: bool): Team
    requires forall s :: s in names ==> s in t.subs
  {
    Settle(RestoreEach(Unpaid(t, names, isDone), names))
  }

  predicate NobodySuspended(t: Team)
  {
    forall s :: s in t.subs ==> t.subs[s].standing != Suspended && !t.subs[s].isStopped
  }

  /** How dunning meets the server when it suspends. */
  predicate StopsItself(m: Machine)
  {
    m.power == Running && m.hasIdentity && m.pending == None
  }

  predicate AdoptsStop(m: Machine)
  {
    m.power == Running && m.hasIdentity && m.pending == Some(Stop)
  }

  /** One subscription when the payment lands. */
  lemma UnpaidOf(t: Team, names: seq<SubId>, isDone: bool, s: SubId)
    requires OwnServers(t) && NobodySuspended(t) && IsListing(names, t) && s in t.subs
    ensures var u := Unpaid(t, names, isDone);
            && OwnServers(u)
            && u.subs[s] == Sub(Suspended, t.subs[s].server, IsQueued(t.machines, t.subs[s].server, Stop))
            && (t.subs[s].server.Some? && t.subs[s].server.value in t.machines ==>
                  u.machines[t.subs[s].server.value] == UnpaidMachine(t.machines[t.subs[s].server.value], isDone))
  {
    SuspendEachIs(t, names, {}, s);
    forall x | x in t.subs ensures Unpaid(t, names, isDone).subs[x].server == t.subs[x].server {
      SuspendEachIs(t, names, {}, x);
    }
  }

  function UnpaidMachine(m: Machine, isDone: bool): Machine
  {
    var suspended := if StopsItself(m) || AdoptsStop(m) then m.(pending := Some(Stop)) else m;
    if isDone then Complete(suspended) else suspended
  }

  lemma TripOf(t: Team, names: seq<SubId>, isDone: bool, s: SubId) returns (v: Server)
    requires OwnServers(t) && NobodySuspended(t) && IsListing(names, t) && s in t.subs
    requires t.subs[s].server.Some? && t.subs[s].server.value in t.machines
    ensures v == t.subs[s].server.value
    ensures var u := RoundTrip(t, names, isDone);
            && u.subs[s] == Sub(Current, Some(v), false) && v in u.machines
            && u.machines[v] == MachineTrip(t.machines[v], isDone)
  {
    v := t.subs[s].server.value;
    UnpaidOf(t, names, isDone, s);
    RestoreEachIs(Unpaid(t, names, isDone), names, s);
  }

  /** One server's part in the round trip. */
  function MachineTrip(m: Machine, isDone: bool): Machine
  {
    var stops := StopsItself(m) || AdoptsStop(m);
    var before := UnpaidMachine(m, isDone);
    Complete(if stops && IsFrom(Start, before.power) && (before.pending == None || before.pending == Some(Start))
             then before.(pending := Some(Start)) else before)
  }

  /** After the round trip every server is as it would be without it, if and only if the stop dunning asked for
      completed before the payment, and it took over no stop of the customer's that did. */
  lemma RoundTripRestoresIff(t: Team, names: seq<SubId>, isDone: bool, s: SubId)
    requires OwnServers(t) && NobodySuspended(t) && IsListing(names, t) && s in t.subs
    requires t.subs[s].server.Some? && t.subs[s].server.value in t.machines
    ensures var u, v := RoundTrip(t, names, isDone), t.subs[s].server.value;
            v in u.machines
            && (u.machines[v].power == Settle(t).machines[v].power <==>
                !(StopsItself(t.machines[v]) && !isDone) && !(AdoptsStop(t.machines[v]) && isDone))
  {
    var v := TripOf(t, names, isDone, s);
  }

  /** With nothing else pending and the stops done first, dunning undoes itself: everyone is Current, no flag is
      left, and exactly the servers that ran run. */
  lemma RoundTripIsIdentity(t: Team, names: seq<SubId>)
    requires OwnServers(t) && NobodySuspended(t) && IsListing(names, t)
    requires forall v :: v in t.machines ==> t.machines[v].pending == None
    ensures var u := RoundTrip(t, names, true);
            && (forall s :: s in t.subs ==> s in u.subs && u.subs[s] == Sub(Current, t.subs[s].server, false))
            && (forall s :: s in t.subs && t.subs[s].server.Some? && t.subs[s].server.value in t.machines ==>
                  u.machines[t.subs[s].server.value] == t.machines[t.subs[s].server.value])
  {
    forall s | s in t.subs
      ensures RoundTrip(t, names, true).subs[s] == Sub(Current, t.subs[s].server, false)
      ensures t.subs[s].server.Some? && t.subs[s].server.value in t.machines ==>
                RoundTrip(t, names, true).machines[t.subs[s].server.value] == t.machines[t.subs[s].server.value]
    {
      UnpaidOf(t, names, true, s);
      RestoreEachIs(Unpaid(t, names, true), names, s);
      if t.subs[s].server.Some? && t.subs[s].server.value in t.machines {
        var v := TripOf(t, names, true, s);
      }
    }
  }

  /** The customer pays while the stop is on its way: the paid server ends up stopped. */
  lemma PaidTooSoonStaysStopped()
    ensures var t := Team(map[0 := Sub(PastDue, Some(7), false)], map[7 := Machine(Running, None, true)]);
            && RoundTrip(t, [0], false).subs[0] == Sub(Current, Some(7), false)
            && 7 in RoundTrip(t, [0], false).machines && RoundTrip(t, [0], false).machines[7].power == Stopped
  {
  }

  /** Dunning takes over a stop the customer asked for: the payment starts a server its owner stopped. */
  lemma AdoptedStopIsUndone()
    ensures var t := Team(map[0 := Sub(PastDue, Some(7), false)], map[7 := Machine(Running, Some(Stop), true)]);
            && Settle(t).machines[7].power == Stopped
            && 7 in RoundTrip(t, [0], true).machines && RoundTrip(t, [0], true).machines[7].power == Running
  {
  }

  // ---------------------------------------------------------------- the records, updated in place

  class TeamBilling {
    var subs: map<SubId, Sub>
    var machines: map<Server, Machine>

    function Abs(): Team
      reads this
    {
      Team(subs, machines)
    }

    /** `_queue_power_for_billing`: skipped from a state without meaning, refused over another pending action. */
    method QueuePower(server: Option<Server>, a: Action) returns (isQueued: bool)
      modifies this`machines
      ensures isQueued == IsQueued(old(machines), server, a) && machines == Queue(old(machines), server, a)
      // Only a running server is stopped and only a stopped, paused or failed one started, with a regional identity and
      // no other action on it.
      ensures isQueued <==>
              && server.Some? && server.value in old(machines)
              && var m := old(machines)[server.value];
                 && ((m.power == Running && a == Stop) || (m.power in {Stopped, Paused, Failed} && a == Start))
                 && m.hasIdentity && m.pending in {None, Some(a)}
      ensures machines == if isQueued
                          then old(machines)[server.value := old(machines)[server.value].(pending := Some(a))]
                          else old(machines)
    {
      if server == None || server.value !in machines || !IsFrom(a, machines[server.value].power) {
        return false;
      }
      var m := machines[server.value];
      if !m.hasIdentity || (m.pending.Some? && m.pending != Some(a)) {
        return false;
      }
      if m.pending == None {
        machines := machines[server.value := m.(pending := Some(a))];
      }
      isQueued := true;
    }

    /** `_suspend_one`: the standing moves first, and the flag says that a stop was asked for. */
    method SuspendSubscription(s: SubId, refused: set<SubId>)
      requires s in subs
      modifies this
      ensures Abs() == SuspendOne(old(Abs()), s, refused)
      ensures s in refused || old(subs[s]).standing == Suspended ==> Abs() == old(Abs())
      ensures s !in refused && old(subs[s]).standing != Suspended ==>
                && subs == old(subs)[s := Sub(Suspended, old(subs[s]).server, subs[s].isStopped)]
                && (subs[s].isStopped <==> old(subs[s]).isStopped || IsQueued(old(machines), old(subs[s]).server, Stop))
                && machines == Queue(old(machines), old(subs[s]).server, Stop)
    {
      var sub := subs[s];
      if sub.standing == Suspended || s in refused {
        return;
      }
      var stops := QueuePower(sub.server, Stop);
      subs := subs[s := Sub(Suspended, sub.server, stops || sub.isStopped)];
    }

    /** One subscription of `restore_after_payment`. */
    method RestoreSubscription(s: SubId)
      requires s in subs
      modifies this
      ensures Abs() == RestoreOne(old(Abs()), s)
      ensures old(subs[s]).standing == Current ==> Abs() == old(Abs())
      ensures old(subs[s]).standing != Current ==>
                && subs == old(subs)[s := Sub(Current, old(subs[s]).server, false)]
                && machines == if old(subs[s]).isStopped then Queue(old(machines), old(subs[s]).server, Start)
                               else old(machines)
    {
      var sub := subs[s];
      if sub.standing == Current {
        return;
      }
      subs := subs[s := Sub(Current, sub.server, false)];
      if sub.isStopped {
        var _ := QueuePower(sub.server, Start);
      }
    }

    /** `suspend_for_nonpayment`, over the team's subscriptions in the order they are read. */
    method SuspendForNonpayment(names: seq<SubId>, refused: set<SubId>)
      requires IsListing(names, Abs())
      modifies this
      ensures Abs() == SuspendEach(old(Abs()), names, refused)
      ensures FlagMeansSuspended(old(Abs())) ==> FlagMeansSuspended(Abs())
      ensures forall s :: s in names ==>
                s in subs && subs[s].standing == (if s in refused then old(subs[s]).standing else Suspended)
    {
      ghost var before := Abs();
      for n := 0 to |names|
        invariant forall s :: s in names[..n] ==> s in names
        invariant forall s :: s in names ==> s in subs
        invariant Abs() == SuspendEach(before, names[..n], refused)
      {
        assert names[..n + 1][..n] == names[..n];
        SuspendSubscription(names[n], refused);
      }
      assert names[..|names|] == names;
      if FlagMeansSuspended(before) {
        SuspendKeepsFlag(before, names, refused);
      }
      forall s | s in names ensures subs[s].standing == if s in refused then before.subs[s].standing else Suspended {
        SuspendMoves(before, names, refused, s);
      }
    }

    /** `restore_after_payment`. */
    method RestoreAfterPayment(names: seq<SubId>)
      requires IsListing(names, Abs())
      modifies this
      ensures Abs() == RestoreEach(old(Abs()), names)
      ensures forall s :: s in names ==> s in subs && subs[s].standing == Current
    {
      ghost var before := Abs();
      for n := 0 to |names|
        invariant forall s :: s in names[..n] ==> s in names
        invariant forall s :: s in names ==> s in subs
        invariant Abs() == RestoreEach(before, names[..n])
      {
        assert names[..n + 1][..n] == names[..n];
        RestoreSubscription(names[n]);
      }
      assert names[..|names|] == names;
      forall s | s in names ensures subs[s].standing == Current {
        RestoreMoves(before, names, s);
      }
    }
  }
}
