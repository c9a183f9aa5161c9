/**
 The free trials of one owner, over three tables: creation requests, servers and sites. The gate counts three
 joins of them; together they must count each open trial once. Each step holds the rows it reads.
 */
module TrialPhases {
  import opened Base
  import opened TrialStates

  type ActionId = nat
  type Server = nat

  /** A creation request. A free trial always asks for a product's site. */
  datatype Creation = Creation(isTrial: bool, isPending: bool, server: Option<Server>)

  datatype Tables = Tables(creations: map<ActionId, Creation>, isTerminated: map<Server, bool>,
                           sites: map<Server, TrialState>, limit: nat)

  datatype Event =
    | Submit(a: ActionId, isTrial: bool)
    | Retry(a: ActionId)
    | Fail(a: ActionId)
    | Finalize(a: ActionId, v: Server)
    | Settle(a: ActionId)
    | Discover(v: Server)
    | Record(v: Server, isPaid: bool, hasProduct: bool)
    | End(v: Server)
    | Extend(v: Server)
    | Convert(v: Server)
    | Terminate(v: Server)
    | Delete(v: Server)
    | Resurrect(v: Server)
    | Reopen(a: ActionId)

  // ---------------------------------------------------------------- what the gate counts

  function OpenSites(t: Tables): set<Server>
  {
    set v | v in t.sites && t.sites[v].IsOpen()
  }

  function PendingTrials(t: Tables): set<ActionId>
  {
    set a | a in t.creations && t.creations[a].isTrial && t.creations[a].isPending && t.creations[a].server == None
  }

  /** Servers whose site started a trial, whatever became of it. */
  predicate IsStarted(t: Tables, v: Server)
  {
    v in t.sites && t.sites[v] != NoTrial
  }

  predicate IsLive(t: Tables, v: Server)
  {
    v in t.isTerminated && !t.isTerminated[v]
  }

  function UnreadyTrials(t: Tables): set<ActionId>
  {
    set a | a in t.creations && t.creations[a].isTrial && t.creations[a].server.Some?
            && IsLive(t, t.creations[a].server.value) && !IsStarted(t, t.creations[a].server.value)
  }

  /** `trial_site_count`. */
  function TrialSiteCount(t: Tables): nat
  {
    |OpenSites(t)| + |PendingTrials(t)| + |UnreadyTrials(t)|
  }

  // ---------------------------------------------------------------- the steps

  /** The server was built for this free trial. */
  predicate IsTrialServer(t: Tables, v: Server)
  {
    exists a :: a in t.creations && t.creations[a].isTrial && t.creations[a].server == Some(v)
  }

  predicate Enabled(t: Tables, e: Event)
  {
    match e
    case Submit(a, isTrial) => a !in t.creations && (isTrial ==> TrialSiteCount(t) < t.limit)
    case Retry(a) =>
      a in t.creations && !t.creations[a].isPending && t.creations[a].server == None
      && (t.creations[a].isTrial ==> TrialSiteCount(t) < t.limit)
    case Fail(a) => a in t.creations && t.creations[a].isPending && t.creations[a].server == None
    case Finalize(a, v) =>
      a in t.creations && t.creations[a].isPending && t.creations[a].server == None && v !in t.isTerminated
    case Settle(a) => a in t.creations && t.creations[a].server.Some?
    case Discover(v) => v !in t.isTerminated
    // A terminated server has no Pilot credential left, so its site is never recorded.
    case Record(v, _, _) => IsLive(t, v) && v !in t.sites
    case End(v) => v in t.sites && t.sites[v] == Active
    case Extend(v) => v in t.sites && t.sites[v].IsOpen()
    case Convert(v) => v in t.sites && t.sites[v].IsOpen()
    case Terminate(v) => v in t.isTerminated
    case Delete(v) => v in t.sites && t.sites[v].IsOpen() && v in t.isTerminated && t.isTerminated[v]
    case Resurrect(v) => v in t.isTerminated && t.isTerminated[v]
    // A worker that outlived the failure writes its own status over it, and asks no gate.
    case Reopen(a) => a in t.creations && !t.creations[a].isPending && t.creations[a].server == None
  }

  function PutCreation(t: Tables, a: ActionId, c: Creation): Tables
  {
    t.(creations := t.creations[a := c])
  }

  function PutSite(t: Tables, v: Server, state: TrialState): Tables
  {
    t.(sites := t.sites[v := state])
  }

  /** The state a site starts in: no trial on a plain server, paid at once for a bought product site. */
  function StartState(t: Tables, v: Server, isPaid: bool, hasProduct: bool): TrialState
  {
    if IsTrialServer(t, v) then (if isPaid then Converted else Active)
    else if hasProduct then Converted
    else NoTrial
  }

  function Apply(t: Tables, e: Event): Tables
    requires e.Retry? || e.Fail? || e.Finalize? || e.Settle? || e.Reopen? ==> e.a in t.creations
  {
    match e
    case Submit(a, isTrial) => PutCreation(t, a, Creation(isTrial, true, None))
    case Retry(a) => PutCreation(t, a, t.creations[a].(isPending := true))
    case Fail(a) => PutCreation(t, a, t.creations[a].(isPending := false))
    case Finalize(a, v) =>
      PutCreation(t, a, t.creations[a].(server := Some(v))).(isTerminated := t.isTerminated[v := false])
    case Settle(a) => PutCreation(t, a, t.creations[a].(isPending := false))
    case Discover(v) => t.(isTerminated := t.isTerminated[v := false])
    case Record(v, isPaid, hasProduct) => PutSite(t, v, StartState(t, v, isPaid, hasProduct))
    case End(v) => PutSite(t, v, Ended)
    case Extend(v) => PutSite(t, v, Active)
    case Convert(v) => PutSite(t, v, Converted)
    case Terminate(v) =>
      // The server's own save closes its open trial.
      var down := t.(isTerminated := t.isTerminated[v := true]);
      if v in t.sites && t.sites[v].IsOpen() then PutSite(down, v, Deleted) else down
    case Delete(v) => PutSite(t, v, Deleted)
    case Resurrect(v) => t.(isTerminated := t.isTerminated[v := false])
    case Reopen(a) => PutCreation(t, a, t.creations[a].(isPending := true))
  }

  /** Every step moves a recorded site's trial along the lifecycle, or leaves it, and a new site starts it. */
  lemma SitesFollowLifecycle(t: Tables, e: Event, v: Server)
    requires Enabled(t, e) && v in Apply(t, e).sites
    ensures var after := Apply(t, e).sites[v];
            if v in t.sites then after == t.sites[v] || after in Transitions(t.sites[v])
            else after == NoTrial || after in Transitions(NoTrial)
  {
  }

  // ---------------------------------------------------------------- phases

  predicate IsOpenTrial(t: Tables, a: ActionId)
  {
    a in t.creations && t.creations[a].isTrial && t.creations[a].server.Some?
    && t.creations[a].server.value in OpenSites(t)
  }

  /** Refused or failed without a server, terminated before its site was recorded, or its site's trial is over. */
  predicate IsClosedTrial(t: Tables, a: ActionId)
  {
    && a in t.creations && t.creations[a].isTrial
    && match t.creations[a].server
       case None => !t.creations[a].isPending
       case Some(v) => if IsStarted(t, v) then !t.sites[v].IsOpen() else !IsLive(t, v)
  }

  function OpenTrials(t: Tables): set<ActionId>
  {
    set a | a in t.creations && t.creations[a].isTrial && !IsClosedTrial(t, a)
  }

  // ---------------------------------------------------------------- what every step keeps

  ghost predicate LinksDistinct(t: Tables)
  {
    forall a, b :: a in t.creations && b in t.creations && a != b && t.creations[a].server.Some?
                   ==> t.creations[a].server != t.creations[b].server
  }

  ghost predicate LinksExist(t: Tables)
  {
    && (forall a :: a in t.creations && t.creations[a].server.Some? ==> t.creations[a].server.value in t.isTerminated)
    && (forall v :: v in t.sites ==> v in t.isTerminated)
  }

  ghost predicate OpenSitesAreTrials(t: Tables)
  {
    forall v :: v in OpenSites(t) ==> IsTrialServer(t, v)
  }

  ghost predicate TrialSitesStarted(t: Tables)
  {
    forall v :: v in t.sites && IsTrialServer(t, v) ==> t.sites[v] != NoTrial
  }

  ghost predicate Inv(t: Tables)
  {
    LinksDistinct(t) && LinksExist(t) && OpenSitesAreTrials(t) && TrialSitesStarted(t)
  }

  /** Which servers are built for trials moves only when one is linked. */
  lemma TrialServersAfter(t: Tables, e: Event, v: Server)
    requires Enabled(t, e)
    ensures IsTrialServer(Apply(t, e), v) <==>
            IsTrialServer(t, v) || (e.Finalize? && e.v == v && t.creations[e.a].isTrial)
  {
    var u := Apply(t, e);
    if IsTrialServer(t, v) {
      var a :| a in t.creations && t.creations[a].isTrial && t.creations[a].server == Some(v);
      assert u.creations[a].isTrial && u.creations[a].server == Some(v);
    }
    if e.Finalize? && e.v == v && t.creations[e.a].isTrial {
      assert u.creations[e.a].server == Some(v);
    }
    if IsTrialServer(u, v) {
      var a :| a in u.creations && u.creations[a].isTrial && u.creations[a].server == Some(v);
      assert (e.Finalize? && a == e.a) || (a in t.creations && t.creations[a].server == Some(v));
    }
  }

  lemma LinksKeep(t: Tables, e: Event)
    requires LinksDistinct(t) && LinksExist(t) && Enabled(t, e)
    ensures LinksDistinct(Apply(t, e)) && LinksExist(Apply(t, e))
  {
  }

  lemma StepKeeps(t: Tables, e: Event)
    requires Inv(t) && Enabled(t, e)
    ensures Inv(Apply(t, e))
  {
    LinksKeep(t, e);
    var u := Apply(t, e);
    forall v | v in OpenSites(u) ensures IsTrialServer(u, v) {
      TrialServersAfter(t, e, v);
      assert v in OpenSites(t) || e.Record?;
    }
    forall v | v in u.sites && IsTrialServer(u, v) ensures u.sites[v] != NoTrial {
      TrialServersAfter(t, e, v);
    }
  }

  // ---------------------------------------------------------------- the count

  /** Each free-trial creation is in exactly one phase. */
  lemma ExactlyOnePhase(t: Tables, a: ActionId)
    requires a in t.creations && t.creations[a].isTrial
    ensures a in PendingTrials(t) || a in UnreadyTrials(t) || IsOpenTrial(t, a) || IsClosedTrial(t, a)
    ensures !(a in PendingTrials(t) && (a in UnreadyTrials(t) || IsOpenTrial(t, a) || IsClosedTrial(t, a)))
    ensures !(a in UnreadyTrials(t) && (IsOpenTrial(t, a) || IsClosedTrial(t, a)))
    ensures !(IsOpenTrial(t, a) && IsClosedTrial(t, a))
  {
  }

  /** A one-to-one image has as many members. */
  lemma {:induction false} OneToOne(keys: set<ActionId>, f: map<ActionId, Server>, image: set<Server>)
    requires keys <= f.Keys && forall a, b :: a in keys && b in keys && a != b ==> f[a] != f[b]
    requires (forall a :: a in keys ==> f[a] in image)
    requires forall v :: v in image ==> exists a :: a in keys && f[a] == v
    ensures |image| == |keys|
  {
    if keys == {} {
      assert image == {};
    } else {
      var a :| a in keys;
      OneToOne(keys - {a}, f, image - {f[a]});
    }
  }

  function RunningTrials(t: Tables): set<ActionId>
  {
    set a | a in t.creations && IsOpenTrial(t, a)
  }

  /** Every open site is one running trial's, and no two trials share one. */
  lemma OpenSitesCountRunning(t: Tables)
    requires Inv(t)
    ensures |OpenSites(t)| == |RunningTrials(t)|
  {
    var running := RunningTrials(t);
    var f := map a | a in running :: t.creations[a].server.value;
    forall v | v in OpenSites(t) ensures exists a :: a in running && f[a] == v {
      assert IsTrialServer(t, v);
      var a :| a in t.creations && t.creations[a].isTrial && t.creations[a].server == Some(v);
      assert a in running;
    }
    OneToOne(running, f, OpenSites(t));
  }

  lemma OpenTrialsSplit(t: Tables)
    ensures OpenTrials(t) == RunningTrials(t) + PendingTrials(t) + UnreadyTrials(t)
    ensures RunningTrials(t) !! PendingTrials(t) && RunningTrials(t) !! UnreadyTrials(t)
    ensures PendingTrials(t) !! UnreadyTrials(t)
  {
  }

  /** The gate's three counts together count every open trial once. */
  lemma CountsEveryOpenTrialOnce(t: Tables)
    requires Inv(t)
    ensures TrialSiteCount(t) == |OpenTrials(t)|
  {
    OpenSitesCountRunning(t);
    OpenTrialsSplit(t);
  }

  predicate Opens(t: Tables, e: Event)
  {
    match e
    case Submit(_, isTrial) => isTrial
    case Retry(a) => a in t.creations && t.creations[a].isTrial
    case Resurrect(v) => IsTrialServer(t, v) && !IsStarted(t, v)
    case Reopen(a) => a in t.creations && t.creations[a].isTrial
    case _ => false
  }

  /** What a step does to the number of open trials. A submission, a retry and a reopened creation of a trial open one,
      and so does a server that comes back before its site was recorded. A failure closes its trial; a payment found
      when the site is recorded, or later, and the end of the server close the trial that is open there. */
  function Change(t: Tables, e: Event): int
  {
    match e
    case Submit(_, isTrial) => if isTrial then 1 else 0
    case Retry(a) => if a in t.creations && t.creations[a].isTrial then 1 else 0
    case Reopen(a) => if a in t.creations && t.creations[a].isTrial then 1 else 0
    case Fail(a) => if a in t.creations && t.creations[a].isTrial then -1 else 0
    case Record(v, isPaid, _) => if isPaid && IsTrialServer(t, v) then -1 else 0
    case Resurrect(v) => if IsTrialServer(t, v) && !IsStarted(t, v) then 1 else 0
    case Convert(_) => -1
    case Delete(_) => -1
    case Terminate(v) => if HasOpenTrial(t, v) then -1 else 0
    case _ => 0
  }

  /** A trial is open on the server: its site's is, or its site is not recorded yet. */
  predicate HasOpenTrial(t: Tables, v: Server)
  {
    if IsStarted(t, v) then t.sites[v].IsOpen() else IsLive(t, v) && IsTrialServer(t, v)
  }

  /** The trial whose openness the step moves: a creation's own, or the one the server was built for. */
  lemma TrialMoved(t: Tables, e: Event) returns (a: ActionId)
    requires Inv(t) && Enabled(t, e) && Change(t, e) != 0
    ensures OpenTrials(Apply(t, e)) == if Change(t, e) > 0 then OpenTrials(t) + {a} else OpenTrials(t) - {a}
    ensures a in OpenTrials(t) <==> Change(t, e) < 0
  {
    if e.Submit? || e.Retry? || e.Reopen? || e.Fail? {
      a := e.a;
      CreationMoves(t, e);
    } else {
      assert IsTrialServer(t, e.v) by {
        assert !e.Record? && !e.Resurrect? && IsStarted(t, e.v) ==> e.v in OpenSites(t);
      }
      a :| a in t.creations && t.creations[a].isTrial && t.creations[a].server == Some(e.v);
      ServerMoves(t, e, a);
    }
  }

  lemma CreationMoves(t: Tables, e: Event)
    requires Enabled(t, e) && Change(t, e) != 0 && (e.Submit? || e.Retry? || e.Reopen? || e.Fail?)
    ensures OpenTrials(Apply(t, e)) == if Change(t, e) > 0 then OpenTrials(t) + {e.a} else OpenTrials(t) - {e.a}
    ensures e.a in OpenTrials(t) <==> Change(t, e) < 0
  {
    forall b | b != e.a ensures b in OpenTrials(Apply(t, e)) <==> b in OpenTrials(t) {
    }
  }

  lemma ServerMoves(t: Tables, e: Event, a: ActionId)
    requires LinksDistinct(t) && Enabled(t, e) && Change(t, e) != 0
    requires e.Record? || e.Convert? || e.Delete? || e.Terminate? || e.Resurrect?
    requires a in t.creations && t.creations[a].isTrial && t.creations[a].server == Some(e.v)
    ensures OpenTrials(Apply(t, e)) == if Change(t, e) > 0 then OpenTrials(t) + {a} else OpenTrials(t) - {a}
    ensures a in OpenTrials(t) <==> Change(t, e) < 0
  {
    forall b | b != a ensures b in OpenTrials(Apply(t, e)) <==> b in OpenTrials(t) {
    }
  }

  lemma NoneMoves(t: Tables, e: Event)
    requires Inv(t) && Enabled(t, e) && Change(t, e) == 0
    ensures OpenTrials(Apply(t, e)) == OpenTrials(t)
  {
    forall b ensures b in OpenTrials(Apply(t, e)) <==> b in OpenTrials(t) {
      if e.Submit? || e.Retry? || e.Fail? || e.Finalize? || e.Settle? || e.Reopen? {
        CreationStepKeeps(t, e, b);
      } else {
        ServerStepKeeps(t, e, b);
      }
    }
  }

  lemma CreationStepKeeps(t: Tables, e: Event, b: ActionId)
    requires LinksExist(t) && Enabled(t, e) && Change(t, e) == 0
    requires e.Submit? || e.Retry? || e.Fail? || e.Finalize? || e.Settle? || e.Reopen?
    ensures b in OpenTrials(Apply(t, e)) <==> b in OpenTrials(t)
  {
  }

  lemma ServerStepKeeps(t: Tables, e: Event, b: ActionId)
    requires Inv(t) && Enabled(t, e) && Change(t, e) == 0
    requires !(e.Submit? || e.Retry? || e.Fail? || e.Finalize? || e.Settle? || e.Reopen?)
    ensures b in OpenTrials(Apply(t, e)) <==> b in OpenTrials(t)
  {
  }

  /** The gate's count moves by exactly that. */
  lemma CountAfter(t: Tables, e: Event)
    requires Inv(t) && Enabled(t, e)
    ensures TrialSiteCount(Apply(t, e)) == TrialSiteCount(t) + Change(t, e)
  {
    StepKeeps(t, e);
    CountsEveryOpenTrialOnce(t);
    CountsEveryOpenTrialOnce(Apply(t, e));
    if Change(t, e) != 0 {
      var a := TrialMoved(t, e);
    } else {
      NoneMoves(t, e);
    }
  }

  /** The creation a server was built for, if it was built for a trial. */
  predicate IsTrialOf(t: Tables, a: ActionId, v: Server)
  {
    a in t.creations && t.creations[a].isTrial && t.creations[a].server == Some(v)
  }

  /** A terminated server ends its trial at once, recorded or not, and a converted one too: exactly that trial closes,
      so its owner may begin another. */
  lemma ClosingFreesOne(t: Tables, e: Event, a: ActionId)
    requires Inv(t) && Enabled(t, e) && (e.Terminate? || e.Convert?) && IsTrialOf(t, a, e.v)
    ensures IsClosedTrial(Apply(t, e), a)
    ensures OpenTrials(Apply(t, e)) == OpenTrials(t) - {a}
    ensures TrialSiteCount(Apply(t, e)) == TrialSiteCount(t) - (if a in OpenTrials(t) then 1 else 0)
  {
    StepKeeps(t, e);
    CountsEveryOpenTrialOnce(t);
    CountsEveryOpenTrialOnce(Apply(t, e));
    OpenWithoutClosed(t, e, a);
  }

  lemma OpenWithoutClosed(t: Tables, e: Event, a: ActionId)
    requires Inv(t) && Enabled(t, e) && (e.Terminate? || e.Convert?) && IsTrialOf(t, a, e.v)
    ensures IsClosedTrial(Apply(t, e), a) && OpenTrials(Apply(t, e)) == OpenTrials(t) - {a}
  {
    forall b ensures b in OpenTrials(Apply(t, e)) <==> b in OpenTrials(t) && b != a {
    }
  }

  // ---------------------------------------------------------------- every run

  ghost predicate IsRun(states: seq<Tables>, events: seq<Event>)
  {
    && |states| == |events| + 1
    && forall i :: 0 <= i < |events| ==> Enabled(states[i], events[i]) && states[i + 1] == Apply(states[i], events[i])
  }

  /** No terminated server comes back before its site was recorded, and no failed trial is reopened. */
  predicate NoneComeBack(t: Tables, e: Event)
  {
    e.Resurrect? || e.Reopen? ==> !Opens(t, e)
  }

  /** Over every such run an owner has at most the limit of open trials, however counted. */
  lemma {:induction false} LimitHolds(states: seq<Tables>, events: seq<Event>, n: nat)
    requires IsRun(states, events) && Inv(states[0]) && TrialSiteCount(states[0]) <= states[0].limit && n < |states|
    requires forall i :: 0 <= i < n ==> NoneComeBack(states[i], events[i])
    ensures Inv(states[n]) && states[n].limit == states[0].limit
    ensures TrialSiteCount(states[n]) <= states[n].limit && TrialSiteCount(states[n]) == |OpenTrials(states[n])|
  {
    if n > 0 {
      LimitHolds(states, events, n - 1);
      StepKeeps(states[n - 1], events[n - 1]);
      CountAfter(states[n - 1], events[n - 1]);
    }
    CountsEveryOpenTrialOnce(states[n]);
  }

  /** The exact effect of a terminated server that comes back: one more open trial if and only if it was built for
      a trial whose site was never recorded. */
  lemma ComesBackIff(t: Tables, v: Server)
    requires Inv(t) && Enabled(t, Resurrect(v))
    ensures TrialSiteCount(Apply(t, Resurrect(v))) ==
            TrialSiteCount(t) + (if IsTrialServer(t, v) && !IsStarted(t, v) then 1 else 0)
  {
    CountAfter(t, Resurrect(v));
  }

  /** The exact effect of a failed creation that a late worker reopens: one more open trial if and only if it is one. */
  lemma ReopensIff(t: Tables, a: ActionId)
    requires Inv(t) && Enabled(t, Reopen(a))
    ensures TrialSiteCount(Apply(t, Reopen(a))) == TrialSiteCount(t) + (if t.creations[a].isTrial then 1 else 0)
  {
    CountAfter(t, Reopen(a));
  }

  lemma RunThen(states: seq<Tables>, events: seq<Event>, e: Event) returns (more: seq<Tables>, longer: seq<Event>)
    requires IsRun(states, events) && Enabled(states[|events|], e)
    ensures IsRun(more, longer) && |longer| == |events| + 1
    ensures more[0] == states[0] && more[|longer|] == Apply(states[|events|], e)
  {
    more, longer := states + [Apply(states[|events|], e)], events + [e];
  }

  lemma TerminatedEarly() returns (states: seq<Tables>, events: seq<Event>)
    ensures IsRun(states, events) && states[0] == Tables(map[], map[], map[], 1)
    ensures states[|events|] == Tables(map[0 := Creation(true, true, Some(0))], map[0 := true], map[], 1)
  {
    states, events := [Tables(map[], map[], map[], 1)], [];
    states, events := RunThen(states, events, Submit(0, true));
    assert states[|events|] == Tables(map[0 := Creation(true, true, None)], map[], map[], 1);
    states, events := RunThen(states, events, Finalize(0, 0));
    states, events := RunThen(states, events, Terminate(0));
  }

  /** With a limit of one: a trial is terminated before its site is recorded, a second begins, and the first server
      comes back. Two trials are open. */
  lemma ComingBackPassesLimit() returns (states: seq<Tables>, events: seq<Event>)
    ensures IsRun(states, events) && states[0] == Tables(map[], map[], map[], 1)
    ensures TrialSiteCount(states[|events|]) == 2
  {
    states, events := TerminatedEarly();
    var closed := states[|events|];
    assert OpenSites(closed) == {} && PendingTrials(closed) == {} && UnreadyTrials(closed) == {};
    states, events := RunThen(states, events, Submit(1, true));
    states, events := RunThen(states, events, Resurrect(0));
    var first, second := Creation(true, true, Some(0)), Creation(true, true, None);
    var u := states[|events|];
    assert u == Tables(map[0 := first, 1 := second], map[0 := false], map[], 1);
    TwoOpen(u);
  }

  lemma TwoOpen(u: Tables)
    requires u == Tables(map[0 := Creation(true, true, Some(0)), 1 := Creation(true, true, None)], map[0 := false],
                         map[], 1)
    ensures TrialSiteCount(u) == 2
  {
    assert OpenSites(u) == {} && PendingTrials(u) == {1} && UnreadyTrials(u) == {0};
  }

  /** With a limit of one: a trial fails, a second begins, and a late worker of the first makes it pending again. */
  lemma ReopeningPassesLimit() returns (states: seq<Tables>, events: seq<Event>)
    ensures IsRun(states, events) && states[0] == Tables(map[], map[], map[], 1)
    ensures TrialSiteCount(states[|events|]) == 2
  {
    var empty := Tables(map[], map[], map[], 1);
    var begun := Apply(empty, Submit(0, true));
    var failed := Apply(begun, Fail(0));
    NoneOpen(empty);
    NoneOpen(failed);
    var other := Apply(failed, Submit(1, true));
    var reopened := Apply(other, Reopen(0));
    assert OpenSites(reopened) == {} && PendingTrials(reopened) == {0, 1} && UnreadyTrials(reopened) == {};
    states := [empty, begun, failed, other, reopened];
    events := [Submit(0, true), Fail(0), Submit(1, true), Reopen(0)];
  }

  lemma NoneOpen(t: Tables)
    requires t.sites == map[] && forall a :: a in t.creations ==> t.creations[a] == Creation(true, false, None)
    ensures TrialSiteCount(t) == 0
  {
    assert OpenSites(t) == {} && PendingTrials(t) == {} && UnreadyTrials(t) == {};
  }

  // ---------------------------------------------------------------- locks

  /** `is_server_locked`: the site's own state first, then the request that built the server. */
  predicate IsServerLocked(t: Tables, v: Server)
  {
    if IsStarted(t, v) then t.sites[v].IsOpen() else IsTrialServer(t, v)
  }

  function TrialServers(t: Tables): set<Server>
  {
    set a | a in t.creations && t.creations[a].isTrial && t.creations[a].server.Some? :: t.creations[a].server.value
  }

  /** `find_locked_servers`: open sites, and free-trial creations' servers without a recorded site. */
  function FindLockedServers(t: Tables): set<Server>
  {
    OpenSites(t) + (TrialServers(t) - t.sites.Keys)
  }

  /** The two readings disagree exactly on a trial's server whose recorded site has no trial state. */
  lemma LockViewsAgreeIff(t: Tables, v: Server)
    ensures (v in FindLockedServers(t) <==> IsServerLocked(t, v)) <==>
            !(IsTrialServer(t, v) && v in t.sites && t.sites[v] == NoTrial)
  {
  }

  /** In every state a run reaches, the bulk reading locks exactly the servers the single one does. */
  lemma {:induction false} LockViewsAgree(states: seq<Tables>, events: seq<Event>, n: nat, v: Server)
    requires IsRun(states, events) && Inv(states[0]) && n < |states|
    ensures Inv(states[n])
    ensures v in FindLockedServers(states[n]) <==> IsServerLocked(states[n], v)
  {
    if n > 0 {
      LockViewsAgree(states, events, n - 1, v);
      StepKeeps(states[n - 1], events[n - 1]);
    }
    LockViewsAgreeIff(states[n], v);
  }
}
