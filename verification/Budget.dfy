/**
 A team's spending limit: what its open segments run at and what its pending creations reserve. Every
 step here holds the Team lock, so each is atomic.
 */
module Budget {
  import opened Base
  import opened Sums
  import opened Ledger

  type ActionId = nat

  /** A creation. `isPending` is one of the pending statuses, `isLinked` that its server row exists. */
  datatype Creation = Creation(rate: nat, isTrial: bool, isPending: bool, isLinked: bool)
  {
    predicate IsReserved() { isPending && !isLinked }
  }

  datatype Team = Team(creations: map<ActionId, Creation>, log: seq<Change>, enabled: set<SubId>, cap: nat)

  datatype Event =
    | Submit(a: ActionId, rate: nat)
    | SubmitTrial(a: ActionId, rate: nat)
    | Fail(a: ActionId)
    | Settle(a: ActionId)
    | Finalize(a: ActionId, sub: SubId, now: int)
    | Cancel(sub: SubId, now: int)
    | Pause(sub: SubId, now: int)
    | Resume(sub: SubId, now: int)
    | ChangePlan(sub: SubId, rate: nat, now: int)
    | Note(change: Change)
    | Retry(a: ActionId, todaysRate: nat)
    | Reopen(a: ActionId)

  // ---------------------------------------------------------------- what is counted

  function ReservedRates(creations: map<ActionId, Creation>): map<ActionId, nat>
  {
    map a | a in creations :: if creations[a].IsReserved() then creations[a].rate else 0
  }

  /** `reserved_rate`: every pending creation without a server, free trials included. */
  ghost function Reserved(t: Team): nat
  {
    Sum(t.creations.Keys, ReservedRates(t.creations))
  }

  function BoughtRate(c: Creation): nat
  {
    if c.IsReserved() && !c.isTrial then c.rate else 0
  }

  function BoughtRates(creations: map<ActionId, Creation>): map<ActionId, nat>
  {
    map a | a in creations :: BoughtRate(creations[a])
  }

  /** The part of it that will be billed: a free trial opens no subscription. */
  ghost function Bought(t: Team): nat
  {
    Sum(t.creations.Keys, BoughtRates(t.creations))
  }

  ghost function Running(t: Team): nat
  {
    RunRate(t.log, t.enabled)
  }

  ghost function Committed(t: Team): nat
  {
    Running(t) + Bought(t)
  }

  /** The gate of a purchase: its rate and all reservations against what the cap leaves. */
  ghost predicate FitsBudget(t: Team, rate: nat)
  {
    rate + Reserved(t) <= Max(0, t.cap - Running(t))
  }

  /** Nothing was ever recorded for the subscription. */
  predicate IsNewSub(t: Team, sub: SubId)
  {
    sub !in t.enabled && forall i :: 0 <= i < |t.log| ==> t.log[i].sub != sub
  }

  /** A subscription that was opened once, paused or not. */
  predicate IsKnownSub(t: Team, sub: SubId)
  {
    exists i :: 0 <= i < |t.log| && t.log[i].sub == sub
  }

  ghost predicate Enabled(t: Team, e: Event)
  {
    match e
    case Submit(a, rate) => a !in t.creations && FitsBudget(t, rate)
    case SubmitTrial(a, _) => a !in t.creations
    case Fail(a) => a in t.creations && t.creations[a].IsReserved()
    case Settle(a) => a in t.creations && t.creations[a].isLinked
    case Finalize(a, sub, _) => a in t.creations && t.creations[a].IsReserved() && IsNewSub(t, sub)
    case Cancel(sub, _) => sub in t.enabled || IsKnownSub(t, sub)
    case Pause(sub, _) => sub in t.enabled
    case Resume(sub, _) => sub !in t.enabled && IsKnownSub(t, sub)
    // A resize asks whether its new rate fits beside what else runs. It does not ask what is reserved.
    case ChangePlan(sub, rate, _) => IsOpen(t.log, sub) && rate <= Max(0, t.cap - RunRate(t.log, t.enabled - {sub}))
    case Note(change) => change.kind in {PastDue, Suspended, Reactivated, PaymentMethodChanged}
    case Retry(a, todaysRate) =>
      a in t.creations && !t.creations[a].isPending && !t.creations[a].isLinked
      && (t.creations[a].isTrial || FitsBudget(t, todaysRate))
    // A worker that outlived the failure writes its own status over it, and asks no gate.
    case Reopen(a) => a in t.creations && !t.creations[a].isPending && !t.creations[a].isLinked
  }

  function Put(t: Team, a: ActionId, c: Creation): Team
  {
    t.(creations := t.creations[a := c])
  }

  function Apply(t: Team, e: Event): Team
    requires e.Fail? || e.Settle? || e.Finalize? || e.Retry? || e.Reopen? ==> e.a in t.creations
  {
    match e
    case Submit(a, rate) => Put(t, a, Creation(rate, false, true, false))
    case SubmitTrial(a, rate) => Put(t, a, Creation(rate, true, true, false))
    case Fail(a) => Put(t, a, t.creations[a].(isPending := false))
    case Settle(a) => Put(t, a, t.creations[a].(isPending := false))
    case Finalize(a, sub, now) =>
      // The server row, the subscription at the accepted rate and the link commit together.
      var linked := Put(t, a, t.creations[a].(isLinked := true));
      if t.creations[a].isTrial then linked
      else linked.(log := t.log + [Change(sub, Created, t.creations[a].rate, now)], enabled := t.enabled + {sub})
    case Cancel(sub, now) => t.(log := t.log + [Change(sub, Cancelled, 0, now)], enabled := t.enabled - {sub})
    case Pause(sub, now) => t.(log := t.log + [Change(sub, Paused, 0, now)], enabled := t.enabled - {sub})
    // Neither the customer's resume nor a server that runs again asks the spending gate.
    case Resume(sub, now) => t.(log := t.log + [Change(sub, Resumed, 0, now)], enabled := t.enabled + {sub})
    case ChangePlan(sub, rate, now) => t.(log := t.log + [Change(sub, PlanChanged, rate, now)])
    case Note(change) => t.(log := t.log + [change])
    case Retry(a, _) => Put(t, a, t.creations[a].(isPending := true))
    case Reopen(a) => Put(t, a, t.creations[a].(isPending := true))
  }

  // ---------------------------------------------------------------- how the totals move

  lemma PutBought(t: Team, a: ActionId, c: Creation)
    ensures Bought(Put(t, a, c)) + (if a in t.creations then BoughtRate(t.creations[a]) else 0)
            == Bought(t) + BoughtRate(c)
    ensures Running(Put(t, a, c)) == Running(t)
  {
    var f := BoughtRates(t.creations);
    assert BoughtRates(t.creations[a := c]) == f[a := BoughtRate(c)];
    assert f.Keys == t.creations.Keys && f[a := BoughtRate(c)].Keys == t.creations[a := c].Keys;
    SumUpdate(f, a, BoughtRate(c));
  }

  lemma PutReserved(t: Team, a: ActionId, c: Creation)
    ensures Reserved(Put(t, a, c))
            + (if a in t.creations && t.creations[a].isPending && !t.creations[a].isLinked then t.creations[a].rate
               else 0)
            == Reserved(t) + (if c.isPending && !c.isLinked then c.rate else 0)
  {
    var f := ReservedRates(t.creations);
    var rate := if c.IsReserved() then c.rate else 0;
    assert ReservedRates(t.creations[a := c]) == f[a := rate];
    assert f.Keys == t.creations.Keys && f[a := rate].Keys == t.creations[a := c].Keys;
    SumUpdate(f, a, rate);
  }

  /** What is reserved, step by step: nothing at first; a submission, a free trial's too, a retry and a reopened
      creation add the creation's rate; a failure and the link to its server give exactly that back; no other step
      moves it. */
  lemma ReservedMoves(t: Team, e: Event)
    requires Enabled(t, e)
    ensures e.Submit? || e.SubmitTrial? ==> Reserved(Apply(t, e)) == Reserved(t) + e.rate
    ensures e.Retry? || e.Reopen? ==> Reserved(Apply(t, e)) == Reserved(t) + t.creations[e.a].rate
    ensures e.Fail? || e.Finalize? ==> Reserved(Apply(t, e)) + t.creations[e.a].rate == Reserved(t)
    ensures e.Settle? || e.Cancel? || e.Pause? || e.Resume? || e.ChangePlan? || e.Note? ==>
              Reserved(Apply(t, e)) == Reserved(t)
    ensures t.creations == map[] ==> Reserved(t) == 0
  {
    match e
    case Submit(a, rate) => PutReserved(t, a, Creation(rate, false, true, false));
    case SubmitTrial(a, rate) => PutReserved(t, a, Creation(rate, true, true, false));
    case Fail(a) => PutReserved(t, a, t.creations[a].(isPending := false));
    case Settle(a) => PutReserved(t, a, t.creations[a].(isPending := false));
    case Finalize(a, _, _) => PutReserved(t, a, t.creations[a].(isLinked := true));
    case Retry(a, _) => PutReserved(t, a, t.creations[a].(isPending := true));
    case Reopen(a) => PutReserved(t, a, t.creations[a].(isPending := true));
    case _ =>
  }

  lemma BoughtAtMostReserved(t: Team)
    ensures Bought(t) <= Reserved(t)
  {
    SumAtMost(t.creations.Keys, BoughtRates(t.creations), ReservedRates(t.creations));
  }

  /** Opening a subscription raises the run rate by exactly its opening quote. */
  lemma OpeningAddsRate(t: Team, sub: SubId, rate: nat, now: int)
    requires IsNewSub(t, sub)
    ensures RunRate(t.log + [Change(sub, Created, rate, now)], t.enabled + {sub}) == Running(t) + rate
  {
    var c := Change(sub, Created, rate, now);
    LatestAppend(t.log, c, sub);
    assert OpenRate(t.log + [c], sub) == rate;
    RunRateAppend(t.log, c, t.enabled);
    RunRateAdd(t.log + [c], t.enabled, sub);
  }

  /** Finalization moves a bought creation's rate from reserved to running without changing the sum. */
  lemma FinalizeConserves(t: Team, a: ActionId, sub: SubId, now: int)
    requires Enabled(t, Finalize(a, sub, now))
    ensures var u := Apply(t, Finalize(a, sub, now));
            && Committed(u) == Committed(t)
            && Running(u) == Running(t) + (if t.creations[a].isTrial then 0 else t.creations[a].rate)
  {
    var c := t.creations[a];
    PutBought(t, a, c.(isLinked := true));
    if !c.isTrial {
      OpeningAddsRate(t, sub, c.rate, now);
    }
  }

  /** A failed purchase gives back exactly what it reserved; settling a linked one moves nothing. */
  lemma FailureFrees(t: Team, a: ActionId)
    requires a in t.creations
    ensures Enabled(t, Fail(a)) ==>
              Committed(Apply(t, Fail(a))) + (if t.creations[a].isTrial then 0 else t.creations[a].rate) == Committed(t)
    ensures Enabled(t, Settle(a)) ==> Committed(Apply(t, Settle(a))) == Committed(t)
  {
    PutBought(t, a, t.creations[a].(isPending := false));
  }

  /** Ending a subscription lowers the running rate by its open rate, unless a pause took that out before. */
  lemma CancelLowers(t: Team, sub: SubId, now: int)
    ensures Running(Apply(t, Cancel(sub, now))) + (if sub in t.enabled then OpenRate(t.log, sub) else 0) == Running(t)
    ensures Bought(Apply(t, Cancel(sub, now))) == Bought(t)
  {
    RunRateAppend(t.log, Change(sub, Cancelled, 0, now), t.enabled - {sub});
    if sub in t.enabled {
      RunRateWithout(t.log, t.enabled, sub);
    } else {
      assert t.enabled - {sub} == t.enabled;
    }
  }

  /** What was ended leaves nothing that a resume could put back, unless another row has the last word. */
  lemma CancelCloses(t: Team, sub: SubId, now: int)
    requires HasLastWord(t.log, Change(sub, Cancelled, 0, now))
    ensures OpenRate(Apply(t, Cancel(sub, now)).log, sub) == 0
  {
    RateBearingRowSetsRate(t.log, Change(sub, Cancelled, 0, now));
  }

  /** A pause takes the open rate out and a resume puts it back. */
  lemma PauseLowers(t: Team, sub: SubId, now: int)
    requires Enabled(t, Pause(sub, now))
    ensures Running(Apply(t, Pause(sub, now))) + OpenRate(t.log, sub) == Running(t)
    ensures Bought(Apply(t, Pause(sub, now))) == Bought(t)
  {
    RunRateAppend(t.log, Change(sub, Paused, 0, now), t.enabled - {sub});
    RunRateWithout(t.log, t.enabled, sub);
  }

  lemma ResumeRaises(t: Team, sub: SubId, now: int)
    requires Enabled(t, Resume(sub, now))
    ensures Running(Apply(t, Resume(sub, now))) == Running(t) + OpenRate(t.log, sub)
    ensures Bought(Apply(t, Resume(sub, now))) == Bought(t)
  {
    RunRateAppend(t.log, Change(sub, Resumed, 0, now), t.enabled + {sub});
    RunRateAdd(t.log, t.enabled, sub);
  }

  /** A resize moves the running rate by the difference of the two rates, unless a pause took the subscription out or a
      row that takes effect later has the last word, as that of a subscription that has not started yet. */
  lemma ChangePlanMoves(t: Team, sub: SubId, rate: nat, now: int)
    ensures var c := Change(sub, PlanChanged, rate, now);
            Running(Apply(t, ChangePlan(sub, rate, now))) ==
            Running(t) + if sub in t.enabled && HasLastWord(t.log, c) then rate - OpenRate(t.log, sub) else 0
    ensures Bought(Apply(t, ChangePlan(sub, rate, now))) == Bought(t)
  {
    PlanChangeAdds(t.log, Change(sub, PlanChanged, rate, now), t.enabled);
  }

  lemma PlanChangeAdds(log: seq<Change>, c: Change, names: set<SubId>)
    requires c.kind == PlanChanged
    ensures RunRate(log + [c], names) ==
            RunRate(log, names) + if c.sub in names && HasLastWord(log, c) then c.rate - OpenRate(log, c.sub) else 0
  {
    if HasLastWord(log, c) {
      PlanChangeMovesRunRate(log, c, names);
    } else {
      OutdatedRowMovesNothing(log, c, names);
    }
  }

  // ---------------------------------------------------------------- every run

  /** Four steps may take more than a gate allowed. A retry keeps the rate accepted at submission: it is careful when
      the catalog price did not fall. A resume and a reopened creation ask no gate: they are careful when the rate
      still fits. A resize asks one that forgets the reservations: it is careful when the new rate fits beside them. */
  ghost predicate IsCareful(t: Team, e: Event)
  {
    match e
    case Retry(a, todaysRate) =>
      a in t.creations ==> t.creations[a].isTrial || t.creations[a].rate <= todaysRate
    case Resume(sub, _) => OpenRate(t.log, sub) <= t.cap - Committed(t)
    case Reopen(a) => a in t.creations ==> t.creations[a].isTrial || t.creations[a].rate <= t.cap - Committed(t)
    case ChangePlan(sub, rate, now) =>
      sub in t.enabled && HasLastWord(t.log, Change(sub, PlanChanged, rate, now)) ==>
        rate - OpenRate(t.log, sub) <= t.cap - Committed(t)
    case _ => true
  }

  lemma StepKeeps(t: Team, e: Event)
    requires Committed(t) <= t.cap && Enabled(t, e) && IsCareful(t, e)
    ensures Committed(Apply(t, e)) <= t.cap && Apply(t, e).cap == t.cap
  {
    BoughtAtMostReserved(t);
    match e
    case Submit(a, rate) => PutBought(t, a, Creation(rate, false, true, false));
    case SubmitTrial(a, rate) => PutBought(t, a, Creation(rate, true, true, false));
    case Fail(a) => PutBought(t, a, t.creations[a].(isPending := false));
    case Settle(a) => PutBought(t, a, t.creations[a].(isPending := false));
    case Finalize(a, sub, now) => FinalizeConserves(t, a, sub, now);
    case Cancel(sub, now) => CancelLowers(t, sub, now);
    case Pause(sub, now) => PauseLowers(t, sub, now);
    case Resume(sub, now) => ResumeRaises(t, sub, now);
    case ChangePlan(sub, rate, now) => ChangePlanMoves(t, sub, rate, now);
    case Note(change) => RunRateAppend(t.log, change, t.enabled);
    case Retry(a, _) => PutBought(t, a, t.creations[a].(isPending := true));
    case Reopen(a) => PutBought(t, a, t.creations[a].(isPending := true));
  }

  ghost predicate IsRun(states: seq<Team>, events: seq<Event>)
  {
    && |states| == |events| + 1
    && forall i :: 0 <= i < |events| ==> Enabled(states[i], events[i]) && states[i + 1] == Apply(states[i], events[i])
  }

  /** Budget safety: over every run of purchases, free trials, failures, finalizations, cancellations, pauses, and
      careful resumes, resizes, retries and reopened creations, open segments and bought reservations stay within a
      fixed cap. */
  lemma {:induction false} BudgetHolds(states: seq<Team>, events: seq<Event>, n: nat)
    requires IsRun(states, events) && Committed(states[0]) <= states[0].cap && n < |states|
    requires forall i :: 0 <= i < n ==> IsCareful(states[i], events[i])
    ensures Committed(states[n]) <= states[n].cap && states[n].cap == states[0].cap
  {
    if n > 0 {
      BudgetHolds(states, events, n - 1);
      StepKeeps(states[n - 1], events[n - 1]);
    }
  }

  /** The exact condition of a retry that passed the gate on today's price: the bound survives if and only
      if the accepted rate fits as well. */
  lemma RetryKeepsIff(t: Team, a: ActionId, todaysRate: nat)
    requires Committed(t) <= t.cap && Enabled(t, Retry(a, todaysRate)) && !t.creations[a].isTrial
    ensures Committed(Apply(t, Retry(a, todaysRate))) <= t.cap <==>
            t.creations[a].rate <= t.cap - Committed(t)
  {
    PutBought(t, a, t.creations[a].(isPending := true));
  }

  /** The exact condition of a failed creation that a late worker reopens: the bound survives if and only if it is a
      free trial or its rate fits. */
  lemma ReopenKeepsIff(t: Team, a: ActionId)
    requires Committed(t) <= t.cap && Enabled(t, Reopen(a))
    ensures Committed(Apply(t, Reopen(a))) <= t.cap <==>
            t.creations[a].isTrial || t.creations[a].rate <= t.cap - Committed(t)
  {
    PutBought(t, a, t.creations[a].(isPending := true));
  }

  /** A failed creation at an old price of 20 is retried under a cap of 10 once the catalog asks 5. */
  lemma RetryAtOldPriceOverspends() returns (t: Team, a: ActionId, todaysRate: nat)
    ensures Committed(t) <= t.cap && Enabled(t, Retry(a, todaysRate))
    ensures Committed(Apply(t, Retry(a, todaysRate))) > t.cap
  {
    a, todaysRate := 1, 5;
    t := Team(map[1 := Creation(20, false, false, false)], [], {}, 10);
    assert ReservedRates(t.creations) == map[1 := 0] && BoughtRates(t.creations) == map[1 := 0];
    SumRemove({1}, ReservedRates(t.creations), 1);
    SumRemove({1}, BoughtRates(t.creations), 1);
    assert {1} - {1} == {};
    PutBought(t, a, t.creations[a].(isPending := true));
  }

  /** The exact condition of a resume: the bound survives if and only if the open rate fits what the cap leaves. */
  lemma ResumeKeepsIff(t: Team, sub: SubId, now: int)
    requires Committed(t) <= t.cap && Enabled(t, Resume(sub, now))
    ensures Committed(Apply(t, Resume(sub, now))) <= t.cap <==> OpenRate(t.log, sub) <= t.cap - Committed(t)
  {
    ResumeRaises(t, sub, now);
  }

  /** The exact condition of a resize that passed its gate: the bound survives if and only if the subscription is
      paused, or another row has the last word on it, or what the new plan adds fits beside what is running and
      bought. */
  lemma ResizeKeepsIff(t: Team, sub: SubId, rate: nat, now: int)
    requires Committed(t) <= t.cap && Enabled(t, ChangePlan(sub, rate, now))
    ensures Committed(Apply(t, ChangePlan(sub, rate, now))) <= t.cap <==>
            sub !in t.enabled || !HasLastWord(t.log, Change(sub, PlanChanged, rate, now))
            || rate - OpenRate(t.log, sub) <= t.cap - Committed(t)
  {
    ChangePlanMoves(t, sub, rate, now);
  }

  lemma RunThen(states: seq<Team>, events: seq<Event>, e: Event) returns (more: seq<Team>, longer: seq<Event>, t: Team)
    requires IsRun(states, events) && Enabled(states[|events|], e)
    ensures IsRun(more, longer) && more[0] == states[0] && more[|longer|] == t && t == Apply(states[|events|], e)
  {
    t := Apply(states[|events|], e);
    more, longer := states + [t], events + [e];
  }

  /** One subscription at 10 under a cap of 10, and its pause. */
  lemma PausedTeam() returns (t: Team, paused: Team)
    ensures Running(t) == 10 && Committed(t) == 10 && t.cap == 10 && Enabled(t, Pause(1, 1))
    ensures paused == Apply(t, Pause(1, 1)) && Running(paused) == 0 && OpenRate(paused.log, 1) == 10
    ensures paused.creations == map[] && Reserved(paused) == 0 && Bought(paused) == 0 && 1 !in paused.enabled
    ensures IsKnownSub(paused, 1) && paused.cap == 10
  {
    t := Team(map[], [Change(1, Created, 10, 0)], {1}, 10);
    LatestUnique(t.log, 1, 0);
    assert OpenRate(t.log, 1) == 10 && Bought(t) == 0;
    RunRateWithout(t.log, {1}, 1);
    assert {1} - {1} == {};
    PauseLowers(t, 1, 1);
    OtherRowsKeepSegments(t.log, Change(1, Paused, 0, 1), 1);
    paused := Apply(t, Pause(1, 1));
    assert paused.log[0].sub == 1;
  }

  /** One subscription at 10 under a cap of 10: paused, a server at 10 is bought, and then it is resumed. */
  lemma ResumeOverspends() returns (states: seq<Team>, events: seq<Event>)
    ensures IsRun(states, events) && Committed(states[0]) <= states[0].cap
    ensures Committed(states[|events|]) == 20 && states[|events|].cap == 10
  {
    var t, paused := PausedTeam();
    states, events := [t], [];
    states, events, t := RunThen(states, events, Pause(1, 1));
    assert t == paused;
    PutBought(t, 1, Creation(10, false, true, false));
    states, events, t := RunThen(states, events, Submit(1, 10));
    ResumeRaises(t, 1, 2);
    states, events, t := RunThen(states, events, Resume(1, 2));
  }

  /** One subscription at 10 under a cap of 20. */
  lemma TeamOfOne() returns (t: Team)
    ensures t == Team(map[], [Change(1, Created, 10, 0)], {1}, 20)
    ensures Running(t) == 10 && RunRate(t.log, {}) == 0 && Reserved(t) == 0 && Bought(t) == 0
    ensures OpenRate(t.log, 1) == 10 && IsOpen(t.log, 1)
  {
    t := Team(map[], [Change(1, Created, 10, 0)], {1}, 20);
    OpenRateIs(t.log, 1, 0);
    RunRateWithout(t.log, {1}, 1);
    assert {1} - {1} == {};
  }

  /** A server at 10 is bought, and the subscription is resized to 20, which fits beside nothing else that runs. */
  lemma ResizedBesidePurchase() returns (states: seq<Team>, events: seq<Event>)
    ensures IsRun(states, events) && Committed(states[0]) <= states[0].cap && states[|events|].cap == 20
    ensures var t := states[|events|];
            Running(t) == 20 && t.creations == map[1 := Creation(10, false, true, false)] && IsNewSub(t, 2)
  {
    var t := TeamOfOne();
    states, events := [t], [];
    PutBought(t, 1, Creation(10, false, true, false));
    states, events, t := RunThen(states, events, Submit(1, 10));
    assert {1} - {1} == {};
    ChangePlanMoves(t, 1, 20, 1);
    states, events, t := RunThen(states, events, ChangePlan(1, 20, 1));
  }

  /** Then the server is finalized, and half as much again runs as the cap allows. */
  lemma ResizeOverspends() returns (states: seq<Team>, events: seq<Event>)
    ensures IsRun(states, events) && Committed(states[0]) <= states[0].cap
    ensures Running(states[|events|]) == 30 && states[|events|].cap == 20
  {
    var t;
    states, events := ResizedBesidePurchase();
    FinalizeConserves(states[|events|], 1, 2, 2);
    states, events, t := RunThen(states, events, Finalize(1, 2, 2));
  }

  // ---------------------------------------------------------------- the records, updated in place

  class TeamRecords {
    var creations: map<ActionId, Creation>
    var log: seq<Change>
    var enabled: set<SubId>
    const cap: nat

    ghost function Abs(): Team
      reads this
    {
      Team(creations, log, enabled, cap)
    }

    /** `submit_request` under the Team lock, given the two sums it reads. */
    method SubmitRequest(a: ActionId, rate: nat, isTrial: bool, reserved: nat, running: nat) returns (isQueued: bool)
      requires a !in creations && reserved == Reserved(Abs()) && running == Running(Abs())
      modifies this`creations
      ensures isQueued <==> isTrial || FitsBudget(old(Abs()), rate)
      ensures isQueued <==> isTrial || rate + reserved + running <= cap || (rate == 0 && reserved == 0)
      ensures isQueued ==> creations == old(creations)[a := Creation(rate, isTrial, true, false)]
      ensures isQueued ==> Abs() == Apply(old(Abs()), if isTrial then SubmitTrial(a, rate) else Submit(a, rate))
      ensures !isQueued ==> Abs() == old(Abs())
      ensures Committed(old(Abs())) <= cap ==> Committed(Abs()) <= cap
    {
      ghost var before := Abs();
      if !isTrial && rate + reserved > Max(0, cap - running) {
        return false;
      }
      if Committed(before) <= cap {
        StepKeeps(before, if isTrial then SubmitTrial(a, rate) else Submit(a, rate));
      }
      creations := creations[a := Creation(rate, isTrial, true, false)];
      isQueued := true;
    }

    /** `_finalize` under the Team lock: the link, the subscription and its opening row together. */
    method FinalizeCreation(a: ActionId, sub: SubId, now: int)
      requires Enabled(Abs(), Finalize(a, sub, now))
      modifies this`creations, this`log, this`enabled
      ensures Abs() == Apply(old(Abs()), Finalize(a, sub, now))
      ensures creations == old(creations)[a := old(creations[a]).(isLinked := true)]
      ensures old(creations[a]).isTrial ==> log == old(log) && enabled == old(enabled)
      ensures !old(creations[a]).isTrial ==>
                && log == old(log) + [Change(sub, Created, old(creations[a]).rate, now)]
                && enabled == old(enabled) + {sub}
      ensures Committed(Abs()) == Committed(old(Abs()))
    {
      FinalizeConserves(Abs(), a, sub, now);
      var c := creations[a];
      if !c.isTrial {
        log := log + [Change(sub, Created, c.rate, now)];
        enabled := enabled + {sub};
      }
      creations := creations[a := c.(isLinked := true)];
    }

    /** `end_subscription`: the Cancelled row, then the subscription is disabled. */
    method EndSubscription(sub: SubId, now: int)
      requires sub in enabled
      modifies this`log, this`enabled
      ensures Abs() == Apply(old(Abs()), Cancel(sub, now))
      ensures log == old(log) + [Change(sub, Cancelled, 0, now)] && enabled == old(enabled) - {sub}
      ensures Running(Abs()) + OpenRate(old(log), sub) == Running(old(Abs()))
    {
      CancelLowers(Abs(), sub, now);
      log := log + [Change(sub, Cancelled, 0, now)];
      enabled := enabled - {sub};
    }

    /** `resize_to_plan`, given what else runs: the new rate must fit beside that, and a closed subscription keeps
        its plan. */
    method ResizeToPlan(sub: SubId, rate: nat, now: int, others: nat) returns (isMoved: bool)
      requires others == RunRate(log, enabled - {sub})
      modifies this`log
      ensures isMoved <==> IsOpen(old(log), sub) && (rate + others <= cap || rate == 0)
      ensures isMoved ==> Abs() == Apply(old(Abs()), ChangePlan(sub, rate, now))
      ensures log == if isMoved then old(log) + [Change(sub, PlanChanged, rate, now)] else old(log)
      ensures isMoved && sub in enabled && HasLastWord(old(log), Change(sub, PlanChanged, rate, now)) ==>
                Running(Abs()) == others + rate
    {
      if !IsOpen(log, sub) || rate > Max(0, cap - others) {
        return false;
      }
      ChangePlanMoves(Abs(), sub, rate, now);
      if sub in enabled {
        RunRateWithout(log, enabled, sub);
      }
      log := log + [Change(sub, PlanChanged, rate, now)];
      isMoved := true;
    }

    /** `pause_billing`: a no-op when it is paused already. */
    method PauseBilling(sub: SubId, now: int)
      modifies this`log, this`enabled
      ensures sub !in old(enabled) ==> Abs() == old(Abs())
      ensures sub in old(enabled) ==>
                Abs() == Apply(old(Abs()), Pause(sub, now))
                && log == old(log) + [Change(sub, Paused, 0, now)] && enabled == old(enabled) - {sub}
                && Running(Abs()) + OpenRate(old(log), sub) == Running(old(Abs()))
    {
      if sub !in enabled {
        return;
      }
      PauseLowers(Abs(), sub, now);
      log := log + [Change(sub, Paused, 0, now)];
      enabled := enabled - {sub};
    }

    /** `resume_billing`, which asks no gate. */
    method ResumeBilling(sub: SubId, now: int)
      requires IsKnownSub(Abs(), sub)
      modifies this`log, this`enabled
      ensures sub in old(enabled) ==> Abs() == old(Abs())
      ensures sub !in old(enabled) ==>
                Abs() == Apply(old(Abs()), Resume(sub, now))
                && log == old(log) + [Change(sub, Resumed, 0, now)] && enabled == old(enabled) + {sub}
                && Running(Abs()) == Running(old(Abs())) + OpenRate(old(log), sub)
    {
      if sub in enabled {
        return;
      }
      ResumeRaises(Abs(), sub, now);
      log := log + [Change(sub, Resumed, 0, now)];
      enabled := enabled + {sub};
    }
  }
}
