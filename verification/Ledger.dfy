/**
 The append-only change log of subscriptions, which is the price lock: the open segment of a subscription
 is its latest rate-bearing change. Batched reads must agree with a reading of each subscription's own log.
 */
module Ledger {
  import opened Base
  import opened Sums

  type SubId = nat

  datatype Kind = Created | PlanChanged | Cancelled | PastDue | Suspended | Reactivated | Paused | Resumed
                | PaymentMethodChanged
  {
    predicate IsSegment() { Created? || PlanChanged? || Cancelled? }
  }

  /** One row. Its place in the log is its creation order; it takes effect at `effectiveAt`. */
  datatype Change = Change(sub: SubId, kind: Kind, rate: nat, effectiveAt: int)

  predicate IsSegmentOf(c: Change, sub: SubId)
  {
    c.sub == sub && c.kind.IsSegment()
  }

  // ---------------------------------------------------------------- one subscription's own log

  /** Fold the log: a later row replaces an earlier one unless it takes effect before it. */
  function Latest(log: seq<Change>, sub: SubId): (latest: Option<nat>)
    ensures latest.Some? ==>
              && latest.value < |log| && IsSegmentOf(log[latest.value], sub)
              && forall i :: 0 <= i < |log| && IsSegmentOf(log[i], sub) ==> !IsNewer(log, i, latest.value)
    ensures latest == None ==> forall i :: 0 <= i < |log| ==> !IsSegmentOf(log[i], sub)
  {
    if log == [] then None
    else
      var last := |log| - 1;
      var before := Latest(log[..last], sub);
      if !IsSegmentOf(log[last], sub) then before
      else if before == None || log[before.value].effectiveAt <= log[last].effectiveAt then Some(last)
      else before
  }

  /** The order the query asks for: by effective time, then by creation. */
  predicate IsNewer(log: seq<Change>, i: nat, j: nat)
    requires i < |log| && j < |log|
  {
    log[i].effectiveAt > log[j].effectiveAt || (log[i].effectiveAt == log[j].effectiveAt && i > j)
  }

  /** The latest row is the only segment row that no other one outdates. */
  lemma LatestUnique(log: seq<Change>, sub: SubId, k: nat)
    requires k < |log| && IsSegmentOf(log[k], sub)
    requires forall i :: 0 <= i < |log| && IsSegmentOf(log[i], sub) ==> !IsNewer(log, i, k)
    ensures Latest(log, sub) == Some(k)
  {
  }

  function RateOf(c: Change): nat
  {
    if c.kind == Cancelled then 0 else c.rate
  }

  /** `current_segment_rate`: nothing when it was cancelled or never priced. */
  function OpenRate(log: seq<Change>, sub: SubId): nat
  {
    match Latest(log, sub)
    case None => 0
    case Some(i) => RateOf(log[i])
  }

  predicate IsOpen(log: seq<Change>, sub: SubId)
  {
    Latest(log, sub).Some? && log[Latest(log, sub).value].kind != Cancelled
  }

  // ---------------------------------------------------------------- what an appended row does

  lemma LatestAppend(log: seq<Change>, c: Change, sub: SubId)
    ensures Latest(log + [c], sub) ==
            if IsSegmentOf(c, sub)
               && (Latest(log, sub) == None || log[Latest(log, sub).value].effectiveAt <= c.effectiveAt)
            then Some(|log|) else Latest(log, sub)
  {
  }

  /** A standing, pause or payment-method row never touches an open segment, and a row of one subscription
      never touches another's. */
  lemma OtherRowsKeepSegments(log: seq<Change>, c: Change, sub: SubId)
    requires c.kind in {PastDue, Suspended, Reactivated, Paused, Resumed, PaymentMethodChanged} || c.sub != sub
    ensures OpenRate(log + [c], sub) == OpenRate(log, sub) && IsOpen(log + [c], sub) == IsOpen(log, sub)
  {
  }

  /** The rate-bearing rows of the row's subscription all take effect no later than it. */
  predicate HasLastWord(log: seq<Change>, c: Change)
  {
    forall i :: 0 <= i < |log| && log[i].sub == c.sub && log[i].kind in {Created, PlanChanged, Cancelled} ==>
      log[i].effectiveAt <= c.effectiveAt
  }

  /** A row that opens a subscription or changes its plan sets its rate, and a cancellation closes it, unless a
      rate-bearing row that is there already takes effect later: then it changes nothing. */
  lemma RateBearingRowSetsRate(log: seq<Change>, c: Change)
    requires c.kind in {Created, PlanChanged, Cancelled}
    ensures HasLastWord(log, c) ==>
              && OpenRate(log + [c], c.sub) == (if c.kind == Cancelled then 0 else c.rate)
              && (IsOpen(log + [c], c.sub) <==> c.kind != Cancelled)
    ensures !HasLastWord(log, c) ==>
              OpenRate(log + [c], c.sub) == OpenRate(log, c.sub) && IsOpen(log + [c], c.sub) == IsOpen(log, c.sub)
  {
    LatestAppend(log, c, c.sub);
  }

  /** What the open rate of a subscription is, read off its whole log: that of the row that opened it or changed its
      plan last, by the time of effect and then by the order of the log; nothing if that row cancelled it, or there is
      none. */
  lemma OpenRateIs(log: seq<Change>, sub: SubId, k: nat)
    requires k < |log| && log[k].sub == sub && log[k].kind in {Created, PlanChanged, Cancelled}
    requires forall i :: 0 <= i < |log| && log[i].sub == sub && log[i].kind in {Created, PlanChanged, Cancelled} ==>
               log[i].effectiveAt < log[k].effectiveAt || (log[i].effectiveAt == log[k].effectiveAt && i <= k)
    ensures OpenRate(log, sub) == (if log[k].kind == Cancelled then 0 else log[k].rate)
    ensures IsOpen(log, sub) <==> log[k].kind != Cancelled
  {
    LatestUnique(log, sub, k);
  }

  lemma UnpricedIsClosed(log: seq<Change>, sub: SubId)
    requires forall i :: 0 <= i < |log| && log[i].sub == sub ==> log[i].kind !in {Created, PlanChanged, Cancelled}
    ensures OpenRate(log, sub) == 0 && !IsOpen(log, sub)
  {
  }

  /** A new segment row decides the rate if and only if no earlier one takes effect after it. */
  lemma AppendDecidesIff(log: seq<Change>, c: Change)
    requires c.kind in {Created, PlanChanged, Cancelled}
    ensures Latest(log + [c], c.sub) == Some(|log|) <==> HasLastWord(log, c)
  {
    LatestAppend(log, c, c.sub);
    if HasLastWord(log, c) {
      assert Latest(log, c.sub).Some? ==> log[Latest(log, c.sub).value].effectiveAt <= c.effectiveAt;
    }
  }

  /** A subscription that starts in the future and is cancelled before keeps its opening rate: the Created
      row takes effect last. */
  lemma CancelBeforeStartStaysOpen(sub: SubId, rate: nat, start: int, cancelledAt: int)
    requires cancelledAt < start && rate > 0
    ensures var log := [Change(sub, Created, rate, start), Change(sub, Cancelled, 0, cancelledAt)];
            IsOpen(log, sub) && OpenRate(log, sub) == rate
  {
  }

  // ---------------------------------------------------------------- the batched reads

  /** The rows the query returns for `names`: each segment row once, newest first. */
  ghost predicate IsQueryResult(log: seq<Change>, names: set<SubId>, rows: seq<nat>)
  {
    && (forall n :: 0 <= n < |rows| ==> rows[n] < |log| && log[rows[n]].sub in names && log[rows[n]].kind.IsSegment())
    && (forall i :: 0 <= i < |log| && log[i].sub in names && log[i].kind.IsSegment() ==> i in rows)
    && (forall m, n :: 0 <= m < n < |rows| ==> IsNewer(log, rows[m], rows[n]))
  }

  /** The rows by subscription: the scan keeps the first row it meets for each. */
  method LatestBySubscription(log: seq<Change>, ghost names: set<SubId>, rows: seq<nat>)
    returns (latest: map<SubId, Change>)
    requires IsQueryResult(log, names, rows)
    ensures forall sub :: sub in latest <==> sub in names && Latest(log, sub).Some?
    ensures forall sub :: sub in latest ==> latest[sub] == log[Latest(log, sub).value]
  {
    latest := map[];
    ghost var at: map<SubId, nat> := map[];
    for n := 0 to |rows|
      invariant latest.Keys == at.Keys
      invariant forall sub :: sub in at ==>
                  at[sub] < n && log[rows[at[sub]]].sub == sub && latest[sub] == log[rows[at[sub]]]
      invariant forall m :: 0 <= m < n ==> log[rows[m]].sub in at && at[log[rows[m]].sub] <= m
    {
      var row := log[rows[n]];
      if row.sub !in latest {
        latest := latest[row.sub := row];
        at := at[row.sub := n];
      }
    }
    forall sub | sub in latest
      ensures sub in names && Latest(log, sub) == Some(rows[at[sub]])
    {
      FirstRowIsLatest(log, names, rows, sub, at[sub]);
    }
    forall sub | sub in names && Latest(log, sub).Some? ensures sub in latest {
      var i := Latest(log, sub).value;
      assert i in rows;
      var m :| 0 <= m < |rows| && rows[m] == i;
      assert log[rows[m]].sub in at;
    }
  }

  lemma FirstRowIsLatest(log: seq<Change>, names: set<SubId>, rows: seq<nat>, sub: SubId, n: nat)
    requires IsQueryResult(log, names, rows) && n < |rows| && log[rows[n]].sub == sub
    requires forall m :: 0 <= m < |rows| && log[rows[m]].sub == sub ==> n <= m
    ensures Latest(log, sub) == Some(rows[n])
  {
  }

  datatype Subscription = Subscription(name: SubId, isEnabled: bool)

  ghost predicate HasDistinctNames(subs: seq<Subscription>)
  {
    forall i, j :: 0 <= i < j < |subs| ==> subs[i].name != subs[j].name
  }

  /** The names a run rate is counted over. */
  function Counted(subs: seq<Subscription>, exclude: Option<SubId>): set<SubId>
  {
    set s | s in subs && s.isEnabled && exclude != Some(s.name) :: s.name
  }

  function Rates(log: seq<Change>, names: set<SubId>): map<SubId, nat>
  {
    map sub | sub in names :: OpenRate(log, sub)
  }

  /** What a team is committed to: the open rates of its enabled subscriptions. */
  ghost function RunRate(log: seq<Change>, names: set<SubId>): nat
  {
    Sum(names, Rates(log, names))
  }

  /** `team_run_rate`: one row for each open segment of the enabled subscriptions, then their sum. */
  method TeamRunRate(log: seq<Change>, subs: seq<Subscription>, exclude: Option<SubId>, rows: seq<nat>)
    returns (total: nat)
    requires HasDistinctNames(subs)
    requires IsQueryResult(log, Counted(subs, None), rows)
    ensures total == RunRate(log, Counted(subs, exclude))
  {
    ghost var names := Counted(subs, None);
    var latest := LatestBySubscription(log, names, rows);
    total := 0;
    ghost var done: set<SubId> := {};
    for n := 0 to |subs|
      invariant done == Counted(subs[..n], exclude)
      invariant total == RunRate(log, done)
    {
      assert subs[..n + 1] == subs[..n] + [subs[n]];
      var s := subs[n];
      if s.isEnabled {
        assert s in subs && s.name in names;
        if exclude != Some(s.name) {
          NotCountedYet(subs, n, exclude);
          RunRateAdd(log, done, s.name);
          done := done + {s.name};
          if s.name in latest && latest[s.name].kind != Cancelled {
            total := total + latest[s.name].rate;
          }
        }
      }
      CountedNext(subs, n, exclude);
    }
    assert subs[..|subs|] == subs;
  }

  lemma NotCountedYet(subs: seq<Subscription>, n: nat, exclude: Option<SubId>)
    requires HasDistinctNames(subs) && n < |subs|
    ensures subs[n].name !in Counted(subs[..n], exclude)
  {
  }

  lemma CountedNext(subs: seq<Subscription>, n: nat, exclude: Option<SubId>)
    requires n < |subs|
    ensures Counted(subs[..n + 1], exclude) ==
            Counted(subs[..n], exclude)
            + (if subs[n].isEnabled && exclude != Some(subs[n].name) then {subs[n].name} else {})
  {
  }

  lemma RunRateAdd(log: seq<Change>, names: set<SubId>, sub: SubId)
    requires sub !in names
    ensures RunRate(log, names + {sub}) == RunRate(log, names) + OpenRate(log, sub)
  {
    var all := Rates(log, names + {sub});
    SumAdd(names, all, sub);
    SumSame(names, all, Rates(log, names));
  }

  lemma RunRateWithout(log: seq<Change>, names: set<SubId>, sub: SubId)
    requires sub in names
    ensures RunRate(log, names - {sub}) + OpenRate(log, sub) == RunRate(log, names)
  {
    RunRateAdd(log, names - {sub}, sub);
    assert names - {sub} + {sub} == names;
  }

  /** A row that leaves the open rates of `names` alone leaves their total alone. */
  lemma RunRateAppend(log: seq<Change>, c: Change, names: set<SubId>)
    requires c.kind in {PastDue, Suspended, Reactivated, Paused, Resumed, PaymentMethodChanged} || c.sub !in names
    ensures RunRate(log + [c], names) == RunRate(log, names)
  {
    forall sub | sub in names ensures OpenRate(log + [c], sub) == OpenRate(log, sub) {
      OtherRowsKeepSegments(log, c, sub);
    }
    SumSame(names, Rates(log + [c], names), Rates(log, names));
  }

  /** A plan change moves the run rate of an enabled subscription by exactly the difference of the two rates, and one
      that is paused moves nothing. */
  lemma PlanChangeMovesRunRate(log: seq<Change>, c: Change, names: set<SubId>)
    requires c.kind == PlanChanged && HasLastWord(log, c)
    ensures c.sub in names ==> RunRate(log + [c], names) - RunRate(log, names) == c.rate - OpenRate(log, c.sub)
    ensures c.sub !in names ==> RunRate(log + [c], names) == RunRate(log, names)
  {
    RateBearingRowSetsRate(log, c);
    RunRateAppend(log, c, names - {c.sub});
    if c.sub in names {
      RunRateWithout(log, names, c.sub);
      RunRateWithout(log + [c], names, c.sub);
    } else {
      assert names - {c.sub} == names;
    }
  }

  /** Where a row that takes effect later has the last word, a rate-bearing row moves nothing. */
  lemma OutdatedRowMovesNothing(log: seq<Change>, c: Change, names: set<SubId>)
    requires c.kind in {Created, PlanChanged, Cancelled} && !HasLastWord(log, c)
    ensures RunRate(log + [c], names) == RunRate(log, names)
  {
    RateBearingRowSetsRate(log, c);
    forall sub | sub in names ensures OpenRate(log + [c], sub) == OpenRate(log, sub) {
      if sub != c.sub { OtherRowsKeepSegments(log, c, sub); }
    }
    SumSame(names, Rates(log + [c], names), Rates(log, names));
  }

  /** `locked_team_run_rate`: the same rows read under a lock, summed straight from the scan's map. */
  method LockedTeamRunRate(log: seq<Change>, subs: seq<Subscription>, exclude: Option<SubId>, rows: seq<nat>)
    returns (total: nat)
    requires IsQueryResult(log, Counted(subs, exclude), rows)
    ensures total == RunRate(log, Counted(subs, exclude))
  {
    ghost var names := Counted(subs, exclude);
    var latest := LatestBySubscription(log, names, rows);
    total := 0;
    var left := latest.Keys;
    ghost var done: set<SubId> := {};
    while left != {}
      invariant left <= latest.Keys && done == latest.Keys - left
      invariant total == RunRate(log, done)
      decreases left
    {
      var sub :| sub in left;
      assert RateOf(latest[sub]) == OpenRate(log, sub);
      RunRateAdd(log, done, sub);
      total := total + RateOf(latest[sub]);
      left, done := left - {sub}, done + {sub};
    }
    assert done == latest.Keys;
    UnpricedAddNothing(log, names, done);
  }

  /** Subscriptions without a segment row count nothing. */
  lemma {:induction false} UnpricedAddNothing(log: seq<Change>, names: set<SubId>, priced: set<SubId>)
    requires priced <= names && forall sub :: sub in names - priced ==> OpenRate(log, sub) == 0
    ensures RunRate(log, names) == RunRate(log, priced)
    decreases names - priced
  {
    var unpriced := names - priced;
    assert names == priced + unpriced;
    if unpriced == {} {
      assert names == priced;
    } else {
      var sub :| sub in unpriced;
      assert names - (priced + {sub}) == unpriced - {sub};
      RunRateAdd(log, priced, sub);
      UnpricedAddNothing(log, names, priced + {sub});
    }
  }
}
