/**
 The clock of one trial: a daily job that warns, ends and deletes, an overnight region that stops and terminates
 what it is asked to, and the customer's own moves. Days are whole numbers.
 */
module TrialClock {
  import opened Base
  import opened TrialStates

  datatype Power = Running | Stopped | Terminated

  /** What the site keeps of its trial. */
  datatype Trial = Trial(state: TrialState, endsOn: Option<int>, deletesOn: Option<int>)

  /** The trial, its server, and the two jobs waiting for the region. */
  datatype State = State(trial: Trial, power: Power, isProtected: bool, isStopAsked: bool, isTerminateAsked: bool)

  /** The product's clock. */
  datatype Settings = Settings(days: nat, deletionDays: nat)

  // ---------------------------------------------------------------- the operations

  /** `start`, before the site is saved. */
  function Started(isTrialSite: bool, isFree: bool, today: int, clock: Settings): (t: Trial)
    ensures t.state == Active <==> isTrialSite && isFree
    ensures t.state == Converted <==> isTrialSite && !isFree
    ensures t.endsOn.Some? <==> t.state == Active
    ensures t.state == Active ==> t.endsOn.value - today == clock.days
  {
    if !isTrialSite then Trial(NoTrial, None, None)
    else if !isFree then Trial(Converted, None, None)
    else Trial(Active, Some(today + clock.days), None)
  }

  function EndNow(t: Trial, today: int, clock: Settings): Trial
  {
    t.(state := Ended, deletesOn := Some(today + clock.deletionDays))
  }

  /** `delete`: closes a terminated server's trial, else asks for the terminate unless an operator protects it. */
  function DeleteNow(s: State): State
  {
    if s.power == Terminated then s.(trial := s.trial.(state := Deleted))
    else if s.isProtected then s
    else s.(isTerminateAsked := true)
  }

  /** Today's step. `pays` is an active payment method whose plan fits the limit. */
  function Advance(s: State, today: int, pays: bool, clock: Settings): State
    requires s.trial.state.IsOpen() && IsClock(s.trial)
  {
    if s.power == Terminated then DeleteNow(s)
    else if s.trial.state == Active then
      if pays then s.(trial := s.trial.(state := Converted))
      else if s.trial.endsOn.value <= today then s.(trial := EndNow(s.trial, today, clock), isStopAsked := true)
      else s
    else if s.trial.deletesOn.value <= today then DeleteNow(s)
    else if s.power != Stopped then s.(isStopAsked := true)
    else s
  }

  /** Extended from the later of today and the end; an ended one runs again. */
  function Extended(s: State, days: nat, today: int): State
    requires s.trial.endsOn.Some?
  {
    var ends := Max(s.trial.endsOn.value, today) + days;
    s.(trial := Trial(Active, Some(ends), None),
       power := if s.trial.state == Ended && s.power == Stopped then Running else s.power)
  }

  /** The night after a run: the stop job stops an ended trial's server, the region terminates what it was asked to,
      and a server's own save closes its open trial. */
  function Night(s: State): State
  {
    if s.isTerminateAsked && s.power != Terminated then
      s.(power := Terminated, isStopAsked := false, isTerminateAsked := false,
         trial := if s.trial.state.IsOpen() then s.trial.(state := Deleted) else s.trial)
    else if s.isStopAsked && s.power == Running && s.trial.state == Ended then
      s.(power := Stopped, isStopAsked := false)
    else s.(isStopAsked := false)
  }

  // ---------------------------------------------------------------- every run

  /** Active has an end and no deletion day, Ended has both. */
  predicate IsClock(t: Trial)
  {
    && (t.state == Active ==> t.endsOn.Some? && t.deletesOn == None)
    && (t.state == Ended ==> t.endsOn.Some? && t.deletesOn.Some?)
  }

  predicate Inv(s: State)
  {
    && IsClock(s.trial)
    && (s.trial.state == Deleted ==> s.power == Terminated)
  }

  datatype Event =
    | Daily(today: int, pays: bool)
    | Extend(days: nat, today: int)
    | Convert
    | NightFalls
    | RegionTerminates
    | RegionFails
    | Revive(power: Power)
    | Protect(isOn: bool)

  predicate Enabled(s: State, e: Event)
  {
    match e
    case Daily(_, _) => s.trial.state.IsOpen() && IsClock(s.trial)
    case Extend(days, _) => s.trial.state.IsOpen() && s.trial.endsOn.Some? && days > 0
    case Convert => s.trial.state.IsOpen()
    case Revive(power) => s.power == Terminated && power != Terminated
    case _ => true
  }

  function Apply(s: State, e: Event, clock: Settings): State
    requires Enabled(s, e)
  {
    match e
    case Daily(today, pays) => Advance(s, today, pays, clock)
    case Extend(days, today) => Extended(s, days, today)
    case Convert => s.(trial := s.trial.(state := Converted))
    case NightFalls => Night(s)
    case RegionTerminates => Night(s.(isTerminateAsked := true))
    case RegionFails => s.(isStopAsked := false, isTerminateAsked := false)
    case Protect(isOn) => s.(isProtected := isOn)
    // A late report sets a terminated server going again.
    case Revive(power) => s.(power := power)
  }

  /** Every step keeps the dates and moves along the lifecycle. A trial is deleted only on a terminated server, and only
      a late report takes that back. */
  lemma StepKeeps(s: State, e: Event, clock: Settings)
    requires IsClock(s.trial) && Enabled(s, e)
    ensures var u := Apply(s, e, clock);
            && IsClock(u.trial)
            && (u.trial.state != s.trial.state ==> u.trial.state in Transitions(s.trial.state))
            && (s.trial.state == Converted || s.trial.state == Deleted ==> u.trial == s.trial)
            && (u.trial.state == Deleted && s.trial.state != Deleted ==> u.power == Terminated)
            && (s.power == Terminated ==> (u.power == Terminated <==> !e.Revive?))
  {
  }

  /** The power of the server after a step: stopped overnight if that was asked of an ended trial's running server,
      terminated overnight if that was asked, running again with an extended trial, or as a late report says. */
  lemma PowerAfter(s: State, e: Event, clock: Settings)
    requires IsClock(s.trial) && Enabled(s, e)
    ensures var isNight := e.NightFalls? || e.RegionTerminates?;
            var isDeleted := isNight && (s.isTerminateAsked || e.RegionTerminates?);
            Apply(s, e, clock).power ==
            if isDeleted then Terminated
            else if isNight && s.isStopAsked && s.trial.state == Ended && s.power == Running then Stopped
            else if e.Extend? && s.trial.state == Ended && s.power == Stopped then Running
            else if e.Revive? then e.power
            else s.power
    ensures Apply(s, e, clock).isProtected == if e.Protect? then e.isOn else s.isProtected
  {
  }

  /** The state of the trial after a step, other than the daily one: a server that terminates closes its open trial. */
  lemma StateAfter(s: State, e: Event, clock: Settings)
    requires IsClock(s.trial) && Enabled(s, e) && !e.Daily?
    ensures var isTerminated := Apply(s, e, clock).power == Terminated && s.power != Terminated;
            Apply(s, e, clock).trial.state ==
            if e.Convert? then Converted
            else if e.Extend? then Active
            else if isTerminated && s.trial.state in {Active, Ended} then Deleted
            else s.trial.state
    ensures e.Extend? ==>
              Apply(s, e, clock).trial.endsOn.Some?
              && Apply(s, e, clock).trial.endsOn.value >= s.trial.endsOn.value + e.days
              && Apply(s, e, clock).trial.endsOn.value >= e.today + e.days
    ensures !e.Extend? ==> Apply(s, e, clock).trial.endsOn == s.trial.endsOn
  {
  }

  ghost predicate IsRun(states: seq<State>, events: seq<Event>, clock: Settings)
  {
    && |states| == |events| + 1
    && forall i :: 0 <= i < |events| ==>
         Enabled(states[i], events[i]) && states[i + 1] == Apply(states[i], events[i], clock)
  }

  /** In every reachable state the dates match the trial's state, and what is Converted or Deleted never changes. */
  lemma {:induction false} ClockHolds(states: seq<State>, events: seq<Event>, clock: Settings, m: nat, n: nat)
    requires IsRun(states, events, clock) && IsClock(states[0].trial) && m <= n < |states|
    ensures IsClock(states[n].trial) && IsClock(states[m].trial)
    ensures states[m].trial.state in {Converted, Deleted} ==> states[n].trial == states[m].trial
    decreases n
  {
    if n > 0 {
      ClockHolds(states, events, clock, if m < n then m else n - 1, n - 1);
      StepKeeps(states[n - 1], events[n - 1], clock);
    }
  }

  /** A trial becomes Deleted on a terminated server only, and from then on the server stays terminated if and only if
      no late report revives it. */
  lemma {:induction false} DeletedStaysTerminatedIff(states: seq<State>, events: seq<Event>, clock: Settings, m: nat,
                                                     n: nat)
    requires IsRun(states, events, clock) && IsClock(states[0].trial) && m < n < |states|
    requires states[m].trial.state != Deleted && states[m + 1].trial.state == Deleted
    ensures states[m + 1].power == Terminated
    ensures (forall i :: m < i <= n ==> states[i].power == Terminated) <==>
            forall i :: m < i < n ==> !events[i].Revive?
    decreases n
  {
    ClockHolds(states, events, clock, m, n - 1);
    StepKeeps(states[m], events[m], clock);
    if m + 1 < n {
      DeletedStaysTerminatedIff(states, events, clock, m, n - 1);
      StepKeeps(states[n - 1], events[n - 1], clock);
      if forall i :: m < i < n ==> !events[i].Revive? {
        assert states[n - 1].power == Terminated && !events[n - 1].Revive?;
      } else if forall i :: m < i < n - 1 ==> !events[i].Revive? {
        assert events[n - 1].Revive? && states[n - 1].power == Terminated && states[n].power != Terminated;
      }
    }
  }

  // ---------------------------------------------------------------- the timetable

  /** One run of the daily job: its day, whether an operator protects the server, and whether the team pays. */
  datatype Run = Run(day: int, isProtected: bool, pays: bool)

  /** One run over an open trial, and the night after it. */
  function DayAndNight(s: State, run: Run, clock: Settings): State
    requires Inv(s)
    ensures Inv(DayAndNight(s, run, clock))
  {
    var t := s.(isProtected := run.isProtected);
    if t.trial.state.IsOpen() then Night(Advance(t, run.day, run.pays, clock)) else Night(t)
  }

  /** The state after run `i` and its night. */
  function After(start: State, runs: seq<Run>, clock: Settings, i: nat): (s: State)
    requires Inv(start) && i < |runs|
    ensures Inv(s)
    decreases i
  {
    DayAndNight(if i == 0 then start else After(start, runs, clock, i - 1), runs[i], clock)
  }

  predicate IsFresh(start: State, d: int, clock: Settings)
  {
    start.trial == Started(true, true, d, clock) && start.power == Running
    && !start.isStopAsked && !start.isTerminateAsked
  }

  /** Until run `n` the trial has not reached its end and the team has not paid. */
  predicate IsOpenUntil(runs: seq<Run>, endsOn: int, n: nat)
  {
    n <= |runs| && forall i :: 0 <= i < n ==> runs[i].day < endsOn && !runs[i].pays
  }

  /** Run `c` is the first on which the team pays, and the trial was not ended before. */
  predicate IsPayRun(runs: seq<Run>, endsOn: int, c: nat)
  {
    IsOpenUntil(runs, endsOn, c) && c < |runs| && runs[c].pays
  }

  /** Run `e` is the first on or after the trial's end, and the team never paid until then. */
  predicate IsEndRun(runs: seq<Run>, endsOn: int, e: nat)
  {
    IsOpenUntil(runs, endsOn, e) && e < |runs| && runs[e].day >= endsOn && !runs[e].pays
  }

  /** Run `i` may ask for the terminate: after the end, on or after the deletion day, and not protected. */
  predicate MayDelete(runs: seq<Run>, e: nat, deletesOn: int, i: nat)
  {
    e < i < |runs| && runs[i].day >= deletesOn && !runs[i].isProtected
  }

  predicate IsDeleteRun(runs: seq<Run>, e: nat, deletesOn: int, q: nat)
  {
    MayDelete(runs, e, deletesOn, q) && forall i :: 0 <= i < q ==> !MayDelete(runs, e, deletesOn, i)
  }

  lemma {:induction false} RunsWhileActive(start: State, d: int, clock: Settings, runs: seq<Run>, i: nat)
    requires Inv(start) && IsFresh(start, d, clock) && i < |runs| && IsOpenUntil(runs, d + clock.days, i + 1)
    ensures After(start, runs, clock, i) == start.(isProtected := runs[i].isProtected)
    decreases i
  {
    if i > 0 {
      RunsWhileActive(start, d, clock, runs, i - 1);
    }
  }

  /** The state a run meets when the trial is still Active. */
  lemma MetActive(start: State, d: int, clock: Settings, runs: seq<Run>, n: nat) returns (s: State)
    requires Inv(start) && IsFresh(start, d, clock) && n < |runs| && IsOpenUntil(runs, d + clock.days, n)
    ensures IsFresh(s, d, clock) && Inv(s) && After(start, runs, clock, n) == DayAndNight(s, runs[n], clock)
  {
    s := start;
    if n > 0 {
      RunsWhileActive(start, d, clock, runs, n - 1);
      s := After(start, runs, clock, n - 1);
    }
  }

  function ConvertedState(endsOn: int, isProtected: bool): State
  {
    State(Trial(Converted, Some(endsOn), None), Running, isProtected, false, false)
  }

  function EndedState(endsOn: int, deletesOn: int, isProtected: bool): State
  {
    State(Trial(Ended, Some(endsOn), Some(deletesOn)), Stopped, isProtected, false, false)
  }

  function DeletedState(endsOn: int, deletesOn: int, isProtected: bool): State
  {
    State(Trial(Deleted, Some(endsOn), Some(deletesOn)), Terminated, isProtected, false, false)
  }

  lemma PaidDay(s: State, d: int, run: Run, clock: Settings)
    requires Inv(s) && IsFresh(s, d, clock) && run.pays
    ensures DayAndNight(s, run, clock) == ConvertedState(d + clock.days, run.isProtected)
  {
  }

  lemma EndDay(s: State, d: int, run: Run, clock: Settings)
    requires IsFresh(s, d, clock) && run.day >= d + clock.days && !run.pays
    ensures DayAndNight(s, run, clock) == EndedState(d + clock.days, run.day + clock.deletionDays, run.isProtected)
  {
  }

  /** A day over an ended trial: kept before its deletion day or while protected, else deleted by morning. */
  lemma EndedDay(s: State, endsOn: int, deletesOn: int, run: Run, clock: Settings)
    requires s == EndedState(endsOn, deletesOn, s.isProtected)
    ensures DayAndNight(s, run, clock) ==
            if deletesOn <= run.day && !run.isProtected then DeletedState(endsOn, deletesOn, run.isProtected)
            else EndedState(endsOn, deletesOn, run.isProtected)
  {
  }

  lemma DeletedDay(s: State, endsOn: int, deletesOn: int, run: Run, clock: Settings)
    requires s == DeletedState(endsOn, deletesOn, s.isProtected)
    ensures DayAndNight(s, run, clock) == DeletedState(endsOn, deletesOn, run.isProtected)
  {
  }

  lemma {:induction false} RunsOncePaid(start: State, d: int, clock: Settings, runs: seq<Run>, c: nat, i: nat)
    requires Inv(start) && IsFresh(start, d, clock) && IsPayRun(runs, d + clock.days, c) && c <= i < |runs|
    ensures After(start, runs, clock, i) == ConvertedState(d + clock.days, runs[i].isProtected)
    decreases i
  {
    if i == c {
      var s := MetActive(start, d, clock, runs, c);
      PaidDay(s, d, runs[c], clock);
    } else {
      RunsOncePaid(start, d, clock, runs, c, i - 1);
    }
  }

  lemma {:induction false} RunsWhileEnded(start: State, d: int, clock: Settings, runs: seq<Run>, e: nat,
                                          deletesOn: int, i: nat)
    requires Inv(start) && IsFresh(start, d, clock) && e <= i < |runs|
    requires IsEndRun(runs, d + clock.days, e) && deletesOn == runs[e].day + clock.deletionDays
    requires forall j :: 0 <= j <= i ==> !MayDelete(runs, e, deletesOn, j)
    ensures After(start, runs, clock, i) == EndedState(d + clock.days, deletesOn, runs[i].isProtected)
    decreases i
  {
    if i == e {
      var s := MetActive(start, d, clock, runs, e);
      EndDay(s, d, runs[e], clock);
    } else {
      RunsWhileEnded(start, d, clock, runs, e, deletesOn, i - 1);
      assert !MayDelete(runs, e, deletesOn, i);
      EndedDay(After(start, runs, clock, i - 1), d + clock.days, deletesOn, runs[i], clock);
    }
  }

  lemma {:induction false} RunsOnceDeleted(start: State, d: int, clock: Settings, runs: seq<Run>, e: nat,
                                           deletesOn: int, q: nat, i: nat)
    requires Inv(start) && IsFresh(start, d, clock)
    requires IsEndRun(runs, d + clock.days, e) && deletesOn == runs[e].day + clock.deletionDays
    requires IsDeleteRun(runs, e, deletesOn, q) && q <= i < |runs|
    ensures After(start, runs, clock, i) == DeletedState(d + clock.days, deletesOn, runs[i].isProtected)
    decreases i
  {
    if i == q {
      RunsWhileEnded(start, d, clock, runs, e, deletesOn, q - 1);
      EndedDay(After(start, runs, clock, q - 1), d + clock.days, deletesOn, runs[q], clock);
    } else {
      RunsOnceDeleted(start, d, clock, runs, e, deletesOn, q, i - 1);
      DeletedDay(After(start, runs, clock, i - 1), d + clock.days, deletesOn, runs[i], clock);
    }
  }

  /** The whole timetable, for any run days, any protection and any payment after the end: ended by the first run on or
      after the end, deleted in the night after the first unprotected run on or after the deletion day, and not
      before. */
  lemma Timetable(start: State, d: int, clock: Settings, runs: seq<Run>, e: nat, q: nat, i: nat)
    requires Inv(start) && IsFresh(start, d, clock)
    requires IsEndRun(runs, d + clock.days, e)
    requires IsDeleteRun(runs, e, runs[e].day + clock.deletionDays, q) && i < |runs|
    ensures var s := After(start, runs, clock, i);
            && s.trial.state == (if i < e then Active else if i < q then Ended else Deleted)
            && s.power == (if i < e then Running else if i < q then Stopped else Terminated)
            && (e <= i ==> s.trial.deletesOn == Some(runs[e].day + clock.deletionDays))
  {
    var deletesOn := runs[e].day + clock.deletionDays;
    if i < e {
      RunsWhileActive(start, d, clock, runs, i);
    } else if i < q {
      RunsWhileEnded(start, d, clock, runs, e, deletesOn, i);
    } else {
      RunsOnceDeleted(start, d, clock, runs, e, deletesOn, q, i);
    }
  }

  /** The team pays in time, be it on the last day or by a run that comes after it: the first run that sees it converts
      the trial, which keeps its end and its running server, and no later run ends or deletes it. */
  lemma PaidTimetable(start: State, d: int, clock: Settings, runs: seq<Run>, c: nat, i: nat)
    requires Inv(start) && IsFresh(start, d, clock) && IsPayRun(runs, d + clock.days, c) && i < |runs|
    ensures var s := After(start, runs, clock, i);
            && s.trial == Trial(if i < c then Active else Converted, Some(d + clock.days), None)
            && s.power == Running && !s.isStopAsked && !s.isTerminateAsked
  {
    if i < c {
      RunsWhileActive(start, d, clock, runs, i);
    } else {
      RunsOncePaid(start, d, clock, runs, c, i);
    }
  }

  /** A trial converts by its runs exactly if one of them sees the team pay before any unpaid run reaches the end. */
  lemma ConvertsIff(start: State, d: int, clock: Settings, runs: seq<Run>, endsOn: int, i: nat)
    requires Inv(start) && IsFresh(start, d, clock) && endsOn == d + clock.days && i < |runs|
    ensures After(start, runs, clock, i).trial.state == Converted <==>
            exists c :: 0 <= c <= i && IsPayRun(runs, endsOn, c)
  {
    if IsOpenUntil(runs, endsOn, i + 1) {
      RunsWhileActive(start, d, clock, runs, i);
      assert forall c :: 0 <= c <= i ==> !IsPayRun(runs, endsOn, c);
    } else {
      var n := FirstClosing(runs, endsOn, i);
      if runs[n].pays {
        RunsOncePaid(start, d, clock, runs, n, i);
        assert IsPayRun(runs, endsOn, n);
      } else {
        NeverConverts(start, d, clock, runs, n, i);
        forall c | 0 <= c <= i ensures !IsPayRun(runs, endsOn, c) {
          assert c > n ==> !IsOpenUntil(runs, endsOn, c);
        }
      }
    }
  }

  lemma {:induction false} FirstClosing(runs: seq<Run>, endsOn: int, i: nat) returns (n: nat)
    requires i < |runs| && !IsOpenUntil(runs, endsOn, i + 1)
    ensures n <= i && IsOpenUntil(runs, endsOn, n) && (runs[n].day >= endsOn || runs[n].pays)
    decreases i
  {
    if IsOpenUntil(runs, endsOn, i) {
      n := i;
    } else {
      n := FirstClosing(runs, endsOn, i - 1);
    }
  }

  lemma {:induction false} NeverConverts(start: State, d: int, clock: Settings, runs: seq<Run>, e: nat, i: nat)
    requires Inv(start) && IsFresh(start, d, clock) && IsEndRun(runs, d + clock.days, e) && e <= i < |runs|
    ensures After(start, runs, clock, i).trial.state in {Ended, Deleted}
    decreases i
  {
    if i == e {
      var s := MetActive(start, d, clock, runs, e);
      EndDay(s, d, runs[e], clock);
    } else {
      NeverConverts(start, d, clock, runs, e, i - 1);
    }
  }

  /** With a run every day, unpaid and unprotected: a trial started on day d is Ended by the run on d + days and Deleted
      in the night after the one on d + days + deletion days, or the day after it ended when there are none. */
  lemma DailyTimetable(start: State, d: int, clock: Settings, first: int, n: nat, i: nat)
    requires Inv(start) && IsFresh(start, d, clock) && first <= d + clock.days && i < n
    requires first + n > d + clock.days + Max(1, clock.deletionDays)
    ensures var s := After(start, seq(n, k => Run(first + k, false, false)), clock, i);
            var today := first + i;
            s.trial.state == (if today < d + clock.days then Active
                              else if today < d + clock.days + Max(1, clock.deletionDays) then Ended
                              else Deleted)
            && (s.trial.state == Deleted <==> s.power == Terminated)
  {
    var runs := seq(n, k => Run(first + k, false, false));
    var e: nat := d + clock.days - first;
    var q := e + Max(1, clock.deletionDays);
    assert IsEndRun(runs, d + clock.days, e);
    assert IsDeleteRun(runs, e, runs[e].day + clock.deletionDays, q);
    Timetable(start, d, clock, runs, e, q, i);
  }

  /** A protected server is kept, however long the trial is over. */
  lemma ProtectedIsKept(start: State, d: int, clock: Settings, runs: seq<Run>, e: nat, i: nat)
    requires Inv(start) && IsFresh(start, d, clock)
    requires IsEndRun(runs, d + clock.days, e) && e <= i < |runs|
    requires forall j :: 0 <= j < |runs| ==> runs[j].isProtected
    ensures After(start, runs, clock, i).trial.state == Ended
  {
    RunsWhileEnded(start, d, clock, runs, e, runs[e].day + clock.deletionDays, i);
  }

  // ---------------------------------------------------------------- the site, updated in place

  class TrialSite {
    var state: TrialState
    var endsOn: Option<int>
    var deletesOn: Option<int>
    var power: Power
    var isProtected: bool
    var isStopAsked: bool
    var isTerminateAsked: bool
    const days: nat
    const deletionDays: nat

    ghost function Abs(): State
      reads this
    {
      State(Trial(state, endsOn, deletesOn), power, isProtected, isStopAsked, isTerminateAsked)
    }

    ghost function Clock(): Settings
    {
      Settings(days, deletionDays)
    }

    /** `move_to`: the lifecycle decides, and a refused move changes nothing. */
    method MoveTo(to: TrialState) returns (isAllowed: bool)
      modifies this`state
      ensures isAllowed <==> to in Transitions(old(state))
      ensures state == if isAllowed then to else old(state)
    {
      isAllowed := to in Transitions(state);
      if isAllowed {
        state := to;
      }
    }

    /** `end`. Anything but a running trial is refused. */
    method End(today: int) returns (isEnded: bool)
      requires Inv(Abs())
      modifies this
      ensures isEnded <==> old(state) == Active
      ensures isEnded ==> Abs() == old(Abs()).(trial := EndNow(old(Abs()).trial, today, Clock()), isStopAsked := true)
      ensures isEnded ==> state == Ended && endsOn == old(endsOn) && deletesOn == Some(today + deletionDays)
      ensures !isEnded ==> Abs() == old(Abs())
      ensures Inv(Abs())
    {
      if state != Active {
        return false;
      }
      isEnded := MoveTo(Ended);
      deletesOn := Some(today + deletionDays);
      isStopAsked := true;
    }

    /** `extend`. Only an open trial, and only by some days. */
    method ExtendBy(moreDays: int, today: int) returns (isExtended: bool)
      requires Inv(Abs())
      modifies this
      ensures isExtended <==> old(state).IsOpen() && moreDays > 0
      ensures isExtended ==> old(endsOn).Some? && moreDays >= 0
      ensures isExtended ==> Abs() == Extended(old(Abs()), moreDays, today)
      // The later of today and the old end counts, the deletion day is off, and only a stopped ended server starts.
      ensures isExtended ==>
                && state == Active && deletesOn == None
                && endsOn == Some(moreDays + if old(endsOn.value) >= today then old(endsOn.value) else today)
                && power == (if old(state) == Ended && old(power) == Stopped then Running else old(power))
      ensures !isExtended ==> Abs() == old(Abs())
      ensures Inv(Abs())
    {
      if !state.IsOpen() || moreDays <= 0 {
        return false;
      }
      var wasEnded := state == Ended;
      isExtended := MoveTo(Active);
      endsOn := Some(Max(endsOn.value, today) + moreDays);
      deletesOn := None;
      if wasEnded && power == Stopped {
        power := Running;
      }
    }

    /** `delete`. */
    method Delete()
      requires state.IsOpen()
      modifies this
      ensures Abs() == DeleteNow(old(Abs()))
      ensures state == (if old(power) == Terminated then Deleted else old(state))
      ensures isTerminateAsked == (old(isTerminateAsked) || (old(power) != Terminated && !isProtected))
      ensures old(Inv(Abs())) ==> Inv(Abs())
    {
      if power != Terminated {
        if isProtected {
          return;
        }
        isTerminateAsked := true;
        return;
      }
      var _ := MoveTo(Deleted);
    }

    /** `advance`, for an open trial. */
    method AdvanceDay(today: int, pays: bool)
      requires state.IsOpen() && Inv(Abs())
      modifies this
      ensures Abs() == Advance(old(Abs()), today, pays, Clock())
      ensures Inv(Abs())
      // The day, case by case. A terminated server closes the trial.
      ensures old(power) == Terminated ==> Abs() == old(Abs()).(trial := Trial(Deleted, endsOn, deletesOn))
                                           && endsOn == old(endsOn) && deletesOn == old(deletesOn)
      // A running trial converts if the team pays, and nothing is stopped; else it ends on its day.
      ensures old(power) != Terminated && old(state) == Active && pays ==>
                Abs() == old(Abs()).(trial := Trial(Converted, old(endsOn), None))
      ensures old(power) != Terminated && old(state) == Active && !pays ==>
                Abs() == if old(endsOn.value) <= today then
                           old(Abs()).(trial := Trial(Ended, old(endsOn), Some(today + deletionDays)),
                                       isStopAsked := true)
                         else old(Abs())
      // An ended one waits for its deletion day with its server stopped, and then asks for the terminate once.
      ensures old(power) != Terminated && old(state) == Ended ==>
                && Abs() == old(Abs()).(isStopAsked := isStopAsked, isTerminateAsked := isTerminateAsked)
                && isStopAsked == (old(isStopAsked) || (old(deletesOn.value) > today && power != Stopped))
                && isTerminateAsked == (old(isTerminateAsked) || (old(deletesOn.value) <= today && !isProtected))
    {
      if power == Terminated {
        Delete();
      } else if state == Active {
        if pays {
          var _ := MoveTo(Converted);
        } else if endsOn.value <= today {
          var _ := End(today);
        }
      } else if deletesOn.value <= today {
        Delete();
      } else if power != Stopped {
        isStopAsked := true;
      }
    }
  }
}
