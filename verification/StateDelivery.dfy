/**
 A region's reports about one server, in any order, more than once, and late. A handler reads the server's row
 and decides; what it decides runs later under a row lock, between anything else.
 */
module StateDelivery {
  import opened Base

  datatype Status = Provisioning | Running | Stopped | Paused | Failed | Terminated

  /** The words a region sends. Any other word is ignored. */
  datatype Word = SaysRunning | SaysStopped | SaysPaused | SaysOther

  datatype EventName = StateReported | StateDeleted | OtherEvent

  /** One delivery. `at` is the region's own clock, None when it is not a time; `host` is empty for none. */
  datatype Report = Report(event: EventName, word: Word, at: Option<int>, host: string)

  /** The server's row. `watermark` is the region's time of the last report applied. */
  datatype Row = Row(status: Status, watermark: Option<int>, host: string)

  /** What a handler leaves to do: move the watermark on an unchanged state, or the queued job. */
  datatype Item = Advance(report: Report) | ApplyState(report: Report) | ApplyDeletion

  function StatusOf(w: Word): Option<Status>
  {
    match w
    case SaysRunning => Some(Running)
    case SaysStopped => Some(Stopped)
    case SaysPaused => Some(Paused)
    case SaysOther => None
  }

  /** A state report Central can place: a known word and a time. */
  predicate IsUsable(r: Report)
  {
    r.event == StateReported && StatusOf(r.word).Some? && r.at.Some?
  }

  /** `is_newer_report`. */
  predicate IsNewer(row: Row, at: int)
  {
    row.watermark == None || at > row.watermark.value
  }

  predicate HasMovedHost(r: Report, row: Row)
  {
    r.host != "" && r.host != row.host
  }

  // ---------------------------------------------------------------- one delivery, one item

  /** `_decide`, from the row the handler read. None is a reply without work. */
  function Decide(r: Report, seen: Row): Option<Item>
  {
    if r.event == StateDeleted then (if seen.status == Terminated then None else Some(ApplyDeletion))
    else if !IsUsable(r) then None
    else if Some(seen.status) == StatusOf(r.word) && !HasMovedHost(r, seen) then
      if IsNewer(seen, r.at.value) then Some(Advance(r)) else None
    else if IsNewer(seen, r.at.value) then Some(ApplyState(r))
    else None
  }

  /** Under the row lock the order is checked again. An advance sets the status but never the host. */
  function Execute(item: Item, row: Row): Row
    requires !item.ApplyDeletion? ==> IsUsable(item.report)
  {
    match item
    case ApplyDeletion => if row.status == Terminated then row else row.(status := Terminated)
    case Advance(r) =>
      if IsNewer(row, r.at.value) then row.(status := StatusOf(r.word).value, watermark := r.at) else row
    case ApplyState(r) =>
      if !IsNewer(row, r.at.value) then row
      else Row(StatusOf(r.word).value, r.at, if r.host != "" then r.host else row.host)
  }

  /** The word names the state the row is in. */
  predicate Says(word: Word, status: Status)
  {
    (word == SaysRunning && status == Running) || (word == SaysStopped && status == Stopped)
    || (word == SaysPaused && status == Paused)
  }

  /** What a report leaves to do, without the handler's names. A deletion is queued unless the row is Terminated. A
      state report does something only with a known word and a time later than the row's; it is queued if it says
      another state or another host than the row has, and done at once if not. */
  lemma DecideExactly(r: Report, seen: Row)
    ensures var isNew := r.event == StateReported && r.word in {SaysRunning, SaysStopped, SaysPaused} && r.at.Some?
                         && (seen.watermark == None || r.at.value > seen.watermark.value);
            var isSame := Says(r.word, seen.status) && r.host in {"", seen.host};
            Decide(r, seen) ==
            if r.event == StateDeleted && seen.status != Terminated then Some(ApplyDeletion)
            else if isNew && isSame then Some(Advance(r))
            else if isNew then Some(ApplyState(r))
            else None
  {
  }

  /** What the item does to the row it then finds: the state the report says and its time, if that is later than the
      row's; the host only of a queued report that names one. A deletion terminates and moves nothing else. */
  lemma ExecuteExactly(item: Item, row: Row)
    requires item.ApplyDeletion? || (item.report.at.Some? && item.report.event == StateReported)
    requires !item.ApplyDeletion? ==> item.report.word in {SaysRunning, SaysStopped, SaysPaused}
    ensures item.ApplyDeletion? ==> Execute(item, row) == Row(Terminated, row.watermark, row.host)
    ensures !item.ApplyDeletion? && row.watermark.Some? && item.report.at.value <= row.watermark.value ==>
              Execute(item, row) == row
    ensures !item.ApplyDeletion? && (row.watermark == None || item.report.at.value > row.watermark.value) ==>
              && Says(item.report.word, Execute(item, row).status) && Execute(item, row).watermark == item.report.at
              && Execute(item, row).host ==
                 if item.ApplyState? && item.report.host != "" then item.report.host else row.host
  {
  }

  // ---------------------------------------------------------------- runs

  datatype State = State(row: Row, items: seq<Item>, delivered: set<Report>)

  /** Observe is a direct read of the region, which has no place in the reports' order. */
  datatype Event = Deliver(r: Report) | Run(k: nat) | Observe(status: Status)

  predicate Enabled(s: State, e: Event)
  {
    e.Run? ==> e.k < |s.items| && (s.items[e.k].ApplyDeletion? || IsUsable(s.items[e.k].report))
  }

  function Without(items: seq<Item>, k: nat): (left: seq<Item>)
    requires k < |items|
    ensures forall i :: 0 <= i < |items| && i != k ==> items[i] in left
    ensures forall x :: x in left ==> x in items
  {
    assert forall i :: 0 <= i < |items| && i != k ==>
             if i < k then items[..k][i] == items[i] else items[k + 1..][i - k - 1] == items[i];
    items[..k] + items[k + 1..]
  }

  function Apply(s: State, e: Event): State
    requires Enabled(s, e)
  {
    match e
    case Deliver(r) =>
      var decision := Decide(r, s.row);
      s.(items := if decision.Some? then s.items + [decision.value] else s.items, delivered := s.delivered + {r})
    case Run(k) => s.(row := Execute(s.items[k], s.row), items := Without(s.items, k))
    case Observe(status) => s.(row := s.row.(status := status))
  }

  ghost predicate IsRun(states: seq<State>, events: seq<Event>)
  {
    && |states| == |events| + 1
    && forall i :: 0 <= i < |events| ==> Enabled(states[i], events[i]) && states[i + 1] == Apply(states[i], events[i])
  }

  predicate Reaches(row: Row, at: int)
  {
    row.watermark.Some? && at <= row.watermark.value
  }

  /** No report, no deletion and no direct read ever moves the watermark back. */
  lemma {:induction false} WatermarkNeverDrops(states: seq<State>, events: seq<Event>, m: nat, n: nat, at: int)
    requires IsRun(states, events) && m <= n < |states| && Reaches(states[m].row, at)
    ensures Reaches(states[n].row, at)
    decreases n
  {
    if m < n {
      WatermarkNeverDrops(states, events, m, n - 1, at);
      assert states[n] == Apply(states[n - 1], events[n - 1]);
    }
  }

  // ---------------------------------------------------------------- convergence

  /** Only state reports that arrive, wait and run. */
  predicate IsReporting(e: Event)
  {
    (e.Deliver? ==> e.r.event != StateDeleted) && !e.Observe?
  }

  predicate IsWaiting(items: seq<Item>, r: Report)
  {
    Advance(r) in items || ApplyState(r) in items
  }

  /** Every usable report is under the watermark or still waits. */
  ghost predicate Covered(s: State)
  {
    forall r :: r in s.delivered && IsUsable(r) ==> Reaches(s.row, r.at.value) || IsWaiting(s.items, r)
  }

  ghost predicate ItemsDelivered(s: State)
  {
    forall x :: x in s.items ==> !x.ApplyDeletion? && IsUsable(x.report) && x.report in s.delivered
  }

  predicate IsMark(row: Row, r: Report)
  {
    IsUsable(r) && row.watermark == r.at && Some(row.status) == StatusOf(r.word)
  }

  /** The row is the first one, or holds the time and the status of a delivered report. */
  ghost predicate Faithful(s: State, first: Row)
  {
    s.row == first || exists r :: r in s.delivered && IsMark(s.row, r)
  }

  ghost predicate Inv(s: State, first: Row)
  {
    Covered(s) && ItemsDelivered(s) && Faithful(s, first)
    && (first.watermark.Some? ==> Reaches(s.row, first.watermark.value))
  }

  lemma {:induction false} RunKeeps(states: seq<State>, events: seq<Event>, n: nat)
    requires IsRun(states, events) && n < |states| && states[0].items == [] && states[0].delivered == {}
    requires forall i :: 0 <= i < n ==> IsReporting(events[i])
    ensures Inv(states[n], states[0].row)
  {
    if n > 0 {
      RunKeeps(states, events, n - 1);
      match events[n - 1]
      case Deliver(r) =>
      case Run(k) =>
    }
  }

  /** Reports of one time say one thing. */
  ghost predicate TimesAgree(delivered: set<Report>)
  {
    forall q, r :: q in delivered && r in delivered && IsUsable(q) && IsUsable(r) && q.at == r.at
                   ==> q.word == r.word && q.host == r.host
  }

  predicate IsLatest(delivered: set<Report>, r: Report)
  {
    r in delivered && IsUsable(r) && forall q :: q in delivered && IsUsable(q) ==> q.at.value <= r.at.value
  }

  /** However reports were ordered, repeated, delayed and interleaved: once nothing waits, the row holds the time
      and the state of the latest one, or it is untouched because none was newer than it. */
  lemma Converges(states: seq<State>, events: seq<Event>, n: nat, latest: Report)
    requires IsRun(states, events) && n < |states| && states[0].items == [] && states[0].delivered == {}
    requires forall i :: 0 <= i < n ==> IsReporting(events[i])
    requires states[n].items == [] && TimesAgree(states[n].delivered) && IsLatest(states[n].delivered, latest)
    ensures if IsNewer(states[0].row, latest.at.value) then IsMark(states[n].row, latest)
            else states[n].row.watermark == states[0].row.watermark
  {
    RunKeeps(states, events, n);
    var s, first := states[n], states[0].row;
    assert Reaches(s.row, latest.at.value);
    if s.row != first {
      var r :| r in s.delivered && IsMark(s.row, r);
      assert r.at.value <= latest.at.value;
    }
  }

  // ---------------------------------------------------------------- hosts

  /** A newer item leaves its report's host behind if and only if it sets it, or it stands there already. */
  lemma HostAfterIff(item: Item, row: Row)
    requires !item.ApplyDeletion? && IsUsable(item.report) && IsNewer(row, item.report.at.value)
    ensures Execute(item, row).host == item.report.host <==>
            (item.ApplyState? && item.report.host != "") || row.host == item.report.host
  {
  }

  /** The step runs an item newer than the row it meets. */
  predicate Overtakes(s: State, e: Event)
  {
    e.Run? && e.k < |s.items| && !s.items[e.k].ApplyDeletion? && s.items[e.k].report.at.Some?
    && IsNewer(s.row, s.items[e.k].report.at.value)
  }

  /** Step `i` runs the item that brings the row to the latest time. */
  predicate Arrives(states: seq<State>, events: seq<Event>, i: nat, latest: Report)
  {
    && i < |events| && i + 1 < |states| && Overtakes(states[i], events[i])
    && states[i].items[events[i].k].report.at == latest.at
  }

  lemma {:induction false} FindArrival(states: seq<State>, events: seq<Event>, n: nat, latest: Report) returns (i: nat)
    requires IsRun(states, events) && n < |states| && latest.at.Some?
    requires forall j :: 0 <= j < n ==> IsReporting(events[j])
    requires IsNewer(states[0].row, latest.at.value) && states[n].row.watermark == latest.at
    ensures i < n && Arrives(states, events, i, latest)
    decreases n
  {
    assert states[n] == Apply(states[n - 1], events[n - 1]);
    if states[n - 1].row.watermark == latest.at {
      i := FindArrival(states, events, n - 1, latest);
    } else {
      i := n - 1;
    }
  }

  lemma {:induction false} DeliveredGrows(states: seq<State>, events: seq<Event>, m: nat, n: nat)
    requires IsRun(states, events) && m <= n < |states|
    ensures states[m].delivered <= states[n].delivered
    decreases n
  {
    if m < n {
      DeliveredGrows(states, events, m, n - 1);
    }
  }

  /** Once the row has the time of the latest of `all` reports, no step moves it. */
  lemma StepStays(s: State, first: Row, e: Event, latest: Report, all: set<Report>)
    requires Inv(s, first) && IsReporting(e) && Enabled(s, e)
    requires IsLatest(all, latest) && s.delivered <= all && Reaches(s.row, latest.at.value)
    ensures Apply(s, e).row == s.row
  {
    if e.Run? {
      var item := s.items[e.k];
      assert item in s.items;
      assert item.report in all && item.report.at.value <= latest.at.value;
    }
  }

  lemma {:induction false} RowStays(states: seq<State>, events: seq<Event>, m: nat, n: nat, latest: Report,
                                    all: set<Report>)
    requires IsRun(states, events) && m <= n < |states| && states[0].items == [] && states[0].delivered == {}
    requires forall j :: 0 <= j < n ==> IsReporting(events[j])
    requires IsLatest(all, latest) && states[n].delivered <= all && Reaches(states[m].row, latest.at.value)
    ensures states[n].row == states[m].row
    decreases n
  {
    if m < n {
      DeliveredGrows(states, events, n - 1, n);
      RowStays(states, events, m, n - 1, latest, all);
      RunKeeps(states, events, n - 1);
      StepStays(states[n - 1], states[0].row, events[n - 1], latest, all);
    }
  }

  /** The exact condition over a run: once nothing waits, the host is the latest report's if and only if the item that
      brought the row to the latest time set it, or met it standing already. */
  lemma HostConvergesIff(states: seq<State>, events: seq<Event>, n: nat, latest: Report) returns (i: nat)
    requires IsRun(states, events) && n < |states| && states[0].items == [] && states[0].delivered == {}
    requires forall j :: 0 <= j < n ==> IsReporting(events[j])
    requires states[n].items == [] && TimesAgree(states[n].delivered) && IsLatest(states[n].delivered, latest)
    requires IsNewer(states[0].row, latest.at.value)
    ensures i < n && Arrives(states, events, i, latest)
    ensures states[n].row.host == latest.host <==>
            (states[i].items[events[i].k].ApplyState? && latest.host != "") || states[i].row.host == latest.host
  {
    Converges(states, events, n, latest);
    i := FindArrival(states, events, n, latest);
    var item := states[i].items[events[i].k];
    RunKeeps(states, events, i);
    assert item in states[i].items;
    DeliveredGrows(states, events, i, n);
    assert item.report.host == latest.host;
    HostAfterIff(item, states[i].row);
    RowStays(states, events, i + 1, n, latest, states[n].delivered);
  }

  /** Every report names its host, and an advance runs while the host it was decided on still stands. */
  predicate IsHostCareful(s: State, e: Event)
  {
    match e
    case Deliver(r) => r.host != ""
    case Run(k) => k < |s.items| && (s.items[k].Advance? ==> s.row.host == s.items[k].report.host)
    case Observe(_) => true
  }

  predicate HostFaithful(s: State, first: Row)
  {
    && (forall r :: r in s.delivered ==> r.host != "")
    && (s.row == first || exists r :: r in s.delivered && IsMark(s.row, r) && s.row.host == r.host)
  }

  lemma {:induction false} HostKeeps(states: seq<State>, events: seq<Event>, n: nat)
    requires IsRun(states, events) && n < |states| && states[0].items == [] && states[0].delivered == {}
    requires forall i :: 0 <= i < n ==> IsReporting(events[i]) && IsHostCareful(states[i], events[i])
    ensures Inv(states[n], states[0].row) && HostFaithful(states[n], states[0].row)
  {
    RunKeeps(states, events, n);
    if n > 0 {
      HostKeeps(states, events, n - 1);
    }
  }

  /** Under that care the host converges too. */
  lemma HostConverges(states: seq<State>, events: seq<Event>, n: nat, latest: Report)
    requires IsRun(states, events) && n < |states| && states[0].items == [] && states[0].delivered == {}
    requires forall i :: 0 <= i < n ==> IsReporting(events[i]) && IsHostCareful(states[i], events[i])
    requires states[n].items == [] && TimesAgree(states[n].delivered) && IsLatest(states[n].delivered, latest)
    requires IsNewer(states[0].row, latest.at.value)
    ensures IsMark(states[n].row, latest) && states[n].row.host == latest.host
  {
    HostKeeps(states, events, n);
    Converges(states, events, n, latest);
    assert states[n].row != states[0].row;
    var r :| r in states[n].delivered && IsMark(states[n].row, r) && states[n].row.host == r.host;
  }

  lemma RunThen(states: seq<State>, events: seq<Event>, e: Event) returns (more: seq<State>, longer: seq<Event>)
    requires IsRun(states, events) && Enabled(states[|events|], e)
    ensures IsRun(more, longer) && longer == events + [e] && |longer| == |events| + 1
    ensures more[|longer|] == Apply(states[|events|], e) && forall i :: 0 <= i <= |events| ==> more[i] == states[i]
  {
    more, longer := states + [Apply(states[|events|], e)], events + [e];
  }

  /** Two moves of a stopped server, there and back: the second report changes nothing the handler reads, so only
      its time is recorded, after the first report's job set the other host. */
  lemma HostLagsInRace() returns (states: seq<State>, events: seq<Event>, latest: Report)
    ensures IsRun(states, events) && states[0].items == [] && states[0].delivered == {}
    ensures states[|events|].items == [] && IsLatest(states[|events|].delivered, latest) && latest.host == "a"
    ensures IsMark(states[|events|].row, latest) && states[|events|].row.host == "b"
  {
    var away := Report(StateReported, SaysStopped, Some(1), "b");
    latest := Report(StateReported, SaysStopped, Some(2), "a");
    var first := State(Row(Stopped, None, "a"), [], {});
    var told := Apply(first, Deliver(away));
    assert told.items == [ApplyState(away)];
    var both := Apply(told, Deliver(latest));
    assert both.items == [ApplyState(away), Advance(latest)];
    var moved := Apply(both, Run(0));
    assert moved.items == [Advance(latest)];
    var settled := Apply(moved, Run(0));
    assert settled.row == Row(Stopped, Some(2), "b");
    states, events := [first, told, both, moved, settled], [Deliver(away), Deliver(latest), Run(0), Run(0)];
  }

  // ---------------------------------------------------------------- states from outside the order

  /** A termination holds, from a deletion or a read, if and only if no newer state report's item runs after it. */
  lemma {:induction false} TerminationStaysIff(states: seq<State>, events: seq<Event>, m: nat, n: nat)
    requires IsRun(states, events) && m <= n < |states| && states[m].row.status == Terminated
    requires forall i :: m <= i < n ==> !events[i].Observe?
    ensures (forall i :: m <= i <= n ==> states[i].row.status == Terminated) <==>
            forall i :: m <= i < n ==> !Overtakes(states[i], events[i])
    decreases n
  {
    if m < n {
      TerminationStaysIff(states, events, m, n - 1);
      assert states[n] == Apply(states[n - 1], events[n - 1]);
      if states[n - 1].row.status == Terminated {
        assert states[n].row.status == Terminated <==> !Overtakes(states[n - 1], events[n - 1]);
      }
    }
  }

  /** A server deleted in the region is stopped again in Central, and stays so: its last report was late. */
  lemma LateReportRevives() returns (states: seq<State>, events: seq<Event>)
    ensures IsRun(states, events) && |events| == 4 && events[0] == Deliver(Report(StateDeleted, SaysOther, None, ""))
    ensures states[2].row.status == Terminated
    ensures states[4].items == [] && states[4].row.status == Stopped
  {
    var late, gone := Report(StateReported, SaysStopped, Some(5), ""), Report(StateDeleted, SaysOther, None, "");
    states, events := [State(Row(Running, Some(1), ""), [], {})], [];
    states, events := RunThen(states, events, Deliver(gone));
    assert states[|events|].items == [ApplyDeletion];
    states, events := RunThen(states, events, Run(0));
    assert states[|events|] == State(Row(Terminated, Some(1), ""), [], {gone});
    states, events := RunThen(states, events, Deliver(late));
    assert states[|events|].items == [ApplyState(late)];
    states, events := RunThen(states, events, Run(0));
  }

  // ---------------------------------------------------------------- the row, updated in place

  class ServerRow {
    var status: Status
    var lastReportedAt: Option<int>
    var host: string

    ghost function Abs(): Row
      reads this
    {
      Row(status, lastReportedAt, host)
    }

    /** `record_observed_state` under the row lock. */
    method RecordObservedState(observed: Status, newHost: string, reportedAt: Option<int>) returns (isApplied: bool)
      modifies this
      ensures isApplied <==> reportedAt == None || IsNewer(old(Abs()), reportedAt.value)
      ensures Abs() == if !isApplied then old(Abs())
                       else Row(observed, if reportedAt.Some? then reportedAt else old(lastReportedAt),
                                if newHost != "" then newHost else old(host))
    {
      if reportedAt.Some? && lastReportedAt.Some? && reportedAt.value <= lastReportedAt.value {
        return false;
      }
      status := observed;
      if newHost != "" {
        host := newHost;
      }
      if reportedAt.Some? {
        lastReportedAt := reportedAt;
      }
      isApplied := true;
    }

    /** `_apply_state`, the queued job. */
    method ApplyReport(r: Report)
      requires IsUsable(r)
      modifies this
      ensures Abs() == Execute(ApplyState(r), old(Abs()))
      ensures Reaches(Abs(), r.at.value)
    {
      var _ := RecordObservedState(StatusOf(r.word).value, r.host, r.at);
    }

    /** `_apply_deletion`, without an order check. */
    method ApplyDeletionReport()
      modifies this
      ensures Abs() == Execute(ApplyDeletion, old(Abs()))
      ensures status == Terminated && lastReportedAt == old(lastReportedAt)
    {
      if status == Terminated {
        return;
      }
      status := Terminated;
    }

    /** `accept_atlas_report` after authentication, with nothing in between: what is decided on an unchanged state
        is done at once, and the rest is queued. */
    method Accept(r: Report) returns (queued: Option<Item>)
      modifies this
      ensures var d := Decide(r, old(Abs()));
              if d.Some? && d.value.Advance? then queued == None && Abs() == Execute(d.value, old(Abs()))
              else queued == d && Abs() == old(Abs())
      ensures IsUsable(r) ==> Reaches(Abs(), r.at.value) || queued == Some(ApplyState(r))
    {
      if r.event == StateDeleted {
        return if status == Terminated then None else Some(ApplyDeletion);
      }
      if r.event != StateReported || StatusOf(r.word) == None || r.at == None {
        return None;
      }
      var isNew := lastReportedAt == None || r.at.value > lastReportedAt.value;
      if Some(status) == StatusOf(r.word) && !(r.host != "" && r.host != host) {
        if isNew {
          var _ := RecordObservedState(StatusOf(r.word).value, "", r.at);
        }
        return None;
      }
      queued := if isNew then Some(ApplyState(r)) else None;
    }
  }
}
