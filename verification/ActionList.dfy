/**
 The list of the protocol's region is the list the paged search reads: each step the code's scan of a page makes is
 the protocol's step on that page.
 */
module ActionList {
  import opened Base
  import opened ActionProtocol
  import opened ActionSafety
  import CreatedSearch

  type Row = CreatedSearch.Listed

  /** The tenant's machines, newest first. A machine's number stands for the time it was built. */
  function TenantList(machines: seq<Machine>, tenant: nat): seq<Row>
  {
    if machines == [] then []
    else
      var n := |machines| - 1;
      (if IsListed(machines[n], tenant) then [CreatedSearch.Listed(n, Some(n))] else [])
      + TenantList(machines[..n], tenant)
  }

  lemma {:induction false} ListLength(machines: seq<Machine>, tenant: nat)
    ensures |TenantList(machines, tenant)| == Listed(machines, tenant, 0)
  {
    if machines != [] {
      var n := |machines| - 1;
      ListLength(machines[..n], tenant);
      assert machines == machines[..n] + [machines[n]];
      ListedAppend(machines[..n], machines[n], tenant, 0);
    }
  }

  /** A machine one older than the last stands one further back when the last is listed. */
  lemma PositionAppend(machines: seq<Machine>, tenant: nat, m: VmId)
    requires m < |machines| - 1
    ensures var n := |machines| - 1;
            Position(machines, tenant, m) ==
            Position(machines[..n], tenant, m) + (if IsListed(machines[n], tenant) then 1 else 0)
  {
    var n := |machines| - 1;
    assert machines == machines[..n] + [machines[n]];
    ListedAppend(machines[..n], machines[n], tenant, m + 1);
  }

  /** Each listed machine stands at its position. */
  lemma {:induction false} StandsThere(machines: seq<Machine>, tenant: nat, m: VmId)
    requires m < |machines| && IsListed(machines[m], tenant)
    ensures Position(machines, tenant, m) < |TenantList(machines, tenant)|
    ensures TenantList(machines, tenant)[Position(machines, tenant, m)] == CreatedSearch.Listed(m, Some(m))
    decreases |machines|
  {
    var n := |machines| - 1;
    if m < n {
      StandsThere(machines[..n], tenant, m);
      PositionAppend(machines, tenant, m);
    }
  }

  /** Each row of the list is a listed machine at its position. */
  lemma {:induction false} RowIsMachine(machines: seq<Machine>, tenant: nat, i: nat)
    requires i < |TenantList(machines, tenant)|
    ensures var row := TenantList(machines, tenant)[i];
            && row.id < |machines| && row.createdAt == Some(row.id)
            && IsListed(machines[row.id], tenant) && Position(machines, tenant, row.id) == i
    decreases |machines|
  {
    var n := |machines| - 1;
    var first := if IsListed(machines[n], tenant) then 1 else 0;
    if i >= first {
      RowIsMachine(machines[..n], tenant, i - first);
      PositionAppend(machines, tenant, TenantList(machines[..n], tenant)[i - first].id);
    }
  }

  /** The list shows exactly the tenant's living machines. */
  lemma ListedIff(machines: seq<Machine>, tenant: nat, m: VmId)
    ensures CreatedSearch.Listed(m, Some(m)) in TenantList(machines, tenant) <==>
            m < |machines| && machines[m].isAlive && machines[m].tenant == tenant
  {
    var list := TenantList(machines, tenant);
    if i :| 0 <= i < |list| && list[i] == CreatedSearch.Listed(m, Some(m)) {
      RowIsMachine(machines, tenant, i);
    }
    if m < |machines| && machines[m].isAlive && machines[m].tenant == tenant {
      StandsThere(machines, tenant, m);
    }
  }

  /** What a full read of a machine answers the search of action `a`. */
  function OursIn(s: State, a: ActionId): CreatedSearch.IsOurs
  {
    (id: nat) => a in s.rows && IsMatch(s, a, id)
  }

  function PageOf(s: State, tenant: nat, offset: nat): seq<Row>
  {
    CreatedSearch.Page(TenantList(s.machines, tenant), offset)
  }

  lemma PageShows(s: State, tenant: nat, offset: nat, i: nat)
    requires i < |PageOf(s, tenant, offset)|
    ensures var id := PageOf(s, tenant, offset)[i].id;
            && PageOf(s, tenant, offset)[i].createdAt == Some(id) && IsOnPage(s.machines, tenant, id, offset)
            && Position(s.machines, tenant, id) == offset + i
  {
    RowIsMachine(s.machines, tenant, offset + i);
  }

  lemma ShownOnPage(s: State, tenant: nat, offset: nat, m: VmId) returns (i: nat)
    requires IsOnPage(s.machines, tenant, m, offset)
    ensures i < |PageOf(s, tenant, offset)| && PageOf(s, tenant, offset)[i].id == m
    ensures Position(s.machines, tenant, m) == offset + i
  {
    StandsThere(s.machines, tenant, m);
    i := Position(s.machines, tenant, m) - offset;
  }

  /** Every row before `i` is cleared, so no match newer than the machine at `i` is on the page. */
  lemma ClearedBefore(s: State, a: ActionId, offset: nat, i: nat, started: int, end: nat)
    requires a in s.rows && i <= |PageOf(s, s.rows[a].tenant, offset)|
    requires forall n :: 0 <= n < i ==>
               CreatedSearch.IsCleared(PageOf(s, s.rows[a].tenant, offset)[n], started, OursIn(s, a))
    requires var page := PageOf(s, s.rows[a].tenant, offset);
             end == if i < |page| then page[i].id + 1 else 0
    ensures IsPageClear(s, a, offset, end)
  {
    var tenant := s.rows[a].tenant;
    forall m | end <= m < |s.machines| && IsOnPage(s.machines, tenant, m, offset) ensures !IsMatch(s, a, m) {
      var n := ShownOnPage(s, tenant, offset, m);
      if n >= i {
        PageShows(s, tenant, offset, i);
        NewerStandsBefore(s.machines, tenant, m, end - 1);
        assert false;
      }
      assert OursIn(s, a)(PageOf(s, tenant, offset)[n].id) <==> IsMatch(s, a, m);
    }
  }

  /** The scan of the next page, when rows count as too old only from before the dispatch, is a step of the protocol: a
      match it shows may be found, a stop or a short clear page ends the search, and a full clear page is turned. */
  lemma ScanIsProtocolStep(s: State, w: WorkerId, started: int)
    requires Searches(s, w) && started - CreatedSearch.CLOCK_SKEW_SECONDS <= s.pcs[w].search.floor
    ensures var Searching(a, search) := s.pcs[w];
            var page := PageOf(s, s.rows[a].tenant, search.offset);
            var oldest := started - CreatedSearch.CLOCK_SKEW_SECONDS;
            match CreatedSearch.ScanPage(page, started, OursIn(s, a))
            case Shows(vm) => oldest <= vm && MayFind(s, w, vm)
            case Stops => exists x: VmId :: x < oldest && MayFindNothing(s, w, Some(x))
            case Clears => if |page| == PAGE then MayTurnPage(s, w) else MayFindNothing(s, w, None)
  {
    var Searching(a, search) := s.pcs[w];
    var tenant := s.rows[a].tenant;
    var page := PageOf(s, tenant, search.offset);
    var i := CreatedSearch.ScanEnd(page, started, OursIn(s, a));
    ClearedBefore(s, a, search.offset, i, started, if i < |page| then page[i].id + 1 else 0);
    ListLength(s.machines, tenant);
    if i < |page| {
      PageShows(s, tenant, search.offset, i);
      if CreatedSearch.IsStop(page[i], started) {
        assert MayFindNothing(s, w, Some(page[i].id));
      } else {
        assert OursIn(s, a)(page[i].id);
      }
    }
  }
}
