/**
 The search for the machine a creation built: pages of the tenant's servers, newest first, read one at a
 time while the region goes on working, and left at the first machine older than the dispatch.
 */
module CreatedSearch {
  import opened Base

  const SERVER_PAGE_SIZE: nat := 100
  const CLOCK_SKEW_SECONDS: int := 120

  /** One listed machine. `createdAt` is None where the region sent no whole number. */
  datatype Listed = Listed(id: nat, createdAt: Option<int>)

  /** What the full read of a machine answers: whether tenant, image and marker are the action's. */
  type IsOurs = nat -> bool

  /** The search stops at a row without a whole creation time, or older than the dispatch. */
  predicate IsStop(row: Listed, started: int)
  {
    row.createdAt == None || row.createdAt.value < started - CLOCK_SKEW_SECONDS
  }

  /** The whole list read at once, with the same stop. */
  function FullScan(list: seq<Listed>, started: int, isOurs: IsOurs): (found: Option<nat>)
    ensures found.Some? ==> isOurs(found.value) && exists i :: 0 <= i < |list| && list[i].id == found.value
  {
    if list == [] || IsStop(list[0], started) then None
    else if isOurs(list[0].id) then Some(list[0].id)
    else FullScan(list[1..], started, isOurs)
  }

  /** The scan finds a machine exactly when one of ours stands before the first stop. */
  lemma {:induction false} FullScanFindsIff(list: seq<Listed>, started: int, isOurs: IsOurs)
    ensures FullScan(list, started, isOurs).Some? <==>
            exists i :: 0 <= i < |list| && isOurs(list[i].id) && forall j :: 0 <= j <= i ==> !IsStop(list[j], started)
  {
    if list != [] && !IsStop(list[0], started) && !isOurs(list[0].id) {
      FullScanFindsIff(list[1..], started, isOurs);
      if i :| 0 <= i < |list| && isOurs(list[i].id) && forall j :: 0 <= j <= i ==> !IsStop(list[j], started) {
        assert isOurs(list[1..][i - 1].id);
      }
      if i :| 0 <= i < |list| - 1 && isOurs(list[1..][i].id)
              && forall j :: 0 <= j <= i ==> !IsStop(list[1..][j], started) {
        assert isOurs(list[i + 1].id);
        forall j | 0 <= j <= i + 1 ensures !IsStop(list[j], started) {
          if j > 0 { assert list[j] == list[1..][j - 1]; }
        }
      }
    } else if list != [] && !IsStop(list[0], started) {
      assert isOurs(list[0].id);
    }
  }

  /** The region's list as the k-th page request sees it. */
  type Views = nat -> seq<Listed>

  function Page(list: seq<Listed>, offset: nat): (page: seq<Listed>)
    ensures |page| <= SERVER_PAGE_SIZE
  {
    if |list| <= offset then [] else list[offset..Min(offset + SERVER_PAGE_SIZE, |list|)]
  }

  /** The region only inserts: each view is the one before with new machines in front. */
  ghost predicate OnlyInserts(views: Views)
  {
    forall k: nat :: InsertsAt(views, k)
  }

  ghost predicate InsertsAt(views: Views, k: nat)
  {
    IsSuffix(views(k), views(k + 1))
  }

  predicate IsSuffix(before: seq<Listed>, after: seq<Listed>)
  {
    |before| <= |after| && after[|after| - |before|..] == before
  }

  /** Newest first, with a whole creation time on every row. */
  ghost predicate IsSorted(list: seq<Listed>)
  {
    && (forall i :: 0 <= i < |list| ==> list[i].createdAt.Some?)
    && (forall i, j :: 0 <= i < j < |list| ==> list[j].createdAt.value <= list[i].createdAt.value)
  }

  /** How many rows stand in front of the first view's rows by now. */
  function Ahead(views: Views, k: nat): int
  {
    |views(k)| - |views(0)|
  }

  lemma {:induction false} FirstViewKept(views: Views, k: nat)
    requires OnlyInserts(views)
    ensures IsSuffix(views(0), views(k))
    ensures forall j :: 0 <= j < |views(0)| ==> views(k)[j + Ahead(views, k)] == views(0)[j]
  {
    if k > 0 {
      FirstViewKept(views, k - 1);
      assert InsertsAt(views, k - 1);
      var d := |views(k)| - |views(k - 1)|;
      forall j | 0 <= j < |views(0)| ensures views(k)[j + Ahead(views, k)] == views(0)[j] {
        assert views(k)[d..][j + Ahead(views, k - 1)] == views(k - 1)[j + Ahead(views, k - 1)];
      }
    }
    assert views(k)[Ahead(views, k)..] == views(0);
  }

  /** What one page says: it stops the search, shows a machine of ours, or neither. */
  datatype PageResult = Stops | Shows(id: nat) | Clears

  function ScanPage(page: seq<Listed>, started: int, isOurs: IsOurs): PageResult
  {
    if page == [] then Clears
    else if IsStop(page[0], started) then Stops
    else if isOurs(page[0].id) then Shows(page[0].id)
    else ScanPage(page[1..], started, isOurs)
  }

  /** The search from page `k` on, each page read from the list of its own moment. */
  ghost function PagedSearch(views: Views, started: int, isOurs: IsOurs, bound: nat, k: nat): Option<nat>
    requires forall n: nat :: |views(n)| <= bound
    decreases if SERVER_PAGE_SIZE * k <= bound then bound - SERVER_PAGE_SIZE * k + 1 else 0
  {
    var page := Page(views(k), SERVER_PAGE_SIZE * k);
    match ScanPage(page, started, isOurs)
    case Stops => None
    case Shows(id) => Some(id)
    case Clears => if |page| < SERVER_PAGE_SIZE then None else PagedSearch(views, started, isOurs, bound, k + 1)
  }

  /** The scan passes by cleared rows. */
  lemma {:induction false} ScanPasses(page: seq<Listed>, i: nat, started: int, isOurs: IsOurs)
    requires i <= |page| && forall n :: 0 <= n < i ==> IsCleared(page[n], started, isOurs)
    ensures ScanPage(page, started, isOurs) == ScanPage(page[i..], started, isOurs)
  {
    if i > 0 {
      assert IsCleared(page[0], started, isOurs);
      ScanPasses(page[1..], i - 1, started, isOurs);
      assert page[1..][i - 1..] == page[i..];
    } else {
      assert page[0..] == page;
    }
  }

  /** A row the search has read and passed by. */
  predicate IsCleared(row: Listed, started: int, isOurs: IsOurs)
  {
    !isOurs(row.id) && !IsStop(row, started)
  }

  /**
   The search as the code runs it. `views` is the region's list at each page request, `bound` the end of
   its growth, without which the code may read pages forever.

   1. It returns what `PagedSearch` does, whatever happens to the list between two pages.
   2. What it returns is ours.
   3. On a list that stands still it returns what the full scan does.
   4. On a list that only grows in front, an empty answer clears every machine of the first view: none of
      ours was listed when the search began, unless it is older than the dispatch allows.
   */
  method FindCreated(ghost bound: nat, views: Views, started: int, isOurs: IsOurs) returns (found: Option<nat>)
    requires forall k: nat :: |views(k)| <= bound
    ensures found == PagedSearch(views, started, isOurs, bound, 0)
    ensures found.Some? ==> isOurs(found.value)
    ensures (forall k: nat :: views(k) == views(0)) ==> found == FullScan(views(0), started, isOurs)
    ensures OnlyInserts(views) && (forall k: nat :: IsSorted(views(k))) && found == None ==>
              forall j :: 0 <= j < |views(0)| ==> isOurs(views(0)[j].id) ==> IsStop(views(0)[j], started)
  {
    var offset: nat := 0;
    ghost var k: nat := 0;
    while true
      invariant offset == SERVER_PAGE_SIZE * k <= bound
      invariant PagedSearch(views, started, isOurs, bound, 0) == PagedSearch(views, started, isOurs, bound, k)
      decreases bound - offset
    {
      var page := Page(views(offset / SERVER_PAGE_SIZE), offset);
      assert |views(k)| <= bound;
      var verdict := ReadPage(page, started, isOurs);
      if verdict != Clears || |page| < SERVER_PAGE_SIZE {
        found := if verdict.Shows? then Some(verdict.id) else None;
        break;
      }
      offset := offset + |page|;
      k := k + 1;
    }
    SearchIsRight(views, started, isOurs, bound);
  }

  /** One page, row by row: each row is asked whether it is too old before it is asked whether it is ours. */
  method ReadPage(page: seq<Listed>, started: int, isOurs: IsOurs) returns (verdict: PageResult)
    ensures verdict == ScanPage(page, started, isOurs)
  {
    for i := 0 to |page|
      invariant forall n :: 0 <= n < i ==> IsCleared(page[n], started, isOurs)
    {
      if IsStop(page[i], started) || isOurs(page[i].id) {
        ScanPasses(page, i, started, isOurs);
        return if IsStop(page[i], started) then Stops else Shows(page[i].id);
      }
    }
    ScanPasses(page, |page|, started, isOurs);
    verdict := Clears;
  }

  lemma SearchIsRight(views: Views, started: int, isOurs: IsOurs, bound: nat)
    requires forall k: nat :: |views(k)| <= bound
    ensures var found := PagedSearch(views, started, isOurs, bound, 0);
            && (found.Some? ==> isOurs(found.value))
            && ((forall k: nat :: views(k) == views(0)) ==> found == FullScan(views(0), started, isOurs))
            && (OnlyInserts(views) && (forall k: nat :: IsSorted(views(k))) && found == None ==>
                  forall j :: 0 <= j < |views(0)| ==> isOurs(views(0)[j].id) ==> IsStop(views(0)[j], started))
  {
    ShownIsOurs(views, started, isOurs, bound, 0);
    if forall k: nat :: views(k) == views(0) {
      StillFrom(views, started, isOurs, bound, 0);
      assert views(0)[0..] == views(0);
    }
    if OnlyInserts(views) && forall k: nat :: IsSorted(views(k)) {
      if PagedSearch(views, started, isOurs, bound, 0) == None {
        GrownFrom(views, started, isOurs, bound, 0);
      }
    }
  }

  lemma {:induction false} ShownIsOurs(views: Views, started: int, isOurs: IsOurs, bound: nat, k: nat)
    requires forall n: nat :: |views(n)| <= bound
    ensures var found := PagedSearch(views, started, isOurs, bound, k); found.Some? ==> isOurs(found.value)
    decreases if SERVER_PAGE_SIZE * k <= bound then bound - SERVER_PAGE_SIZE * k + 1 else 0
  {
    var page := Page(views(k), SERVER_PAGE_SIZE * k);
    ScanShowsOurs(page, started, isOurs);
    if ScanPage(page, started, isOurs) == Clears && |page| == SERVER_PAGE_SIZE {
      assert |views(k)| <= bound;
      ShownIsOurs(views, started, isOurs, bound, k + 1);
    }
  }

  /** The full scan of a list is the scan of its first part, then of the rest. */
  lemma {:induction false} FullScanByPage(page: seq<Listed>, rest: seq<Listed>, started: int, isOurs: IsOurs)
    ensures FullScan(page + rest, started, isOurs) ==
            match ScanPage(page, started, isOurs)
            case Stops => None
            case Shows(id) => Some(id)
            case Clears => FullScan(rest, started, isOurs)
  {
    if page == [] {
      assert page + rest == rest;
    } else {
      assert (page + rest)[1..] == page[1..] + rest;
      FullScanByPage(page[1..], rest, started, isOurs);
    }
  }

  lemma PageThenRest(list: seq<Listed>, offset: nat)
    requires offset <= |list|
    ensures offset + |Page(list, offset)| <= |list|
    ensures |Page(list, offset)| < SERVER_PAGE_SIZE ==> offset + |Page(list, offset)| == |list|
    ensures list[offset..] == Page(list, offset) + list[offset + |Page(list, offset)|..]
  {
  }

  lemma {:induction false} StillFrom(views: Views, started: int, isOurs: IsOurs, bound: nat, k: nat)
    requires (forall n: nat :: |views(n)| <= bound) && forall n: nat :: views(n) == views(0)
    requires SERVER_PAGE_SIZE * k <= |views(0)|
    ensures PagedSearch(views, started, isOurs, bound, k) ==
            FullScan(views(0)[SERVER_PAGE_SIZE * k..], started, isOurs)
    decreases |views(0)| - SERVER_PAGE_SIZE * k
  {
    var offset, list := SERVER_PAGE_SIZE * k, views(0);
    assert views(k) == list;
    var page := Page(list, offset);
    var rest := list[offset + |page|..];
    PageThenRest(list, offset);
    FullScanByPage(page, rest, started, isOurs);
    if ScanPage(page, started, isOurs).Clears? {
      if |page| == SERVER_PAGE_SIZE {
        assert offset + |page| == SERVER_PAGE_SIZE * (k + 1);
        StillFrom(views, started, isOurs, bound, k + 1);
      } else {
        assert rest == [];
      }
    }
  }

  /** Every row of the first view that stands before page `k` was passed by. */
  ghost predicate IsPassed(views: Views, started: int, isOurs: IsOurs, k: nat)
  {
    forall j :: 0 <= j < |views(0)| && j + Ahead(views, k) < SERVER_PAGE_SIZE * k ==>
      IsCleared(views(0)[j], started, isOurs)
  }

  lemma {:induction false} GrownFrom(views: Views, started: int, isOurs: IsOurs, bound: nat, k: nat)
    requires (forall n: nat :: |views(n)| <= bound) && OnlyInserts(views) && forall n: nat :: IsSorted(views(n))
    requires IsPassed(views, started, isOurs, k) && PagedSearch(views, started, isOurs, bound, k) == None
    ensures forall j :: 0 <= j < |views(0)| ==> isOurs(views(0)[j].id) ==> IsStop(views(0)[j], started)
    decreases if SERVER_PAGE_SIZE * k <= bound then bound - SERVER_PAGE_SIZE * k + 1 else 0
  {
    var offset := SERVER_PAGE_SIZE * k;
    var page := Page(views(k), offset);
    var i := ScanEnd(page, started, isOurs);
    if i < |page| {
      assert IsSorted(views(k));
      StopClears(views, k, offset, i, started, isOurs);
    } else {
      TurnClears(views, k, offset, started, isOurs);
      if |page| == SERVER_PAGE_SIZE {
        assert |views(k)| <= bound;
        GrownFrom(views, started, isOurs, bound, k + 1);
      } else {
        FirstViewKept(views, k);
      }
    }
  }

  /** Where the scan of a page ends. */
  lemma {:induction false} ScanEnd(page: seq<Listed>, started: int, isOurs: IsOurs) returns (i: nat)
    ensures i <= |page| && forall n :: 0 <= n < i ==> IsCleared(page[n], started, isOurs)
    ensures i < |page| ==> IsStop(page[i], started) || isOurs(page[i].id)
    ensures ScanPage(page, started, isOurs) ==
            if i == |page| then Clears else if IsStop(page[i], started) then Stops else Shows(page[i].id)
  {
    if page == [] || IsStop(page[0], started) || isOurs(page[0].id) {
      i := 0;
    } else {
      i := ScanEnd(page[1..], started, isOurs);
      i := i + 1;
      assert forall n :: 1 <= n < i ==> page[n] == page[1..][n - 1];
    }
  }

  /** At a stop on row `i` of page `k`, every machine of the first view was passed by or is a stop itself. */
  lemma StopClears(views: Views, k: nat, offset: nat, i: nat, started: int, isOurs: IsOurs)
    requires OnlyInserts(views) && IsSorted(views(k))
    requires i < |Page(views(k), offset)| && IsStop(Page(views(k), offset)[i], started)
    requires forall n :: 0 <= n < i ==> IsCleared(Page(views(k), offset)[n], started, isOurs)
    requires forall j :: 0 <= j < |views(0)| && j + Ahead(views, k) < offset ==>
               IsCleared(views(0)[j], started, isOurs)
    ensures forall j :: 0 <= j < |views(0)| ==> isOurs(views(0)[j].id) ==> IsStop(views(0)[j], started)
  {
    FirstViewKept(views, k);
    forall j | 0 <= j < |views(0)| ensures isOurs(views(0)[j].id) ==> IsStop(views(0)[j], started) {
      var at := j + Ahead(views, k);
      assert views(k)[at] == views(0)[j];
      if offset <= at < offset + i {
        assert Page(views(k), offset)[at - offset] == views(k)[at];
      } else if offset + i <= at {
        assert views(k)[offset + i] == Page(views(k), offset)[i];
      }
    }
  }

  /** A cleared page keeps the first view cleared up to the next page, whatever was inserted meanwhile. */
  lemma TurnClears(views: Views, k: nat, offset: nat, started: int, isOurs: IsOurs)
    requires OnlyInserts(views)
    requires forall n :: 0 <= n < |Page(views(k), offset)| ==> IsCleared(Page(views(k), offset)[n], started, isOurs)
    requires forall j :: 0 <= j < |views(0)| && j + Ahead(views, k) < offset ==>
               IsCleared(views(0)[j], started, isOurs)
    ensures forall j :: 0 <= j < |views(0)| && j + Ahead(views, k) < offset + SERVER_PAGE_SIZE ==>
              IsCleared(views(0)[j], started, isOurs)
    ensures forall j :: 0 <= j < |views(0)| && j + Ahead(views, k + 1) < offset + SERVER_PAGE_SIZE ==>
              IsCleared(views(0)[j], started, isOurs)
  {
    FirstViewKept(views, k);
    assert InsertsAt(views, k);
    forall j | 0 <= j < |views(0)| && j + Ahead(views, k) < offset + SERVER_PAGE_SIZE
      ensures IsCleared(views(0)[j], started, isOurs)
    {
      var at := j + Ahead(views, k);
      if offset <= at {
        assert Page(views(k), offset)[at - offset] == views(k)[at];
      }
    }
  }

  // ---------------------------------------------------------------- what a changing list can hide

  /** Where one machine stands in the list at each page request. */
  type Positions = nat -> nat

  /** The machine is listed all the time, at these places, is the only one of ours, and is not older than the dispatch
      allows. Rows older than that stand behind it. */
  ghost predicate IsLocated(views: Views, started: int, isOurs: IsOurs, id: nat, at: Positions)
  {
    (forall x :: isOurs(x) <==> x == id) && forall k: nat :: IsLocatedIn(views(k), started, id, at(k))
  }

  predicate IsLocatedIn(list: seq<Listed>, started: int, id: nat, at: nat)
  {
    && at < |list| && list[at].id == id
    && (forall i :: 0 <= i < |list| && list[i].id == id ==> i == at)
    && (forall i :: 0 <= i <= at ==> !IsStop(list[i], started))
  }

  predicate IsOnPage(at: Positions, k: nat)
  {
    SERVER_PAGE_SIZE * k <= at(k) < SERVER_PAGE_SIZE * (k + 1)
  }

  predicate IsBehind(at: Positions, k: nat)
  {
    SERVER_PAGE_SIZE * (k + 1) <= at(k)
  }

  /** It stands behind page `k` when that is read, and before page `k + 1` when that is read: enough machines ahead
      vanished in between to carry it past the boundary, more than joined. */
  predicate Slips(at: Positions, k: nat)
  {
    IsBehind(at, k) && at(k + 1) < SERVER_PAGE_SIZE * (k + 1)
  }

  predicate IsTurned(views: Views, started: int, isOurs: IsOurs, k: nat)
  {
    var page := Page(views(k), SERVER_PAGE_SIZE * k);
    ScanPage(page, started, isOurs) == Clears && |page| == SERVER_PAGE_SIZE
  }

  /** From page `k` the search gets to page `j`. */
  ghost predicate GetsTo(views: Views, started: int, isOurs: IsOurs, k: nat, j: nat)
  {
    k <= j && forall i :: k <= i < j ==> IsTurned(views, started, isOurs, i)
  }

  /** From page `k` the search gets to a page that shows the machine. */
  ghost predicate IsShownFrom(views: Views, started: int, isOurs: IsOurs, at: Positions, k: nat)
  {
    exists j: nat :: GetsTo(views, started, isOurs, k, j) && IsOnPage(at, j)
  }

  lemma ShownNow(views: Views, started: int, isOurs: IsOurs, at: Positions, k: nat)
    ensures IsShownFrom(views, started, isOurs, at, k) <==>
            IsOnPage(at, k)
            || (IsTurned(views, started, isOurs, k) && IsShownFrom(views, started, isOurs, at, k + 1))
  {
    if IsOnPage(at, k) {
      assert GetsTo(views, started, isOurs, k, k);
    } else if IsShownFrom(views, started, isOurs, at, k) {
      var j: nat :| GetsTo(views, started, isOurs, k, j) && IsOnPage(at, j);
      assert GetsTo(views, started, isOurs, k + 1, j);
    }
    if IsTurned(views, started, isOurs, k) && IsShownFrom(views, started, isOurs, at, k + 1) {
      var j: nat :| GetsTo(views, started, isOurs, k + 1, j) && IsOnPage(at, j);
      assert GetsTo(views, started, isOurs, k, j);
    }
  }

  lemma ScanShowsOurs(page: seq<Listed>, started: int, isOurs: IsOurs)
    ensures var result := ScanPage(page, started, isOurs);
            result.Shows? ==> isOurs(result.id) && exists i :: 0 <= i < |page| && page[i].id == result.id
  {
    var i := ScanEnd(page, started, isOurs);
  }

  /** What page `k` says of the machine: on it, it is shown; behind it, the page is turned; else it is not shown. */
  lemma PageTells(views: Views, started: int, isOurs: IsOurs, id: nat, at: Positions, k: nat)
    requires IsLocated(views, started, isOurs, id, at)
    ensures var page := Page(views(k), SERVER_PAGE_SIZE * k);
            && (ScanPage(page, started, isOurs) == Shows(id) <==> IsOnPage(at, k))
            && (ScanPage(page, started, isOurs).Shows? ==> ScanPage(page, started, isOurs) == Shows(id))
            && (IsBehind(at, k) ==> IsTurned(views, started, isOurs, k))
  {
    var list, offset := views(k), SERVER_PAGE_SIZE * k;
    var page := Page(list, offset);
    assert IsLocatedIn(list, started, id, at(k));
    ScanShowsOurs(page, started, isOurs);
    assert forall n :: 0 <= n < |page| ==> page[n] == list[offset + n];
    if IsOnPage(at, k) {
      ScanPasses(page, at(k) - offset, started, isOurs);
    } else if IsBehind(at, k) {
      ScanPasses(page, |page|, started, isOurs);
    }
  }

  /** The search at page `k`: it shows the machine, or is turned, or ends the search. */
  lemma SearchAt(views: Views, started: int, isOurs: IsOurs, bound: nat, id: nat, at: Positions, k: nat)
    requires IsLocated(views, started, isOurs, id, at) && forall n: nat :: |views(n)| <= bound
    ensures PagedSearch(views, started, isOurs, bound, k) ==
            if IsOnPage(at, k) then Some(id)
            else if IsTurned(views, started, isOurs, k) then PagedSearch(views, started, isOurs, bound, k + 1)
            else None
  {
    PageTells(views, started, isOurs, id, at, k);
  }

  /** From page `k` the search finds the machine exactly if a page it gets to shows it. */
  lemma {:induction false} FoundIffShown(views: Views, started: int, isOurs: IsOurs, bound: nat, id: nat, at: Positions,
                                         k: nat)
    requires IsLocated(views, started, isOurs, id, at) && forall n: nat :: |views(n)| <= bound
    ensures PagedSearch(views, started, isOurs, bound, k) ==
            if IsShownFrom(views, started, isOurs, at, k) then Some(id) else None
    decreases if SERVER_PAGE_SIZE * k <= bound then bound - SERVER_PAGE_SIZE * k + 1 else 0
  {
    SearchAt(views, started, isOurs, bound, id, at, k);
    ShownNow(views, started, isOurs, at, k);
    if IsTurned(views, started, isOurs, k) {
      assert |views(k)| <= bound;
      FoundIffShown(views, started, isOurs, bound, id, at, k + 1);
    }
  }

  /** The first slip, before any page showed the machine. */
  predicate IsFirstSlip(at: Positions, k: nat)
  {
    Slips(at, k) && forall j :: 0 <= j < k ==> IsBehind(at, j)
  }

  lemma {:induction false} BehindIsReached(views: Views, started: int, isOurs: IsOurs, id: nat, at: Positions, k: nat)
    requires IsLocated(views, started, isOurs, id, at) && forall j :: 0 <= j < k ==> IsBehind(at, j)
    ensures GetsTo(views, started, isOurs, 0, k)
  {
    forall j | 0 <= j < k ensures IsTurned(views, started, isOurs, j) {
      PageTells(views, started, isOurs, id, at, j);
    }
  }

  /** The list is finite, so some page is not before the machine. */
  lemma {:induction false} FirstNotBehind(at: Positions, bound: nat, k: nat) returns (n: nat)
    requires forall j: nat :: at(j) < bound
    requires forall j :: 0 <= j < k ==> IsBehind(at, j)
    ensures !IsBehind(at, n) && forall j :: 0 <= j < n ==> IsBehind(at, j)
    decreases if SERVER_PAGE_SIZE * k <= bound then bound - SERVER_PAGE_SIZE * k + 1 else 0
  {
    if IsBehind(at, k) {
      assert at(k) < bound;
      n := FirstNotBehind(at, bound, k + 1);
    } else {
      n := k;
    }
  }

  /** The search misses a machine that is listed all the time, however others join and vanish, if and only if it slips
      past a page boundary before any page shows it and no later page that is read shows it again. */
  lemma MissedIff(views: Views, started: int, isOurs: IsOurs, bound: nat, id: nat, at: Positions)
    requires IsLocated(views, started, isOurs, id, at) && forall n: nat :: |views(n)| <= bound
    ensures PagedSearch(views, started, isOurs, bound, 0) == None <==>
            exists k: nat :: IsFirstSlip(at, k)
                             && forall j :: j > k && GetsTo(views, started, isOurs, 0, j) ==> !IsOnPage(at, j)
  {
    FoundIffShown(views, started, isOurs, bound, id, at, 0);
    forall j: nat ensures at(j) < bound {
      assert IsLocatedIn(views(j), started, id, at(j));
    }
    var n := FirstNotBehind(at, bound, 0);
    BehindIsReached(views, started, isOurs, id, at, n);
    if PagedSearch(views, started, isOurs, bound, 0) == None {
      assert !IsOnPage(at, n);
      assert IsFirstSlip(at, n - 1);
    }
    if k: nat :| IsFirstSlip(at, k) && forall j :: j > k && GetsTo(views, started, isOurs, 0, j) ==> !IsOnPage(at, j) {
      forall j: nat | GetsTo(views, started, isOurs, 0, j) ensures !IsOnPage(at, j) {
        assert j <= k ==> IsBehind(at, j);
      }
    }
  }

  lemma {:induction false} PositionsFall(at: Positions, i: nat, k: nat)
    requires i <= k && forall n: nat :: at(n + 1) <= at(n)
    ensures at(k) <= at(i)
  {
    if i < k {
      PositionsFall(at, i, k - 1);
      assert at(k - 1 + 1) <= at(k - 1);
    }
  }

  /** While machines only vanish, one slip is enough: the search misses the machine if and only if it slips. */
  lemma MissedIffSlips(views: Views, started: int, isOurs: IsOurs, bound: nat, id: nat, at: Positions)
    requires IsLocated(views, started, isOurs, id, at) && forall n: nat :: |views(n)| <= bound
    requires forall k: nat :: at(k + 1) <= at(k)
    ensures PagedSearch(views, started, isOurs, bound, 0) == None <==> exists k: nat :: Slips(at, k)
  {
    MissedIff(views, started, isOurs, bound, id, at);
    if k: nat :| Slips(at, k) {
      forall j | 0 <= j < k ensures IsBehind(at, j) {
        PositionsFall(at, j, k);
      }
      forall j | j > k ensures !IsOnPage(at, j) {
        PositionsFall(at, k + 1, j);
      }
      assert IsFirstSlip(at, k);
    }
  }

  /** Our machine is the 101st of a list that loses its first row while the first page is read. */
  function SlippedView(k: nat): seq<Listed>
  {
    if k == 0 then seq(SERVER_PAGE_SIZE + 1, (i: nat) => Listed(i, Some(1000)))
    else seq(SERVER_PAGE_SIZE, (i: nat) => Listed(i + 1, Some(1000)))
  }

  /** One deletion between two pages hides a machine that every view lists: the search answers that there is none. */
  lemma DeletionHidesMachine()
    ensures forall k: nat :: Listed(SERVER_PAGE_SIZE, Some(1000)) in SlippedView(k)
    ensures (forall k: nat :: |SlippedView(k)| <= SERVER_PAGE_SIZE + 1)
            && PagedSearch(SlippedView, 1000, (id: nat) => id == SERVER_PAGE_SIZE, SERVER_PAGE_SIZE + 1, 0) == None
  {
    var isOurs := (id: nat) => id == SERVER_PAGE_SIZE;
    var at := (k: nat) => if k == 0 then SERVER_PAGE_SIZE else SERVER_PAGE_SIZE - 1;
    forall k: nat ensures Listed(SERVER_PAGE_SIZE, Some(1000)) in SlippedView(k)
                          && IsLocatedIn(SlippedView(k), 1000, SERVER_PAGE_SIZE, at(k)) {
      assert SlippedView(k)[at(k)] == Listed(SERVER_PAGE_SIZE, Some(1000));
    }
    assert IsLocated(SlippedView, 1000, isOurs, SERVER_PAGE_SIZE, at);
    assert Slips(at, 0);
    MissedIffSlips(SlippedView, 1000, isOurs, SERVER_PAGE_SIZE + 1, SERVER_PAGE_SIZE, at);
  }
}
