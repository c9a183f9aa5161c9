/**
 The digest of one preference: due at its local hour, daily or on Mondays, and covering what the feed got since the
 last one that was sent. Times are whole seconds of one local clock whose day 0 is a Monday.
 */
module Digest {
  import opened Base

  const HOUR: int := 3600
  const DAY: int := 86400

  datatype Frequency = Daily | Weekly

  // ---------------------------------------------------------------- when it is due

  function DayOf(t: int): int
  {
    t / DAY
  }

  function Slot(day: int, hour: int): int
  {
    day * DAY + hour * HOUR
  }

  /** Any time a digest may go out at: the hour, of any day or of a Monday. */
  predicate IsSlot(t: int, hour: int, f: Frequency)
  {
    t == Slot(DayOf(t), hour) && (f == Weekly ==> DayOf(t) % 7 == 0)
  }

  /** As `is_digest_due` computes it from the last send. */
  function DueAt(last: int, hour: int, f: Frequency): int
  {
    var today := Slot(DayOf(last), hour);
    match f
    case Daily => if today <= last then today + DAY else today
    case Weekly =>
      var monday := today + ((0 - DayOf(last) % 7) % 7) * DAY;
      if monday <= last then monday + 7 * DAY else monday
  }

  lemma SlotDay(day: int, hour: int)
    requires 0 <= hour < 24
    ensures DayOf(Slot(day, hour)) == day
  {
  }

  /** It is the least slot strictly after the last send. */
  lemma DueIsNextSlot(last: int, hour: int, f: Frequency, t: int)
    requires 0 <= hour < 24
    ensures IsSlot(DueAt(last, hour, f), hour, f) && DueAt(last, hour, f) > last
    ensures IsSlot(t, hour, f) && t > last ==> t >= DueAt(last, hour, f)
  {
    var d := DayOf(last);
    SlotDay(d, hour);
    SlotDay(d + 1, hour);
    match f
    case Daily =>
    case Weekly =>
      var k := (0 - d % 7) % 7;
      assert (d + k) % 7 == 0;
      SlotDay(d + k, hour);
      SlotDay(d + k + 7, hour);
      if IsSlot(t, hour, f) && t > last {
        NextMonday(d, DayOf(t), k);
      }
  }

  lemma NextMonday(d: int, e: int, k: int)
    requires k == (0 - d % 7) % 7 && e % 7 == 0 && e >= d
    ensures e >= d + k && (e > d + k ==> e >= d + k + 7)
  {
  }

  /** Never sent is due at once. */
  predicate IsDue(last: Option<int>, hour: int, f: Frequency, now: int)
  {
    last == None || now >= DueAt(last.value, hour, f)
  }

  /** Due exactly when a slot has passed since the last send. */
  lemma IsDueIff(last: int, hour: int, f: Frequency, now: int)
    requires 0 <= hour < 24
    ensures IsDue(Some(last), hour, f, now) <==> exists t :: IsSlot(t, hour, f) && last < t <= now
  {
    DueIsNextSlot(last, hour, f, 0);
    if t :| IsSlot(t, hour, f) && last < t <= now {
      DueIsNextSlot(last, hour, f, t);
    }
  }

  // ---------------------------------------------------------------- windows

  /** The entries created after `start` and up to `end`. */
  datatype Window = Window(start: int, end: int)

  datatype Preference = Preference(last: Option<int>, sent: seq<Window>)

  /** One pass of the scheduler. The hour and the frequency are the user's, then. */
  datatype Pass = Pass(now: int, isSent: bool, hour: int, f: Frequency)

  /** A failed send is logged and moves nothing. */
  function Step(p: Preference, e: Pass): Preference
  {
    if !IsDue(p.last, e.hour, e.f, e.now) || !e.isSent then p
    else Preference(Some(e.now), p.sent + [Window(if p.last.Some? then p.last.value else e.now, e.now)])
  }

  /** A pass sends exactly if the send works and the preference was never sent or a slot of it has passed since, and
      then its window runs from the last one sent, and is empty the first time. */
  lemma StepSendsIff(p: Preference, e: Pass)
    requires 0 <= e.hour < 24
    ensures var q := Step(p, e);
            var isSent := e.isSent
                          && (p.last == None || exists t :: IsSlot(t, e.hour, e.f) && p.last.value < t <= e.now);
            && (!isSent ==> q == p)
            && (isSent ==>
                  && q.last == Some(e.now) && |q.sent| == |p.sent| + 1 && q.sent[..|p.sent|] == p.sent
                  && q.sent[|p.sent|].end == e.now
                  && q.sent[|p.sent|].start == if p.last.Some? then p.last.value else e.now)
  {
    if p.last.Some? {
      IsDueIff(p.last.value, e.hour, e.f, e.now);
    }
  }

  function Steps(p: Preference, passes: seq<Pass>): Preference
  {
    if passes == [] then p else Step(Steps(p, passes[..|passes| - 1]), passes[|passes| - 1])
  }

  predicate AreAdjacent(p: Preference)
  {
    && (forall i :: 0 < i < |p.sent| ==> p.sent[i].start == p.sent[i - 1].end)
    && (forall i :: 0 <= i < |p.sent| ==> p.sent[i].start <= p.sent[i].end)
    && (forall i :: 0 < i < |p.sent| ==> p.sent[i].start < p.sent[i].end)
    && (p.sent != [] ==> p.last == Some(p.sent[|p.sent| - 1].end))
  }

  /** Whatever fails, whenever it runs and however the user changes the hour: the windows sent follow one another
      without gap or overlap. */
  lemma {:induction false} WindowsAreAdjacent(p: Preference, passes: seq<Pass>)
    requires p.sent == [] && forall i :: 0 <= i < |passes| ==> 0 <= passes[i].hour < 24
    ensures AreAdjacent(Steps(p, passes))
    ensures var q := Steps(p, passes);
            if q.sent == [] then q.last == p.last else p.last.Some? ==> q.sent[0].start == p.last.value
    decreases |passes|
  {
    if passes != [] {
      var n := |passes| - 1;
      WindowsAreAdjacent(p, passes[..n]);
      var before := Steps(p, passes[..n]);
      if before.last.Some? {
        DueIsNextSlot(before.last.value, passes[n].hour, passes[n].f, 0);
      }
    }
  }

  predicate IsIn(w: Window, at: int)
  {
    w.start < at <= w.end
  }

  lemma {:induction false} EndsRise(p: Preference, i: nat, j: nat)
    requires AreAdjacent(p) && i <= j < |p.sent|
    ensures p.sent[i].end <= p.sent[j].end && (i < j ==> p.sent[i].end <= p.sent[j].start)
    decreases j
  {
    if i < j {
      EndsRise(p, i, j - 1);
    }
  }

  /** Every entry created since the first window falls in exactly one. */
  lemma {:induction false} CoveredExactlyOnce(p: Preference, at: int, n: nat) returns (k: nat)
    requires AreAdjacent(p) && n < |p.sent| && p.sent[0].start < at <= p.sent[n].end
    ensures k <= n && IsIn(p.sent[k], at)
    ensures forall i :: 0 <= i < |p.sent| && IsIn(p.sent[i], at) ==> i == k
    decreases n
  {
    if n == 0 || at > p.sent[n].start {
      k := n;
    } else {
      k := CoveredExactlyOnce(p, at, n - 1);
    }
    forall i | 0 <= i < |p.sent| && IsIn(p.sent[i], at) ensures i == k {
      if i < k { EndsRise(p, i, k); }
      if k < i { EndsRise(p, k, i); }
    }
  }

  /** A feed entry is read by its creation time, but can be seen only once its transaction commits. */
  datatype FeedEntry = FeedEntry(created: int, visible: int)

  predicate IsRead(w: Window, e: FeedEntry)
  {
    IsIn(w, e.created) && e.visible <= w.end
  }

  /** An entry within the windows is read by exactly one digest or by none: read if and only if it is visible when the
      one that covers it runs. */
  lemma ReadIff(p: Preference, e: FeedEntry, n: nat) returns (k: nat)
    requires AreAdjacent(p) && n < |p.sent| && p.sent[0].start < e.created <= p.sent[n].end
    ensures k <= n && IsIn(p.sent[k], e.created)
    ensures (exists i :: 0 <= i < |p.sent| && IsRead(p.sent[i], e)) <==> e.visible <= p.sent[k].end
    ensures forall i :: 0 <= i < |p.sent| && IsRead(p.sent[i], e) ==> i == k
  {
    k := CoveredExactlyOnce(p, e.created, n);
    assert e.visible <= p.sent[k].end ==> IsRead(p.sent[k], e);
  }

  /** An entry written at the very end of a window and committed after it is in no digest. */
  lemma LateCommitIsMissed() returns (p: Preference, e: FeedEntry)
    ensures AreAdjacent(p) && |p.sent| == 2 && p.sent[0].start < e.created <= p.sent[1].end
    ensures forall i :: 0 <= i < |p.sent| ==> !IsRead(p.sent[i], e)
  {
    p := Preference(Some(2 * DAY), [Window(0, DAY), Window(DAY, 2 * DAY)]);
    e := FeedEntry(DAY, DAY + 1);
  }

  // ---------------------------------------------------------------- the group, updated in place

  type Category = string

  /** One user's due preferences of one team, sent in one email. */
  class Group {
    var lastDigestAt: map<Category, Option<int>>

    /** `_send_group`: the windows asked for, and the new times only when the send succeeds. */
    method Send(now: int, isSent: bool) returns (since: map<Category, int>)
      modifies this
      ensures since.Keys == old(lastDigestAt).Keys
      ensures forall c :: c in since ==>
                since[c] == (if old(lastDigestAt)[c].Some? then old(lastDigestAt)[c].value else now)
      ensures lastDigestAt.Keys == old(lastDigestAt).Keys
      ensures forall c :: c in lastDigestAt ==> lastDigestAt[c] == if isSent then Some(now) else old(lastDigestAt)[c]
    {
      since := map c | c in lastDigestAt :: if lastDigestAt[c].Some? then lastDigestAt[c].value else now;
      if !isSent {
        return;
      }
      lastDigestAt := map c | c in lastDigestAt :: Some(now);
    }
  }
}
