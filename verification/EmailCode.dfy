/**
 One mailbox's one-time code: a cached entry with its code, its wrong attempts and its sends. Writing the entry
 starts its expiry anew. Each operation is atomic.
 */
module EmailCodes {
  import opened Base

  type Code = string

  datatype Entry = Entry(code: Code, attempts: nat, sends: nat, expiresAt: int)

  datatype Limits = Limits(maxAttempts: nat, maxSends: nat, expiry: nat)

  datatype Event =
    | Send(now: int, code: Code)
    | Hold(now: int, code: Code)
    | Verify(now: int, code: Code)
    | Discard(now: int)

  datatype Outcome = Stored | Locked | TooManySends | NoEntry | Wrong | Right | Unreadable | Dropped

  /** The cache forgets an entry once its time has passed. */
  function PendingAt(e: Option<Entry>, now: int): Option<Entry>
  {
    if e.Some? && now < e.value.expiresAt then e else None
  }

  function Attempts(e: Option<Entry>): nat { if e.Some? then e.value.attempts else 0 }
  function Sends(e: Option<Entry>): nat { if e.Some? then e.value.sends else 0 }

  /** Only text the comparison reads at all: anything outside ASCII makes it fail before it counts. */
  predicate IsReadable(code: Code)
  {
    forall i :: 0 <= i < |code| ==> code[i] as int < 128
  }

  /** One more send or hold, the same rule for both. */
  function StoreNew(e: Option<Entry>, now: int, code: Code, l: Limits): (Option<Entry>, Outcome)
  {
    var pending := PendingAt(e, now);
    if Attempts(pending) >= l.maxAttempts then (e, Locked)
    else if Sends(pending) >= l.maxSends then (e, TooManySends)
    else (Some(Entry(code, Attempts(pending), Sends(pending) + 1, now + l.expiry)), Stored)
  }

  function Check(e: Option<Entry>, now: int, code: Code, l: Limits): (Option<Entry>, Outcome)
  {
    var pending := PendingAt(e, now);
    if pending == None then (e, NoEntry)
    else if pending.value.attempts >= l.maxAttempts then (e, Locked)
    else if !IsReadable(code) then (e, Unreadable)
    else if pending.value.code != code then
      (Some(pending.value.(attempts := pending.value.attempts + 1, expiresAt := now + l.expiry)), Wrong)
    else (e, Right)
  }

  function Step(e: Option<Entry>, ev: Event, l: Limits): (Option<Entry>, Outcome)
  {
    match ev
    case Send(now, code) => StoreNew(e, now, code, l)
    case Hold(now, code) => StoreNew(e, now, code, l)
    case Verify(now, code) => Check(e, now, code, l)
    case Discard(_) => (None, Dropped)
  }

  // ---------------------------------------------------------------- runs and lives

  predicate IsStore(ev: Event)
  {
    ev.Send? || ev.Hold?
  }

  ghost predicate IsRun(states: seq<Option<Entry>>, events: seq<Event>, l: Limits)
  {
    && |states| == |events| + 1
    && (forall i :: 0 <= i < |events| ==> states[i + 1] == Step(states[i], events[i], l).0)
    && (forall i, j :: 0 <= i <= j < |events| ==> events[i].now <= events[j].now)
  }

  function OutcomeAt(states: seq<Option<Entry>>, events: seq<Event>, l: Limits, i: nat): Outcome
    requires i < |events| && i < |states|
  {
    Step(states[i], events[i], l).1
  }

  /** One entry's life: event `m` stores it where none was, and every later one before `n` finds it and keeps it. */
  ghost predicate IsLife(states: seq<Option<Entry>>, events: seq<Event>, l: Limits, m: nat, n: nat)
  {
    && IsRun(states, events, l) && m < n < |states|
    && PendingAt(states[m], events[m].now) == None && states[m + 1].Some? && OutcomeAt(states, events, l, m) == Stored
    && forall i :: m < i < n ==> !events[i].Discard? && PendingAt(states[i], events[i].now).Some?
  }

  function Count(states: seq<Option<Entry>>, events: seq<Event>, l: Limits, o: Outcome, m: nat, n: nat): nat
    requires m <= n < |states| == |events| + 1
    decreases n
  {
    if m == n then 0
    else Count(states, events, l, o, m, n - 1) + (if OutcomeAt(states, events, l, n - 1) == o then 1 else 0)
  }

  /** The entry counts exactly the wrong codes compared and the codes stored in its life, and neither passes its
      limit, whatever the order of sends, holds and checks. */
  lemma {:induction false} LifeIsCounted(states: seq<Option<Entry>>, events: seq<Event>, l: Limits, m: nat, n: nat)
    requires IsLife(states, events, l, m, n)
    ensures states[n].Some?
    ensures states[n].value.attempts == Count(states, events, l, Wrong, m, n) <= l.maxAttempts
    ensures states[n].value.sends == Count(states, events, l, Stored, m, n) <= l.maxSends
    decreases n
  {
    if n == m + 1 {
      assert Count(states, events, l, Wrong, m, m) == 0 && Count(states, events, l, Stored, m, m) == 0;
    } else {
      LifeIsCounted(states, events, l, m, n - 1);
      assert PendingAt(states[n - 1], events[n - 1].now) == states[n - 1];
      assert states[n] == Step(states[n - 1], events[n - 1], l).0;
    }
  }

  /** Once the limit is reached, no code verifies and none is sent for the rest of the life. */
  lemma {:induction false} LockedStaysLocked(states: seq<Option<Entry>>, events: seq<Event>, l: Limits, m: nat, i: nat,
                                            n: nat)
    requires IsLife(states, events, l, m, n) && m < i < n
    requires Count(states, events, l, Wrong, m, i) >= l.maxAttempts
    ensures OutcomeAt(states, events, l, n - 1) == Locked && states[n] == states[i]
    decreases n
  {
    LifeIsCounted(states, events, l, m, i);
    if i < n - 1 {
      LockedStaysLocked(states, events, l, m, i, n - 1);
    }
    assert PendingAt(states[n - 1], events[n - 1].now) == states[n - 1];
  }

  /** A resend carries the wrong attempts over: the life goes on with the count it had. */
  lemma ResendKeepsAttempts(states: seq<Option<Entry>>, events: seq<Event>, l: Limits, m: nat, i: nat, n: nat)
    requires IsLife(states, events, l, m, n) && m < i < n && OutcomeAt(states, events, l, i) == Stored
    ensures states[i].Some? && states[i + 1].Some?
    ensures states[i + 1].value.attempts == states[i].value.attempts == Count(states, events, l, Wrong, m, i)
    ensures states[i + 1].value.sends == states[i].value.sends + 1
  {
    LifeIsCounted(states, events, l, m, i);
    assert PendingAt(states[i], events[i].now) == states[i];
  }

  /** Event `i` stores the last code of the life before `n`. */
  ghost predicate IsLastStore(states: seq<Option<Entry>>, events: seq<Event>, l: Limits, m: nat, i: nat, n: nat)
  {
    && IsLife(states, events, l, m, n) && m <= i < n && OutcomeAt(states, events, l, i) == Stored
    && forall j :: i < j < n ==> OutcomeAt(states, events, l, j) != Stored
  }

  lemma StoredIsStore(e: Option<Entry>, ev: Event, l: Limits)
    requires Step(e, ev, l).1 == Stored
    ensures IsStore(ev) && Step(e, ev, l).0.Some?
    ensures Step(e, ev, l).0.value.code == ev.code && Step(e, ev, l).0.value.expiresAt == ev.now + l.expiry
  {
  }

  /** A later event of the life that stores nothing keeps the code, and only a wrong code moves the expiry. */
  lemma BetweenStores(e: Option<Entry>, ev: Event, l: Limits)
    requires PendingAt(e, ev.now).Some? && !ev.Discard? && Step(e, ev, l).1 != Stored
    ensures e.Some? && Step(e, ev, l).0.Some? && Step(e, ev, l).0.value.code == e.value.code
    ensures Step(e, ev, l).0.value.expiresAt
            == if Step(e, ev, l).1 == Wrong then ev.now + l.expiry else e.value.expiresAt
  {
  }

  /** A wrong code was compared later than the store `i`. */
  ghost predicate HasLaterWrong(states: seq<Option<Entry>>, events: seq<Event>, l: Limits, i: nat, n: nat)
    requires i < n < |states| == |events| + 1
  {
    exists j :: i < j < n && OutcomeAt(states, events, l, j) == Wrong && events[j].now > events[i].now
  }

  /** Since its last store an entry's code is that one, and its expiry runs from that store or a later wrong code. */
  lemma {:induction false} SinceLastStore(states: seq<Option<Entry>>, events: seq<Event>, l: Limits, m: nat, i: nat,
                                          n: nat)
    requires IsLastStore(states, events, l, m, i, n)
    ensures states[n].Some? && IsStore(events[i]) && states[n].value.code == events[i].code
    ensures states[n].value.expiresAt >= events[i].now + l.expiry
    ensures states[n].value.expiresAt > events[i].now + l.expiry <==> HasLaterWrong(states, events, l, i, n)
    decreases n
  {
    if i + 1 == n {
      StoredIsStore(states[i], events[i], l);
    } else {
      SinceLastStore(states, events, l, m, i, n - 1);
      assert OutcomeAt(states, events, l, n - 1) != Stored;
      BetweenStores(states[n - 1], events[n - 1], l);
      assert events[i].now <= events[n - 1].now;
      assert OutcomeAt(states, events, l, n - 1) == Wrong <==> Step(states[n - 1], events[n - 1], l).1 == Wrong;
      assert HasLaterWrong(states, events, l, i, n) <==>
             HasLaterWrong(states, events, l, i, n - 1)
             || (OutcomeAt(states, events, l, n - 1) == Wrong && events[n - 1].now > events[i].now);
    }
  }

  /** In a life a check succeeds exactly when its code is the last one stored, fewer wrong codes than the limit were
      compared, and it can be compared at all. */
  lemma RightIff(states: seq<Option<Entry>>, events: seq<Event>, l: Limits, m: nat, i: nat, n: nat)
    requires IsLife(states, events, l, m, n) && m <= i < n - 1 && events[n - 1].Verify?
    requires IsLastStore(states, events, l, m, i, n - 1)
    ensures OutcomeAt(states, events, l, n - 1) == Right <==>
            events[n - 1].code == events[i].code && IsReadable(events[i].code)
            && Count(states, events, l, Wrong, m, n - 1) < l.maxAttempts
  {
    SinceLastStore(states, events, l, m, i, n - 1);
    LifeIsCounted(states, events, l, m, n - 1);
    assert PendingAt(states[n - 1], events[n - 1].now) == states[n - 1];
  }

  /** A spent code verifies nothing until another code is stored. */
  lemma {:induction false} SpentStaysSpent(states: seq<Option<Entry>>, events: seq<Event>, l: Limits, m: nat, n: nat)
    requires IsRun(states, events, l) && m < n < |states| && events[m].Discard?
    requires forall i :: m < i < n ==> !IsStore(events[i])
    ensures states[n] == None
    ensures forall i :: m < i < n && events[i].Verify? ==> OutcomeAt(states, events, l, i) == NoEntry
    decreases n
  {
    if n > m + 1 {
      SpentStaysSpent(states, events, l, m, n - 1);
      assert states[n] == Step(states[n - 1], events[n - 1], l).0;
    }
  }

  /** An address that may not sign in answers like any other: holding a code never sent has the outcome of sending one,
      and leaves the same counts and expiry. */
  lemma HoldAnswersLikeSend(e: Option<Entry>, now: int, sent: Code, held: Code, l: Limits)
    ensures var (afterHold, holds) := Step(e, Hold(now, held), l);
            var (afterSend, sends) := Step(e, Send(now, sent), l);
            && holds == sends
            && (holds == Stored ==>
                  && afterHold.Some? && afterHold.value.code == held
                  && afterSend == Some(afterHold.value.(code := sent)))
            && (holds != Stored ==> afterHold == afterSend == e)
  {
  }

  // ---------------------------------------------------------------- expiry

  /** A check finds no entry exactly when there is none or its time has come, and leaves things as they are. A code
      stored then starts afresh: no wrong attempt, and its own send. */
  lemma NoEntryIff(e: Option<Entry>, now: int, code: Code, l: Limits)
    ensures Step(e, Verify(now, code), l).1 == NoEntry <==> e == None || now >= e.value.expiresAt
    ensures e == None || now >= e.value.expiresAt ==> Step(e, Verify(now, code), l).0 == e
    ensures (e == None || now >= e.value.expiresAt) && l.maxAttempts > 0 && l.maxSends > 0 ==>
              Step(e, Send(now, code), l) == (Some(Entry(code, 0, 1, now + l.expiry)), Stored)
  {
  }

  /** Past its expiry a code verifies nothing, however often it is tried, until another code is stored. */
  lemma {:induction false} ExpiredStaysRefused(states: seq<Option<Entry>>, events: seq<Event>, l: Limits, m: nat,
                                               n: nat)
    requires IsRun(states, events, l) && m < n < |states|
    requires states[m].Some? && events[m].now >= states[m].value.expiresAt
    requires forall i :: m <= i < n ==> !IsStore(events[i])
    ensures states[n] in {None, states[m]}
    ensures forall i :: m <= i < n && events[i].Verify? ==> OutcomeAt(states, events, l, i) == NoEntry
    decreases n
  {
    if n > m + 1 {
      ExpiredStaysRefused(states, events, l, m, n - 1);
    }
    assert events[m].now <= events[n - 1].now && states[n] == Step(states[n - 1], events[n - 1], l).0;
  }

  function Times(n: nat, x: nat): (r: nat)
    ensures r == n * x
  {
    n * x
  }

  /** Every send and every wrong code starts the expiry anew, so an entry lives longer than one expiry, but never past
      one for each code stored and each wrong one compared. */
  lemma {:induction false} LifeIsBounded(states: seq<Option<Entry>>, events: seq<Event>, l: Limits, m: nat, n: nat)
    requires IsLife(states, events, l, m, n)
    ensures states[n].Some?
    ensures states[n].value.expiresAt
            <= events[m].now + Times(states[n].value.attempts + states[n].value.sends, l.expiry)
    ensures states[n].value.expiresAt <= events[m].now + Times(l.maxAttempts + l.maxSends, l.expiry)
    decreases n
  {
    LifeIsCounted(states, events, l, m, n);
    if n > m + 1 {
      LifeIsBounded(states, events, l, m, n - 1);
      LifeIsCounted(states, events, l, m, n - 1);
      assert states[n] == Step(states[n - 1], events[n - 1], l).0;
      StepIsBounded(states[n - 1], events[n - 1], l, events[m].now);
    }
    AtMost(states[n].value.attempts + states[n].value.sends, l.maxAttempts + l.maxSends, l.expiry);
  }

  /** One event of a life adds one expiry at most, and only with one more code counted. */
  lemma StepIsBounded(e: Option<Entry>, ev: Event, l: Limits, since: int)
    requires PendingAt(e, ev.now).Some? && !ev.Discard?
    requires e.value.expiresAt <= since + Times(e.value.attempts + e.value.sends, l.expiry)
    ensures var next := Step(e, ev, l).0;
            next.Some? && next.value.expiresAt <= since + Times(next.value.attempts + next.value.sends, l.expiry)
  {
    OneMore(e.value.attempts + e.value.sends, l.expiry);
  }

  lemma OneMore(n: nat, x: nat)
    ensures Times(n + 1, x) == Times(n, x) + x
  {
  }

  lemma AtMost(m: nat, n: nat, x: nat)
    requires m <= n
    ensures Times(m, x) <= Times(n, x)
  {
  }

  /** The exact condition: an entry outlives one expiry from its last store if and only if a wrong code was compared
      later than that store. */
  lemma OutlivesIff(states: seq<Option<Entry>>, events: seq<Event>, l: Limits, m: nat, i: nat, n: nat)
    requires IsLastStore(states, events, l, m, i, n)
    ensures states[n].Some?
    ensures states[n].value.expiresAt > events[i].now + l.expiry <==> HasLaterWrong(states, events, l, i, n)
  {
    SinceLastStore(states, events, l, m, i, n);
  }

  /** A code mailed at time 0 to expire after 10 still signs in at time 18: a wrong one at 9 kept it. */
  lemma WrongCodeKeepsEntryAlive() returns (states: seq<Option<Entry>>, events: seq<Event>, l: Limits)
    ensures IsRun(states, events, l) && |events| == 3 && l.expiry == 10 && states[0] == None
    ensures events[0] == Send(0, "123456") && events[2] == Verify(18, "123456")
    ensures OutcomeAt(states, events, l, 2) == Right
  {
    l := Limits(5, 3, 10);
    events := [Send(0, "123456"), Verify(9, "000000"), Verify(18, "123456")];
    var sent, kept := Some(Entry("123456", 0, 1, 10)), Some(Entry("123456", 1, 1, 19));
    states := [None, sent, kept, kept];
    assert "123456"[0] == '1' && "000000"[0] == '0';
    assert IsReadable("000000") && IsReadable("123456");
  }

  // ---------------------------------------------------------------- the entry, updated in place

  class EmailCode {
    var cached: Option<Entry>
    const limits: Limits

    /** `_next_pending` and `_store`, as `send` and `hold` use them. */
    method StoreCode(now: int, code: Code) returns (outcome: Outcome)
      modifies this
      ensures (cached, outcome) == StoreNew(old(cached), now, code, limits)
      // Attempts and sends carry over while the entry lives, and each limit refuses.
      ensures var isLive := old(cached).Some? && now < old(cached).value.expiresAt;
              var attempts, sends := if isLive then old(cached).value.attempts else 0,
                                     if isLive then old(cached).value.sends else 0;
              && (outcome == Locked <==> attempts >= limits.maxAttempts)
              && (outcome == Stored <==> attempts < limits.maxAttempts && sends < limits.maxSends)
              && (outcome == Stored ==> cached == Some(Entry(code, attempts, sends + 1, now + limits.expiry)))
      ensures outcome != Stored ==> cached == old(cached)
    {
      var attempts, sends := 0, 0;
      if cached.Some? && now < cached.value.expiresAt {
        attempts, sends := cached.value.attempts, cached.value.sends;
      }
      if attempts >= limits.maxAttempts {
        return Locked;
      }
      if sends >= limits.maxSends {
        return TooManySends;
      }
      cached := Some(Entry(code, attempts, sends + 1, now + limits.expiry));
      outcome := Stored;
    }

    /** `verify`: a wrong code is counted before the refusal. */
    method VerifyCode(now: int, code: Code) returns (outcome: Outcome)
      modifies this
      ensures (cached, outcome) == Check(old(cached), now, code, limits)
      ensures outcome == NoEntry <==> old(cached) == None || now >= old(cached).value.expiresAt
      ensures outcome == Right <==>
              && old(cached).Some? && now < old(cached).value.expiresAt && code == old(cached).value.code
              && old(cached).value.attempts < limits.maxAttempts && forall i :: 0 <= i < |code| ==> code[i] as int < 128
      // Only a wrong code writes: one attempt more, and the expiry anew.
      ensures cached == if outcome != Wrong then old(cached) else
                          Some(old(cached).value.(attempts := old(cached).value.attempts + 1,
                                                  expiresAt := now + limits.expiry))
    {
      if cached == None || cached.value.expiresAt <= now {
        return NoEntry;
      }
      var pending := cached.value;
      if pending.attempts >= limits.maxAttempts {
        return Locked;
      }
      if !IsReadable(code) {
        return Unreadable;
      }
      if pending.code != code {
        cached := Some(pending.(attempts := pending.attempts + 1, expiresAt := now + limits.expiry));
        return Wrong;
      }
      outcome := Right;
    }

    /** `sign_in_with_code` under the lock: the code is spent with the sign-in, and kept while a new address still owes
        its name or its account is disabled. */
    method SignIn(now: int, code: Code, hasUser: bool, isDisabled: bool, hasName: bool)
      returns (outcome: Outcome, isSignedIn: bool)
      modifies this
      ensures outcome == Check(old(cached), now, code, limits).1
      ensures isSignedIn <==> outcome == Right && !(hasUser && isDisabled) && (hasUser || hasName)
      ensures cached == if isSignedIn then None else Check(old(cached), now, code, limits).0
    {
      isSignedIn := false;
      outcome := VerifyCode(now, code);
      if outcome != Right || (hasUser && isDisabled) || (!hasUser && !hasName) {
        return;
      }
      cached := None;
      isSignedIn := true;
    }
  }
}
