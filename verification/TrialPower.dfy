/**
 Two background jobs race over the power of one trial server: the job that stops an ended trial, and the
 job that starts a converted one. The region's power and Central's mirror of it are separate facts, each
 job runs in stretches, and anything may happen between two stretches. The mirror follows direct reads and
 the region's reports, and a report may be applied long after the power it tells of.
 */
module TrialPower {
  datatype SiteState = Active | Ended | Converted

  /** The stop job first starts the server, because a sleeping one cannot be stopped, then stops it and reads it. Then
      it reads the site again, and what it saw is visible to others once it commits. */
  datatype StopJob =
    | NoStop | StopQueued | Starting | Stopping | Looking | Noting(saw: bool) | Closing(saw: bool, isPaid: bool)
  {
    predicate IsRunning() { !NoStop? && !StopQueued? }
  }

  /** `acted` is true once the start was sent: a wait for a power state acts once. */
  datatype ConvertJob = NoConvert | Raising(acted: bool) | Finishing

  /** What the job queue does with a job whose identity is already known to it. */
  datatype Dedupe = DropIfQueued | DropIfQueuedOrRunning

  datatype State = State(
    site: SiteState,
    isUp: bool,             // the region
    mirrorUp: bool,         // what Central last recorded
    stop: StopJob,
    convert: ConvertJob,
    isConvertQueued: bool,
    hasError: bool,         // the trial error, which the daily job reads
    reports: seq<bool>,     // what the region reported at each power command, in its own order
    applied: nat,           // the watermark: the reports before this one are applied or passed by
    readings: multiset<bool>)   // what others read of the server and have not recorded yet

  datatype Event =
    | EndTrial
    | ExtendTrial
    | Convert
    | StopBegins | StopSendsStart | StopSeesUp | StopSendsStop | StopSeesDown | StopLooks | StopReloads | StopEnds
    | StopFails | StopDies
    | ConvertBegins(isBlocked: bool) | ConvertSendsStart | ConvertSeesUp | ConvertEnds
    | ConvertFails | ConvertDies
    | Read
    | Record(wasUp: bool)
    | Report(k: nat)
    | Daily

  function QueueConvert(s: State, mode: Dedupe): (t: State)
    ensures t == s.(isConvertQueued := t.isConvertQueued)
    ensures mode == DropIfQueued || s.convert == NoConvert ==> t.isConvertQueued
  {
    if mode == DropIfQueuedOrRunning && s.convert != NoConvert then s else s.(isConvertQueued := true)
  }

  predicate Enabled(s: State, e: Event)
  {
    match e
    case EndTrial => s.site == Active
    case ExtendTrial => s.site == Ended
    case Convert => s.site != Converted
    case StopBegins => s.stop == StopQueued
    case StopSendsStart => s.stop == Starting
    case StopSeesUp => s.stop == Starting && s.isUp
    case StopSendsStop => s.stop == Stopping
    case StopSeesDown => s.stop == Stopping && !s.isUp
    case StopLooks => s.stop == Looking
    case StopReloads => s.stop.Noting?
    case StopEnds => s.stop.Closing?
    case StopFails => s.stop.IsRunning()
    case StopDies => s.stop.IsRunning()
    case ConvertBegins(_) => s.isConvertQueued && s.convert == NoConvert
    case ConvertSendsStart => s.convert == Raising(false)
    case ConvertSeesUp => s.convert.Raising? && s.isUp
    case ConvertEnds => s.convert == Finishing
    case ConvertFails => s.convert != NoConvert
    case ConvertDies => s.convert != NoConvert
    case Read => true
    case Record(wasUp) => wasUp in s.readings
    case Report(k) => s.applied <= k < |s.reports|
    case Daily => true
  }

  /** The region does as told and reports it. */
  function Commanded(s: State, isUp: bool): State
  {
    s.(isUp := isUp, reports := s.reports + [isUp])
  }

  function Apply(s: State, e: Event, mode: Dedupe): State
    requires Enabled(s, e)
  {
    match e
    case EndTrial => s.(site := Ended, hasError := false, stop := if s.stop == NoStop then StopQueued else s.stop)
    case ExtendTrial => s.(site := Active, hasError := false)
    case Convert => QueueConvert(s.(site := Converted, hasError := false), mode)
    case StopBegins => s.(stop := if s.site == Ended then Starting else NoStop)
    case StopSendsStart => Commanded(s, true)
    case StopSeesUp => s.(stop := Stopping)
    case StopSendsStop => Commanded(s, false)
    case StopSeesDown => s.(stop := Looking)
    case StopLooks => s.(stop := Noting(s.isUp))
    // The team can pay while the stop runs. Its server must then run again.
    case StopReloads => s.(stop := Closing(s.stop.saw, s.site == Converted))
    case StopEnds =>
      var noted := s.(stop := NoStop, mirrorUp := s.stop.saw);
      if s.stop.isPaid then QueueConvert(noted, mode) else noted.(hasError := false)
    case StopFails => s.(stop := NoStop, hasError := true)
    case StopDies => s.(stop := NoStop)
    case ConvertBegins(isBlocked) =>
      if s.site != Converted then s.(isConvertQueued := false)
      else if isBlocked then s.(isConvertQueued := false, hasError := true)
      else s.(isConvertQueued := false, convert := if s.mirrorUp then Finishing else Raising(false))
    case ConvertSendsStart => Commanded(s, true).(convert := Raising(true))
    case ConvertSeesUp => s.(convert := Finishing)
    case ConvertEnds => s.(convert := NoConvert, mirrorUp := s.isUp, hasError := false)
    case ConvertFails => s.(convert := NoConvert, hasError := true)
    case ConvertDies => s.(convert := NoConvert)
    case Read => s.(readings := s.readings + multiset{s.isUp})
    case Record(wasUp) => s.(mirrorUp := wasUp, readings := s.readings - multiset{wasUp})
    case Report(k) => s.(mirrorUp := s.reports[k], applied := k + 1)
    case Daily =>
      if s.site == Converted && s.hasError then QueueConvert(s, mode)
      else if s.site == Ended && s.mirrorUp && s.stop == NoStop then s.(stop := StopQueued)
      else s
  }

  // What a step does, one fact at a time: whoever moves it is named, and nobody else does.

  lemma SiteAfter(s: State, e: Event, mode: Dedupe)
    requires Enabled(s, e)
    ensures Apply(s, e, mode).site ==
            match e
            case EndTrial => Ended
            case ExtendTrial => Active
            case Convert => Converted
            case _ => s.site
  {
  }

  /** The region does what the jobs tell it, and reports each command in turn. */
  lemma RegionAfter(s: State, e: Event, mode: Dedupe)
    requires Enabled(s, e)
    ensures Apply(s, e, mode).isUp ==
            match e
            case StopSendsStart | ConvertSendsStart => true
            case StopSendsStop => false
            case _ => s.isUp
    ensures Apply(s, e, mode).reports ==
            if e in {StopSendsStart, ConvertSendsStart} then s.reports + [true]
            else if e == StopSendsStop then s.reports + [false] else s.reports
  {
  }

  /** Central's record follows what the stop job saw, what the conversion job sees as it ends, a reading made earlier,
      and a report, which is applied once and in the region's order. */
  lemma MirrorAfter(s: State, e: Event, mode: Dedupe)
    requires Enabled(s, e)
    ensures Apply(s, e, mode).mirrorUp ==
            match e
            case StopEnds => s.stop.saw
            case ConvertEnds => s.isUp
            case Record(wasUp) => wasUp
            case Report(k) => s.reports[k]
            case _ => s.mirrorUp
    ensures Apply(s, e, mode).applied == if e.Report? then e.k + 1 else s.applied
  {
  }

  /** What others read is recorded once, whenever they get to it. */
  lemma ReadingsAfter(s: State, e: Event, mode: Dedupe)
    requires Enabled(s, e)
    ensures Apply(s, e, mode).readings ==
            match e
            case Read => s.readings + multiset{s.isUp}
            case Record(wasUp) => s.readings - multiset{wasUp}
            case _ => s.readings
  {
  }

  /** A job that fails or is blocked leaves the error the daily job reads; the customer's moves and a job that ends well
      clear it, but not a stop job that found the site paid. */
  lemma ErrorAfter(s: State, e: Event, mode: Dedupe)
    requires Enabled(s, e)
    ensures Apply(s, e, mode).hasError ==
            match e
            case EndTrial | ExtendTrial | Convert | ConvertEnds => false
            case StopEnds => s.stop.isPaid && s.hasError
            case StopFails | ConvertFails => true
            case ConvertBegins(isBlocked) => s.hasError || (isBlocked && s.site == Converted)
            case _ => s.hasError
  {
  }

  /** A conversion is asked for by a payment, by a stop job that found the site paid, and by the daily job after an
      error, and leaves the queue as its job begins. */
  lemma ConversionQueuedAfter(s: State, e: Event, mode: Dedupe)
    requires Enabled(s, e)
    ensures var isAsked := || e == Convert || (e == StopEnds && s.stop.isPaid)
                           || (e == Daily && s.site == Converted && s.hasError);
            Apply(s, e, mode).isConvertQueued ==
            (!e.ConvertBegins? && (s.isConvertQueued || (isAsked && (mode == DropIfQueued || s.convert == NoConvert))))
  {
  }

  lemma StopLeavesQueue(s: State, e: Event, mode: Dedupe)
    requires Enabled(s, e) && IsStopStep(e)
    ensures Apply(s, e, mode).stop != StopQueued && s.stop != NoStop && (s.stop == StopQueued <==> e == StopBegins)
  {
  }

  lemma ConversionKeepsStop(s: State, e: Event, mode: Dedupe)
    requires Enabled(s, e) && IsConvertStep(e)
    ensures Apply(s, e, mode).stop == s.stop
  {
  }

  /** A stop is asked for by the end of the trial, and by the daily job where the record says that an ended trial's
      server is up. */
  lemma StopQueuedAfter(s: State, e: Event, mode: Dedupe)
    requires Enabled(s, e)
    ensures Apply(s, e, mode).stop == StopQueued <==>
            || (s.stop == StopQueued && e != StopBegins)
            || (s.stop == NoStop && (e == EndTrial || (e == Daily && s.site == Ended && s.mirrorUp)))
  {
    if IsStopStep(e) {
      StopLeavesQueue(s, e, mode);
    } else if IsConvertStep(e) {
      ConversionKeepsStop(s, e, mode);
    } else if e in {Convert, ExtendTrial, Read} || e.Record? || e.Report? {
      assert Apply(s, e, mode).stop == s.stop;
    }
  }

  /** A trial that runs: no job yet, and the mirror tells the truth. */
  predicate Init(s: State)
  {
    s.site == Active && s.isUp && s.mirrorUp && s.stop == NoStop && s.convert == NoConvert && !s.isConvertQueued
    && !s.hasError && s.applied == |s.reports| && s.readings == multiset{}
  }

  predicate IsRun(states: seq<State>, events: seq<Event>, mode: Dedupe)
  {
    && |states| == |events| + 1
    && forall i :: 0 <= i < |events| ==>
         Enabled(states[i], events[i]) && states[i + 1] == Apply(states[i], events[i], mode)
  }

  /** The stop job will ask for a conversion: it has yet to read the site again, or found it paid. */
  predicate WillAsk(s: State)
  {
    s.stop.IsRunning() && (s.stop.Closing? ==> s.stop.isPaid)
  }

  /** The stop job will yet record that the server is down. */
  predicate WillLook(s: State)
  {
    match s.stop
    case NoStop => false
    case StopQueued => false
    case Noting(saw) => !saw
    case Closing(saw, _) => !saw
    case _ => true
  }

  /** A paid server that is down has someone who will still bring it up. */
  predicate IsCaredFor(s: State)
  {
    s.site == Converted && !s.isUp ==> s.isConvertQueued || WillAsk(s) || s.convert.Raising? || s.hasError
  }

  /** The mirror of a server that is down says so, unless the stop job will yet record it. */
  predicate IsMirrorTrue(s: State)
  {
    !s.isUp && !WillLook(s) ==> !s.mirrorUp
  }

  /** A conversion job that decided against a start is followed by another one. */
  predicate IsFollowed(s: State)
  {
    s.site == Converted && !s.isUp && s.convert == Finishing ==> s.isConvertQueued || WillAsk(s)
  }

  /** Only a converted site has a conversion job at work, and nobody but the stop job stops the server. */
  predicate IsOrderly(s: State)
  {
    && (s.convert != NoConvert ==> s.site == Converted)
    && ((s.stop.Noting? || s.stop.Closing?) && s.stop.saw ==> s.isUp)
  }

  predicate Inv(s: State)
  {
    IsOrderly(s) && IsCaredFor(s) && IsMirrorTrue(s) && IsFollowed(s)
  }

  /** The steps that can lose a paid server. A stop job breaks off, or dies, before it recorded a server that is down;
      its request is dropped while the conversion job is past its decision, or an error goes with it; a conversion job
      begins between the stop job's last look at the site and its commit; it dies; and a report or a reading that says
      up is recorded of a server that is down after the stop job's own record. */
  predicate IsClean(s: State, e: Event, mode: Dedupe)
  {
    var isAtRisk := s.site == Converted && !s.isUp;
    match e
    case StopFails => s.isUp || (!s.mirrorUp && (s.convert == Finishing ==> s.isConvertQueued))
    case StopDies =>
      && (s.isUp || (!s.mirrorUp && (s.convert == Finishing ==> s.isConvertQueued)))
      && (isAtRisk ==> s.isConvertQueued || s.convert.Raising? || s.hasError)
    case StopEnds =>
      isAtRisk && s.stop.Closing? && !s.isConvertQueued && !s.convert.Raising? ==>
        if s.stop.isPaid then mode == DropIfQueued || s.convert == NoConvert else !s.hasError
    case ConvertBegins(isBlocked) => isAtRisk && !isBlocked && s.mirrorUp ==> WillAsk(s) || !s.stop.Closing?
    case ConvertDies => isAtRisk ==> s.isConvertQueued || WillAsk(s) || s.hasError
    case Record(wasUp) => wasUp ==> s.isUp || WillLook(s)
    case Report(k) => k < |s.reports| && s.reports[k] ==> s.isUp || WillLook(s)
    case _ => true
  }

  /** A step from a state that keeps the invariant keeps it if and only if it is clean. */
  lemma StepKeepsIff(s: State, e: Event, mode: Dedupe)
    requires Inv(s) && Enabled(s, e)
    ensures Inv(Apply(s, e, mode)) <==> IsClean(s, e, mode)
    ensures IsOrderly(Apply(s, e, mode))
  {
    if IsStopStep(e) {
      StopStepKeepsIff(s, e, mode);
    } else if IsConvertStep(e) {
      ConvertStepKeepsIff(s, e, mode);
    }
  }

  predicate IsStopStep(e: Event)
  {
    e in {StopBegins, StopSendsStart, StopSeesUp, StopSendsStop, StopSeesDown, StopLooks, StopReloads, StopEnds,
          StopFails, StopDies}
  }

  predicate IsConvertStep(e: Event)
  {
    e.ConvertBegins? || e in {ConvertSendsStart, ConvertSeesUp, ConvertEnds, ConvertFails, ConvertDies}
  }

  lemma StopStepKeepsIff(s: State, e: Event, mode: Dedupe)
    requires Inv(s) && Enabled(s, e) && IsStopStep(e)
    ensures Inv(Apply(s, e, mode)) <==> IsClean(s, e, mode)
    ensures IsOrderly(Apply(s, e, mode))
  {
  }

  lemma ConvertStepKeepsIff(s: State, e: Event, mode: Dedupe)
    requires Inv(s) && Enabled(s, e) && IsConvertStep(e)
    ensures Inv(Apply(s, e, mode)) <==> IsClean(s, e, mode)
    ensures IsOrderly(Apply(s, e, mode))
  {
  }

  predicate IsCleanRun(states: seq<State>, events: seq<Event>, mode: Dedupe)
  {
    IsRun(states, events, mode) && forall i :: 0 <= i < |events| ==> IsClean(states[i], events[i], mode)
  }

  lemma {:induction false} RunKeeps(states: seq<State>, events: seq<Event>, mode: Dedupe, n: nat)
    requires IsCleanRun(states, events, mode) && Inv(states[0]) && n < |states|
    ensures Inv(states[n])
  {
    if n > 0 {
      RunKeeps(states, events, mode, n - 1);
      StepKeepsIff(states[n - 1], events[n - 1], mode);
    }
  }

  /** No job is queued or at work and the daily job has nothing to retry. */
  predicate IsDrained(s: State)
  {
    s.stop == NoStop && s.convert == NoConvert && !s.isConvertQueued && !s.hasError
  }

  predicate IsPaidAndDown(s: State)
  {
    s.site == Converted && IsDrained(s) && !s.isUp
  }

  /** Over every clean interleaving of both jobs, failing ones included, the conversion, the daily job, and reads of the
      server and reports of it recorded late, a paid site's server is up once all jobs have drained. */
  lemma PaidSiteIsUp(states: seq<State>, events: seq<Event>, mode: Dedupe, n: nat)
    requires IsCleanRun(states, events, mode) && Init(states[0]) && n < |states|
    ensures !IsPaidAndDown(states[n])
  {
    RunKeeps(states, events, mode, n);
  }

  /** With a queue that drops a job only while one waits, a stop job that found the site paid ends cleanly. */
  lemma QueueOnlyIsClean(s: State)
    requires s.stop.Closing? && s.stop.isPaid
    ensures IsClean(s, StopEnds, DropIfQueued)
  {
  }

  // ---------------------------------------------------------------- the exact conditions

  /** From `s` clean steps alone can end with every job drained and the paid server up, or down. */
  ghost predicate CanEnd(s: State, mode: Dedupe, isUp: bool)
  {
    exists states, events :: Ends(states, events, s, mode, isUp)
  }

  ghost predicate CanEndDown(s: State, mode: Dedupe)
  {
    CanEnd(s, mode, false)
  }

  ghost predicate Ends(states: seq<State>, events: seq<Event>, s: State, mode: Dedupe, isUp: bool)
  {
    && IsCleanRun(states, events, mode) && states[0] == s
    && var last := states[|events|];
       last.site == Converted && IsDrained(last) && last.isUp == isUp
  }

  lemma EndsHere(s: State, mode: Dedupe)
    requires s.site == Converted && IsDrained(s)
    ensures CanEnd(s, mode, s.isUp)
  {
    assert Ends([s], [], s, mode, s.isUp);
  }

  /** One clean step before. */
  lemma StepBefore(s: State, e: Event, mode: Dedupe, isUp: bool)
    requires Enabled(s, e) && IsClean(s, e, mode) && CanEnd(Apply(s, e, mode), mode, isUp)
    ensures CanEnd(s, mode, isUp)
  {
    var states, events :| Ends(states, events, Apply(s, e, mode), mode, isUp);
    var longer, more := [s] + states, [e] + events;
    forall i | 0 <= i < |more|
      ensures Enabled(longer[i], more[i]) && longer[i + 1] == Apply(longer[i], more[i], mode)
      ensures IsClean(longer[i], more[i], mode)
    {
      if i > 0 {
        assert longer[i] == states[i - 1] && more[i] == events[i - 1];
      }
    }
    assert Ends(longer, more, s, mode, isUp);
  }

  /** The invariant is the weakest one: a state can end down by clean steps if and only if it is outside it. */
  lemma EndsDownIff(s: State, mode: Dedupe)
    requires IsOrderly(s)
    ensures CanEndDown(s, mode) <==> !Inv(s)
  {
    if Inv(s) && CanEndDown(s, mode) {
      var states, events :| Ends(states, events, s, mode, false);
      RunKeeps(states, events, mode, |events|);
      assert false;
    }
    if !Inv(s) {
      if s.site != Converted {
        WrongMirrorIsPaidFor(s, mode);
      } else if !IsMirrorTrue(s) {
        WrongMirrorEndsDown(s, mode);
      } else {
        ForgottenEndsDown(s, mode);
      }
    }
  }

  /** The site is converted with the mirror wrong. */
  lemma WrongMirrorIsPaidFor(s: State, mode: Dedupe)
    requires IsOrderly(s) && s.site != Converted && !IsMirrorTrue(s)
    ensures CanEndDown(s, mode)
  {
    WrongMirrorEndsDown(Apply(s, Convert, mode), mode);
    StepBefore(s, Convert, mode, false);
  }

  /** A conversion job, if at work, fails; a queued stop finds the site paid; and the next conversion trusts the
      mirror. */
  lemma WrongMirrorEndsDown(s: State, mode: Dedupe)
    requires s.site == Converted && IsOrderly(s) && !IsMirrorTrue(s)
    ensures CanEndDown(s, mode)
    decreases s.convert != NoConvert, s.stop != NoStop
  {
    if s.convert != NoConvert {
      WrongMirrorEndsDown(Apply(s, ConvertFails, mode), mode);
      StepBefore(s, ConvertFails, mode, false);
    } else if s.stop == StopQueued {
      WrongMirrorEndsDown(Apply(s, StopBegins, mode), mode);
      StepBefore(s, StopBegins, mode, false);
    } else {
      TrustedMirrorEndsDown(s, mode);
    }
  }

  lemma TrustedMirrorEndsDown(s: State, mode: Dedupe)
    requires s.site == Converted && !s.isUp && s.mirrorUp && s.stop == NoStop && s.convert == NoConvert
    ensures CanEndDown(s, mode)
    decreases !s.isConvertQueued
  {
    if s.isConvertQueued {
      var begun := Apply(s, ConvertBegins(false), mode);
      EndsHere(Apply(begun, ConvertEnds, mode), mode);
      StepBefore(begun, ConvertEnds, mode, false);
      StepBefore(s, ConvertBegins(false), mode, false);
    } else if s.hasError {
      TrustedMirrorEndsDown(Apply(s, Daily, mode), mode);
      StepBefore(s, Daily, mode, false);
    } else {
      EndsHere(s, mode);
    }
  }

  /** Nobody is left to bring the server up. */
  lemma ForgottenEndsDown(s: State, mode: Dedupe)
    requires s.site == Converted && IsOrderly(s) && IsMirrorTrue(s) && (!IsCaredFor(s) || !IsFollowed(s))
    ensures CanEndDown(s, mode)
    decreases s.convert == Finishing, s.stop != NoStop
  {
    if s.convert == Finishing {
      ForgottenEndsDown(Apply(s, ConvertEnds, mode), mode);
      StepBefore(s, ConvertEnds, mode, false);
    } else if s.stop == StopQueued {
      ForgottenEndsDown(Apply(s, StopBegins, mode), mode);
      StepBefore(s, StopBegins, mode, false);
    } else if s.stop.Closing? {
      ForgottenEndsDown(Apply(s, StopEnds, mode), mode);
      StepBefore(s, StopEnds, mode, false);
    } else {
      EndsHere(s, mode);
    }
  }

  /** A step of a good state makes a bad end possible if and only if it is unclean. */
  lemma StepEndsDownIff(s: State, e: Event, mode: Dedupe)
    requires Inv(s) && Enabled(s, e)
    ensures CanEndDown(Apply(s, e, mode), mode) <==> !IsClean(s, e, mode)
  {
    StepKeepsIff(s, e, mode);
    EndsDownIff(Apply(s, e, mode), mode);
  }

  /** The stop job's last step on a site it found paid, with its server down: its request must not be dropped while the
      conversion job is past its decision. */
  lemma ReloadKeepsIff(s: State, mode: Dedupe)
    requires Inv(s) && s.stop.Closing? && s.stop.isPaid && s.site == Converted
    ensures !CanEndDown(Apply(s, StopEnds, mode), mode) <==>
            (mode == DropIfQueued || s.isUp || s.isConvertQueued || s.convert != Finishing)
  {
    StepEndsDownIff(s, StopEnds, mode);
  }

  /** A stop job that breaks off: the server must be up, or the mirror down and a conversion job past its decision
      followed by another. */
  lemma BreakOffKeepsIff(s: State, mode: Dedupe)
    requires Inv(s) && s.stop.IsRunning()
    ensures !CanEndDown(Apply(s, StopFails, mode), mode) <==>
            s.isUp || (!s.mirrorUp && (s.convert == Finishing ==> s.isConvertQueued))
  {
    StepEndsDownIff(s, StopFails, mode);
  }

  /** A report, or a reading recorded late: one that says up must meet a server that is up, or a stop job that has yet
      to record it down. */
  lemma ReportKeepsIff(s: State, k: nat, wasUp: bool, mode: Dedupe)
    requires Inv(s) && Enabled(s, Report(k)) && Enabled(s, Record(wasUp))
    ensures !CanEndDown(Apply(s, Report(k), mode), mode) <==> (s.reports[k] ==> s.isUp || WillLook(s))
    ensures !CanEndDown(Apply(s, Record(wasUp), mode), mode) <==> (wasUp ==> s.isUp || WillLook(s))
  {
    StepEndsDownIff(s, Report(k), mode);
    StepEndsDownIff(s, Record(wasUp), mode);
  }

  /** A conversion that begins on a mirror that says up: the server must be up, or the stop job still ask for another.
      */
  lemma BeginKeepsIff(s: State, mode: Dedupe)
    requires Inv(s) && Enabled(s, ConvertBegins(false)) && s.site == Converted && s.mirrorUp
    ensures !CanEndDown(Apply(s, ConvertBegins(false), mode), mode) <==> s.isUp || WillAsk(s)
  {
    StepEndsDownIff(s, ConvertBegins(false), mode);
  }

  /** A conversion job that sent its start sends none until another job begins. */
  lemma {:induction false} NoSecondStart(states: seq<State>, events: seq<Event>, mode: Dedupe, i: nat, n: nat)
    requires IsRun(states, events, mode) && i < n <= |events| && events[i] == ConvertSendsStart
    requires forall k :: i < k < n ==> !events[k].ConvertBegins?
    ensures states[n].convert != Raising(false)
    decreases n
  {
    if n > i + 1 {
      NoSecondStart(states, events, mode, i, n - 1);
      OnlyBeginsRaise(states[n - 1], events[n - 1], mode);
    }
  }

  lemma OnlyBeginsRaise(s: State, e: Event, mode: Dedupe)
    requires Enabled(s, e) && !e.ConvertBegins? && s.convert != Raising(false)
    ensures Apply(s, e, mode).convert != Raising(false)
  {
    if IsStopStep(e) {
      assert Apply(s, e, mode).convert == s.convert;
    }
  }

  /** In every run each conversion job tells the region to start the server once at most. */
  lemma StartSentOnce(states: seq<State>, events: seq<Event>, mode: Dedupe, i: nat, j: nat)
    requires IsRun(states, events, mode) && i < j < |events|
    requires events[i] == ConvertSendsStart && events[j] == ConvertSendsStart
    ensures exists k :: i < k < j && events[k].ConvertBegins?
  {
    assert Enabled(states[j], events[j]);
    if forall k :: i < k < j ==> !events[k].ConvertBegins? {
      NoSecondStart(states, events, mode, i, j);
    }
  }

  // ---------------------------------------------------------------- the server does come up

  /** How far the stop job still has to go. */
  function StopRank(stop: StopJob): nat
  {
    match stop
    case Starting => 5
    case Stopping => 4
    case Looking => 3
    case Noting(_) => 2
    case Closing(_, _) => 1
    case StopQueued => 1
    case NoStop => 0
  }

  /** The other half of `PaidSiteIsUp`: from every state that keeps the invariant, clean steps lead a paid site to a
      server that is up with all jobs drained. The conversion job at work ends, or fails where the stop job overtook it;
      the stop job ends and hands the site on; and the conversion that follows starts the server. */
  lemma {:induction false} PaidSiteComesUp(s: State, mode: Dedupe)
    requires Inv(s) && s.site == Converted
    ensures CanEnd(s, mode, true)
    decreases s.convert != NoConvert, StopRank(s.stop), !s.isConvertQueued, 2
  {
    if s.convert != NoConvert {
      ConversionEnds(s, mode);
    } else if s.stop == NoStop {
      NextConversionComesUp(s, mode);
    } else if s.stop.Closing? && s.hasError && !s.isConvertQueued {
      GoesOn(s, Daily, mode);
    } else if s.stop == Starting || s.stop == Stopping {
      CommandGoesOn(s, mode);
    } else {
      GoesOn(s, NextStop(s.stop), mode);
    }
  }

  function NextStop(stop: StopJob): Event
    requires stop != NoStop
  {
    match stop
    case StopQueued => StopBegins
    case Starting => StopSeesUp
    case Stopping => StopSeesDown
    case Looking => StopLooks
    case Noting(_) => StopReloads
    case Closing(_, _) => StopEnds
  }

  /** A command to the region, and the poll that sees it done. */
  lemma CommandGoesOn(s: State, mode: Dedupe)
    requires Inv(s) && s.site == Converted && s.convert == NoConvert && (s.stop == Starting || s.stop == Stopping)
    ensures CanEnd(s, mode, true)
    decreases s.convert != NoConvert, StopRank(s.stop), !s.isConvertQueued, 1
  {
    var e := if s.stop == Starting then StopSendsStart else StopSendsStop;
    StepKeepsIff(s, e, mode);
    GoesOn(Apply(s, e, mode), NextStop(s.stop), mode);
    StepBefore(s, e, mode, true);
  }

  /** One clean step nearer. */
  lemma GoesOn(s: State, e: Event, mode: Dedupe)
    requires Inv(s) && s.site == Converted && Enabled(s, e) && IsClean(s, e, mode)
    requires s.convert == NoConvert && Apply(s, e, mode).convert == NoConvert && Apply(s, e, mode).site == Converted
    requires StopRank(Apply(s, e, mode).stop) < StopRank(s.stop)
             || (Apply(s, e, mode).stop == s.stop && !s.isConvertQueued && Apply(s, e, mode).isConvertQueued)
    ensures CanEnd(s, mode, true)
    decreases s.convert != NoConvert, StopRank(s.stop), !s.isConvertQueued, 0
  {
    StepKeepsIff(s, e, mode);
    PaidSiteComesUp(Apply(s, e, mode), mode);
    StepBefore(s, e, mode, true);
  }

  lemma ConversionEnds(s: State, mode: Dedupe)
    requires Inv(s) && s.site == Converted && s.convert != NoConvert
    ensures CanEnd(s, mode, true)
    decreases s.convert != NoConvert, StopRank(s.stop), !s.isConvertQueued, 0
  {
    if s.convert.Raising? && s.isUp {
      var seen := Apply(s, ConvertSeesUp, mode);
      StepKeepsIff(s, ConvertSeesUp, mode);
      StepKeepsIff(seen, ConvertEnds, mode);
      PaidSiteComesUp(Apply(seen, ConvertEnds, mode), mode);
      StepBefore(seen, ConvertEnds, mode, true);
      StepBefore(s, ConvertSeesUp, mode, true);
    } else {
      var e := if s.convert == Finishing then ConvertEnds else ConvertFails;
      StepKeepsIff(s, e, mode);
      PaidSiteComesUp(Apply(s, e, mode), mode);
      StepBefore(s, e, mode, true);
    }
  }

  /** No job is at work: the queued conversion starts the server, or the daily job asks for one where an error asks it
      to, or the server is up. */
  lemma NextConversionComesUp(s: State, mode: Dedupe)
    requires Inv(s) && s.site == Converted && s.convert == NoConvert && s.stop == NoStop
    ensures CanEnd(s, mode, true)
    decreases !s.isConvertQueued
  {
    if s.isConvertQueued {
      var begun := Apply(s, ConvertBegins(false), mode);
      if s.mirrorUp {
        EndsHere(Apply(begun, ConvertEnds, mode), mode);
        StepBefore(begun, ConvertEnds, mode, true);
      } else {
        RaisedComesUp(begun, mode);
      }
      StepBefore(s, ConvertBegins(false), mode, true);
    } else if s.hasError {
      StepKeepsIff(s, Daily, mode);
      NextConversionComesUp(Apply(s, Daily, mode), mode);
      StepBefore(s, Daily, mode, true);
    } else {
      EndsHere(s, mode);
    }
  }

  lemma RaisedComesUp(s: State, mode: Dedupe)
    requires s.site == Converted && s.convert == Raising(false) && s.stop == NoStop && !s.isConvertQueued
    ensures CanEnd(s, mode, true)
  {
    var told := Apply(s, ConvertSendsStart, mode);
    var seen := Apply(told, ConvertSeesUp, mode);
    EndsHere(Apply(seen, ConvertEnds, mode), mode);
    StepBefore(seen, ConvertEnds, mode, true);
    StepBefore(told, ConvertSeesUp, mode, true);
    StepBefore(s, ConvertSendsStart, mode, true);
  }

  /** A stop job that nothing disturbs stops the server of an ended trial and records it. */
  lemma StopAlone(s: State, mode: Dedupe) returns (states: seq<State>, events: seq<Event>)
    requires s.site == Ended && s.stop == StopQueued
    ensures IsRun(states, events, mode) && HasNoFailure(events) && states[0] == s
    ensures var last := states[|events|];
            last == s.(isUp := false, mirrorUp := false, stop := NoStop, hasError := false,
                       reports := s.reports + [true] + [false])
  {
    var begun := Apply(s, StopBegins, mode);
    var told := Apply(begun, StopSendsStart, mode);
    var up := Apply(told, StopSeesUp, mode);
    assert up == s.(isUp := true, stop := Stopping, reports := s.reports + [true]);
    states, events := [s, begun, told, up], [StopBegins, StopSendsStart, StopSeesUp];
    var more, later := StopTakesEffect(up, mode);
    states, events := Join(states, events, more, later, mode);
  }

  lemma StopTakesEffect(s: State, mode: Dedupe) returns (states: seq<State>, events: seq<Event>)
    requires s.site == Ended && s.stop == Stopping
    ensures IsRun(states, events, mode) && HasNoFailure(events) && states[0] == s
    ensures states[|events|] ==
            s.(isUp := false, mirrorUp := false, stop := NoStop, hasError := false, reports := s.reports + [false])
  {
    var told := Apply(s, StopSendsStop, mode);
    var down := Apply(told, StopSeesDown, mode);
    assert down == s.(isUp := false, stop := Looking, reports := s.reports + [false]);
    states, events := [s, told, down], [StopSendsStop, StopSeesDown];
    var more, later := StopIsRecorded(down, mode);
    states, events := Join(states, events, more, later, mode);
  }

  lemma StopIsRecorded(s: State, mode: Dedupe) returns (states: seq<State>, events: seq<Event>)
    requires s.site == Ended && s.stop == Looking
    ensures IsRun(states, events, mode) && HasNoFailure(events) && states[0] == s
    ensures states[|events|] == s.(mirrorUp := s.isUp, stop := NoStop, hasError := false)
  {
    var noted := Apply(s, StopLooks, mode);
    var closing := Apply(noted, StopReloads, mode);
    assert closing == s.(stop := Closing(s.isUp, false));
    states := [s, noted, closing, Apply(closing, StopEnds, mode)];
    events := [StopLooks, StopReloads, StopEnds];
  }

  /** A conversion job that runs alone brings the server up if and only if it is up or the mirror says it
      is not: it never asks the region before it decides. */
  lemma ConvertAloneIff(s: State)
    requires s.site == Converted && s.isConvertQueued && s.convert == NoConvert && !s.stop.IsRunning()
    ensures ConvertAlone(s).isUp <==> s.isUp || !s.mirrorUp
    ensures IsDrained(ConvertAlone(s)) <==> s.stop == NoStop
  {
  }

  function ConvertAlone(s: State): State
    requires s.site == Converted && s.isConvertQueued && s.convert == NoConvert
  {
    var begun := Apply(s, ConvertBegins(false), DropIfQueued);
    var raised := if begun.convert == Finishing then begun
                  else Apply(Apply(begun, ConvertSendsStart, DropIfQueued), ConvertSeesUp, DropIfQueued);
    Apply(raised, ConvertEnds, DropIfQueued)
  }

  // ---------------------------------------------------------------- the failures, step by step

  predicate IsFailure(e: Event)
  {
    e == StopFails || e == StopDies || e == ConvertFails || e == ConvertDies
  }

  /** No job failed or died. */
  predicate HasNoFailure(events: seq<Event>)
  {
    forall i :: 0 <= i < |events| ==> !IsFailure(events[i])
  }

  /** One run after another. */
  lemma Join(states: seq<State>, events: seq<Event>, more: seq<State>, later: seq<Event>, mode: Dedupe)
    returns (all: seq<State>, allEvents: seq<Event>)
    requires IsRun(states, events, mode) && IsRun(more, later, mode) && states[|events|] == more[0]
    ensures IsRun(all, allEvents, mode) && all[0] == states[0] && all[|allEvents|] == more[|later|]
    ensures HasNoFailure(allEvents) <==> HasNoFailure(events) && HasNoFailure(later)
  {
    all, allEvents := states[..|events|] + more, events + later;
    forall i | 0 <= i < |allEvents|
      ensures Enabled(all[i], allEvents[i]) && all[i + 1] == Apply(all[i], allEvents[i], mode)
    {
      if i < |events| {
        assert all[i] == states[i] && all[i + 1] == states[i + 1] && allEvents[i] == events[i];
      } else {
        assert all[i] == more[i - |events|] && all[i + 1] == more[i - |events| + 1];
        assert allEvents[i] == later[i - |events|];
      }
    }
    assert forall i :: 0 <= i < |events| ==> allEvents[i] == events[i];
    assert forall i :: 0 <= i < |later| ==> allEvents[|events| + i] == later[i];
  }

  /** A run from a fresh trial ends with all jobs drained and the paid server down. */
  ghost predicate LeavesSiteDown(states: seq<State>, events: seq<Event>, mode: Dedupe)
  {
    IsRun(states, events, mode) && Init(states[0]) && IsPaidAndDown(states[|events|])
  }

  /** The stop job has the server up, and is about to stop it. */
  function AboutToStop(): State
  {
    State(Ended, true, true, Stopping, NoConvert, false, false, [true], 0, multiset{})
  }

  lemma StopReachesServer(mode: Dedupe) returns (states: seq<State>, events: seq<Event>)
    ensures IsRun(states, events, mode) && Init(states[0]) && states[|events|] == AboutToStop()
    ensures HasNoFailure(events)
  {
    var first := State(Active, true, true, NoStop, NoConvert, false, false, [], 0, multiset{});
    var ended := Apply(first, EndTrial, mode);
    var begun := Apply(ended, StopBegins, mode);
    var started := Apply(begun, StopSendsStart, mode);
    var up := Apply(started, StopSeesUp, mode);
    assert up == AboutToStop();
    states, events := [first, ended, begun, started, up], [EndTrial, StopBegins, StopSendsStart, StopSeesUp];
  }

  /** The payment arrived while the stop job had the server up, and the conversion job decided on the mirror, which
      still showed it up. Then the stop took effect. */
  function Overtaken(): State
  {
    State(Converted, false, true, Stopping, Finishing, false, false, [true, false], 0, multiset{})
  }

  lemma StopOvertakesDecision(mode: Dedupe) returns (states: seq<State>, events: seq<Event>)
    ensures IsRun(states, events, mode) && Init(states[0]) && states[|events|] == Overtaken()
    ensures HasNoFailure(events)
  {
    states, events := StopReachesServer(mode);
    var paid := Apply(AboutToStop(), Convert, mode);
    var begun := Apply(paid, ConvertBegins(false), mode);
    var stopped := Apply(begun, StopSendsStop, mode);
    assert stopped == Overtaken();
    var more := [AboutToStop(), paid, begun, stopped];
    states, events := Join(states, events, more, [Convert, ConvertBegins(false), StopSendsStop], mode);
  }

  /** The stop job read the server and the site and ended, with the conversion job past its decision. */
  function EndedAfterDecision(mode: Dedupe): State
  {
    State(Converted, false, false, NoStop, Finishing, mode == DropIfQueued, false, [true, false], 0, multiset{})
  }

  lemma StopFindsSitePaid(mode: Dedupe) returns (states: seq<State>, events: seq<Event>)
    ensures IsRun(states, events, mode) && HasNoFailure(events)
    ensures states[0] == Overtaken() && states[|events|] == Overtaken().(stop := Closing(false, true))
  {
    var seen := Apply(Overtaken(), StopSeesDown, mode);
    var noted := Apply(seen, StopLooks, mode);
    var closing := Apply(noted, StopReloads, mode);
    assert closing == Overtaken().(stop := Closing(false, true));
    states, events := [Overtaken(), seen, noted, closing], [StopSeesDown, StopLooks, StopReloads];
  }

  lemma StopEndsAfterDecision(mode: Dedupe) returns (states: seq<State>, events: seq<Event>)
    ensures IsRun(states, events, mode) && Init(states[0]) && states[|events|] == EndedAfterDecision(mode)
    ensures HasNoFailure(events)
  {
    states, events := StopOvertakesDecision(mode);
    var more, later := StopFindsSitePaid(mode);
    states, events := Join(states, events, more, later, mode);
    var closing := Overtaken().(stop := Closing(false, true));
    var ended := Apply(closing, StopEnds, mode);
    assert ended == EndedAfterDecision(mode);
    states, events := Join(states, events, [closing, ended], [StopEnds], mode);
  }

  /** With a queue that also drops while a job runs, the stop job's request is lost and the paid site
      stays down, although no step failed. */
  lemma DroppedRequestLeavesSiteDown() returns (states: seq<State>, events: seq<Event>)
    ensures LeavesSiteDown(states, events, DropIfQueuedOrRunning) && HasNoFailure(events)
  {
    var mode := DropIfQueuedOrRunning;
    states, events := StopEndsAfterDecision(mode);
    var s := EndedAfterDecision(mode);
    states, events := Join(states, events, [s, Apply(s, ConvertEnds, mode)], [ConvertEnds], mode);
  }

  /** With either queue, a stop job that breaks off after its stop took effect leaves the paid site down:
      the conversion job that ends later clears the error the daily job would have retried on. */
  lemma BrokenStopLeavesSiteDown(mode: Dedupe) returns (states: seq<State>, events: seq<Event>)
    ensures LeavesSiteDown(states, events, mode)
  {
    states, events := StopOvertakesDecision(mode);
    var failed := Apply(Overtaken(), StopFails, mode);
    var more := [Overtaken(), failed, Apply(failed, ConvertEnds, mode)];
    states, events := Join(states, events, more, [StopFails, ConvertEnds], mode);
  }

  /** With either queue: the report of the stop job's own start is applied after the stop job ended, the conversion job
      past its decision fails, and the one the daily job asks for trusts the mirror. */
  lemma FailedConversionLeavesSiteDown(mode: Dedupe) returns (states: seq<State>, events: seq<Event>)
    ensures LeavesSiteDown(states, events, mode)
  {
    states, events := StopEndsAfterDecision(mode);
    var reported := Apply(EndedAfterDecision(mode), Report(0), mode);
    var failed := Apply(reported, ConvertFails, mode);
    var more := [EndedAfterDecision(mode), reported, failed];
    states, events := Join(states, events, more, [Report(0), ConvertFails], mode);
    var later;
    more, later := NextConversionTrustsMirror(failed, mode);
    states, events := Join(states, events, more, later, mode);
  }

  /** The daily job asks for a conversion, which trusts the mirror and clears the error. */
  lemma NextConversionTrustsMirror(s: State, mode: Dedupe) returns (states: seq<State>, events: seq<Event>)
    requires s.site == Converted && !s.isUp && s.mirrorUp && s.stop == NoStop && s.convert == NoConvert
    requires s.hasError || s.isConvertQueued
    ensures IsRun(states, events, mode) && HasNoFailure(events)
    ensures states[0] == s && IsPaidAndDown(states[|events|])
  {
    var asked := Apply(s, Daily, mode);
    var begun := Apply(asked, ConvertBegins(false), mode);
    states, events := [s, asked, begun, Apply(begun, ConvertEnds, mode)], [Daily, ConvertBegins(false), ConvertEnds];
  }

  /** The stop job has read the server down and the site unpaid, and has not committed yet. */
  function AboutToCommit(): State
  {
    State(Ended, false, true, Closing(false, false), NoConvert, false, false, [true, false], 0, multiset{})
  }

  lemma StopIsClosing(mode: Dedupe) returns (states: seq<State>, events: seq<Event>)
    ensures IsRun(states, events, mode) && Init(states[0]) && states[|events|] == AboutToCommit()
    ensures HasNoFailure(events)
  {
    states, events := StopReachesServer(mode);
    var stopped := Apply(AboutToStop(), StopSendsStop, mode);
    var seen := Apply(stopped, StopSeesDown, mode);
    var noted := Apply(seen, StopLooks, mode);
    var closing := Apply(noted, StopReloads, mode);
    assert closing == AboutToCommit();
    var more := [AboutToStop(), stopped, seen, noted, closing];
    states, events := Join(states, events, more, [StopSendsStop, StopSeesDown, StopLooks, StopReloads], mode);
  }

  /** With either queue and no failure: the report of the stop job's own start is applied after its record, the
      conversion job trusts it, and the paid site stays down. */
  lemma LateReportLeavesSiteDown(mode: Dedupe) returns (states: seq<State>, events: seq<Event>)
    ensures LeavesSiteDown(states, events, mode) && HasNoFailure(events)
  {
    states, events := StopIsClosing(mode);
    var ended := Apply(AboutToCommit(), StopEnds, mode);
    var reported := Apply(ended, Report(0), mode);
    var paid := Apply(reported, Convert, mode);
    var more := [AboutToCommit(), ended, reported, paid];
    states, events := Join(states, events, more, [StopEnds, Report(0), Convert], mode);
    var later;
    more, later := NextConversionTrustsMirror(paid, mode);
    states, events := Join(states, events, more, later, mode);
  }

  /** With either queue and no failure: the payment and the conversion job's decision fall between the stop job's last
      look at the site and its commit. */
  lemma PaymentAtCommitLeavesSiteDown(mode: Dedupe) returns (states: seq<State>, events: seq<Event>)
    ensures LeavesSiteDown(states, events, mode) && HasNoFailure(events)
  {
    states, events := StopIsClosing(mode);
    var paid := Apply(AboutToCommit(), Convert, mode);
    var begun := Apply(paid, ConvertBegins(false), mode);
    var ended := Apply(begun, StopEnds, mode);
    var more := [AboutToCommit(), paid, begun, ended, Apply(ended, ConvertEnds, mode)];
    states, events := Join(states, events, more, [Convert, ConvertBegins(false), StopEnds, ConvertEnds], mode);
  }

  // ---------------------------------------------------------------- the site's own fields

  /** The Site record with its two jobs, updated in place. */
  class TrialSite {
    const mode: Dedupe
    var site: SiteState
    var isUp: bool
    var mirrorUp: bool
    var stop: StopJob
    var convert: ConvertJob
    var isConvertQueued: bool
    var hasError: bool
    var reports: seq<bool>
    var applied: nat
    var readings: multiset<bool>

    ghost function Abs(): State
      reads this
    {
      State(site, isUp, mirrorUp, stop, convert, isConvertQueued, hasError, reports, applied, readings)
    }

    constructor (mode: Dedupe)
      ensures Init(Abs()) && Inv(Abs()) && this.mode == mode
    {
      this.mode := mode;
      site, isUp, mirrorUp, stop, convert := Active, true, true, NoStop, NoConvert;
      isConvertQueued, hasError, reports, applied, readings := false, false, [], 0, multiset{};
    }

    method EnqueueConversion()
      modifies this`isConvertQueued
      ensures Abs() == QueueConvert(old(Abs()), mode)
    {
      if mode == DropIfQueued || convert == NoConvert {
        isConvertQueued := true;
      }
    }

    /** `Trial.end` */
    method End()
      requires Inv(Abs()) && Enabled(Abs(), EndTrial)
      modifies this
      ensures Abs() == Apply(old(Abs()), EndTrial, mode) && Inv(Abs())
    {
      StepKeepsIff(Abs(), EndTrial, mode);
      site := Ended;
      hasError := false;
      if stop == NoStop {
        stop := StopQueued;
      }
    }

    /** `Trial.convert` */
    method ConvertPaid()
      requires Inv(Abs()) && Enabled(Abs(), Convert)
      modifies this
      ensures Abs() == Apply(old(Abs()), Convert, mode) && Inv(Abs())
    {
      StepKeepsIff(Abs(), Convert, mode);
      site := Converted;
      hasError := false;
      EnqueueConversion();
    }

    /** `Trial.stop_server` up to its first regional call: only an ended trial is stopped. */
    method BeginStop()
      requires Inv(Abs()) && Enabled(Abs(), StopBegins)
      modifies this
      ensures Abs() == Apply(old(Abs()), StopBegins, mode) && Inv(Abs())
    {
      StepKeepsIff(Abs(), StopBegins, mode);
      if site == Ended {
        stop := Starting;
      } else {
        stop := NoStop;
      }
    }

    /** `Trial.stop_server` after the server was held stopped: the site is read again. */
    method ReloadSite()
      requires Inv(Abs()) && Enabled(Abs(), StopReloads)
      modifies this`stop
      ensures Abs() == Apply(old(Abs()), StopReloads, mode) && Inv(Abs())
    {
      StepKeepsIff(Abs(), StopReloads, mode);
      stop := Closing(stop.saw, site == Converted);
    }

    /** The end of `Trial.stop_server`, and its commit. */
    method EndStop()
      requires Inv(Abs()) && Enabled(Abs(), StopEnds)
      modifies this
      ensures Abs() == Apply(old(Abs()), StopEnds, mode)
      ensures old(IsClean(Abs(), StopEnds, mode)) <==> Inv(Abs())
    {
      StepKeepsIff(Abs(), StopEnds, mode);
      var isPaid := stop.isPaid;
      mirrorUp := stop.saw;
      stop := NoStop;
      if isPaid {
        EnqueueConversion();
      } else {
        hasError := false;
      }
    }

    /** `Trial.finish_conversion` up to its first regional call. */
    method BeginConversion(isBlocked: bool)
      requires Inv(Abs()) && Enabled(Abs(), ConvertBegins(isBlocked))
      modifies this
      ensures Abs() == Apply(old(Abs()), ConvertBegins(isBlocked), mode)
      ensures old(IsClean(Abs(), ConvertBegins(isBlocked), mode)) <==> Inv(Abs())
    {
      StepKeepsIff(Abs(), ConvertBegins(isBlocked), mode);
      isConvertQueued := false;
      if site != Converted {
        return;
      }
      if isBlocked {
        hasError := true;
        return;
      }
      if mirrorUp {
        convert := Finishing;
      } else {
        convert := Raising(false);
      }
    }

    /** The end of `Trial.finish_conversion`: the server was observed, or anything failed before. */
    method EndConversion(isOk: bool)
      requires Inv(Abs()) && Enabled(Abs(), if isOk then ConvertEnds else ConvertFails)
      modifies this
      ensures Abs() == Apply(old(Abs()), if isOk then ConvertEnds else ConvertFails, mode) && Inv(Abs())
    {
      StepKeepsIff(Abs(), if isOk then ConvertEnds else ConvertFails, mode);
      convert := NoConvert;
      if isOk {
        mirrorUp := isUp;
      }
      hasError := !isOk;
    }
  }
}
