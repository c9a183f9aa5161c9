/**
 One durable resize: it may stop at any point and be run again, and every call sets absolute values.
 `Advance` is one step between two points where a crash can separate it from the next.
 */
module ResizeReplay {
  import opened Base

  datatype Shape = Shape(cpu: nat, memory: nat, disk: nat)

  datatype Power = Running | Stopped | Paused

  datatype Vm = Vm(shape: Shape, power: Power, isRescueSelected: bool, isInRescue: bool, sleeps: bool)

  datatype Status = Queued | Dispatching | Sent | Uncertain | Succeeded | Failed
  {
    predicate IsTerminal() { Succeeded? || Failed? }
  }

  /** What bills the server: each entry opens a segment on a configuration, or closes the open one. */
  datatype Segment = Opened(plan: nat) | Cancelled

  /** The saved request. A converted trial's move names no subscription. */
  datatype Request = Request(target: Shape, plan: nat, hasSubscription: bool)

  datatype Pc =
    | Entry | Reading | Deciding | Waking | Halting | Reshaping | Restoring
    | Growing | Unsleeping | Raising | Looking | Checking | Billing

  /** `mirror` is the shape Central last observed. `original` is the power at the read that began the
      attempt. The last two and the pc are lost in a crash. */
  datatype Job = Job(status: Status, mirror: Shape, vm: Vm, segments: seq<Segment>, pc: Pc, original: Power)

  datatype Event =
    | Advance(isOk: bool)   // the call is answered; `isOk` is whether the region or billing agrees
    | RefusedLate           // a power command worked, and a later poll of it is refused
    | Unanswered            // a regional call fails: the attempt ends Uncertain
    | Crash
    | Close                 // the subscription that bills the server is cancelled

  // ---------------------------------------------------------------- one attempt, step by step

  predicate NeedsResize(j: Job, r: Request)
  {
    !r.hasSubscription || j.mirror != r.target
  }

  predicate IsReshaping(vm: Vm, target: Shape)
  {
    vm.shape.cpu != target.cpu || vm.shape.memory != target.memory
  }

  predicate IsBlockedByRescue(vm: Vm, target: Shape)
  {
    (IsReshaping(vm, target) && (vm.isRescueSelected || vm.isInRescue)) || (vm.isInRescue && vm.sleeps)
  }

  predicate IsOpen(segments: seq<Segment>)
  {
    segments != [] && segments[|segments| - 1].Opened?
  }

  /** The plan the subscription is on, running or ended. */
  function LastPlan(segments: seq<Segment>): Option<nat>
  {
    if segments == [] then None
    else
      var last := segments[|segments| - 1];
      if last.Opened? then Some(last.plan) else LastPlan(segments[..|segments| - 1])
  }

  /** What `apply_resize_billing` leaves. A subscription that closed meanwhile is skipped in silence. A move without one
      finds or opens the server's own, and only another plan, or a new subscription, opens a segment. */
  function Billed(segments: seq<Segment>, r: Request): (billed: seq<Segment>)
    ensures billed == segments || billed == segments + [Opened(r.plan)]
  {
    if r.hasSubscription && !IsOpen(segments) then segments
    else if LastPlan(segments) == Some(r.plan) then segments
    else segments + [Opened(r.plan)]
  }

  function Fail(j: Job): Job
  {
    j.(status := Failed, pc := Entry)
  }

  /** The mirror is read, and the region only when it does not match. */
  function Begin(j: Job, r: Request): Job
  {
    j.(pc := if NeedsResize(j, r) then Deciding else Checking)
  }

  /** What the machine just read calls for first. */
  function Decide(j: Job, r: Request): Job
  {
    var read := j.(original := j.vm.power);
    if IsBlockedByRescue(j.vm, r.target) then Fail(j)
    else if IsReshaping(j.vm, r.target) then read.(pc := if j.vm.power == Paused then Waking else Halting)
    else if r.target.disk > j.vm.shape.disk then read.(pc := Growing)
    else Grown(read)
  }

  function Grown(j: Job): Job
  {
    j.(pc := if j.vm.sleeps then Unsleeping else Raising)
  }

  function PowerTo(j: Job, power: Power): Job
  {
    j.(vm := j.vm.(power := power))
  }

  /** Any regional call can be refused in so many words, and what is refused has no effect. */
  function Step(j: Job, r: Request, isOk: bool): Job
  {
    match j.pc
    case Entry =>
      if j.status.IsTerminal() then j
      else if !isOk then Fail(j)       // the server changed hands, or the requester lost the capability
      else if j.status == Queued then Begin(j.(status := Dispatching), r)
      else j.(pc := Reading)
    case Reading => if isOk then Begin(j.(mirror := j.vm.shape), r) else Fail(j)
    case Deciding => if isOk then Decide(j, r) else Fail(j)
    case Waking => if isOk then PowerTo(j, Running).(pc := Halting) else Fail(j)
    case Halting => if isOk then PowerTo(j, Stopped).(pc := Reshaping) else Fail(j)
    case Reshaping =>
      // On a refusal the region kept the old shape, and the power comes back before the refusal is reported.
      if isOk then j.(vm := j.vm.(shape := r.target, sleeps := false), pc := Raising)
      else if j.original == Stopped then Fail(j)
      else j.(pc := Restoring)
    case Restoring => Fail(if isOk then PowerTo(j, Running) else j)
    case Growing => if isOk then Grown(j.(vm := j.vm.(shape := j.vm.shape.(disk := r.target.disk)))) else Fail(j)
    case Unsleeping => if isOk then j.(vm := j.vm.(sleeps := false), pc := Raising) else Fail(j)
    case Raising => if isOk then PowerTo(j, Running).(pc := Looking) else Fail(j)
    case Looking => if isOk then j.(mirror := j.vm.shape, pc := Checking) else Fail(j)
    case Checking =>
      if j.mirror == r.target then j.(status := Sent, pc := Billing) else j.(status := Uncertain, pc := Entry)
    case Billing =>
      if isOk then j.(segments := Billed(j.segments, r), status := Succeeded, pc := Entry)
      else j.(status := Sent, pc := Entry)
  }

  /** What one answered call does, without the names of the steps. Nobody refused anything: only the call itself changes
      the machine, and only a read the mirror. */
  lemma AgreedStep(j: Job, r: Request)
    requires !j.status.IsTerminal()
    ensures Step(j, r, true).vm ==
            match j.pc
            case Waking | Restoring | Raising => j.vm.(power := Running)
            case Halting => j.vm.(power := Stopped)
            case Reshaping => j.vm.(shape := r.target, sleeps := false)
            case Growing => j.vm.(shape := j.vm.shape.(disk := r.target.disk))
            case Unsleeping => j.vm.(sleeps := false)
            case _ => j.vm
    ensures Step(j, r, true).mirror == if j.pc in {Reading, Looking} then j.vm.shape else j.mirror
    ensures j.pc != Billing ==> Step(j, r, true).segments == j.segments
    ensures Step(j, r, true).status == Succeeded <==> j.pc == Billing
  {
  }

  /** A refusal changes nothing there, and fails the resize wherever it comes, but at a read already made, at the
      billing, which is asked again, and where a refused reshape first brings the power back. */
  lemma RefusedStep(j: Job, r: Request)
    requires !j.status.IsTerminal() && j.pc != Checking
    ensures var k := Step(j, r, false);
            && k.vm == j.vm && k.segments == j.segments && k.mirror == j.mirror
            && (k.status == Failed <==> j.pc != Billing && (j.pc == Reshaping ==> j.original == Stopped))
            && (j.pc == Billing ==> k.status == Sent && k.pc == Entry)
            && (j.pc == Reshaping && j.original != Stopped ==> k.pc == Restoring && k.status == j.status)
  {
  }

  /** What the machine just read is sent through. A rescue blocks a change of processors or memory, selected or running,
      and anything else only while the machine runs it asleep. */
  lemma DecidesExactly(j: Job, r: Request)
    requires j.pc == Deciding && !j.status.IsTerminal()
    ensures var k := Step(j, r, true);
            var isReshape := j.vm.shape.cpu != r.target.cpu || j.vm.shape.memory != r.target.memory;
            var isBlocked := (isReshape && (j.vm.isRescueSelected || j.vm.isInRescue))
                             || (j.vm.isInRescue && j.vm.sleeps);
            && (k.status == Failed <==> isBlocked)
            && (!isBlocked ==>
                  && k.original == j.vm.power && k.status == j.status
                  && k.pc == if isReshape then (if j.vm.power == Paused then Waking else Halting)
                             else if r.target.disk > j.vm.shape.disk then Growing
                             else if j.vm.sleeps then Unsleeping else Raising)
  {
  }

  predicate IsRegional(pc: Pc)
  {
    pc != Entry && pc != Checking && pc != Billing
  }

  /** The calls that wait for a power state: a command, and polls before and after it. */
  predicate IsPowerWait(pc: Pc)
  {
    pc == Waking || pc == Halting || pc == Restoring || pc == Raising
  }

  function Closed(segments: seq<Segment>): seq<Segment>
  {
    if IsOpen(segments) then segments + [Cancelled] else segments
  }

  function Apply(j: Job, r: Request, e: Event): Job
  {
    match e
    case Advance(isOk) => Step(j, r, isOk)
    case RefusedLate => if IsPowerWait(j.pc) then Fail(Step(j, r, true)) else j
    case Unanswered => if IsRegional(j.pc) then j.(status := Uncertain, pc := Entry) else j
    case Crash => j.(pc := Entry)
    case Close => j.(segments := Closed(j.segments))
  }

  function Run(j: Job, r: Request, events: seq<Event>): Job
  {
    if events == [] then j else Apply(Run(j, r, events[..|events| - 1]), r, events[|events| - 1])
  }

  predicate IsFresh(j: Job)
  {
    j.status == Queued && j.pc == Entry
  }

  // ---------------------------------------------------------------- what every run keeps

  /** The state after the first `n` events. */
  function At(j0: Job, r: Request, events: seq<Event>, n: nat): Job
    requires n <= |events|
  {
    Run(j0, r, events[..n])
  }

  lemma NextAt(j0: Job, r: Request, events: seq<Event>, n: nat)
    requires n < |events|
    ensures At(j0, r, events, n + 1) == Apply(At(j0, r, events, n), r, events[n])
  {
    assert events[..n + 1][..n] == events[..n];
  }

  /** Nothing changed yet, or the whole shape was set, or, where that was the target's but for the disk, it was grown.
      */
  predicate IsShapeOnTheWay(shape: Shape, was: Vm, target: Shape)
  {
    || shape == was.shape
    || shape == if IsReshaping(was, target) then target
                else was.shape.(disk := Max(was.shape.disk, target.disk))
  }

  predicate IsUnbilled(segments: seq<Segment>, was: seq<Segment>)
  {
    segments == was || segments == Closed(was)
  }

  /** What is billed and recorded; `j0` is the job when it was queued. */
  predicate BillInv(j: Job, j0: Job, r: Request)
  {
    && (j.status != Succeeded ==> IsUnbilled(j.segments, j0.segments))
    && (j.status == Succeeded || j.pc == Billing ==> j.mirror == r.target)
    && (j.pc == Billing ==> j.status == Sent)
    && (j.status.IsTerminal() || j.status == Queued ==> j.pc == Entry)
  }

  /** What the machine may look like. */
  predicate ShapeInv(j: Job, j0: Job, r: Request)
  {
    && IsShapeOnTheWay(j.vm.shape, j0.vm, r.target)
    && IsShapeAtPc(j, r)
    && (j.vm.shape != j0.vm.shape ==> !IsReshaping(j.vm, r.target))
    && j.vm.isInRescue == j0.vm.isInRescue && j.vm.isRescueSelected == j0.vm.isRescueSelected
    && (j.status.IsTerminal() || j.status == Queued ==> j.pc == Entry)
    && (j.status == Queued ==> j.vm == j0.vm)
  }

  predicate IsShapeAtPc(j: Job, r: Request)
  {
    match j.pc
    case Waking => IsReshaping(j.vm, r.target)
    case Halting => IsReshaping(j.vm, r.target)
    case Reshaping => IsReshaping(j.vm, r.target) && j.vm.power == Stopped
    case Restoring => IsReshaping(j.vm, r.target) && j.vm.power == Stopped
    case Growing => !IsReshaping(j.vm, r.target) && r.target.disk > j.vm.shape.disk
    case Unsleeping => IsThere(j.vm, r.target)
    case Raising => IsThere(j.vm, r.target)
    case Looking => IsThere(j.vm, r.target) && j.vm.power == Running
    case _ => true
  }

  /** Nothing is left to reshape or to grow. */
  predicate IsThere(vm: Vm, target: Shape)
  {
    !IsReshaping(vm, target) && target.disk <= vm.shape.disk
  }

  lemma StepKeepsShape(j: Job, j0: Job, r: Request, isOk: bool)
    requires ShapeInv(j, j0, r)
    ensures ShapeInv(Step(j, r, isOk), j0, r)
  {
    var k := Step(j, r, isOk);
    match j.pc
    case Deciding => assert k.vm == j.vm;
    case Reshaping => assert isOk ==> k.vm.shape == r.target;
    case Growing =>
    case _ => assert k.vm.shape == j.vm.shape;
  }

  lemma StepKeepsBill(j: Job, j0: Job, r: Request, isOk: bool)
    requires BillInv(j, j0, r)
    ensures BillInv(Step(j, r, isOk), j0, r)
  {
  }

  lemma ApplyKeeps(j: Job, j0: Job, r: Request, e: Event)
    requires BillInv(j, j0, r) && ShapeInv(j, j0, r)
    ensures BillInv(Apply(j, r, e), j0, r) && ShapeInv(Apply(j, r, e), j0, r)
  {
    if e.Advance? || e.RefusedLate? {
      StepKeepsBill(j, j0, r, e == Advance(true) || e.RefusedLate?);
      StepKeepsShape(j, j0, r, e == Advance(true) || e.RefusedLate?);
    }
  }

  lemma {:induction false} RunKeeps(j0: Job, r: Request, events: seq<Event>)
    requires IsFresh(j0)
    ensures BillInv(Run(j0, r, events), j0, r) && ShapeInv(Run(j0, r, events), j0, r)
  {
    if events != [] {
      RunKeeps(j0, r, events[..|events| - 1]);
      ApplyKeeps(Run(j0, r, events[..|events| - 1]), j0, r, events[|events| - 1]);
    }
  }

  // ---------------------------------------------------------------- billing

  /** Event `b` bills the resize and ends it well. */
  predicate IsBilledAt(j0: Job, r: Request, events: seq<Event>, b: nat)
  {
    && b < |events| && events[b] == Advance(true)
    && At(j0, r, events, b).pc == Billing && At(j0, r, events, b).status == Sent
    && At(j0, r, events, b).mirror == r.target
    && At(j0, r, events, b + 1).segments == Billed(At(j0, r, events, b).segments, r)
    && At(j0, r, events, b + 1).status == Succeeded
  }

  lemma {:induction false} FindBilling(j0: Job, r: Request, events: seq<Event>, n: nat) returns (b: nat)
    requires IsFresh(j0) && n <= |events| && At(j0, r, events, n).status == Succeeded
    ensures b < n && IsBilledAt(j0, r, events, b)
    decreases n
  {
    assert n > 0 by {
      assert events[..0] == [];
    }
    NextAt(j0, r, events, n - 1);
    if At(j0, r, events, n - 1).status == Succeeded {
      b := FindBilling(j0, r, events, n - 1);
    } else {
      RunKeeps(j0, r, events[..n - 1]);
      b := n - 1;
    }
  }

  /** Someone cancelled the subscription between the two. */
  predicate IsClosedBetween(events: seq<Event>, m: nat, n: nat)
    requires n <= |events|
  {
    exists i :: m <= i < n && events[i] == Close
  }

  function Since(j: Job, isClosed: bool): Job
  {
    if isClosed then j.(segments := Closed(j.segments)) else j
  }

  lemma FinishedStep(j0: Job, r: Request, events: seq<Event>, n: nat, j: Job, isClosed: bool)
    requires n < |events| && j.status.IsTerminal() && j.pc == Entry && At(j0, r, events, n) == Since(j, isClosed)
    ensures At(j0, r, events, n + 1) == Since(j, isClosed || events[n] == Close)
  {
    NextAt(j0, r, events, n);
  }

  lemma FinishedIsIdle(j0: Job, r: Request, events: seq<Event>, m: nat)
    requires IsFresh(j0) && m <= |events| && At(j0, r, events, m).status.IsTerminal()
    ensures At(j0, r, events, m).pc == Entry
  {
    RunKeeps(j0, r, events[..m]);
  }

  /** Once a job is finished only its subscription can still change. */
  lemma {:induction false} FinishedStays(j0: Job, r: Request, events: seq<Event>, m: nat, n: nat)
    requires IsFresh(j0) && m <= n <= |events| && At(j0, r, events, m).status.IsTerminal()
    ensures At(j0, r, events, n) == Since(At(j0, r, events, m), IsClosedBetween(events, m, n))
    decreases n
  {
    if m < n {
      FinishedStays(j0, r, events, m, n - 1);
      FinishedIsIdle(j0, r, events, m);
      FinishedStep(j0, r, events, n - 1, At(j0, r, events, m), IsClosedBetween(events, m, n - 1));
      assert IsClosedBetween(events, m, n) <==> IsClosedBetween(events, m, n - 1) || events[n - 1] == Close;
    }
  }

  lemma BilledOnce(j0: Job, r: Request, events: seq<Event>, b: nat, c: nat)
    requires IsFresh(j0) && IsBilledAt(j0, r, events, b) && IsBilledAt(j0, r, events, c)
    ensures b == c
  {
    if b < c {
      FinishedStays(j0, r, events, b + 1, c);
    } else if c < b {
      FinishedStays(j0, r, events, c + 1, b);
    }
  }

  /** Over every run, with crashes, refusals and unanswered calls anywhere: success means that the observed shape was
      the target when the resize was billed, and that it was billed in one step and never again; a job that has not
      succeeded has billed nothing. */
  lemma SucceededMeansApplied(j0: Job, r: Request, events: seq<Event>)
    requires IsFresh(j0)
    ensures var j := Run(j0, r, events);
            && (j.status == Succeeded ==> j.mirror == r.target && exists b :: IsBilledAt(j0, r, events, b))
            && (j.status != Succeeded ==> IsUnbilled(j.segments, j0.segments))
    ensures forall b, c :: IsBilledAt(j0, r, events, b) && IsBilledAt(j0, r, events, c) ==> b == c
  {
    RunKeeps(j0, r, events);
    assert events[..|events|] == events;
    if Run(j0, r, events).status == Succeeded {
      var b := FindBilling(j0, r, events, |events|);
    }
    forall b: nat, c: nat | IsBilledAt(j0, r, events, b) && IsBilledAt(j0, r, events, c) ensures b == c {
      BilledOnce(j0, r, events, b, c);
    }
  }

  /** After success the open segment is the target's if and only if no cancellation came later, and, when the resize was
      billed, the subscription was open, or none is named and the server's own did not end on the very plan the resize
      moves to: that one is enabled again and bills nothing. */
  lemma SegmentIsTargetIff(j0: Job, r: Request, events: seq<Event>, b: nat)
    requires IsFresh(j0) && IsBilledAt(j0, r, events, b)
    ensures var segments, before := Run(j0, r, events).segments, At(j0, r, events, b).segments;
            (IsOpen(segments) && segments[|segments| - 1].plan == r.plan) <==>
            (IsOpen(before) || (!r.hasSubscription && LastPlan(before) != Some(r.plan)))
            && !IsClosedBetween(events, b + 1, |events|)
  {
    assert events[..|events|] == events;
    FinishedStays(j0, r, events, b + 1, |events|);
    BilledIsTargetIff(At(j0, r, events, b).segments, r);
  }

  /** What the billing leaves open, and what a cancellation makes of it. */
  lemma BilledIsTargetIff(before: seq<Segment>, r: Request)
    ensures var after := Billed(before, r);
            && (IsOpen(after) && after[|after| - 1].plan == r.plan <==>
                  IsOpen(before) || (!r.hasSubscription && LastPlan(before) != Some(r.plan)))
            && !IsOpen(Closed(after))
  {
  }

  // ---------------------------------------------------------------- what a refusal leaves

  /** The event reshapes the machine or grows its disk. */
  predicate TakesEffect(j: Job, r: Request, e: Event)
  {
    e == Advance(true) && (j.pc == Reshaping || j.pc == Growing)
  }

  /** One of the first `n` events does. */
  predicate HasTakenEffect(j0: Job, r: Request, events: seq<Event>, n: nat)
    requires n <= |events|
  {
    exists i :: 0 <= i < n && TakesEffect(At(j0, r, events, i), r, events[i])
  }

  lemma {:induction false} ShapeMovesIff(j0: Job, r: Request, events: seq<Event>, n: nat)
    requires IsFresh(j0) && n <= |events|
    ensures At(j0, r, events, n).vm.shape != j0.vm.shape <==> HasTakenEffect(j0, r, events, n)
    decreases n
  {
    if n == 0 {
      assert events[..0] == [];
    } else {
      ShapeMovesIff(j0, r, events, n - 1);
      NextAt(j0, r, events, n - 1);
      RunKeeps(j0, r, events[..n - 1]);
      OneMoveIff(At(j0, r, events, n - 1), j0, r, events[n - 1]);
      assert HasTakenEffect(j0, r, events, n) <==>
             HasTakenEffect(j0, r, events, n - 1) || TakesEffect(At(j0, r, events, n - 1), r, events[n - 1]);
    }
  }

  lemma OneMoveIff(j: Job, j0: Job, r: Request, e: Event)
    requires ShapeInv(j, j0, r)
    ensures Apply(j, r, e).vm.shape != j0.vm.shape <==> j.vm.shape != j0.vm.shape || TakesEffect(j, r, e)
  {
    if TakesEffect(j, r, e) {
      assert j.vm.shape == j0.vm.shape;
    } else {
      assert Apply(j, r, e).vm.shape == j.vm.shape;
    }
  }

  /** Event `f` fails the job. */
  predicate FailsAt(j0: Job, r: Request, events: seq<Event>, f: nat)
  {
    f < |events| && !At(j0, r, events, f).status.IsTerminal() && At(j0, r, events, f + 1).status == Failed
  }

  lemma {:induction false} FindFailure(j0: Job, r: Request, events: seq<Event>, n: nat) returns (f: nat)
    requires IsFresh(j0) && n <= |events| && At(j0, r, events, n).status == Failed
    ensures f < n && FailsAt(j0, r, events, f)
    decreases n
  {
    assert n > 0 by {
      assert events[..0] == [];
    }
    NextAt(j0, r, events, n - 1);
    if At(j0, r, events, n - 1).status == Failed {
      f := FindFailure(j0, r, events, n - 1);
    } else {
      RunKeeps(j0, r, events[..n - 1]);
      f := n - 1;
    }
  }

  /** What the place of a refusal says of the shape. */
  lemma ShapeWhereRefused(j: Job, j0: Job, r: Request)
    requires ShapeInv(j, j0, r)
    ensures j.pc in {Waking, Halting, Reshaping, Restoring} ==> j.vm.shape == j0.vm.shape
    ensures j.pc in {Unsleeping, Raising, Looking} ==> (j.vm.shape == j0.vm.shape <==> IsThere(j0.vm, r.target))
  {
  }

  /** The failing step changed no shape, and nothing after it does. */
  lemma ShapeSinceFailure(j0: Job, r: Request, events: seq<Event>, f: nat)
    requires IsFresh(j0) && FailsAt(j0, r, events, f)
    ensures Run(j0, r, events).vm.shape == At(j0, r, events, f).vm.shape
  {
    assert events[..|events|] == events;
    FinishedStays(j0, r, events, f + 1, |events|);
    NextAt(j0, r, events, f);
    FailureMovesNothing(At(j0, r, events, f), r, events[f]);
  }

  /** A Failed resize was refused at one step, and kept the old shape if and only if no reshape and no disk growth took
      effect before that step. A refusal on the way to the reshape always kept it; one after the last change kept it if
      and only if there was nothing to change. Nothing is billed either way. */
  lemma RefusalKeepsShapeIff(j0: Job, r: Request, events: seq<Event>) returns (f: nat)
    requires IsFresh(j0) && Run(j0, r, events).status == Failed
    ensures FailsAt(j0, r, events, f) && IsUnbilled(Run(j0, r, events).segments, j0.segments)
    ensures Run(j0, r, events).vm.shape == j0.vm.shape <==> !HasTakenEffect(j0, r, events, f)
    ensures At(j0, r, events, f).pc in {Waking, Halting, Reshaping, Restoring} ==>
              Run(j0, r, events).vm.shape == j0.vm.shape
    ensures At(j0, r, events, f).pc in {Unsleeping, Raising, Looking} ==>
              (Run(j0, r, events).vm.shape == j0.vm.shape <==> IsThere(j0.vm, r.target))
  {
    f := WhereRefused(j0, r, events);
    RunKeeps(j0, r, events[..f]);
    ShapeSinceFailure(j0, r, events, f);
    ShapeMovesIff(j0, r, events, f);
    ShapeWhereRefused(At(j0, r, events, f), j0, r);
  }

  lemma WhereRefused(j0: Job, r: Request, events: seq<Event>) returns (f: nat)
    requires IsFresh(j0) && Run(j0, r, events).status == Failed
    ensures FailsAt(j0, r, events, f) && IsUnbilled(Run(j0, r, events).segments, j0.segments)
  {
    assert events[..|events|] == events;
    RunKeeps(j0, r, events);
    f := FindFailure(j0, r, events, |events|);
  }

  lemma FailureMovesNothing(j: Job, r: Request, e: Event)
    requires !j.status.IsTerminal() && Apply(j, r, e).status == Failed
    ensures Apply(j, r, e).vm.shape == j.vm.shape
  {
  }

  // ---------------------------------------------------------------- one attempt without a crash

  /** How a call is answered: by the region, by the permission and ownership checks, or by billing. */
  datatype Answer = Agrees | Refuses | RefusesLate | NoAnswer

  function EventAt(pc: Pc, a: Answer): Event
  {
    match a
    case Agrees => Advance(true)
    case Refuses => Advance(false)
    case RefusesLate => if IsPowerWait(pc) then RefusedLate else Advance(false)
    case NoAnswer => if IsRegional(pc) then Unanswered else Advance(false)
  }

  /** How far the attempt still has to go. */
  function Rank(pc: Pc): nat
  {
    match pc
    case Entry => 11
    case Reading => 10
    case Deciding => 9
    case Waking => 8
    case Halting => 7
    case Reshaping => 6
    case Restoring => 5
    case Growing => 5
    case Unsleeping => 4
    case Raising => 3
    case Looking => 2
    case Checking => 1
    case Billing => 0
  }

  /** One attempt from `j` on, each call answered as `answers` says, until it ends. */
  function Attempt(j: Job, r: Request, answers: Pc -> Answer): Job
    decreases Rank(j.pc)
  {
    var k := Apply(j, r, EventAt(j.pc, answers(j.pc)));
    if k.pc == Entry then k else Attempt(k, r, answers)
  }

  /** An attempt is a piece of a run. */
  lemma {:induction false} AttemptIsRun(j0: Job, r: Request, events: seq<Event>, answers: Pc -> Answer)
    returns (all: seq<Event>)
    ensures events <= all && Run(j0, r, all) == Attempt(Run(j0, r, events), r, answers)
    ensures forall i :: |events| <= i < |all| ==> all[i] != Crash && all[i] != Close
    decreases Rank(Run(j0, r, events).pc)
  {
    var j := Run(j0, r, events);
    var e := EventAt(j.pc, answers(j.pc));
    all := events + [e];
    assert all[..|events|] == events;
    if Run(j0, r, all).pc != Entry {
      all := AttemptIsRun(j0, r, all, answers);
    }
  }

  function Agreeing(): Pc -> Answer
  {
    _ => Agrees
  }

  /** The region can bring this machine to the target: no rescue mode in the way and no disk to shrink. */
  predicate CanReach(vm: Vm, target: Shape)
  {
    !vm.isInRescue && !vm.isRescueSelected && vm.shape.disk <= target.disk
  }

  /** What an uninterrupted attempt leaves, told from the state it starts in. */
  function Outcome(j: Job, r: Request): Job
    requires j.pc == Entry && !j.status.IsTerminal()
  {
    var read := if j.status == Queued then j else j.(mirror := j.vm.shape);
    var done := read.(status := Succeeded, segments := Billed(j.segments, r), pc := Entry);
    if !NeedsResize(read, r) then done
    else done.(vm := j.vm.(shape := r.target, power := Running, sleeps := false), mirror := r.target,
               original := j.vm.power)
  }

  lemma FromChecking(j: Job, r: Request)
    requires j.pc == Checking && j.mirror == r.target
    ensures Attempt(j, r, Agreeing()) == j.(status := Succeeded, segments := Billed(j.segments, r), pc := Entry)
  {
    var billing := Step(j, r, true);
    assert Attempt(j, r, Agreeing()) == Attempt(billing, r, Agreeing());
  }

  lemma FromRaising(j: Job, r: Request)
    requires j.pc == Raising && j.vm.shape == r.target
    ensures Attempt(j, r, Agreeing()) == j.(vm := j.vm.(power := Running), mirror := r.target, status := Succeeded,
                                            segments := Billed(j.segments, r), pc := Entry)
  {
    var looking := Step(j, r, true);
    var checking := Step(looking, r, true);
    assert Attempt(j, r, Agreeing()) == Attempt(looking, r, Agreeing()) == Attempt(checking, r, Agreeing());
    FromChecking(checking, r);
  }

  lemma FromHalting(j: Job, r: Request)
    requires j.pc == Halting
    ensures var shaped := j.(vm := j.vm.(shape := r.target, power := Stopped, sleeps := false), pc := Raising);
            Attempt(j, r, Agreeing()) == Attempt(shaped, r, Agreeing())
  {
    var halted := Step(j, r, true);
    assert Attempt(j, r, Agreeing()) == Attempt(halted, r, Agreeing()) == Attempt(Step(halted, r, true), r, Agreeing());
  }

  lemma FromDeciding(j: Job, r: Request)
    requires j.pc == Deciding && CanReach(j.vm, r.target)
    ensures Attempt(j, r, Agreeing()) ==
            j.(vm := j.vm.(shape := r.target, power := Running, sleeps := false), mirror := r.target,
               status := Succeeded, segments := Billed(j.segments, r), pc := Entry, original := j.vm.power)
  {
    var decided := Step(j, r, true);
    assert Attempt(j, r, Agreeing()) == Attempt(decided, r, Agreeing());
    if !IsReshaping(j.vm, r.target) {
      var grown := if decided.pc == Growing then Step(decided, r, true) else decided;
      var awake := if grown.pc == Unsleeping then Step(grown, r, true) else grown;
      assert Attempt(decided, r, Agreeing()) == Attempt(grown, r, Agreeing()) == Attempt(awake, r, Agreeing());
      FromRaising(awake, r);
    } else {
      var halting := if decided.pc == Waking then Step(decided, r, true) else decided;
      assert Attempt(decided, r, Agreeing()) == Attempt(halting, r, Agreeing());
      FromHalting(halting, r);
      FromRaising(halting.(vm := halting.vm.(shape := r.target, power := Stopped, sleeps := false), pc := Raising), r);
    }
  }

  // ---------------------------------------------------------------- replay converges

  /** From any job that is not finished, wherever earlier attempts crashed, one uninterrupted attempt with a
      cooperative region succeeds and leaves exactly `Outcome`. */
  lemma AttemptConverges(j: Job, r: Request)
    requires j.pc == Entry && !j.status.IsTerminal() && CanReach(j.vm, r.target)
    ensures Attempt(j, r, Agreeing()) == Outcome(j, r)
  {
    var begun := Step(j, r, true);
    var ready := if j.status == Queued then begun else Step(begun, r, true);
    assert Attempt(j, r, Agreeing()) == Attempt(begun, r, Agreeing()) == Attempt(ready, r, Agreeing());
    if ready.pc == Deciding {
      FromDeciding(ready, r);
    } else {
      FromChecking(ready, r);
    }
  }

  /** The shape the last attempt decides on: what Central remembers on the first dispatch, what the region
      reports afterwards. */
  function DecidingShape(j: Job): Shape
  {
    if j.status == Queued then j.mirror else j.vm.shape
  }

  /** A run that crashed can be taken up again. */
  lemma CrashedCanReplay(j0: Job, r: Request, events: seq<Event>)
    requires IsFresh(j0) && CanReach(j0.vm, r.target) && !Run(j0, r, events).status.IsTerminal()
    ensures var crashed := Run(j0, r, events + [Crash]);
            crashed.pc == Entry && !crashed.status.IsTerminal() && CanReach(crashed.vm, r.target)
  {
    var all := events + [Crash];
    assert all[..|all| - 1] == events;
    RunKeeps(j0, r, all);
  }

  /**
   Replay, with its exact condition. After any run of crashes and unanswered calls that did not end the job, an
   uninterrupted attempt with a cooperative region succeeds. It leaves the machine running if and only if the request
   names no subscription, or the shape it decides on is not the target yet, or the machine runs already.
   */
  lemma ReplayConverges(j0: Job, r: Request, events: seq<Event>)
    requires IsFresh(j0) && CanReach(j0.vm, r.target)
    requires !Run(j0, r, events).status.IsTerminal()
    ensures var crashed := Run(j0, r, events + [Crash]);
            var j := Attempt(crashed, r, Agreeing());
            && j.status == Succeeded && j.mirror == r.target
            && (crashed.status != Queued || crashed.mirror != r.target ==> j.vm.shape == r.target)
            && (j.vm.power == Running <==>
                  !r.hasSubscription || DecidingShape(crashed) != r.target || crashed.vm.power == Running)
  {
    var crashed := Run(j0, r, events + [Crash]);
    CrashedCanReplay(j0, r, events);
    AttemptConverges(crashed, r);
  }

  lemma ReshapedByFirstAttempt() returns (j0: Job, r: Request, events: seq<Event>)
    ensures IsFresh(j0) && j0.vm.power == Running && CanReach(j0.vm, r.target) && r.hasSubscription
    ensures IsOpen(j0.segments) && j0.vm.shape != r.target
    ensures Run(j0, r, events) ==
            j0.(status := Dispatching, pc := Raising, vm := j0.vm.(shape := r.target, power := Stopped))
  {
    var small, big := Shape(1, 1, 10), Shape(2, 2, 10);
    j0 := Job(Queued, small, Vm(small, Running, false, false, false), [Opened(1)], Entry, Running);
    r := Request(big, 2, true);
    events := [];
    var j1 := RunThen(j0, r, events, Advance(true));
    assert j1 == j0.(status := Dispatching, pc := Deciding);
    events := events + [Advance(true)];
    var j2 := RunThen(j0, r, events, Advance(true));
    assert j2 == j1.(pc := Halting);
    events := events + [Advance(true)];
    var j3 := RunThen(j0, r, events, Advance(true));
    assert j3 == j2.(pc := Reshaping, vm := j0.vm.(power := Stopped));
    events := events + [Advance(true)];
    var j4 := RunThen(j0, r, events, Advance(true));
    assert j4 == j3.(pc := Raising, vm := j0.vm.(shape := big, power := Stopped));
    events := events + [Advance(true)];
  }

  /** The case that fails: a crash between the reshape and the start. The replay finds the target shape,
      skips the start, and the resize of a running server succeeds with the server stopped. */
  lemma CrashAfterReshapeLeavesStopped() returns (j0: Job, r: Request, events: seq<Event>)
    ensures IsFresh(j0) && j0.vm.power == Running && CanReach(j0.vm, r.target)
    ensures var j := Attempt(Run(j0, r, events), r, Agreeing());
            j.status == Succeeded && j.vm.shape == r.target && j.vm.power == Stopped
  {
    j0, r, events := ReshapedByFirstAttempt();
    var crashed := RunThen(j0, r, events, Crash);
    events := events + [Crash];
    AttemptConverges(crashed, r);
  }

  /** The region reshapes a running server and refuses to start it: the resize is Failed, at the new shape, with the
      server stopped and the old plan still billed. */
  lemma RefusedStartLeavesNewShape() returns (j0: Job, r: Request, events: seq<Event>)
    ensures IsFresh(j0) && j0.vm.power == Running && j0.vm.shape != r.target && IsOpen(j0.segments)
    ensures var j := Run(j0, r, events);
            j.status == Failed && j.vm.shape == r.target && j.vm.power == Stopped && j.segments == j0.segments
  {
    j0, r, events := ReshapedByFirstAttempt();
    var _ := RunThen(j0, r, events, Advance(false));
    events := events + [Advance(false)];
  }

  lemma RunThen(j0: Job, r: Request, events: seq<Event>, e: Event) returns (j: Job)
    ensures j == Run(j0, r, events + [e]) == Apply(Run(j0, r, events), r, e)
  {
    assert (events + [e])[..|events|] == events;
    j := Run(j0, r, events + [e]);
  }

  /** After a refused reshape the machine runs again if and only if it was not stopped when this attempt read it and
      the restart worked, whatever else became of it: an earlier attempt that crashed after its stop leaves a machine
      that is not started again, and so does a refused or unanswered start. Only the last leaves the resize open. */
  lemma RefusalRestoresPowerIff(j: Job, r: Request, answers: Pc -> Answer)
    requires j.pc == Deciding && IsReshaping(j.vm, r.target) && !IsBlockedByRescue(j.vm, r.target)
    requires answers(Deciding) == answers(Waking) == answers(Halting) == Agrees
    requires answers(Reshaping) in {Refuses, RefusesLate}
    ensures var k := Attempt(j, r, answers);
            && k.status == (if j.vm.power != Stopped && answers(Restoring) == NoAnswer then Uncertain else Failed)
            && k.vm.shape == j.vm.shape && k.segments == j.segments
            && (k.vm.power == Running <==> j.vm.power != Stopped && answers(Restoring) in {Agrees, RefusesLate})
  {
    var decided := Step(j, r, true);
    var halting := if decided.pc == Waking then Step(decided, r, true) else decided;
    var halted := Step(halting, r, true);
    assert Attempt(j, r, answers) == Attempt(decided, r, answers) == Attempt(halting, r, answers);
    assert Attempt(halting, r, answers) == Attempt(halted, r, answers);
    FromRefusedReshape(halted, r, answers);
  }

  lemma FromRefusedReshape(j: Job, r: Request, answers: Pc -> Answer)
    requires j.pc == Reshaping && answers(Reshaping) in {Refuses, RefusesLate}
    ensures var restores := j.original != Stopped && answers(Restoring) in {Agrees, RefusesLate};
            Attempt(j, r, answers) ==
            j.(pc := Entry, vm := if restores then j.vm.(power := Running) else j.vm,
               status := if j.original != Stopped && answers(Restoring) == NoAnswer then Uncertain else Failed)
  {
    var refused := Step(j, r, false);
    assert refused.pc == Restoring ==> Attempt(j, r, answers) == Attempt(refused, r, answers);
  }
}
