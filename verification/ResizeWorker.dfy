/** The resize as the code runs it: one attempt in sequence, and the poll that waits for a power state. */
module ResizeWorker {
  import opened Base
  import opened ResizeReplay

  /** What one poll of the region reports. */
  datatype Reading = On | Off | Asleep | Migrating | Starting

  predicate IsSettled(reading: Reading)
  {
    reading != Migrating && reading != Starting
  }

  /** One of the first `n` polls reported the goal. */
  predicate IsSeen(readings: seq<Reading>, goal: Reading, n: nat)
  {
    exists i :: 0 <= i < n && i < |readings| && readings[i] == goal
  }

  /**
   Poll until the machine is in `goal`, with one power command on the way. `readings` is what the polls
   report until the deadline.

   1. The wait succeeds exactly when some poll reports the goal.
   2. A command goes out at most once, at the first settled reading, and never while the machine migrates
      or starts, and never to a machine that was at its goal at or before that poll.
   */
  method WaitForPowerState(readings: seq<Reading>, goal: Reading) returns (isReached: bool, sentAt: Option<nat>)
    ensures isReached <==> goal in readings
    ensures sentAt.Some? ==>
              && sentAt.value < |readings| && IsSettled(readings[sentAt.value])
              && !IsSeen(readings, goal, sentAt.value + 1)
              && forall i :: 0 <= i < sentAt.value ==> !IsSettled(readings[i])
    ensures sentAt == None ==>
              forall i :: 0 <= i < |readings| && !IsSeen(readings, goal, i + 1) ==> !IsSettled(readings[i])
  {
    var polls := 0;
    sentAt := None;
    while polls < |readings|
      invariant 0 <= polls <= |readings|
      invariant !IsSeen(readings, goal, polls)
      invariant sentAt == None ==> forall i :: 0 <= i < polls ==> !IsSettled(readings[i])
      invariant sentAt.Some? ==>
                  && sentAt.value < polls && IsSettled(readings[sentAt.value])
                  && !IsSeen(readings, goal, sentAt.value + 1)
                  && forall i :: 0 <= i < sentAt.value ==> !IsSettled(readings[i])
    {
      if readings[polls] == goal {
        isReached := true;
        return;
      }
      if sentAt == None && IsSettled(readings[polls]) {
        sentAt := Some(polls);
      }
      polls := polls + 1;
    }
    isReached := false;
  }

  /** How a call, or the part of the resize that made it, ended. */
  datatype CallResult = Done | Rejected | Lost

  function ResultOf(a: Answer): CallResult
  {
    match a
    case Agrees => Done
    case NoAnswer => Lost
    case _ => Rejected
  }

  /** `j` without the power at the attempt's read, which only the attempt itself remembers. */
  function Plain(j: Job): Job
  {
    j.(original := Running)
  }

  /** The attempt goes on at `k`, or ended with the result. */
  predicate GoesOn(j: Job, k: Job, r: Request, answers: Pc -> Answer, result: CallResult)
  {
    Plain(Attempt(j, r, answers)) ==
    match result
    case Done => Plain(Attempt(k, r, answers))
    case Rejected => Plain(Fail(k))
    case Lost => Plain(k.(status := Uncertain, pc := Entry))
  }

  class Worker {
    const request: Request
    var status: Status
    var mirror: Shape
    var vm: Vm
    var segments: seq<Segment>

    function At(pc: Pc, original: Power): Job
      reads this
    {
      Job(status, mirror, vm, segments, pc, original)
    }

    function Abs(): Job
      reads this
    {
      At(Entry, Running)
    }

    /** `wait_for_power_state`: one command at most. A poll can still be refused after it worked. */
    method WaitFor(power: Power, answer: Answer) returns (result: CallResult)
      modifies this`vm
      ensures result == ResultOf(answer)
      ensures vm == if answer in {Agrees, RefusesLate} then old(vm).(power := power) else old(vm)
    {
      if answer == Agrees || answer == RefusesLate {
        vm := vm.(power := power);
      }
      result := ResultOf(answer);
    }

    /** The stop and the reshape, and the restart after a refused one. */
    method Reshape(original: Power, answers: Pc -> Answer) returns (result: CallResult)
      requires vm.power == original
      modifies this`vm
      ensures GoesOn(old(At(if original == Paused then Waking else Halting, original)), At(Raising, original), request,
                     answers, result)
      ensures result == Done ==> vm == old(vm).(shape := request.target, power := Stopped, sleeps := false)
      ensures result != Done ==> vm == old(vm).(power := vm.power)
      ensures result == Done <==> (original == Paused ==> answers(Waking) == Agrees)
                                  && answers(Halting) == Agrees && answers(Reshaping) == Agrees
    {
      if original == Paused {
        result := WaitFor(Running, answers(Waking));
        if result != Done {
          return;
        }
      }
      result := HaltAndReshape(original, answers);
    }

    method HaltAndReshape(original: Power, answers: Pc -> Answer) returns (result: CallResult)
      modifies this`vm
      ensures GoesOn(old(At(Halting, original)), At(Raising, original), request, answers, result)
      ensures result == Done ==> vm == old(vm).(shape := request.target, power := Stopped, sleeps := false)
      ensures result != Done ==> vm == old(vm).(power := vm.power)
      ensures result == Done <==> answers(Halting) == Agrees && answers(Reshaping) == Agrees
    {
      ghost var halting := At(Halting, original);
      result := WaitFor(Stopped, answers(Halting));
      if result != Done {
        return;
      }
      assert Attempt(halting, request, answers) == Attempt(At(Reshaping, original), request, answers);
      result := TryShape(original, answers);
    }

    /** The reshape. On a refusal the region kept the old shape, and the power comes back before it is reported. */
    method TryShape(original: Power, answers: Pc -> Answer) returns (result: CallResult)
      modifies this`vm
      ensures GoesOn(old(At(Reshaping, original)), At(Raising, original), request, answers, result)
      ensures vm == if result == Done then old(vm).(shape := request.target, sleeps := false)
                    else old(vm).(power := vm.power)
      ensures result == Done <==> answers(Reshaping) == Agrees
    {
      ghost var reshaping := At(Reshaping, original);
      match answers(Reshaping) {
        case Agrees =>
          vm := vm.(shape := request.target, sleeps := false);
          result := Done;
        case NoAnswer =>
          result := Lost;
        case _ =>
          FromRefusedReshape(reshaping, request, answers);
          result := Rejected;
          if original != Stopped {
            result := WaitFor(Running, answers(Restoring));
            result := if result == Lost then Lost else Rejected;
          }
      }
    }

    /** The disk and the idle sleep of a server that is not reshaped. */
    method Grow(original: Power, answers: Pc -> Answer) returns (result: CallResult)
      requires !IsReshaping(vm, request.target)
      modifies this`vm
      ensures GoesOn(old(if request.target.disk > vm.shape.disk then At(Growing, original)
                         else Grown(At(Growing, original))), At(Raising, original), request, answers, result)
      ensures vm == old(vm).(shape := old(vm.shape).(disk := vm.shape.disk), sleeps := vm.sleeps)
      ensures vm.shape.disk == (if answers(Growing) == Agrees then Max(old(vm.shape.disk), request.target.disk)
                                else old(vm.shape.disk))
      ensures result == Done ==> !vm.sleeps && request.target.disk <= vm.shape.disk
    {
      if request.target.disk > vm.shape.disk {
        ghost var growing := At(Growing, original);
        result := ResultOf(answers(Growing));
        if result != Done {
          return;
        }
        vm := vm.(shape := vm.shape.(disk := request.target.disk));
        assert Attempt(growing, request, answers) == Attempt(Grown(At(Growing, original)), request, answers);
      }
      result := StayAwake(original, answers);
    }

    /** The idle sleep is turned off. */
    method StayAwake(original: Power, answers: Pc -> Answer) returns (result: CallResult)
      modifies this`vm
      ensures GoesOn(old(Grown(At(Growing, original))), At(Raising, original), request, answers, result)
      ensures vm == old(vm).(sleeps := vm.sleeps) && (result == Done ==> !vm.sleeps)
    {
      if !vm.sleeps {
        return Done;
      }
      result := ResultOf(answers(Unsleeping));
      if result == Done {
        vm := vm.(sleeps := false);
      }
    }

    /** `resize_server`: refuse rescue mode, reshape through a stop or grow in place, start, observe. Any of its calls
        can be refused. The shape is the new one exactly when the call that sets it was reached and agreed to, however
        the rest ended. */
    method ResizeServer(answers: Pc -> Answer) returns (result: CallResult)
      modifies this`vm, this`mirror
      ensures GoesOn(old(At(Deciding, Running)), At(Checking, Running), request, answers, result)
      ensures answers(Deciding) == Agrees && IsBlockedByRescue(old(vm), request.target) ==>
                result == Rejected && vm == old(vm)
      ensures result == Done ==>
                && vm == old(vm).(power := Running, sleeps := false, shape := vm.shape) && mirror == vm.shape
                && vm.shape == if IsReshaping(old(vm), request.target) then request.target
                               else old(vm.shape).(disk := Max(old(vm.shape.disk), request.target.disk))
      ensures result != Done ==> mirror == old(mirror)
      ensures vm.shape != old(vm.shape) <==>
                && answers(Deciding) == Agrees && !IsBlockedByRescue(old(vm), request.target)
                && if IsReshaping(old(vm), request.target)
                   then (old(vm.power) == Paused ==> answers(Waking) == Agrees)
                        && answers(Halting) == Agrees && answers(Reshaping) == Agrees
                   else request.target.disk > old(vm.shape.disk) && answers(Growing) == Agrees
    {
      ghost var deciding := At(Deciding, Running);
      result := ResultOf(answers(Deciding));
      if result != Done {
        return;
      }
      var remote := vm;
      if IsBlockedByRescue(remote, request.target) {
        return Rejected;
      }
      ghost var decided := Decide(deciding, request);
      assert Attempt(deciding, request, answers) == Attempt(decided, request, answers);
      if IsReshaping(remote, request.target) {
        result := Reshape(remote.power, answers);
      } else {
        result := Grow(remote.power, answers);
      }
      if result != Done {
        return;
      }
      result := Raise(remote.power, answers);
    }

    /** The start and the observation at the end. */
    method Raise(original: Power, answers: Pc -> Answer) returns (result: CallResult)
      modifies this`vm, this`mirror
      ensures GoesOn(old(At(Raising, original)), At(Checking, Running), request, answers, result)
      ensures vm == old(vm).(power := vm.power)
      ensures result == Done ==> vm.power == Running && mirror == vm.shape
      ensures result != Done ==> mirror == old(mirror)
    {
      ghost var raising := At(Raising, original);
      result := WaitFor(Running, answers(Raising));
      if result != Done {
        return;
      }
      ghost var looking := At(Looking, original);
      assert Attempt(raising, request, answers) == Attempt(looking, request, answers);
      result := ResultOf(answers(Looking));
      if result != Done {
        return;
      }
      mirror := vm.shape;
      assert Attempt(looking, request, answers) == Attempt(At(Checking, original), request, answers);
      OriginalIsForgotten(At(Checking, original), request, answers);
      OriginalIsForgotten(At(Checking, Running), request, answers);
    }

    /** `apply_resize_billing` */
    method ApplyBilling()
      modifies this`segments
      ensures segments == Billed(old(segments), request)
    {
      if request.hasSubscription && (segments == [] || segments[|segments| - 1].Cancelled?) {
        return;
      }
      if LastPlan(segments) == Some(request.plan) {
        return;
      }
      segments := segments + [Opened(request.plan)];
    }

    /** The end of an attempt: the observed shape is checked, and billed when it is the target. */
    method Conclude(answers: Pc -> Answer)
      modifies this`status, this`segments
      ensures Abs() == Plain(Attempt(old(At(Checking, Running)), request, answers))
    {
      OriginalIsForgotten(At(Checking, Running), request, answers);
      if mirror != request.target {
        status := Uncertain;
        return;
      }
      status := Sent;
      if answers(Billing) == Agrees {
        ApplyBilling();
        status := Succeeded;
      }
    }

    /** From the mirror just read on: resize unless it matches, and conclude. */
    method ResizeAndBill(answers: Pc -> Answer)
      modifies this
      ensures Abs() == Plain(Attempt(old(Begin(Abs(), request)), request, answers))
    {
      if !request.hasSubscription || mirror != request.target {
        var result := ResizeServer(answers);
        if result != Done {
          status := if result == Lost then Uncertain else Failed;
          return;
        }
      }
      Conclude(answers);
    }

    /** `process_resize`, one attempt that no crash interrupts, however its calls are answered. */
    method ProcessResize(answers: Pc -> Answer)
      modifies this
      ensures old(status).IsTerminal() ==> Abs() == old(Abs())
      ensures !old(status).IsTerminal() ==> Abs() == Plain(Attempt(old(Abs()), request, answers))
      ensures (forall pc :: answers(pc) == Agrees) && !old(status).IsTerminal() && CanReach(old(vm), request.target) ==>
                Abs() == Plain(Outcome(old(Abs()), request))
    {
      ghost var start := Abs();
      if status.IsTerminal() {
        return;
      }
      AgreedIsOutcome(start, request, answers);
      if answers(Entry) != Agrees {
        status := Failed;
        return;
      }
      if status == Queued {
        status := Dispatching;
      } else {
        if answers(Reading) != Agrees {
          status := if answers(Reading) == NoAnswer then Uncertain else Failed;
          return;
        }
        mirror := vm.shape;
      }
      ghost var ready := Begin(Abs(), request);
      assert Attempt(start, request, answers) == Attempt(ready, request, answers) by {
        assert start.status != Queued ==> Step(start, request, true) == start.(pc := Reading);
      }
      ResizeAndBill(answers);
    }
  }

  lemma AgreedIsOutcome(j: Job, r: Request, answers: Pc -> Answer)
    requires j.pc == Entry && !j.status.IsTerminal()
    ensures CanReach(j.vm, r.target) && (forall pc :: answers(pc) == Agrees) ==>
              Attempt(j, r, answers) == Outcome(j, r)
  {
    if CanReach(j.vm, r.target) && forall pc :: answers(pc) == Agrees {
      AttemptConverges(j, r);
      SameAnswers(j, r, answers, Agreeing());
    }
  }

  lemma {:induction false} SameAnswers(j: Job, r: Request, answers: Pc -> Answer, others: Pc -> Answer)
    requires forall pc :: answers(pc) == others(pc)
    ensures Attempt(j, r, answers) == Attempt(j, r, others)
    decreases Rank(j.pc)
  {
    var k := Apply(j, r, EventAt(j.pc, answers(j.pc)));
    if k.pc != Entry {
      SameAnswers(k, r, answers, others);
    }
  }

  /** Behind the last power command nothing depends on the power the attempt read. */
  lemma OriginalIsForgotten(j: Job, r: Request, answers: Pc -> Answer)
    requires j.pc == Checking
    ensures Plain(Attempt(j, r, answers)) ==
            if j.mirror != r.target then Plain(j.(status := Uncertain, pc := Entry))
            else if answers(Billing) == Agrees then
              Plain(j.(status := Succeeded, segments := Billed(j.segments, r), pc := Entry))
            else Plain(j.(status := Sent, pc := Entry))
  {
    var billing := Step(j, r, true);
    assert billing.pc == Billing ==> Attempt(j, r, answers) == Attempt(billing, r, answers);
  }
}
