/**
 The single authority for billing status moves: every move follows an edge of the document's machine and appends
 one event, so a document's events are a walk along its machine's edges.
 */
module BillingStates {
  import opened Base

  datatype Doctype = Invoice | PaymentAttempt | Subscription | Refund | PaymentMethod | WebhookEvent | TopUpOrder
                   | BillingRun | ReratingRun | Commitment | OtherDoctype

  datatype Status = Outstanding | Overdue | Paid | Cancelled | Waived | Initiated | Authorised | Captured | Failed
                  | Refunded | Current | PastDue | Suspended | Pending | Completed | PendingValidation | Active
                  | Paused | Expired | Received | Processed | Ignored | Created | Credited | Drafting | Collecting
                  | Complete | Running | Breached | Unknown(word: string)

  // The edge tables. A status a machine does not list has no way on.

  function InvoiceEdges(s: Status): set<Status>
  {
    if s == Outstanding then {Paid, Overdue, Cancelled, Waived}
    else if s == Overdue then {Paid, Cancelled, Waived}
    else if s == Paid then {Cancelled}
    else {}
  }

  function PaymentAttemptEdges(s: Status): set<Status>
  {
    if s == Initiated then {Authorised, Captured, Failed}
    else if s == Authorised then {Captured, Failed}
    else if s == Captured then {Failed, Refunded}
    else {}
  }

  function SubscriptionEdges(s: Status): set<Status>
  {
    if s == Current then {PastDue}
    else if s == PastDue then {Current, Suspended}
    else if s == Suspended then {Current}
    else {}
  }

  function RefundEdges(s: Status): set<Status>
  {
    if s == Initiated then {Pending, Completed, Failed}
    else if s == Pending then {Completed, Failed}
    else if s == Failed then {Initiated}
    else {}
  }

  function PaymentMethodEdges(s: Status): set<Status>
  {
    if s == PendingValidation then {Active, Failed, Cancelled}
    else if s == Active then {Paused, Cancelled, Expired, Failed}
    else if s == Paused then {Active, Cancelled, Expired}
    else {}
  }

  function WebhookEventEdges(s: Status): set<Status>
  {
    if s == Received then {Processed, Failed, Ignored}
    else if s == Failed then {Processed, Ignored}
    else {}
  }

  function TopUpOrderEdges(s: Status): set<Status>
  {
    if s == Created then {Credited, Failed, Expired}
    else if s == Expired then {Credited}
    else {}
  }

  function BillingRunEdges(s: Status): set<Status>
  {
    if s == Drafting then {Collecting, Complete}
    else if s == Collecting then {Complete}
    else if s == Complete then {Collecting}
    else {}
  }

  function ReratingRunEdges(s: Status): set<Status>
  {
    if s == Running then {Complete, Failed}
    else {}
  }

  function CommitmentEdges(s: Status): set<Status>
  {
    if s == Active then {Completed, Breached}
    else {}
  }

  function Next(d: Doctype, s: Status): set<Status>
  {
    match d
    case Invoice => InvoiceEdges(s)
    case PaymentAttempt => PaymentAttemptEdges(s)
    case Subscription => SubscriptionEdges(s)
    case Refund => RefundEdges(s)
    case PaymentMethod => PaymentMethodEdges(s)
    case WebhookEvent => WebhookEventEdges(s)
    case TopUpOrder => TopUpOrderEdges(s)
    case BillingRun => BillingRunEdges(s)
    case ReratingRun => ReratingRunEdges(s)
    case Commitment => CommitmentEdges(s)
    case OtherDoctype => {}
  }

  predicate Allows(d: Doctype, from: Status, to: Status)
  {
    to in Next(d, from)
  }

  predicate IsTerminal(d: Doctype, s: Status)
  {
    Next(d, s) == {}
  }

  datatype BillingEvent = BillingEvent(from: Status, to: Status, isFailure: bool)

  datatype Refusal = NoMachine | IllegalMove

  /** A document: its status and the events about it. */
  datatype Doc = Doc(doctype: Doctype, status: Status, events: seq<BillingEvent>)

  /** One call of `transition`. A refused one changes nothing. */
  function Transition(doc: Doc, to: Status): Result<Doc, Refusal>
  {
    if doc.doctype == OtherDoctype then Err(NoMachine)
    else if doc.status == to then Ok(doc)
    else if !Allows(doc.doctype, doc.status, to) then Err(IllegalMove)
    else Ok(doc.(status := to, events := doc.events + [BillingEvent(doc.status, to, to == Failed)]))
  }

  /** Every call in turn. */
  function Drive(doc: Doc, targets: seq<Status>): (after: Doc)
    decreases |targets|
  {
    if targets == [] then doc
    else
      var first := Transition(doc, targets[0]);
      Drive(if first.Ok? then first.value else doc, targets[1..])
  }

  // ---------------------------------------------------------------- walks

  /** The events form one connected walk along the machine's edges, from `start` to `end`. */
  ghost predicate IsWalk(d: Doctype, start: Status, events: seq<BillingEvent>, end: Status)
  {
    && (events == [] ==> start == end)
    && (events != [] ==> events[0].from == start && events[|events| - 1].to == end)
    && (forall i :: 0 <= i < |events| ==> Allows(d, events[i].from, events[i].to))
    && (forall i :: 0 < i < |events| ==> events[i].from == events[i - 1].to)
    && (forall i :: 0 <= i < |events| ==> (events[i].isFailure <==> events[i].to == Failed))
  }

  /** One more event at the end of a walk. */
  lemma WalkExtends(d: Doctype, start: Status, events: seq<BillingEvent>, end: Status, e: BillingEvent)
    requires IsWalk(d, start, events, end)
    requires e.from == end && Allows(d, e.from, e.to) && (e.isFailure <==> e.to == Failed)
    ensures IsWalk(d, start, events + [e], e.to)
  {
    var more := events + [e];
    assert forall i :: 0 <= i < |events| ==> more[i] == events[i];
    assert more[|events|] == e;
  }

  lemma TransitionExtendsWalk(start: Status, doc: Doc, to: Status)
    requires IsWalk(doc.doctype, start, doc.events, doc.status) && Transition(doc, to).Ok?
    ensures var after := Transition(doc, to).value;
            && IsWalk(after.doctype, start, after.events, after.status) && after.doctype == doc.doctype
            && after.status == to && (doc.status == to ==> after == doc) && doc.events <= after.events
  {
    if doc.status != to {
      WalkExtends(doc.doctype, start, doc.events, doc.status, BillingEvent(doc.status, to, to == Failed));
    }
  }

  /** However a document is driven, whatever is asked of it and refused, its events are a walk to its status. */
  lemma {:induction false} EventsAreWalk(start: Status, doc: Doc, targets: seq<Status>)
    requires IsWalk(doc.doctype, start, doc.events, doc.status)
    ensures var after := Drive(doc, targets);
            && after.doctype == doc.doctype && doc.events <= after.events
            && IsWalk(after.doctype, start, after.events, after.status)
    decreases |targets|
  {
    if targets != [] {
      var first := Transition(doc, targets[0]);
      if first.Ok? {
        TransitionExtendsWalk(start, doc, targets[0]);
      }
      EventsAreWalk(start, if first.Ok? then first.value else doc, targets[1..]);
    }
  }

  /** Nothing moves a document out of a status without edges. */
  lemma {:induction false} TerminalAbsorbs(doc: Doc, targets: seq<Status>)
    requires IsTerminal(doc.doctype, doc.status)
    ensures Drive(doc, targets) == doc
    decreases |targets|
  {
    if targets != [] {
      assert !Allows(doc.doctype, doc.status, targets[0]);
      TerminalAbsorbs(doc, targets[1..]);
    }
  }

  /** No walk suspends a subscription but from Past Due, and one that began elsewhere was marked Past Due first. */
  lemma SuspendedOnlyAfterGrace(start: Status, events: seq<BillingEvent>, end: Status, i: nat)
    requires IsWalk(Subscription, start, events, end) && i < |events| && events[i].to == Suspended
    ensures events[i].from == PastDue
    ensures start != PastDue ==> exists j :: 0 <= j < i && events[j].to == PastDue
  {
    assert Allows(Subscription, events[i].from, events[i].to);
    if start != PastDue {
      assert i > 0;
      assert events[i - 1].to == PastDue;
    }
  }

  /** The statuses a document can still leave, machine by machine. */
  lemma LeavesIff(d: Doctype, s: Status)
    ensures !IsTerminal(d, s) <==>
            match d
            case Invoice => s in {Outstanding, Overdue, Paid}
            case PaymentAttempt => s in {Initiated, Authorised, Captured}
            case Subscription => s in {Current, PastDue, Suspended}
            case Refund => s in {Initiated, Pending, Failed}
            case PaymentMethod => s in {PendingValidation, Active, Paused}
            case WebhookEvent => s in {Received, Failed}
            case TopUpOrder => s in {Created, Expired}
            case BillingRun => s in {Drafting, Collecting, Complete}
            case ReratingRun => s == Running
            case Commitment => s == Active
            case OtherDoctype => false
  {
    match d
    case Invoice =>
    case PaymentAttempt =>
    case Subscription =>
    case Refund =>
    case PaymentMethod =>
    case WebhookEvent =>
    case TopUpOrder =>
    case BillingRun =>
    case ReratingRun =>
    case Commitment =>
    case OtherDoctype =>
  }

  /** Where each status that money or service hangs on can come from. */
  lemma EnteredFrom(from: Status)
    ensures Allows(Invoice, from, Paid) <==> from in {Outstanding, Overdue}
    ensures Allows(Invoice, from, Waived) <==> from in {Outstanding, Overdue}
    ensures Allows(Invoice, from, Cancelled) <==> from in {Outstanding, Overdue, Paid}
    ensures Allows(PaymentAttempt, from, Captured) <==> from in {Initiated, Authorised}
    ensures Allows(PaymentAttempt, from, Refunded) <==> from == Captured
    ensures Allows(Subscription, from, Suspended) <==> from == PastDue
    ensures Allows(Subscription, from, Current) <==> from in {PastDue, Suspended}
    ensures Allows(Refund, from, Completed) <==> from in {Initiated, Pending}
    ensures Allows(TopUpOrder, from, Credited) <==> from in {Created, Expired}
  {
  }

  /** A document without a machine is refused, and so is a move that is no edge; a move to the status it has writes
      nothing; every other succeeds with one event. */
  lemma TransitionIff(doc: Doc, to: Status)
    ensures Transition(doc, to) == Err(NoMachine) <==> doc.doctype == OtherDoctype
    ensures Transition(doc, to) == Err(IllegalMove) <==>
            doc.doctype != OtherDoctype && to != doc.status && to !in Next(doc.doctype, doc.status)
    ensures doc.doctype != OtherDoctype && to != doc.status && to in Next(doc.doctype, doc.status) ==>
              Transition(doc, to) == Ok(Doc(doc.doctype, to, doc.events + [BillingEvent(doc.status, to, to == Failed)]))
    ensures doc.doctype != OtherDoctype && to == doc.status ==> Transition(doc, to) == Ok(doc)
  {
  }

  lemma NoEdgeToItself(d: Doctype, s: Status)
    ensures s !in Next(d, s)
  {
    match d
    case Invoice =>
    case PaymentAttempt =>
    case Subscription =>
    case Refund =>
    case PaymentMethod =>
    case WebhookEvent =>
    case TopUpOrder =>
    case BillingRun =>
    case ReratingRun =>
    case Commitment =>
    case OtherDoctype =>
  }

  lemma {:induction false} DriveAppend(doc: Doc, targets: seq<Status>, to: Status)
    ensures var before := Drive(doc, targets);
            Drive(doc, targets + [to]) == if Transition(before, to).Ok? then Transition(before, to).value else before
    decreases |targets|
  {
    if targets == [] {
      assert (targets + [to])[1..] == [];
    } else {
      var first := Transition(doc, targets[0]);
      assert (targets + [to])[1..] == targets[1..] + [to];
      DriveAppend(if first.Ok? then first.value else doc, targets[1..], to);
    }
  }

  function Targets(events: seq<BillingEvent>): (targets: seq<Status>)
    ensures |targets| == |events|
  {
    seq(|events|, i requires 0 <= i < |events| => events[i].to)
  }

  /** A walk is a shorter walk and one more edge. */
  lemma WalkEnds(d: Doctype, start: Status, events: seq<BillingEvent>, end: Status) returns (from: Status)
    requires IsWalk(d, start, events, end) && events != []
    ensures IsWalk(d, start, events[..|events| - 1], from) && end in Next(d, from)
    ensures events == events[..|events| - 1] + [BillingEvent(from, end, end == Failed)]
  {
    var n := |events| - 1;
    from := events[n].from;
    assert Allows(d, events[n].from, events[n].to);
    assert forall i :: 0 <= i < n ==> events[..n][i] == events[i];
  }

  /** The other way round: every walk along a machine's edges can be driven, move by move, and leaves exactly its
      events. */
  lemma {:induction false} WalkIsDriven(d: Doctype, start: Status, events: seq<BillingEvent>, end: Status)
    requires IsWalk(d, start, events, end)
    ensures Drive(Doc(d, start, []), Targets(events)) == Doc(d, end, events)
    decreases |events|
  {
    if events != [] {
      var before := events[..|events| - 1];
      var from := WalkEnds(d, start, events, end);
      WalkIsDriven(d, start, before, from);
      assert Targets(events) == Targets(before) + [end];
      DriveAppend(Doc(d, start, []), Targets(before), end);
      NoEdgeToItself(d, from);
      TransitionIff(Doc(d, from, before), end);
      assert d != OtherDoctype;
    }
  }

  // ---------------------------------------------------------------- what happens at most once

  /** How far along its machine a status is, for the machines that never turn back. */
  function Rank(d: Doctype, s: Status): nat
  {
    match d
    case Invoice => if s == Outstanding then 0 else if s == Overdue then 1 else if s == Paid then 2 else 3
    case PaymentAttempt => if s == Initiated then 0 else if s == Authorised then 1 else if s == Captured then 2 else 3
    case WebhookEvent => if s == Received then 0 else if s == Failed then 1 else 2
    case TopUpOrder => if s == Created then 0 else if s == Expired then 1 else 2
    case ReratingRun => if s == Running then 0 else 1
    case Commitment => if s == Active then 0 else 1
    case _ => 0
  }

  predicate NeverTurnsBack(d: Doctype)
  {
    d != Subscription && d != Refund && d != PaymentMethod && d != BillingRun
  }

  lemma EdgesRise(d: Doctype, from: Status, to: Status)
    requires NeverTurnsBack(d) && Allows(d, from, to)
    ensures Rank(d, from) < Rank(d, to) <= 3
  {
    match d
    case Invoice =>
    case PaymentAttempt =>
    case WebhookEvent =>
    case TopUpOrder =>
    case ReratingRun =>
    case Commitment =>
    case OtherDoctype =>
      assert false;
  }

  lemma {:induction false} WalkRises(d: Doctype, start: Status, events: seq<BillingEvent>, end: Status, i: nat, j: nat)
    requires NeverTurnsBack(d) && IsWalk(d, start, events, end) && i <= j < |events|
    ensures Rank(d, start) + i < Rank(d, events[i].to) <= 3
    ensures Rank(d, events[i].to) + (j - i) <= Rank(d, events[j].to)
    decreases i + j
  {
    assert Allows(d, events[i].from, events[i].to) && Allows(d, events[j].from, events[j].to);
    EdgesRise(d, events[i].from, events[i].to);
    EdgesRise(d, events[j].from, events[j].to);
    if i > 0 {
      WalkRises(d, start, events, end, i - 1, i - 1);
    }
    if i < j {
      WalkRises(d, start, events, end, i, j - 1);
    }
  }

  predicate EntersTwice(events: seq<BillingEvent>, start: Status, s: Status)
  {
    || (exists i, j :: 0 <= i < j < |events| && events[i].to == s && events[j].to == s)
    || (start == s && exists i :: 0 <= i < |events| && events[i].to == s)
  }

  ghost predicate CanEnterTwice(d: Doctype)
  {
    exists start, events, end, s :: IsWalk(d, start, events, end) && EntersTwice(events, start, s)
  }

  /** An invoice, an attempt, a webhook, a top-up, a re-rating or a commitment is in each status at most once: it is
      paid once, captured once, credited once. */
  lemma NoStatusTwice(d: Doctype, start: Status, events: seq<BillingEvent>, end: Status, s: Status)
    requires NeverTurnsBack(d) && IsWalk(d, start, events, end)
    ensures !EntersTwice(events, start, s) && |events| <= 3
  {
    forall i, j | 0 <= i <= j < |events| ensures events[i].to != start && (i < j ==> events[i].to != events[j].to) {
      WalkRises(d, start, events, end, i, j);
    }
    WalkIsShort(d, start, events, end);
  }

  lemma WalkIsShort(d: Doctype, start: Status, events: seq<BillingEvent>, end: Status)
    requires NeverTurnsBack(d) && IsWalk(d, start, events, end)
    ensures |events| <= 3
  {
    if |events| > 0 {
      WalkRises(d, start, events, end, |events| - 1, |events| - 1);
    }
  }

  /** Exactly those machines: a subscription, a refund, a payment method and a billing run can come back. */
  lemma ComesBackIff(d: Doctype)
    ensures CanEnterTwice(d) <==> !NeverTurnsBack(d)
  {
    forall start, events, end, s | NeverTurnsBack(d) && IsWalk(d, start, events, end)
      ensures !EntersTwice(events, start, s)
    {
      NoStatusTwice(d, start, events, end, s);
    }
    match d
    case Subscription => ThereAndBack(d, Current, PastDue);
    case Refund => ThereAndBack(d, Initiated, Failed);
    case PaymentMethod => ThereAndBack(d, Active, Paused);
    case BillingRun => ThereAndBack(d, Collecting, Complete);
    case _ =>
  }

  lemma ThereAndBack(d: Doctype, a: Status, b: Status)
    requires Allows(d, a, b) && Allows(d, b, a)
    ensures CanEnterTwice(d)
  {
    var events := [BillingEvent(a, b, b == Failed), BillingEvent(b, a, a == Failed)];
    assert events[1].to == a;
    assert IsWalk(d, a, events, a) && EntersTwice(events, a, a);
  }

  // ---------------------------------------------------------------- the document, updated in place

  class Document {
    const doctype: Doctype
    var status: Status
    var events: seq<BillingEvent>

    function Abs(): Doc
      reads this
    {
      Doc(doctype, status, events)
    }

    constructor (doctype: Doctype, status: Status)
      ensures Abs() == Doc(doctype, status, []) && IsWalk(doctype, status, events, this.status)
    {
      this.doctype, this.status, this.events := doctype, status, [];
    }

    /** `transition`: the edge is checked, the field written, and one event appended. */
    method MoveTo(to: Status, ghost start: Status) returns (refusal: Option<Refusal>)
      requires IsWalk(doctype, start, events, status)
      modifies this
      ensures match Transition(old(Abs()), to)
              case Ok(after) => refusal == None && Abs() == after
              case Err(error) => refusal == Some(error) && Abs() == old(Abs())
      ensures IsWalk(doctype, start, events, status)
      ensures refusal == Some(NoMachine) <==> doctype == OtherDoctype
      ensures refusal == None <==>
              doctype != OtherDoctype && (to == old(status) || to in Next(doctype, old(status)))
      ensures refusal == None ==> status == to
      ensures events == if refusal == None && to != old(status)
                        then old(events) + [BillingEvent(old(status), to, to == Failed)] else old(events)
    {
      if doctype == OtherDoctype {
        return Some(NoMachine);
      }
      if status == to {
        return None;
      }
      if !Allows(doctype, status, to) {
        return Some(IllegalMove);
      }
      TransitionExtendsWalk(start, Abs(), to);
      events := events + [BillingEvent(status, to, to == Failed)];
      status := to;
      refusal := None;
    }
  }
}
