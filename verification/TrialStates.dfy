/** The states of a site's free trial, and the moves its lifecycle allows. */
module TrialStates {
  /** NoTrial is the empty state. */
  datatype TrialState = NoTrial | Active | Ended | Converted | Deleted
  {
    predicate IsOpen() { Active? || Ended? }
  }

  /** TRANSITIONS. Converted and Deleted are final; a running trial may be extended onto itself. */
  function Transitions(s: TrialState): set<TrialState>
  {
    match s
    case NoTrial => {Active, Converted}
    case Active => {Active, Ended, Converted, Deleted}
    case Ended => {Active, Ended, Converted, Deleted}
    case Converted => {}
    case Deleted => {}
  }

  /** Where each state can come from. Nothing is started again once it is final, and no trial is unmade. */
  lemma EnteredFrom(s: TrialState)
    ensures Active in Transitions(s) <==> s in {NoTrial, Active, Ended}
    ensures Ended in Transitions(s) <==> s in {Active, Ended}
    ensures Converted in Transitions(s) <==> s in {NoTrial, Active, Ended}
    ensures Deleted in Transitions(s) <==> s in {Active, Ended}
    ensures NoTrial !in Transitions(s)
  {
  }
}
