/** Moderation states of a how-to or map pin and the classification of one
    observed write (a before/after pair of states). */
module Moderation {

  datatype Option<T> = None | Some(value: T)

  /** The moderation lifecycle of user-submitted content. */
  datatype Status = Draft | AwaitingModeration | Accepted | Rejected

  /** The string stored in a document's `moderation` field. */
  function StatusName(s: Status): string
  {
    match s
    case Draft => "draft"
    case AwaitingModeration => "awaiting-moderation"
    case Accepted => "accepted"
    case Rejected => "rejected"
  }

  /** Reads a `moderation` field; any other string is not a status. */
  function ParseStatus(name: string): (r: Option<Status>)
    ensures r.Some? ==> StatusName(r.value) == name
  {
    if name == "draft" then Some(Draft)
    else if name == "awaiting-moderation" then Some(AwaitingModeration)
    else if name == "accepted" then Some(Accepted)
    else if name == "rejected" then Some(Rejected)
    else None
  }

  /** The stored names and the parser agree in both directions. */
  lemma ParseStatusName(s: Status, name: string)
    ensures ParseStatus(StatusName(s)) == Some(s)
    ensures ParseStatus(name) == Some(s) <==> name == StatusName(s)
  {
  }

  /** What a write means for moderation emails. */
  datatype Transition = Approved | Submitted | NoOp

  /** Classifies a write by its before and after states: newly accepted
      content is approved, content newly awaiting moderation (first
      submission or resubmission) is submitted, anything else is a no-op. */
  function Classify(before: Status, after: Status): (t: Transition)
    ensures t == Approved <==> after == Accepted && before != Accepted
    ensures t == Submitted <==> after == AwaitingModeration && before != AwaitingModeration
    ensures t == NoOp <==> before == after || (after != Accepted && after != AwaitingModeration)
  {
    if before == after then NoOp
    else if after == Accepted then Approved
    else if after == AwaitingModeration then Submitted
    else NoOp
  }
}
