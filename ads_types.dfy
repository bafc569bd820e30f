/**
 * The moderation status and priority of a listing, as the filters carry
 * them. Filter values read from the address bar are cast to these types
 * without being checked, so each type also has a constructor for a name it
 * does not know.
 */
module AdsTypes {

  datatype ModerationStatus = Pending | Approved | Rejected | Draft | OtherStatus(raw: string) {

    function Name(): string {
      match this
      case Pending => "pending"
      case Approved => "approved"
      case Rejected => "rejected"
      case Draft => "draft"
      case OtherStatus(raw) => raw
    }

    /** Only an unknown name is held as `OtherStatus`. */
    predicate Canonical() {
      OtherStatus? ==> raw !in {"pending", "approved", "rejected", "draft"}
    }
  }

  /** The status named `raw`; an unknown name is kept as it is. */
  function ParseStatus(raw: string): (s: ModerationStatus)
    ensures s.Name() == raw && s.Canonical()
  {
    match raw
    case "pending" => Pending
    case "approved" => Approved
    case "rejected" => Rejected
    case "draft" => Draft
    case _ => OtherStatus(raw)
  }

  /** Reading a status's name back gives the status exactly when it is canonical. */
  lemma ParseStatusName(s: ModerationStatus)
    ensures ParseStatus(s.Name()) == s <==> s.Canonical()
  {
  }

  datatype Priority = Normal | Urgent | OtherPriority(raw: string) {

    function Name(): string {
      match this
      case Normal => "normal"
      case Urgent => "urgent"
      case OtherPriority(raw) => raw
    }

    predicate Canonical() {
      OtherPriority? ==> raw !in {"normal", "urgent"}
    }
  }

  function ParsePriority(raw: string): (p: Priority)
    ensures p.Name() == raw && p.Canonical()
  {
    match raw
    case "normal" => Normal
    case "urgent" => Urgent
    case _ => OtherPriority(raw)
  }

  lemma ParsePriorityName(p: Priority)
    ensures ParsePriority(p.Name()) == p <==> p.Canonical()
  {
  }
}
