/** The complaint row and the draft that the two submission forms insert. */
module ComplaintTypes {
  import opened Common

  /** A row of the `complaints` table as the pages read it. */
  datatype Complaint = Complaint(
    id: int,
    createdAt: string,
    category: string,
    topic: string,
    message: string,
    contact: string,
    status: string,
    trackId: string,
    adminReply: Option<string>)

  /** The fields a submission form collects. */
  datatype Draft = Draft(topic: string, category: string, message: string, contact: string)

  /** The form's starting and reset value: category "ทั่วไป", everything else empty. */
  const EmptyDraft := Draft("", "ทั่วไป", "", "")

  /** What a form shows and where it is in a submission. */
  datatype FormStatus = Idle | Success | Error

  predicate UniqueIds(cs: seq<Complaint>)
  {
    forall i, j :: 0 <= i < j < |cs| ==> cs[i].id != cs[j].id
  }
}
