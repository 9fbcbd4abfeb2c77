/**
 * The policy card (components/policy/PolicyCard.tsx): the badge colours and
 * label chosen from a policy's status, and the progress bar's colour.
 */
module PolicyCard {
  import opened PolicyTypes

  /** The badge's background, text and dot classes. */
  datatype StatusClasses = StatusClasses(bg: string, text: string, dot: string)

  const Green := StatusClasses("bg-green-100", "text-green-700", "bg-green-500")
  const Yellow := StatusClasses("bg-yellow-100", "text-yellow-700", "bg-yellow-500")
  const Gray := StatusClasses("bg-gray-100", "text-gray-600", "bg-gray-400")

  const CompletedLabel := "สำเร็จแล้ว"
  const InProgressLabel := "กำลังดำเนินการ"
  const PendingLabel := "รออนุมัติ"

  /** `getStatusClasses`: a switch whose default covers every other string. */
  function GetStatusClasses(status: string): StatusClasses
  {
    match status
    case "completed" => Green
    case "in_progress" => Yellow
    case _ => Gray
  }

  /** `getStatusLabel`. */
  function GetStatusLabel(status: string): string
  {
    match status
    case "completed" => CompletedLabel
    case "in_progress" => InProgressLabel
    case _ => PendingLabel
  }

  /** The progress bar's fill. */
  function ProgressBarColor(status: string): string
  {
    if status == "completed" then "bg-green-500" else "bg-primary"
  }

  /** Reading a label back: the status it is shown for. */
  function StatusOfLabel(text: string): PolicyStatus
  {
    if text == CompletedLabel then Completed
    else if text == InProgressLabel then InProgress
    else Pending
  }

  /**
   * The badge tells the three statuses apart: the label reads back as the
   * status, and the colours differ. Any other string is badged as pending.
   */
  lemma StatusBadgeFaithful(s: PolicyStatus, other: string)
    requires other != "completed" && other != "in_progress"
    ensures StatusOfLabel(GetStatusLabel(s.Name())) == s
    ensures GetStatusClasses(other) == GetStatusClasses(Pending.Name()) == Gray
    ensures GetStatusLabel(other) == GetStatusLabel(Pending.Name()) == PendingLabel
    ensures forall t: PolicyStatus :: GetStatusClasses(t.Name()) == GetStatusClasses(s.Name()) ==> t == s
  {
    assert CompletedLabel != InProgressLabel && CompletedLabel != PendingLabel && InProgressLabel != PendingLabel by {
      assert CompletedLabel[0] != InProgressLabel[0] && |CompletedLabel| != |PendingLabel|;
      assert InProgressLabel[0] != PendingLabel[0];
    }
  }

  /** The bar is green exactly when the badge is green, which is exactly for "completed". */
  lemma ProgressBarMatchesBadge(status: string)
    ensures ProgressBarColor(status) == "bg-green-500" <==> GetStatusClasses(status) == Green
    ensures GetStatusClasses(status) == Green <==> status == "completed"
    ensures ProgressBarColor(status) == "bg-green-500" <==> GetStatusClasses(status).dot == "bg-green-500"
  {
  }
}
