/**
 * The admin policies page (app/admin/policies/page.tsx): the list, the
 * create/edit modal with its uncontrolled form, the row it writes, and
 * deletion.
 */
module AdminPolicies {
  import opened Common
  import opened JsText
  import opened PolicyTypes

  /** The category `<select>`'s options, the first of which is also the default. */
  const CategoryOptions: seq<string> := ["อาคารสถานที่", "วิชาการ", "กิจกรรม", "สวัสดิการ", "โครงสร้างพื้นฐาน"]
  const DefaultCategory := "อาคารสถานที่"
  const StatusOptions: seq<string> := ["pending", "in_progress", "completed"]

  /** What the form's fields hold when it is submitted, as the browser reports them. */
  datatype FormFields = FormFields(
    title: string,
    description: string,
    category: string,
    status: string,
    progress: string,
    votes: string,
    imageUrl: string)

  /** The row `handleSave` sends. The image URL is sent as typed, an empty one as "". */
  datatype PolicyRow = PolicyRow(
    title: string,
    description: string,
    category: string,
    status: string,
    progress: int,
    votes: int,
    imageUrl: string)

  /** A remote request; a save carries the submitted fields, and the row it writes is `RowOf` of them. */
  datatype Request =
    | Select
    | Update(id: int, fields: FormFields)
    | Insert(fields: FormFields)
    | Delete(id: int)

  /**
   * A `<select>` whose default value is not one of its options shows, and
   * submits, its first option.
   */
  function SelectValue(options: seq<string>, v: string): (r: string)
    requires options != []
    ensures r in options
    ensures v in options ==> r == v
    ensures v !in options ==> r == options[0]
  {
    if v in options then v else options[0]
  }

  /** The row built from the submitted fields: `status || "pending"`, `parseInt(…) || 0` for the numbers. */
  function RowOf(f: FormFields): PolicyRow
  {
    PolicyRow(f.title, f.description, f.category, if f.status == "" then "pending" else f.status,
      ParseIntOrZero(f.progress), ParseIntOrZero(f.votes), f.imageUrl)
  }

  /**
   * The fields the modal opens with: the edited policy's values through the
   * inputs' `defaultValue`s, or the defaults of a new policy.
   */
  function OpenedForm(editing: Option<Policy>): FormFields
  {
    match editing
    case None =>
      FormFields("", "", DefaultCategory, "pending", NumberText(0), NumberText(0), "")
    case Some(p) =>
      FormFields(p.title, p.description,
        SelectValue(CategoryOptions, if p.category == "" then DefaultCategory else p.category),
        SelectValue(StatusOptions, p.status.Name()),
        NumberText(p.progress), NumberText(OrZero(p.votes)),
        match p.imageUrl case None => "" case Some(u) => u)
  }

  /**
   * Saving the modal unchanged writes the policy back: its own title,
   * description, status, progress and vote count (a missing count as 0),
   * its category when the select offers it (the first option otherwise), and
   * its image URL with a missing one written as "". A new policy is saved
   * with the defaults.
   */
  lemma SaveUnchangedRoundTrip(p: Policy)
    ensures RowOf(OpenedForm(Some(p))) == PolicyRow(p.title, p.description,
      if p.category in CategoryOptions then p.category else DefaultCategory,
      p.status.Name(), p.progress, OrZero(p.votes),
      if p.imageUrl.Some? then p.imageUrl.value else "")
    ensures RowOf(OpenedForm(None)) == PolicyRow("", "", DefaultCategory, "pending", 0, 0, "")
  {
    ParseIntOfNumberText(p.progress);
    ParseIntOfNumberText(OrZero(p.votes));
    ParseIntOfNumberText(0);
    assert p.status.Name() in StatusOptions;
    CategoryDefault(p.category);
  }

  /** `category || "อาคารสถานที่"` in the select: the category when offered, the first option otherwise. */
  lemma CategoryDefault(c: string)
    ensures SelectValue(CategoryOptions, if c == "" then DefaultCategory else c) ==
      if c in CategoryOptions then c else DefaultCategory
  {
    assert forall i :: 0 <= i < |CategoryOptions| ==> |CategoryOptions[i]| > 0;
  }

  /** `editingPolicy?.id` is truthy: a policy with a non-zero id is updated, anything else inserted. */
  function SaveRequest(editing: Option<Policy>, f: FormFields): Request
  {
    if editing.Some? && editing.value.id != 0 then Update(editing.value.id, f) else Insert(f)
  }

  /** The modal's heading announces an edit whenever a policy is being edited. */
  predicate EditHeading(editing: Option<Policy>) { editing.Some? }

  /**
   * The save is an update exactly when an edited policy with a non-zero id
   * is open; one whose id is 0 is headed as an edit yet saved as a new row.
   */
  lemma SaveRequestChoice(editing: Option<Policy>, f: FormFields)
    ensures SaveRequest(editing, f).Update? <==> editing.Some? && editing.value.id != 0
    ensures SaveRequest(editing, f).Update? ==> SaveRequest(editing, f).id == editing.value.id
    ensures SaveRequest(editing, f).fields == f
    ensures editing.Some? && editing.value.id == 0 ==> EditHeading(editing) && SaveRequest(editing, f).Insert?
  {
  }

  /** The status badge's text in the list. */
  function AdminStatusLabel(status: string): string
  {
    if status == "completed" then "สำเร็จแล้ว"
    else if status == "in_progress" then "กำลังทำ"
    else "รอดำเนินการ"
  }

  /** The three statuses get three different labels; any other string reads as pending. */
  lemma AdminStatusLabelDistinct(a: PolicyStatus, b: PolicyStatus, other: string)
    ensures AdminStatusLabel(a.Name()) == AdminStatusLabel(b.Name()) <==> a == b
    ensures other !in StatusOptions ==> AdminStatusLabel(other) == AdminStatusLabel(Pending.Name())
  {
  }

  class AdminPolicies {
    var policies: seq<Policy>
    var loading: bool
    var editingPolicy: Option<Policy>
    var isModalOpen: bool
    /** Remote requests so far. */
    ghost var requests: seq<Request>
    /** Alerts shown so far. */
    ghost var alerts: nat

    /** Mounting starts the first fetch. */
    constructor ()
      ensures policies == [] && loading && editingPolicy == None && !isModalOpen
      ensures requests == [Select] && alerts == 0
    {
      policies := [];
      loading := true;
      editingPolicy := None;
      isModalOpen := false;
      requests := [Select];
      alerts := 0;
    }

    /** `fetchPolicies` returns: rows replace the list (`null` as none); an error keeps it. */
    method ApplyFetch(f: Fetch<Policy>)
      modifies this
      ensures policies == (if f.Rows? then f.rows else old(policies)) && !loading
      ensures editingPolicy == old(editingPolicy) && isModalOpen == old(isModalOpen)
      ensures requests == old(requests) && alerts == old(alerts)
    {
      if f.Rows? {
        policies := f.rows;
      }
      loading := false;
    }

    method OpenEdit(p: Policy)
      modifies this
      ensures editingPolicy == Some(p) && isModalOpen
      ensures policies == old(policies) && loading == old(loading)
      ensures requests == old(requests) && alerts == old(alerts)
    {
      editingPolicy := Some(p);
      isModalOpen := true;
    }

    method OpenCreate()
      modifies this
      ensures editingPolicy == None && isModalOpen
      ensures policies == old(policies) && loading == old(loading)
      ensures requests == old(requests) && alerts == old(alerts)
    {
      editingPolicy := None;
      isModalOpen := true;
    }

    /** The close and cancel buttons only hide the modal; the edited policy stays set. */
    method CloseModal()
      modifies this
      ensures !isModalOpen && editingPolicy == old(editingPolicy)
      ensures policies == old(policies) && loading == old(loading)
      ensures requests == old(requests) && alerts == old(alerts)
    {
      isModalOpen := false;
    }

    /**
     * The form, which only exists while the modal is open, is submitted with
     * fields `f`. The browser refuses an empty
     * title (`required`). Otherwise the row is written (an error is only
     * logged), the modal closes, the edited policy is cleared and the list
     * is fetched again.
     */
    method HandleSave(f: FormFields)
      requires isModalOpen
      modifies this
      ensures f.title == "" ==> (policies == old(policies) && loading == old(loading) &&
        editingPolicy == old(editingPolicy) && isModalOpen == old(isModalOpen) && requests == old(requests))
      ensures f.title != "" ==> (requests == old(requests) + [SaveRequest(old(editingPolicy), f), Select] &&
        !isModalOpen && editingPolicy == None && loading && policies == old(policies))
      ensures alerts == old(alerts)
    {
      if f.title == "" {
        return;
      }
      var save := SaveRequest(editingPolicy, f);
      requests := requests + [save, Select];
      isModalOpen := false;
      editingPolicy := None;
      loading := true;
    }

    /**
     * `handleDelete(id)`: nothing unless confirmed; a failed deletion raises
     * an alert and does not refetch; a successful one refetches.
     */
    method HandleDelete(id: int, confirmed: bool, failed: bool)
      modifies this
      ensures !confirmed ==> requests == old(requests) && alerts == old(alerts) && loading == old(loading)
      ensures confirmed && failed ==> (requests == old(requests) + [Delete(id)] &&
        alerts == old(alerts) + 1 && loading == old(loading))
      ensures confirmed && !failed ==> (requests == old(requests) + [Delete(id), Select] &&
        alerts == old(alerts) && loading)
      ensures policies == old(policies) && editingPolicy == old(editingPolicy) && isModalOpen == old(isModalOpen)
    {
      if !confirmed {
        return;
      }
      requests := requests + [Delete(id)];
      if failed {
        alerts := alerts + 1;
      } else {
        loading := true;
        requests := requests + [Select];
      }
    }
  }

  /**
   * Opening a stored policy for editing and saving it untouched updates that
   * policy with its own values.
   */
  method EditAndSaveUnchanged(page: AdminPolicies, p: Policy)
    requires p.id != 0 && p.title != ""
    modifies page
    ensures page.requests == old(page.requests) + [Update(p.id, OpenedForm(Some(p))), Select]
    ensures page.editingPolicy == None && !page.isModalOpen
  {
    page.OpenEdit(p);
    page.HandleSave(OpenedForm(page.editingPolicy));
  }
}
