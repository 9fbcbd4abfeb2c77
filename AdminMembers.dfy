/**
 * The admin members page (app/admin/members/page.tsx): the roster, the
 * create/edit modal with its uncontrolled form, the row it writes, and
 * deletion.
 */
module AdminMembers {
  import opened Common
  import opened JsText
  import opened TeamSection

  /** What the form's fields hold when it is submitted. */
  datatype FormFields = FormFields(
    name: string,
    nickname: string,
    role: string,
    quote: string,
    instagram: string,
    imageUrl: string,
    order: string)

  /** The row `handleSave` sends; the image URL as typed, an empty one as "". */
  datatype MemberRow = MemberRow(
    name: string,
    nickname: string,
    role: string,
    quote: string,
    instagram: string,
    imageUrl: string,
    order: int)

  /** A remote request; a save carries the submitted fields, and the row it writes is `RowOf` of them. */
  datatype Request =
    | Select
    | Update(id: int, fields: FormFields)
    | Insert(fields: FormFields)
    | Delete(id: int)

  const Placeholder := "/avatar-placeholder.png"

  /** The row built from the submitted fields, with `parseInt(order) || 0`. */
  function RowOf(f: FormFields): MemberRow
  {
    MemberRow(f.name, f.nickname, f.role, f.quote, f.instagram, f.imageUrl, ParseIntOrZero(f.order))
  }

  /** The fields the modal opens with: the edited member's values, or empty ones and order 0. */
  function OpenedForm(editing: Option<Member>): FormFields
  {
    match editing
    case None => FormFields("", "", "", "", "", "", NumberText(0))
    case Some(m) =>
      FormFields(m.name, m.nickname, m.role, m.quote, m.instagram,
        match m.imageUrl case None => "" case Some(u) => u, NumberText(m.order))
  }

  /** The browser submits only when the `required` name, nickname and role are filled in. */
  predicate Submittable(f: FormFields)
  {
    f.name != "" && f.nickname != "" && f.role != ""
  }

  /**
   * Saving the modal unchanged writes the member back with its own fields,
   * a missing image URL as "". A new member is saved with order 0.
   */
  lemma SaveUnchangedRoundTrip(m: Member)
    ensures RowOf(OpenedForm(Some(m))) == MemberRow(m.name, m.nickname, m.role, m.quote, m.instagram,
      if m.imageUrl.Some? then m.imageUrl.value else "", m.order)
    ensures RowOf(OpenedForm(None)).order == 0
    ensures !Submittable(OpenedForm(None))
  {
    ParseIntOfNumberText(m.order);
    ParseIntOfNumberText(0);
  }

  /** `editingMember?.id` is truthy: a member with a non-zero id is updated, anything else inserted. */
  function SaveRequest(editing: Option<Member>, f: FormFields): Request
  {
    if editing.Some? && editing.value.id != 0 then Update(editing.value.id, f) else Insert(f)
  }

  lemma SaveRequestChoice(editing: Option<Member>, f: FormFields)
    ensures SaveRequest(editing, f).Update? <==> editing.Some? && editing.value.id != 0
    ensures SaveRequest(editing, f).Update? ==> SaveRequest(editing, f).id == editing.value.id
    ensures SaveRequest(editing, f).fields == f
  {
  }

  /** The card's picture: the image URL, or the placeholder when it is missing or empty. */
  function AvatarSrc(m: Member): string
  {
    if m.imageUrl.Some? && m.imageUrl.value != "" then m.imageUrl.value else Placeholder
  }

  /**
   * A member saved with an empty image URL is stored with "" and still
   * shown with the placeholder, like one stored with none.
   */
  lemma EmptyImageShowsPlaceholder(m: Member)
    ensures AvatarSrc(m.(imageUrl := Some(""))) == Placeholder
    ensures AvatarSrc(m.(imageUrl := None)) == Placeholder
    ensures m.imageUrl.Some? && m.imageUrl.value != "" ==> AvatarSrc(m) == m.imageUrl.value
  {
  }

  class AdminMembers {
    var members: seq<Member>
    var loading: bool
    var editingMember: Option<Member>
    var isModalOpen: bool
    /** Remote requests so far. */
    ghost var requests: seq<Request>
    /** Alerts shown so far. */
    ghost var alerts: nat

    /** Mounting starts the first fetch. */
    constructor ()
      ensures members == [] && loading && editingMember == None && !isModalOpen
      ensures requests == [Select] && alerts == 0
    {
      members := [];
      loading := true;
      editingMember := None;
      isModalOpen := false;
      requests := [Select];
      alerts := 0;
    }

    /** `fetchMembers` returns: rows replace the list (`null` as none); an error keeps it. */
    method ApplyFetch(f: Fetch<Member>)
      modifies this
      ensures members == (if f.Rows? then f.rows else old(members)) && !loading
      ensures editingMember == old(editingMember) && isModalOpen == old(isModalOpen)
      ensures requests == old(requests) && alerts == old(alerts)
    {
      if f.Rows? {
        members := f.rows;
      }
      loading := false;
    }

    method OpenEdit(m: Member)
      modifies this
      ensures editingMember == Some(m) && isModalOpen
      ensures members == old(members) && loading == old(loading)
      ensures requests == old(requests) && alerts == old(alerts)
    {
      editingMember := Some(m);
      isModalOpen := true;
    }

    method OpenCreate()
      modifies this
      ensures editingMember == None && isModalOpen
      ensures members == old(members) && loading == old(loading)
      ensures requests == old(requests) && alerts == old(alerts)
    {
      editingMember := None;
      isModalOpen := true;
    }

    /** The close and cancel buttons only hide the modal; the edited member stays set. */
    method CloseModal()
      modifies this
      ensures !isModalOpen && editingMember == old(editingMember)
      ensures members == old(members) && loading == old(loading)
      ensures requests == old(requests) && alerts == old(alerts)
    {
      isModalOpen := false;
    }

    /**
     * The form, which only exists while the modal is open, is submitted with
     * fields `f`. Unless the browser refuses it,
     * the row is written (an error is only logged), the modal closes, the
     * edited member is cleared and the roster is fetched again.
     */
    method HandleSave(f: FormFields)
      requires isModalOpen
      modifies this
      ensures !Submittable(f) ==> (members == old(members) && loading == old(loading) &&
        editingMember == old(editingMember) && isModalOpen == old(isModalOpen) && requests == old(requests))
      ensures Submittable(f) ==> (requests == old(requests) + [SaveRequest(old(editingMember), f), Select] &&
        !isModalOpen && editingMember == None && loading && members == old(members))
      ensures alerts == old(alerts)
    {
      if !Submittable(f) {
        return;
      }
      var save := SaveRequest(editingMember, f);
      requests := requests + [save, Select];
      isModalOpen := false;
      editingMember := None;
      loading := true;
    }

    /** `handleDelete(id)`: nothing unless confirmed; a failure alerts, a success refetches. */
    method HandleDelete(id: int, confirmed: bool, failed: bool)
      modifies this
      ensures !confirmed ==> requests == old(requests) && alerts == old(alerts) && loading == old(loading)
      ensures confirmed && failed ==> (requests == old(requests) + [Delete(id)] &&
        alerts == old(alerts) + 1 && loading == old(loading))
      ensures confirmed && !failed ==> (requests == old(requests) + [Delete(id), Select] &&
        alerts == old(alerts) && loading)
      ensures members == old(members) && editingMember == old(editingMember) && isModalOpen == old(isModalOpen)
    {
      if !confirmed {
        return;
      }
      requests := requests + [Delete(id)];
      if failed {
        alerts := alerts + 1;
      } else {
        loading := true;
        requests := requests + [Select];
      }
    }
  }

  /** Opening a stored member for editing and saving it untouched updates it with its own values. */
  method EditAndSaveUnchanged(page: AdminMembers, m: Member)
    requires m.id != 0 && m.name != "" && m.nickname != "" && m.role != ""
    modifies page
    ensures page.requests == old(page.requests) + [Update(m.id, OpenedForm(Some(m))), Select]
    ensures page.editingMember == None && !page.isModalOpen
  {
    page.OpenEdit(m);
    page.HandleSave(OpenedForm(page.editingMember));
  }
}
