/**
 * The admin announcements page (app/admin/announcements/page.tsx): the
 * create/edit form, the payload it sends, the update-or-insert choice, pin
 * toggling and deletion. Category colours are those of the public page.
 */
module AdminAnnouncements {
  import opened Common
  import opened Announcements

  /** The form's fields; the image URL is plain text here. */
  datatype FormData = FormData(title: string, content: string, category: string, imageUrl: string, isPinned: bool)

  /** The categories the form offers: the public page's list without "all". */
  const FormCategories: seq<string> := ["ข่าวด่วน", "กิจกรรม", "ประกาศทั่วไป", "ผลงานสภา"]
  const DefaultCategory := "ประกาศทั่วไป"
  const EmptyForm := FormData("", "", DefaultCategory, "", false)

  /**
   * The admin list colours a category as the public page does: every
   * category the form offers, the default one included, has its own colour,
   * and the form offers exactly the public filters other than "all".
   */
  lemma FormCategoriesColoured()
    ensures FormCategories == Categories[1..]
    ensures DefaultCategory in FormCategories
    ensures forall i :: 0 <= i < |FormCategories| ==> CategoryColor(FormCategories[i]) != DefaultColor
  {
    CategoryColorFallback("");
  }

  /** The record sent to the database: an empty image URL becomes `null`. */
  datatype Payload = Payload(title: string, content: string, category: string, imageUrl: Option<string>, isPinned: bool)

  /** A remote request this page makes. */
  datatype Request =
    | Update(id: string, payload: Payload)
    | Insert(payload: Payload)
    | Delete(id: string)
    | SetPinned(id: string, pinned: bool)
    | Refetch

  /** `formData.image_url || null` and the other fields as they are. */
  function ToPayload(f: FormData): (p: Payload)
    ensures p.imageUrl.None? <==> f.imageUrl == ""
    ensures p.imageUrl.Some? ==> p.imageUrl.value == f.imageUrl
    ensures p.(imageUrl := None) == Payload(f.title, f.content, f.category, None, f.isPinned)
  {
    Payload(f.title, f.content, f.category, if f.imageUrl == "" then None else Some(f.imageUrl), f.isPinned)
  }

  /** `handleEdit`'s copy of an item into the form; a missing image URL becomes "". */
  function FormOf(a: Announcement): (f: FormData)
    ensures a.imageUrl.None? ==> f.imageUrl == ""
    ensures a.imageUrl.Some? ==> f.imageUrl == a.imageUrl.value
  {
    FormData(a.title, a.content, a.category, match a.imageUrl case None => "" case Some(u) => u, a.isPinned)
  }

  /** A row as the database stores a payload. */
  function Stored(id: string, p: Payload, createdAt: string): Announcement
  {
    Announcement(id, p.title, p.content, p.category, p.imageUrl, p.isPinned, createdAt)
  }

  /**
   * Editing round trips: a form saved and opened again for editing shows the
   * same fields; an item opened and saved unchanged is written back as it was,
   * except that an empty image URL is written as `null`.
   */
  lemma EditRoundTrip(f: FormData, a: Announcement, id: string, createdAt: string)
    ensures FormOf(Stored(id, ToPayload(f), createdAt)) == f
    ensures Stored(a.id, ToPayload(FormOf(a)), a.createdAt) ==
      a.(imageUrl := if a.imageUrl == Some("") then None else a.imageUrl)
  {
  }

  /** `if (editingId)`: an id that is `null` or the empty string means "create". */
  predicate Editing(editingId: Option<string>)
  {
    editingId.Some? && editingId.value != ""
  }

  /** The browser submits only when the `required` title and content are filled in. */
  predicate Submittable(f: FormData)
  {
    f.title != "" && f.content != ""
  }

  /** The save request: an update of the edited id, otherwise an insert. */
  function SaveRequest(editingId: Option<string>, f: FormData): Request
  {
    if Editing(editingId) then Update(editingId.value, ToPayload(f)) else Insert(ToPayload(f))
  }

  lemma SaveRequestChoice(editingId: Option<string>, f: FormData)
    ensures SaveRequest(editingId, f).Update? <==> editingId.Some? && editingId.value != ""
    ensures SaveRequest(editingId, f).Update? ==> SaveRequest(editingId, f).id == editingId.value
    ensures SaveRequest(editingId, f).payload == ToPayload(f)
  {
  }

  class AdminAnnouncements {
    var announcements: seq<Announcement>
    var loading: bool
    var showForm: bool
    var editingId: Option<string>
    var saving: bool
    var form: FormData
    /** Remote requests so far. */
    ghost var requests: seq<Request>

    /** Mounting: the initial state, and the effect's `fetchData()` sends the first select. */
    constructor ()
      ensures announcements == [] && loading && !showForm && editingId == None && !saving
      ensures form == EmptyForm && requests == [Refetch]
    {
      announcements := [];
      loading := true;
      showForm := false;
      editingId := None;
      saving := false;
      form := EmptyForm;
      requests := [Refetch];
    }

    /** `fetchData` returns: the rows (`null` read as none), or nothing if the call threw. */
    method ApplyFetch(f: Fetch<Announcement>)
      modifies this
      ensures announcements == (if f.Rows? then f.rows else []) && !loading
      ensures showForm == old(showForm) && editingId == old(editingId) && saving == old(saving)
      ensures form == old(form) && requests == old(requests)
    {
      announcements := if f.Rows? then f.rows else [];
      loading := false;
    }

    /** `resetForm`: default fields, no edited item, form hidden. */
    method ResetForm()
      modifies this
      ensures form == EmptyForm && editingId == None && !showForm
      ensures announcements == old(announcements) && loading == old(loading) && saving == old(saving)
      ensures requests == old(requests)
    {
      form := EmptyForm;
      editingId := None;
      showForm := false;
    }

    /** The "new announcement" button: a reset form, shown. */
    method OpenNew()
      modifies this
      ensures form == EmptyForm && editingId == None && showForm
      ensures announcements == old(announcements) && loading == old(loading) && saving == old(saving)
      ensures requests == old(requests)
    {
      ResetForm();
      showForm := true;
    }

    /** A field of the form is edited. */
    method Edit(f: FormData)
      modifies this
      ensures form == f
      ensures showForm == old(showForm) && editingId == old(editingId) && saving == old(saving)
      ensures announcements == old(announcements) && loading == old(loading) && requests == old(requests)
    {
      form := f;
    }

    /** `handleEdit(item)`: the item's fields in the form, its id as the edited one, form shown. */
    method HandleEdit(item: Announcement)
      modifies this
      ensures form == FormOf(item) && editingId == Some(item.id) && showForm
      ensures announcements == old(announcements) && loading == old(loading) && saving == old(saving)
      ensures requests == old(requests)
    {
      form := FormOf(item);
      editingId := Some(item.id);
      showForm := true;
    }

    /**
     * `handleSubmit` up to the await. The form is on screen and its button is
     * not disabled by a save in flight; unless the browser refuses the form,
     * `saving` is set and the save request is sent.
     */
    method StartSubmit()
      requires showForm && !saving
      modifies this
      ensures !Submittable(old(form)) ==> saving == old(saving) && requests == old(requests)
      ensures Submittable(old(form)) ==>
        saving && requests == old(requests) + [SaveRequest(old(editingId), old(form))]
      ensures form == old(form) && editingId == old(editingId) && showForm == old(showForm)
      ensures announcements == old(announcements) && loading == old(loading)
    {
      if !Submittable(form) {
        return;
      }
      saving := true;
      requests := requests + [SaveRequest(editingId, form)];
    }

    /**
     * The save returns (its result is not looked at): saving ends, the form
     * is reset and hidden, and the list is fetched again.
     */
    method FinishSubmit()
      requires saving
      modifies this
      ensures !saving && form == EmptyForm && editingId == None && !showForm
      ensures loading && requests == old(requests) + [Refetch]
      ensures announcements == old(announcements)
    {
      saving := false;
      ResetForm();
      loading := true;
      requests := requests + [Refetch];
    }

    /** `handleDelete(id)`: only a confirmed deletion is sent, followed by a refetch. */
    method HandleDelete(id: string, confirmed: bool)
      modifies this
      ensures !confirmed ==> requests == old(requests) && loading == old(loading)
      ensures confirmed ==> requests == old(requests) + [Delete(id), Refetch] && loading
      ensures announcements == old(announcements) && form == old(form) && editingId == old(editingId)
      ensures showForm == old(showForm) && saving == old(saving)
    {
      if !confirmed {
        return;
      }
      requests := requests + [Delete(id)];
      loading := true;
      requests := requests + [Refetch];
    }

    /** `handleTogglePin(id, currentPin)`: writes the negated pin, then refetches. */
    method HandleTogglePin(id: string, currentPin: bool)
      modifies this
      ensures requests == old(requests) + [SetPinned(id, !currentPin), Refetch] && loading
      ensures announcements == old(announcements) && form == old(form) && editingId == old(editingId)
      ensures showForm == old(showForm) && saving == old(saving)
    {
      requests := requests + [SetPinned(id, !currentPin)];
      loading := true;
      requests := requests + [Refetch];
    }
  }

  /**
   * Editing an item and submitting the unchanged form sends an update of
   * that item carrying its own fields.
   */
  method EditAndSave(page: AdminAnnouncements, item: Announcement)
    requires !page.saving
    requires item.id != "" && item.title != "" && item.content != ""
    modifies page
    ensures page.requests == old(page.requests) + [Update(item.id, ToPayload(FormOf(item))), Refetch]
    ensures !page.showForm && page.editingId == None && !page.saving
  {
    page.HandleEdit(item);
    page.StartSubmit();
    page.FinishSubmit();
  }
}
