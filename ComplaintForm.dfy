/**
 * The home-page complaint form (components/home/ComplaintForm.tsx). It
 * differs from the complaint page on the error path: the form stays on
 * screen with its data and no return to idle is scheduled.
 */
module ComplaintForm {
  import opened ComplaintTypes

  /** Only a success replaces the form by the thank-you panel. */
  predicate FormShown(status: FormStatus)
  {
    status != Success
  }

  class ComplaintForm {
    var loading: bool
    var status: FormStatus
    var form: Draft
    /** Drafts sent to the `complaints` table so far. */
    ghost var inserts: seq<Draft>
    /** Scheduled "back to idle" timeouts that have not fired yet. */
    ghost var idleTimers: nat

    /** A timeout is pending exactly while the thank-you panel is up. */
    ghost predicate Valid()
      reads this
    {
      idleTimers == if status == Success then 1 else 0
    }

    constructor ()
      ensures Valid()
      ensures !loading && status == Idle && form == EmptyDraft
      ensures inserts == [] && idleTimers == 0
    {
      loading := false;
      status := Idle;
      form := EmptyDraft;
      inserts := [];
      idleTimers := 0;
    }

    method Edit(d: Draft)
      requires Valid()
      modifies this
      ensures Valid()
      ensures form == d
      ensures loading == old(loading) && status == old(status)
      ensures inserts == old(inserts) && idleTimers == old(idleTimers)
    {
      form := d;
    }

    /**
     * `handleSubmit` up to the await. Only the shown form submits, and its
     * button is disabled while loading: loading is set and the draft is inserted.
     */
    method StartSubmit()
      requires Valid() && FormShown(status) && !loading
      modifies this
      ensures Valid()
      ensures loading && inserts == old(inserts) + [old(form)]
      ensures status == old(status) && form == old(form) && idleTimers == old(idleTimers)
    {
      loading := true;
      inserts := inserts + [form];
    }

    /**
     * The insert returns. Loading ends. An error sets status error, keeps the
     * draft and schedules nothing; success resets the draft and schedules
     * the return to idle.
     */
    method FinishSubmit(failed: bool)
      requires Valid() && FormShown(status) && loading
      modifies this
      ensures Valid()
      ensures !loading && inserts == old(inserts)
      ensures failed ==> status == Error && form == old(form) && idleTimers == 0
      ensures !failed ==> status == Success && form == EmptyDraft && idleTimers == 1
    {
      loading := false;
      if failed {
        status := Error;
      } else {
        status := Success;
        form := EmptyDraft;
        idleTimers := idleTimers + 1;
      }
    }

    /** The scheduled timeout fires. */
    method IdleTimerFires()
      requires Valid() && idleTimers > 0
      modifies this
      ensures Valid()
      ensures status == Idle && idleTimers == old(idleTimers) - 1
      ensures loading == old(loading) && form == old(form) && inserts == old(inserts)
    {
      status := Idle;
      idleTimers := idleTimers - 1;
    }
  }

  /**
   * After a failed submission the form is still on screen with the typed
   * draft and nothing will take the status away from error until the user
   * submits again.
   */
  method FailKeepsForm(f: ComplaintForm)
    requires f.Valid() && FormShown(f.status) && !f.loading
    modifies f
    ensures f.Valid() && FormShown(f.status) && f.status == Error
    ensures f.form == old(f.form) && f.idleTimers == 0
  {
    f.StartSubmit();
    f.FinishSubmit(true);
  }
}
