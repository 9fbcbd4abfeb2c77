/**
 * The complaint page (app/report/page.tsx): a submission form that moves
 * between idle, success and error, and returns to idle after a delay on both
 * outcomes.
 */
module ReportPage {
  import opened ComplaintTypes

  /** What the card shows. */
  datatype View = ThankYouPanel | ErrorPanel | FormView

  function ViewOf(status: FormStatus): View
  {
    match status
    case Success => ThankYouPanel
    case Error => ErrorPanel
    case Idle => FormView
  }

  /** The three statuses show three different panels; the form only when idle. */
  lemma ViewOfFaithful(a: FormStatus, b: FormStatus)
    ensures ViewOf(a) == ViewOf(b) ==> a == b
    ensures ViewOf(a) == FormView <==> a == Idle
  {
  }

  class ReportPage {
    var loading: bool
    var status: FormStatus
    var form: Draft
    /** Drafts sent to the `complaints` table so far. */
    ghost var inserts: seq<Draft>
    /** Scheduled "back to idle" timeouts that have not fired yet. */
    ghost var idleTimers: nat

    /** A timeout is pending exactly while a panel other than the form is up. */
    ghost predicate Valid()
      reads this
    {
      idleTimers == if status == Idle then 0 else 1
    }

    constructor ()
      ensures Valid()
      ensures !loading && status == Idle && form == EmptyDraft
      ensures inserts == [] && idleTimers == 0
    {
      loading := false;
      status := Idle;
      form := EmptyDraft;
      inserts := [];
      idleTimers := 0;
    }

    /** The form's fields are edited. */
    method Edit(d: Draft)
      requires Valid()
      modifies this
      ensures Valid()
      ensures form == d
      ensures loading == old(loading) && status == old(status)
      ensures inserts == old(inserts) && idleTimers == old(idleTimers)
    {
      form := d;
    }

    /**
     * `handleSubmit` up to the await. Only the shown form submits, and its
     * button is disabled while loading: loading is set and the draft is inserted.
     */
    method StartSubmit()
      requires Valid() && ViewOf(status) == FormView && !loading
      modifies this
      ensures Valid()
      ensures loading && inserts == old(inserts) + [old(form)]
      ensures status == old(status) && form == old(form) && idleTimers == old(idleTimers)
    {
      loading := true;
      inserts := inserts + [form];
    }

    /**
     * The insert returns. Loading ends; an error shows the error panel and
     * keeps the draft; success shows the thank-you panel and resets the
     * draft; both schedule the return to idle.
     */
    method FinishSubmit(failed: bool)
      requires Valid() && status == Idle && loading
      modifies this
      ensures Valid()
      ensures !loading && inserts == old(inserts)
      ensures failed ==> status == Error && form == old(form)
      ensures !failed ==> status == Success && form == EmptyDraft
      ensures idleTimers == old(idleTimers) + 1
    {
      loading := false;
      if failed {
        status := Error;
      } else {
        status := Success;
        form := EmptyDraft;
      }
      idleTimers := idleTimers + 1;
    }

    /** A scheduled timeout fires and the form returns. */
    method IdleTimerFires()
      requires Valid() && idleTimers > 0
      modifies this
      ensures Valid()
      ensures status == Idle && idleTimers == old(idleTimers) - 1
      ensures loading == old(loading) && form == old(form) && inserts == old(inserts)
    {
      status := Idle;
      idleTimers := idleTimers - 1;
    }
  }

  /**
   * A failed submission followed by its timeout brings back the form with
   * the draft the user typed, so it can be sent again.
   */
  method FailThenRetry(p: ReportPage)
    requires p.Valid() && p.status == Idle && !p.loading
    modifies p
    ensures p.Valid() && ViewOf(p.status) == FormView && p.form == old(p.form)
    ensures p.inserts == old(p.inserts) + [old(p.form), old(p.form)]
  {
    p.StartSubmit();
    p.FinishSubmit(true);
    assert ViewOf(p.status) == ErrorPanel;
    p.IdleTimerFires();
    p.StartSubmit();
    p.FinishSubmit(true);
    p.IdleTimerFires();
  }
}
