/**
 * The admin complaints page (app/admin/complaints/page.tsx): the list with
 * its mock fallback, the pending/resolved toggle and its optimistic update.
 */
module ComplaintsAdmin {
  import opened Common
  import opened ComplaintTypes

  /** A remote `update({ status }).eq("id", id)` request. */
  datatype StatusWrite = StatusWrite(id: int, status: string)

  /** The two complaints shown when the table is empty; `now` is the current time as text. */
  function MockComplaints(now: string): seq<Complaint>
  {
    [ Complaint(1, now, "อาคารสถานที่", "แอร์ห้องสมุดไม่เย็น", "แอร์ตัวที่ 3 ฝั่งขวาไม่เย็นเลยครับ",
                "IG: student1", "pending", "", None),
      Complaint(2, now, "วิชาการ", "ขอเพิ่มหนังสือเตรียมสอบ",
                "อยากให้ห้องสมุดมีหนังสือเตรียมสอบ TGAT/TPAT เพิ่มครับ", "", "resolved", "", None) ]
  }

  function ChooseComplaints(rows: seq<Complaint>, now: string): seq<Complaint>
  {
    if |rows| > 0 then rows else MockComplaints(now)
  }

  /**
   * `prev.map(c => c.id === id ? {...c, status} : c)`: complaints with the id
   * get the new status and keep every other field; the rest stay.
   */
  function SetStatus(cs: seq<Complaint>, id: int, status: string): (r: seq<Complaint>)
    ensures |r| == |cs|
    ensures forall i :: 0 <= i < |cs| && cs[i].id == id ==> r[i] == cs[i].(status := status)
    ensures forall i :: 0 <= i < |cs| && cs[i].id != id ==> r[i] == cs[i]
  {
    if cs == [] then []
    else [if cs[0].id == id then cs[0].(status := status) else cs[0]] + SetStatus(cs[1..], id, status)
  }

  /** The status the row's action button sets, if the row has one. */
  function Action(status: string): Option<string>
  {
    if status == "pending" then Some("resolved")
    else if status == "resolved" then Some("pending")
    else None
  }

  /** The badge text. */
  function Badge(status: string): string
  {
    if status == "resolved" then "เสร็จสิ้น" else "รอแก้ไข"
  }

  /** The empty-state message is shown. */
  predicate ShowEmptyState(cs: seq<Complaint>, loading: bool)
  {
    |cs| == 0 && !loading
  }

  /**
   * The action rules: only pending and resolved rows have a button; it
   * flips between the two, so the offered action of the new status undoes it.
   */
  lemma ActionFlips(status: string)
    ensures Action(status).Some? <==> status == "pending" || status == "resolved"
    ensures Action(status).Some? ==> Action(status).value != status
    ensures Action(status).Some? ==> Action(Action(status).value) == Some(status)
  {
  }

  /** The badge reads "done" exactly on the rows whose button reopens them. */
  lemma BadgeMatchesAction(status: string)
    ensures Badge(status) == "เสร็จสิ้น" <==> Action(status) == Some("pending")
  {
  }

  /**
   * Pressing a row's button and then the button the row shows afterwards
   * gives back the original list; the first press changed only that row's status.
   */
  lemma {:induction false} ToggleTwiceRestores(cs: seq<Complaint>, k: int)
    requires UniqueIds(cs) && 0 <= k < |cs| && Action(cs[k].status).Some?
    ensures var once := SetStatus(cs, cs[k].id, Action(cs[k].status).value);
      && once[k].status == Action(cs[k].status).value
      && (forall j :: 0 <= j < |cs| && j != k ==> once[j] == cs[j])
      && Action(once[k].status).Some?
      && SetStatus(once, cs[k].id, Action(once[k].status).value) == cs
  {
    var id := cs[k].id;
    var t := Action(cs[k].status).value;
    var once := SetStatus(cs, id, t);
    ActionFlips(cs[k].status);
    var twice := SetStatus(once, id, Action(once[k].status).value);
    forall j | 0 <= j < |cs| ensures twice[j] == cs[j] {
      if j != k {
        assert cs[j].id != id;
      }
    }
  }

  /** After a fetch the list is never empty, so the empty-state message cannot appear. */
  lemma NoEmptyStateAfterFetch(rows: seq<Complaint>, now: string)
    ensures rows != [] ==> ChooseComplaints(rows, now) == rows
    ensures rows == [] ==> ChooseComplaints(rows, now) == MockComplaints(now)
    ensures !ShowEmptyState(ChooseComplaints(rows, now), false)
  {
  }

  class ComplaintsAdmin {
    var complaints: seq<Complaint>
    var loading: bool
    /** Remote status writes requested so far. */
    ghost var requests: seq<StatusWrite>

    constructor ()
      ensures complaints == [] && loading && requests == []
    {
      complaints := [];
      loading := true;
      requests := [];
    }

    /** `fetchComplaints` returns with `rows` (the query error is not looked at). */
    method ApplyFetch(rows: seq<Complaint>, now: string)
      modifies this
      ensures complaints == ChooseComplaints(rows, now) && !loading
      ensures requests == old(requests)
    {
      complaints := ChooseComplaints(rows, now);
      loading := false;
    }

    /**
     * `updateStatus(id, newStatus)`: the list is updated first, then the remote
     * write is requested; its result is ignored, so there is no rollback.
     */
    method UpdateStatus(id: int, newStatus: string)
      modifies this
      ensures complaints == SetStatus(old(complaints), id, newStatus)
      ensures requests == old(requests) + [StatusWrite(id, newStatus)]
      ensures loading == old(loading)
    {
      complaints := SetStatus(complaints, id, newStatus);
      requests := requests + [StatusWrite(id, newStatus)];
    }

    /** Pressing the button a row shows, if it shows one. */
    method PressAction(k: int)
      requires 0 <= k < |complaints|
      modifies this
      ensures Action(old(complaints)[k].status).None? ==>
        complaints == old(complaints) && requests == old(requests)
      ensures Action(old(complaints)[k].status).Some? ==>
        var t := Action(old(complaints)[k].status).value;
        complaints == SetStatus(old(complaints), old(complaints)[k].id, t) &&
        requests == old(requests) + [StatusWrite(old(complaints)[k].id, t)]
      ensures loading == old(loading)
    {
      var action := Action(complaints[k].status);
      if action.Some? {
        UpdateStatus(complaints[k].id, action.value);
      }
    }
  }
}
