/**
 * The admin notification bell (components/admin/NotificationBell.tsx): the
 * at most five newest pending complaints, the badge over the bell, and the
 * dropdown's open and close rules.
 */
module NotificationBell {
  import opened Common
  import opened Decimal
  import opened ComplaintTypes

  /** The query's `.limit(5)`. */
  const PageSize := 5

  /** What the query returns: rows, no data, or an error (thrown and caught). */
  datatype Reply = Data(rows: seq<Complaint>) | NoData | Failed

  /** The first `n` rows, as `.limit(n)` returns them. */
  function Take<T>(s: seq<T>, n: nat): (r: seq<T>)
    ensures |r| <= n && r <= s
    ensures |s| <= n ==> r == s
    ensures |s| > n ==> |r| == n
  {
    if |s| <= n then s else s[..n]
  }

  /** The badge over the bell: none for an empty list, "9+" above nine, else the count. */
  function BadgeLabel(n: nat): Option<string>
  {
    if n == 0 then None else if n > 9 then Some("9+") else Some(ToDecimal(n))
  }

  /** The badge is shown exactly for a non-empty list, and up to nine it reads back as the count. */
  lemma BadgeLabelFaithful(n: nat)
    ensures BadgeLabel(n).None? <==> n == 0
    ensures n > 9 ==> BadgeLabel(n) == Some("9+")
    ensures 1 <= n <= 9 ==> (|BadgeLabel(n).value| == 1 && AllDigits(BadgeLabel(n).value) &&
      Value(BadgeLabel(n).value) == n)
  {
    if 1 <= n <= 9 {
      ValueOfToDecimal(n);
    }
  }

  class NotificationBell {
    var complaints: seq<Complaint>
    var loading: bool
    var isOpen: bool
    /** Queries started so far. */
    ghost var fetches: nat

    /** The list holds at most one page of the query. */
    predicate Valid()
      reads this
    {
      |complaints| <= PageSize
    }

    /** Mounting starts the first fetch. */
    constructor ()
      ensures Valid() && complaints == [] && loading && !isOpen && fetches == 1
    {
      complaints := [];
      loading := true;
      isOpen := false;
      fetches := 1;
    }

    /** `fetchPendingComplaints` up to its await. */
    method StartFetch()
      modifies this
      ensures loading && fetches == old(fetches) + 1
      ensures complaints == old(complaints) && isOpen == old(isOpen)
    {
      loading := true;
      fetches := fetches + 1;
    }

    /** The one-minute interval fires. */
    method IntervalFires()
      modifies this
      ensures loading && fetches == old(fetches) + 1
      ensures complaints == old(complaints) && isOpen == old(isOpen)
    {
      StartFetch();
    }

    /**
     * The query for the pending complaints, newest first, returns. Rows
     * replace the list (cut to one page); no data or an error keeps it.
     * `loading` ends false either way.
     */
    method ApplyFetch(reply: Reply)
      requires Valid()
      modifies this
      ensures Valid() && !loading
      ensures complaints == if reply.Data? then Take(reply.rows, PageSize) else old(complaints)
      ensures isOpen == old(isOpen) && fetches == old(fetches)
    {
      if reply.Data? {
        complaints := Take(reply.rows, PageSize);
      }
      loading := false;
    }

    /** The bell is clicked: the dropdown flips, and opening it refetches. */
    method ToggleDropdown()
      modifies this
      ensures isOpen == !old(isOpen)
      ensures old(isOpen) ==> fetches == old(fetches) && loading == old(loading)
      ensures !old(isOpen) ==> fetches == old(fetches) + 1 && loading
      ensures complaints == old(complaints)
    {
      var wasOpen := isOpen;
      isOpen := !isOpen;
      if !wasOpen {
        StartFetch();
      }
    }

    /** A mouse press anywhere on the document; one outside the bell and its dropdown closes it. */
    method MouseDown(inside: bool)
      modifies this
      ensures isOpen == (old(isOpen) && inside)
      ensures complaints == old(complaints) && loading == old(loading) && fetches == old(fetches)
    {
      if !inside {
        isOpen := false;
      }
    }

    /** An item link or the "see all" link is followed. */
    method CloseViaLink()
      modifies this
      ensures !isOpen
      ensures complaints == old(complaints) && loading == old(loading) && fetches == old(fetches)
    {
      isOpen := false;
    }
  }

  /** With one page of at most five rows the badge never reads "9+". */
  lemma BadgeWithinPage(n: nat)
    requires n <= PageSize
    ensures BadgeLabel(n) != Some("9+")
  {
    if n > 0 {
      assert BadgeLabel(n) == Some(ToDecimal(n));
      assert |ToDecimal(n)| == 1;
    }
  }

  /** Clicking the bell twice leaves the dropdown as it was and runs exactly one query. */
  method ToggleTwice(bell: NotificationBell)
    modifies bell
    ensures bell.isOpen == old(bell.isOpen) && bell.fetches == old(bell.fetches) + 1
    ensures bell.complaints == old(bell.complaints)
  {
    bell.ToggleDropdown();
    bell.ToggleDropdown();
  }
}
