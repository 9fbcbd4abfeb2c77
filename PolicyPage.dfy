/**
 * The policy tracker page (app/policy/page.tsx): the per-device vote ledger
 * persisted in local storage, the fetch fallback and the status text.
 */
module PolicyPage {
  import opened Common
  import opened PolicyTypes

  /** The local-storage key under which the voted ids are kept. */
  const VotedKey := "genz_voted_policies"

  /** The two policies shown when the table is empty. */
  function MockPolicies(): seq<Policy>
  {
    [ Policy(1, "ซ่อมพัดลมอาคาร 5", "ดำเนินการซ่อมพัดลมที่ชำรุด 12 ตัว", "อาคารสถานที่",
             Completed, 100, None, Some(45)),
      Policy(2, "เพิ่มปลั๊กไฟโรงอาหาร", "ติดตั้งจุดชาร์จไฟเพิ่ม 20 จุด", "โครงสร้างพื้นฐาน",
             InProgress, 60, None, Some(82)) ]
  }

  /** The single policy shown when the query fails. */
  function OfflinePolicies(): seq<Policy>
  {
    [ Policy(1, "ซ่อมพัดลมอาคาร 5 (Offline Mode)", "ดำเนินการซ่อมพัดลมที่ชำรุด 12 ตัว", "อาคารสถานที่",
             Completed, 100, None, Some(45)) ]
  }

  /**
   * The list the page shows after its initial query: fetched rows as they
   * are, two mock policies for an empty table, one offline policy on error.
   * Whatever happens the page never ends up with an empty list, and the
   * fallback lists have distinct ids, so the vote ledger's
   * "exactly one policy changes" guarantee applies to them.
   */
  function ChoosePolicies(f: Fetch<Policy>): seq<Policy>
  {
    match f
    case Rows(rows) => if |rows| > 0 then rows else MockPolicies()
    case FetchError => OfflinePolicies()
  }

  lemma ChoosePoliciesFallback(f: Fetch<Policy>)
    ensures f.Rows? && f.rows != [] ==> ChoosePolicies(f) == f.rows
    ensures f.Rows? && f.rows == [] ==> ChoosePolicies(f) == MockPolicies()
    ensures f.FetchError? ==> ChoosePolicies(f) == OfflinePolicies()
    ensures ChoosePolicies(f) != []
    ensures f.FetchError? || f.rows == [] ==> UniqueIds(ChoosePolicies(f))
  {
  }

  /** The voted ids restored on mount: the stored list if there is one, otherwise none. */
  function RestoredIds(saved: Option<seq<int>>): (ids: seq<int>)
    ensures saved.Some? ==> ids == saved.value
    ensures saved.None? ==> ids == []
  {
    match saved
    case Some(ids) => ids
    case None => []
  }

  /** `getStatusText`. */
  function StatusText(status: string): string
  {
    match status
    case "completed" => "สำเร็จแล้ว"
    case "in_progress" => "กำลังดำเนินการ"
    case _ => "รอดำเนินการ"
  }

  /**
   * The status text is a total map that tells the three statuses apart; any
   * string other than the two named ones, "pending" included, gets the
   * default text.
   */
  lemma StatusTextFaithful(s: PolicyStatus, other: string)
    requires other != "completed" && other != "in_progress"
    ensures StatusText(other) == StatusText(Pending.Name()) == "รอดำเนินการ"
    ensures StatusText(Completed.Name()) == "สำเร็จแล้ว"
    ensures StatusText(InProgress.Name()) == "กำลังดำเนินการ"
    ensures forall t: PolicyStatus :: StatusText(t.Name()) == StatusText(s.Name()) ==> t == s
  {
  }

  /** The vote button's caption: thanks once this device has voted for the policy. */
  function VoteCaption(votedIds: seq<int>, id: int): string
  {
    if id in votedIds then "ขอบคุณที่โหวต" else "โหวตนโยบายนี้"
  }

  /** `disabled={votedIds.includes(policy.id)}`. */
  predicate VoteDisabled(votedIds: seq<int>, id: int)
  {
    id in votedIds
  }

  /**
   * A button is disabled exactly when it thanks the voter; a vote turns its
   * own button into the thanks caption and leaves every other button as it was.
   */
  lemma CaptionAgrees(votedIds: seq<int>, id: int, other: int)
    ensures VoteDisabled(votedIds, id) <==> VoteCaption(votedIds, id) == "ขอบคุณที่โหวต"
    ensures !VoteDisabled(votedIds, id) <==> VoteCaption(votedIds, id) == "โหวตนโยบายนี้"
    ensures VoteCaption(votedIds + [id], id) == "ขอบคุณที่โหวต" && VoteDisabled(votedIds + [id], id)
    ensures other != id ==> VoteCaption(votedIds + [id], other) == VoteCaption(votedIds, other)
  {
  }

  class PolicyPage {
    var policies: seq<Policy>
    var loading: bool
    var votedIds: seq<int>
    /** The local-storage entry under `VotedKey` (its JSON text abstracted as the list). */
    var stored: Option<seq<int>>
    /** Remote writes requested so far, in order. */
    ghost var requests: seq<VoteWrite>

    /**
     * The in-memory voted list agrees with the stored one; before the first
     * vote on a device with no entry both are empty.
     */
    ghost predicate Valid()
      reads this
    {
      stored == Some(votedIds) || (stored.None? && votedIds == [])
    }

    /** Mounting the page: the voted list is restored from `saved`, the list is loading. */
    constructor (saved: Option<seq<int>>)
      ensures Valid()
      ensures policies == [] && loading
      ensures votedIds == RestoredIds(saved) && stored == saved
      ensures requests == []
    {
      policies := [];
      loading := true;
      votedIds := RestoredIds(saved);
      stored := saved;
      requests := [];
    }

    /** The initial query returns: the chosen list is shown and loading ends. */
    method ApplyFetch(f: Fetch<Policy>)
      requires Valid()
      modifies this
      ensures Valid()
      ensures policies == ChoosePolicies(f) && !loading
      ensures votedIds == old(votedIds) && stored == old(stored) && requests == old(requests)
    {
      policies := ChoosePolicies(f);
      loading := false;
    }

    /**
     * `handleVote(id, currentVotes)`. A repeat vote changes nothing. A first
     * vote adds one to the matching policy, appends the id to the voted list,
     * stores that list and requests the remote count `(currentVotes || 0) + 1`.
     * The remote outcome is never inspected, so nothing depends on it.
     */
    method HandleVote(id: int, currentVotes: Option<int>)
      requires Valid()
      modifies this
      ensures Valid()
      ensures old(id in votedIds) ==>
        policies == old(policies) && votedIds == old(votedIds) &&
        stored == old(stored) && requests == old(requests)
      ensures !old(id in votedIds) ==>
        && policies == IncrementWhere(old(policies), id)
        && votedIds == old(votedIds) + [id]
        && stored == Some(votedIds)
        && requests == old(requests) + [VoteWrite("policies", id, OrZero(currentVotes) + 1)]
      ensures loading == old(loading)
      ensures id in votedIds && VoteCaption(votedIds, id) == "ขอบคุณที่โหวต"
    {
      if id in votedIds {
        return;
      }
      policies := IncrementWhere(policies, id);
      var newVotedIds := votedIds + [id];
      votedIds := newVotedIds;
      stored := Some(newVotedIds);
      requests := requests + [VoteWrite("policies", id, OrZero(currentVotes) + 1)];
    }
  }

  /**
   * Voting twice for the same policy from one device has the effect of
   * voting once: one increment, one stored id, one remote request.
   */
  method VoteTwice(p: PolicyPage, id: int, c1: Option<int>, c2: Option<int>)
    requires p.Valid() && id !in p.votedIds
    modifies p
    ensures p.Valid()
    ensures p.policies == IncrementWhere(old(p.policies), id)
    ensures p.votedIds == old(p.votedIds) + [id]
    ensures p.requests == old(p.requests) + [VoteWrite("policies", id, OrZero(c1) + 1)]
  {
    p.HandleVote(id, c1);
    p.HandleVote(id, c2);
  }

  /**
   * The ledger survives a reload: a page mounted from what the first page
   * stored sees the vote and treats a second vote as a no-op.
   */
  method VoteThenReload(p: PolicyPage, id: int, c: Option<int>) returns (q: PolicyPage)
    requires p.Valid()
    modifies p
    ensures fresh(q) && q.Valid()
    ensures id in q.votedIds && q.votedIds == p.votedIds
    ensures q.requests == [] && q.policies == []
  {
    p.HandleVote(id, c);
    q := new PolicyPage(p.stored);
    q.HandleVote(id, c);
  }
}
