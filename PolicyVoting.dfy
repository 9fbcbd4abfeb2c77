/**
 * The home-page voting widget (components/campaign/PolicyVoting.tsx): the
 * same optimistic vote as the policy page, but the voted list lives only in
 * memory and is empty again on every mount.
 */
module PolicyVoting {
  import opened Common
  import opened PolicyTypes

  /** The caption of a policy's vote button. */
  function VoteLabel(votedIds: seq<int>, id: int): string
  {
    if id in votedIds then "โหวตแล้ว ❤️" else "อยากได้อันนี้"
  }

  /** A policy's button is disabled exactly when this mount has voted for it. */
  function ButtonDisabled(votedIds: seq<int>, id: int): bool
  {
    id in votedIds
  }

  /** Disabled buttons, and only they, carry the "voted" caption. */
  lemma ButtonStateAgrees(votedIds: seq<int>, id: int)
    ensures ButtonDisabled(votedIds, id) <==> VoteLabel(votedIds, id) == "โหวตแล้ว ❤️"
    ensures ButtonDisabled(votedIds + [id], id)
  {
  }

  class PolicyVoting {
    var localPolicies: seq<Policy>
    var votedIds: seq<int>
    /** Remote writes requested so far. */
    ghost var requests: seq<VoteWrite>
    /** How many remote errors were written to the console. */
    ghost var errorsLogged: nat

    /** Mounting with the `policies` prop: nothing is voted yet and nothing is read from storage. */
    constructor (policies: seq<Policy>)
      ensures localPolicies == policies && votedIds == []
      ensures requests == [] && errorsLogged == 0
    {
      localPolicies := policies;
      votedIds := [];
      requests := [];
      errorsLogged := 0;
    }

    /**
     * `handleVote(id, currentVotes)` with the remote outcome `remoteFailed`.
     * A repeat vote is a no-op. A first vote increments the matching policy,
     * appends the id and requests `(currentVotes || 0) + 1`; a remote error
     * is only logged and rolls nothing back.
     */
    method HandleVote(id: int, currentVotes: Option<int>, remoteFailed: bool)
      modifies this
      ensures old(id in votedIds) ==>
        localPolicies == old(localPolicies) && votedIds == old(votedIds) &&
        requests == old(requests) && errorsLogged == old(errorsLogged)
      ensures !old(id in votedIds) ==>
        && localPolicies == IncrementWhere(old(localPolicies), id)
        && votedIds == old(votedIds) + [id]
        && requests == old(requests) + [VoteWrite("policies", id, OrZero(currentVotes) + 1)]
        && errorsLogged == old(errorsLogged) + (if remoteFailed then 1 else 0)
      ensures id in votedIds
    {
      if id in votedIds {
        return;
      }
      localPolicies := IncrementWhere(localPolicies, id);
      votedIds := votedIds + [id];
      requests := requests + [VoteWrite("policies", id, OrZero(currentVotes) + 1)];
      if remoteFailed {
        errorsLogged := errorsLogged + 1;
      }
    }
  }

  /**
   * Because nothing is stored, a remount forgets the votes: the same device
   * can vote again for the same policy and a second remote write is requested.
   */
  method VoteRemountVote(policies: seq<Policy>, id: int, c: Option<int>)
    returns (first: PolicyVoting, second: PolicyVoting)
    ensures fresh(first) && fresh(second)
    ensures first.requests == [VoteWrite("policies", id, OrZero(c) + 1)]
    ensures second.requests == [VoteWrite("policies", id, OrZero(c) + 1)]
    ensures second.localPolicies == IncrementWhere(policies, id)
  {
    first := new PolicyVoting(policies);
    first.HandleVote(id, c, false);
    second := new PolicyVoting(policies);
    second.HandleVote(id, c, false);
  }
}
