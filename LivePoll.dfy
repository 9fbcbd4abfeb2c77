/**
 * The live poll (components/campaign/LivePoll.tsx): a list of options kept
 * up to date by realtime row updates, and an ungated vote button.
 */
module LivePoll {
  import opened Common

  datatype PollOption = PollOption(id: int, optionName: string, votes: int)

  /** A realtime change notification as the channel delivers it. */
  datatype ChangeEvent = ChangeEvent(eventType: string, schema: string, table: string, row: PollOption)

  /** The channel listens to `UPDATE` events of `public.polls` only. */
  predicate Subscribed(e: ChangeEvent)
  {
    e.eventType == "UPDATE" && e.schema == "public" && e.table == "polls"
  }

  /** The four options shown when the table is empty or the query fails. */
  function MockPolls(): seq<PollOption>
  {
    [ PollOption(1, "วิชาการ", 12), PollOption(2, "สถานที่", 25),
      PollOption(3, "กิจกรรม", 18), PollOption(4, "โปร่งใส", 40) ]
  }

  /** Fetched options if there are any, else the mock options. */
  function ChoosePolls(polls: seq<PollOption>): seq<PollOption>
  {
    if |polls| > 0 then polls else MockPolls()
  }

  lemma ChoosePollsFallback(polls: seq<PollOption>)
    ensures polls != [] ==> ChoosePolls(polls) == polls
    ensures polls == [] ==> ChoosePolls(polls) == MockPolls() && |ChoosePolls(polls)| == 4
    ensures UniqueIds(ChoosePolls(polls)) <== polls == [] || UniqueIds(polls)
  {
  }

  predicate UniqueIds(s: seq<PollOption>)
  {
    forall i, j :: 0 <= i < j < |s| ==> s[i].id != s[j].id
  }

  /**
   * `prev.map(item => item.id === row.id ? row : item)`: every option with
   * the row's id is replaced by the row, in place; the rest stay.
   */
  function ReplaceById(items: seq<PollOption>, row: PollOption): (r: seq<PollOption>)
    ensures |r| == |items|
    ensures forall i :: 0 <= i < |items| ==> r[i] == (if items[i].id == row.id then row else items[i])
  {
    if items == [] then []
    else [if items[0].id == row.id then row else items[0]] + ReplaceById(items[1..], row)
  }

  /** The ids in list order. */
  function Ids(items: seq<PollOption>): (ids: seq<int>)
    ensures |ids| == |items| && forall i :: 0 <= i < |items| ==> ids[i] == items[i].id
  {
    seq(|items|, i requires 0 <= i < |items| => items[i].id)
  }

  /** A realtime update never inserts, deletes or reorders: the ids in order are as before. */
  lemma ReplaceByIdKeepsIds(items: seq<PollOption>, row: PollOption)
    ensures Ids(ReplaceById(items, row)) == Ids(items)
  {
    var r := ReplaceById(items, row);
    forall i | 0 <= i < |items| ensures Ids(r)[i] == Ids(items)[i] {
      assert r[i].id == items[i].id;
    }
  }

  /** Options with distinct ids keep distinct ids. */
  lemma ReplaceByIdKeepsUniqueIds(items: seq<PollOption>, row: PollOption)
    requires UniqueIds(items)
    ensures UniqueIds(ReplaceById(items, row))
  {
    var r := ReplaceById(items, row);
    forall i, j | 0 <= i < j < |r| ensures r[i].id != r[j].id {
      assert r[i].id == items[i].id && r[j].id == items[j].id;
    }
  }

  /** An update for an id that is not listed changes nothing. */
  lemma ReplaceByIdUnknownId(items: seq<PollOption>, row: PollOption)
    requires row.id !in Ids(items)
    ensures ReplaceById(items, row) == items
  {
    var r := ReplaceById(items, row);
    forall i | 0 <= i < |items| ensures r[i] == items[i] {
      assert Ids(items)[i] == items[i].id;
    }
  }

  /** Applying the same payload twice is the same as applying it once. */
  lemma ReplaceByIdIdempotent(items: seq<PollOption>, row: PollOption)
    ensures ReplaceById(ReplaceById(items, row), row) == ReplaceById(items, row)
  {
    var r := ReplaceById(items, row);
    var rr := ReplaceById(r, row);
    forall i | 0 <= i < |r| ensures rr[i] == r[i] {
      assert r[i].id == items[i].id;
    }
  }

  /**
   * The displayed count of the updated option becomes the payload's count,
   * whatever it was before.
   */
  lemma ReplaceByIdShowsPayload(items: seq<PollOption>, row: PollOption, k: int)
    requires 0 <= k < |items| && items[k].id == row.id
    ensures ReplaceById(items, row)[k].votes == row.votes
    ensures ReplaceById(items, row)[k] == row
  {
  }

  class LivePoll {
    var data: seq<PollOption>
    /** Remote writes requested so far. */
    ghost var requests: seq<VoteWrite>

    constructor ()
      ensures data == [] && requests == []
    {
      data := [];
      requests := [];
    }

    /** The options query returns (`null` read as no rows). */
    method ApplyFetch(polls: seq<PollOption>)
      modifies this
      ensures data == ChoosePolls(polls) && requests == old(requests)
    {
      data := ChoosePolls(polls);
    }

    /** A change notification: subscribed updates replace by id, anything else is ignored. */
    method OnChange(e: ChangeEvent)
      modifies this
      ensures data == if Subscribed(e) then ReplaceById(old(data), e.row) else old(data)
      ensures requests == old(requests)
    {
      if Subscribed(e) {
        data := ReplaceById(data, e.row);
      }
    }

    /**
     * `handleVote(id, currentVotes)`: no per-device check and no optimistic
     * update; every call requests `currentVotes + 1` and leaves `data` alone.
     */
    method HandleVote(id: int, currentVotes: int)
      modifies this
      ensures data == old(data)
      ensures requests == old(requests) + [VoteWrite("polls", id, currentVotes + 1)]
    {
      requests := requests + [VoteWrite("polls", id, currentVotes + 1)];
    }
  }

  /**
   * Nothing stops a repeat vote: voting twice with the same shown count
   * requests the same write twice, and the list waits for the realtime update.
   */
  method VoteTwice(poll: LivePoll, id: int, currentVotes: int)
    modifies poll
    ensures poll.data == old(poll.data)
    ensures poll.requests == old(poll.requests) + [VoteWrite("polls", id, currentVotes + 1), VoteWrite("polls", id, currentVotes + 1)]
  {
    poll.HandleVote(id, currentVotes);
    poll.HandleVote(id, currentVotes);
  }
}
