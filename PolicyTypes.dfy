/**
 * The `Policy` record of types/index.ts and the optimistic vote increment
 * that both policy-voting handlers apply to their displayed list.
 */
module PolicyTypes {
  import opened Common

  /** The three statuses a policy can have. */
  datatype PolicyStatus = Pending | InProgress | Completed
  {
    /** The string stored in the database column and compared by the pages. */
    function Name(): (s: string)
      ensures s in {"pending", "in_progress", "completed"}
    {
      match this
      case Pending => "pending"
      case InProgress => "in_progress"
      case Completed => "completed"
    }
  }

  lemma StatusNameInjective(a: PolicyStatus, b: PolicyStatus)
    ensures a.Name() == b.Name() <==> a == b
  {
  }

  /**
   * A policy. `votes` is not declared in types/index.ts but every page reads
   * it; rows may lack it, so it is optional.
   */
  datatype Policy = Policy(
    id: int,
    title: string,
    description: string,
    category: string,
    status: PolicyStatus,
    progress: int,
    imageUrl: Option<string>,
    votes: Option<int>)

  /** The policy with one more vote; a missing count counts as 0. */
  function Bumped(p: Policy): (q: Policy)
    ensures q.votes == Some(OrZero(p.votes) + 1)
    ensures q.(votes := p.votes) == p
  {
    p.(votes := Some(OrZero(p.votes) + 1))
  }

  /** The displayed vote count, `policy.votes || 0`. */
  function Shown(p: Policy): int { OrZero(p.votes) }

  /** No two policies of the list share an id. */
  predicate UniqueIds(ps: seq<Policy>)
  {
    forall i, j :: 0 <= i < j < |ps| ==> ps[i].id != ps[j].id
  }

  predicate HasId(ps: seq<Policy>, id: int)
  {
    exists i :: 0 <= i < |ps| && ps[i].id == id
  }

  /**
   * `prev.map(p => p.id === id ? {...p, votes: (p.votes || 0) + 1} : p)`:
   * every policy with the given id gains one vote and nothing else changes.
   */
  function IncrementWhere(ps: seq<Policy>, id: int): (r: seq<Policy>)
    ensures |r| == |ps|
    ensures forall i :: 0 <= i < |ps| && ps[i].id == id ==> r[i] == Bumped(ps[i])
    ensures forall i :: 0 <= i < |ps| && ps[i].id != id ==> r[i] == ps[i]
  {
    if ps == [] then []
    else [if ps[0].id == id then Bumped(ps[0]) else ps[0]] + IncrementWhere(ps[1..], id)
  }

  /** The sum of the displayed counts. */
  function TotalShown(ps: seq<Policy>): int
  {
    if ps == [] then 0 else Shown(ps[0]) + TotalShown(ps[1..])
  }

  /** Number of policies carrying the id. */
  function Occurrences(ps: seq<Policy>, id: int): (n: nat)
    ensures n <= |ps|
    ensures n == 0 <==> !HasId(ps, id)
  {
    if ps == [] then 0
    else
      var rest := Occurrences(ps[1..], id);
      assert HasId(ps[1..], id) ==> HasId(ps, id) by {
        if HasId(ps[1..], id) {
          var i :| 0 <= i < |ps[1..]| && ps[1..][i].id == id;
          assert ps[i + 1].id == id;
        }
      }
      assert HasId(ps, id) && ps[0].id != id ==> HasId(ps[1..], id) by {
        if HasId(ps, id) && ps[0].id != id {
          var i :| 0 <= i < |ps| && ps[i].id == id;
          assert ps[1..][i - 1].id == id;
        }
      }
      (if ps[0].id == id then 1 else 0) + rest
  }

  /** The increment adds to the total exactly one vote per matching policy. */
  lemma {:induction false} TotalAfterIncrement(ps: seq<Policy>, id: int)
    ensures TotalShown(IncrementWhere(ps, id)) == TotalShown(ps) + Occurrences(ps, id)
  {
    if ps != [] {
      var r := IncrementWhere(ps, id);
      assert r[1..] == IncrementWhere(ps[1..], id);
      TotalAfterIncrement(ps[1..], id);
    }
  }

  /** An id that no policy carries leaves the list exactly as it was. */
  lemma IncrementAbsent(ps: seq<Policy>, id: int)
    requires !HasId(ps, id)
    ensures IncrementWhere(ps, id) == ps
  {
  }

  /**
   * With unique ids (the database key), voting for a listed id changes
   * exactly one policy, only in its count, by exactly one; the total rises by one.
   */
  lemma IncrementUnique(ps: seq<Policy>, id: int, k: int)
    requires UniqueIds(ps) && 0 <= k < |ps| && ps[k].id == id
    ensures var r := IncrementWhere(ps, id);
      && Shown(r[k]) == Shown(ps[k]) + 1
      && r[k].(votes := ps[k].votes) == ps[k]
      && (forall j :: 0 <= j < |ps| && j != k ==> r[j] == ps[j])
      && TotalShown(r) == TotalShown(ps) + 1
  {
    TotalAfterIncrement(ps, id);
    UniqueOccursOnce(ps, id, k);
  }

  lemma {:induction false} UniqueOccursOnce(ps: seq<Policy>, id: int, k: int)
    requires UniqueIds(ps) && 0 <= k < |ps| && ps[k].id == id
    ensures Occurrences(ps, id) == 1
  {
    if k == 0 {
      assert !HasId(ps[1..], id) by {
        forall i | 0 <= i < |ps[1..]| ensures ps[1..][i].id != id {
          assert ps[1..][i] == ps[i + 1];
        }
      }
    } else {
      assert ps[1..][k - 1] == ps[k];
      UniqueOccursOnce(ps[1..], id, k - 1);
    }
  }
}
