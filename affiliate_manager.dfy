/**
 * `src/pages/AffiliateManager.jsx`: the admin's withdrawal requests. A
 * decision sets the status of one request; the pending list is the
 * requests whose status is still `Pending`.
 */
module AffiliateManager {
  import opened Lists

  const PendingStatus := "Pending"

  datatype Withdrawal = Withdrawal(id: int, affiliateId: int, affiliateName: string, amount: int, status: string)

  /** The requests the page starts with. */
  const InitialWithdrawals := [
    Withdrawal(1, 2, "Citra Ceria", 2000000, PendingStatus),
    Withdrawal(2, 3, "Dedi Digital", 5000000, PendingStatus)
  ]

  /**
   * `handleWithdrawal(id, newStatus)`: the list keeps its length and order;
   * each request with that id takes the new status and nothing else
   * changes.
   */
  function HandleWithdrawal(withdrawals: seq<Withdrawal>, id: int, status: string): (r: seq<Withdrawal>)
    ensures |r| == |withdrawals|
    ensures forall i :: 0 <= i < |r| ==>
      r[i].id == withdrawals[i].id && r[i].affiliateId == withdrawals[i].affiliateId
      && r[i].affiliateName == withdrawals[i].affiliateName && r[i].amount == withdrawals[i].amount
    ensures forall i :: 0 <= i < |r| ==>
      r[i].status == (if withdrawals[i].id == id then status else withdrawals[i].status)
  {
    seq(|withdrawals|, i requires 0 <= i < |withdrawals| =>
      if withdrawals[i].id == id then withdrawals[i].(status := status) else withdrawals[i])
  }

  /** A decision on an id no request carries leaves the list as it was. */
  lemma UnknownIdUnchanged(withdrawals: seq<Withdrawal>, id: int, status: string)
    requires forall i :: 0 <= i < |withdrawals| ==> withdrawals[i].id != id
    ensures HandleWithdrawal(withdrawals, id, status) == withdrawals
  {
  }

  predicate IsPending(w: Withdrawal) { w.status == PendingStatus }

  /** `withdrawals.filter(w => w.status === 'Pending')`. */
  function Pending(withdrawals: seq<Withdrawal>): (r: seq<Withdrawal>)
    ensures forall w :: w in r <==> w in withdrawals && w.status == PendingStatus
    ensures IsSubsequence(r, withdrawals)
  {
    KeepSubsequence(withdrawals, IsPending);
    Keep(withdrawals, IsPending)
  }

  /**
   * After an approval or a rejection the request leaves the pending list,
   * and every other pending request stays in it.
   */
  lemma DecidedNotPending(withdrawals: seq<Withdrawal>, id: int, status: string)
    requires status != PendingStatus
    ensures forall w :: w in Pending(HandleWithdrawal(withdrawals, id, status)) ==> w.id != id
    ensures forall w :: w in Pending(withdrawals) && w.id != id ==> w in Pending(HandleWithdrawal(withdrawals, id, status))
  {
    var r := HandleWithdrawal(withdrawals, id, status);
    forall w | w in Pending(withdrawals) && w.id != id
      ensures w in Pending(r)
    {
      var i :| 0 <= i < |withdrawals| && withdrawals[i] == w;
      assert r[i] == w;
    }
  }
}
