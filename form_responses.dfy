/**
 * `src/pages/FormResponses.jsx`: the submissions of one form as the admin
 * sees them. Backend submissions are turned into response rows with
 * defaults, the rows are filtered by a search text, a tier and a payment
 * status, and counted into the page's statistics.
 */
module FormResponses {
  import opened Wrappers
  import opened JsStrings
  import opened Lists

  const FreeTierName := "Gratis"
  const PendingStatus := "pending"
  const PaidStatus := "paid"

  /** The pricing tier a submission carries. */
  datatype SubmissionTier = SubmissionTier(name: string, price: int)

  /** A submission as the backend lists it; `""` stands for an absent attribute. */
  datatype Submission = Submission(
    id: int, createdAt: string, data: seq<(string, string)>, pricingTier: Option<SubmissionTier>,
    paymentStatus: string, paymentMethod: string, affiliateCode: string)

  /** A response row of the page. */
  datatype Response = Response(
    id: int, submittedAt: string, data: seq<(string, string)>, tier: string, amount: int,
    paymentStatus: string, paymentMethod: Option<string>, affiliateCode: Option<string>)

  /**
   * The submission transform: the tier name defaults to `Gratis`, the
   * amount to 0 and the payment status to `pending`; method and affiliate
   * code become null when empty.
   */
  function ToResponse(s: Submission): (r: Response)
    ensures r.id == s.id && r.submittedAt == s.createdAt && r.data == s.data
    ensures r.tier != "" && r.paymentStatus != ""
    ensures s.pricingTier.None? ==> r.tier == FreeTierName && r.amount == 0
    ensures s.pricingTier.Some? ==>
      r.amount == s.pricingTier.value.price
      && r.tier == (if s.pricingTier.value.name != "" then s.pricingTier.value.name else FreeTierName)
    ensures r.paymentStatus == if s.paymentStatus != "" then s.paymentStatus else PendingStatus
    ensures r.paymentMethod.Some? <==> s.paymentMethod != ""
    ensures r.affiliateCode.Some? <==> s.affiliateCode != ""
  {
    var tier := if s.pricingTier.Some? && s.pricingTier.value.name != "" then s.pricingTier.value.name else FreeTierName;
    var amount := if s.pricingTier.Some? then s.pricingTier.value.price else 0;
    Response(s.id, s.createdAt, s.data, tier, amount,
      if s.paymentStatus != "" then s.paymentStatus else PendingStatus,
      if s.paymentMethod != "" then Some(s.paymentMethod) else None,
      if s.affiliateCode != "" then Some(s.affiliateCode) else None)
  }

  /** A submission without a status, or without a tier, is counted as pending, or as free. */
  lemma DefaultsCounted(s: Submission)
    ensures s.paymentStatus == "" ==> ToResponse(s).paymentStatus == PendingStatus
    ensures s.pricingTier.None? ==> IsFreeRow(ToResponse(s))
  {
  }

  // ----- filteredResponses -----

  /** Some data value contains the query, ignoring (ASCII) case. */
  predicate MatchesSearch(r: Response, query: string)
  {
    exists i :: 0 <= i < |r.data| && Contains(Lower(r.data[i].1), Lower(query))
  }

  /**
   * One response passes the page's filters: the search (when non-empty),
   * the tier filter (`free` drops paid rows, `paid` drops free rows) and
   * the payment status filter (anything but `all` must match exactly).
   */
  predicate Passes(r: Response, query: string, tierFilter: string, statusFilter: string)
  {
    (query != "" ==> MatchesSearch(r, query))
    && !(tierFilter == "free" && r.amount > 0)
    && !(tierFilter == "paid" && r.amount == 0)
    && (statusFilter != "all" ==> r.paymentStatus == statusFilter)
  }

  /** `filteredResponses`. */
  function Filtered(responses: seq<Response>, query: string, tierFilter: string, statusFilter: string): (r: seq<Response>)
    ensures IsSubsequence(r, responses)
    ensures forall x :: x in r <==> x in responses && Passes(x, query, tierFilter, statusFilter)
  {
    KeepSubsequence(responses, x => Passes(x, query, tierFilter, statusFilter));
    Keep(responses, x => Passes(x, query, tierFilter, statusFilter))
  }

  /** With no search and both filters at `all`, every response is shown. */
  lemma UnfilteredShowsAll(responses: seq<Response>)
    ensures Filtered(responses, "", "all", "all") == responses
  {
    KeepAll(responses, x => Passes(x, "", "all", "all"));
  }

  /** The tier filters split the rows: a row passes `free` or `paid`, never both. */
  lemma TierFiltersPartition(r: Response)
    ensures Passes(r, "", "free", "all") != Passes(r, "", "paid", "all") || r.amount < 0
  {
  }

  // ----- stats -----

  predicate IsFreeRow(r: Response) { r.amount == 0 }
  predicate IsPaidRow(r: Response) { r.amount > 0 && r.paymentStatus == PaidStatus }
  predicate IsPendingRow(r: Response) { r.amount > 0 && r.paymentStatus == PendingStatus }
  predicate IsSettled(r: Response) { r.paymentStatus == PaidStatus }

  datatype Stats = Stats(total: nat, free: nat, paid: nat, pending: nat, totalRevenue: int)

  /** The amounts of the rows, added up. */
  function SumAmounts(rows: seq<Response>): int
    decreases |rows|
  {
    if rows == [] then 0 else rows[0].amount + SumAmounts(rows[1..])
  }

  /** `stats`: the counts of each filter and the revenue of the settled rows. */
  function StatsOf(responses: seq<Response>): (r: Stats)
    ensures r.total == |responses|
    ensures r.free + r.paid + r.pending <= r.total
    ensures (forall i :: 0 <= i < |responses| ==> responses[i].amount >= 0) ==> r.totalRevenue >= 0
  {
    CountsBounded(responses);
    var settled := Keep(responses, IsSettled);
    RevenueNonNegative(settled);
    assert (forall i :: 0 <= i < |responses| ==> responses[i].amount >= 0) ==>
      forall j :: 0 <= j < |settled| ==> settled[j].amount >= 0 by {
      forall j | 0 <= j < |settled| ensures settled[j] in responses {
        assert settled[j] in settled;
      }
    }
    Stats(|responses|, |Keep(responses, IsFreeRow)|, |Keep(responses, IsPaidRow)|,
      |Keep(responses, IsPendingRow)|, SumAmounts(Keep(responses, IsSettled)))
  }

  /** The free, paid and pending counts never exceed the total: no row is counted twice. */
  lemma {:induction false} CountsBounded(responses: seq<Response>)
    ensures |Keep(responses, IsFreeRow)| + |Keep(responses, IsPaidRow)| + |Keep(responses, IsPendingRow)| <= |responses|
    decreases |responses|
  {
    if responses != [] {
      CountsBounded(responses[1..]);
      var x := responses[0];
      assert Keep(responses, IsFreeRow) == (if IsFreeRow(x) then [x] else []) + Keep(responses[1..], IsFreeRow);
      assert Keep(responses, IsPaidRow) == (if IsPaidRow(x) then [x] else []) + Keep(responses[1..], IsPaidRow);
      assert Keep(responses, IsPendingRow) == (if IsPendingRow(x) then [x] else []) + Keep(responses[1..], IsPendingRow);
    }
  }

  lemma {:induction false} RevenueNonNegative(rows: seq<Response>)
    ensures (forall i :: 0 <= i < |rows| ==> rows[i].amount >= 0) ==> SumAmounts(rows) >= 0
    decreases |rows|
  {
    if rows != [] {
      RevenueNonNegative(rows[1..]);
      if forall i :: 0 <= i < |rows| ==> rows[i].amount >= 0 {
        assert forall i :: 0 <= i < |rows[1..]| ==> rows[1..][i].amount == rows[i + 1].amount;
      }
    }
  }

  /** Revenue counts only settled rows: adding an unsettled row leaves it unchanged. */
  lemma {:induction false} RevenueIgnoresUnsettled(responses: seq<Response>, x: Response)
    requires x.paymentStatus != PaidStatus
    ensures StatsOf(responses + [x]).totalRevenue == StatsOf(responses).totalRevenue
  {
    KeepAppend(responses, [x], IsSettled);
    assert Keep([x], IsSettled) == [] + Keep([], IsSettled);
    assert Keep(responses + [x], IsSettled) == Keep(responses, IsSettled);
  }
}
