/** The bid management page: the search and status filter over the loaded
    bids, and the per-status counts on its tabs. */
module BidsPage {
  import opened Wrappers
  import opened Seqs
  import opened Text
  import opened Numeric
  import opened Schema

  /** The search test: the project name, contractor name or notes contain the
      query ignoring case, or the amount's text (as the API sends a
      `numeric(12, 2)`) contains it as typed. Every bid passes an empty query. */
  predicate MatchesSearch(b: BidView, q: string) {
    q == "" ||
    (b.project.Some? && IContains(b.project.value.name, q)) ||
    (b.contractor.Some? && IContains(b.contractor.value.name, q)) ||
    (b.bid.bidAmount.Some? && Contains(CentsToText(b.bid.bidAmount.value), q)) ||
    (b.bid.notes.Some? && b.bid.notes.value != "" && IContains(b.bid.notes.value, q))
  }

  /** `bid.status === status`: a bid without status equals no filter value. */
  predicate HasStatus(b: BidView, status: string) {
    b.bid.status.Some? && BidStatusName(b.bid.status.value) == status
  }

  /** The status test: 'all' passes every bid. */
  predicate MatchesStatus(b: BidView, statusFilter: string) {
    statusFilter == "all" || HasStatus(b, statusFilter)
  }

  function Shown(q: string, statusFilter: string): BidView -> bool {
    (b: BidView) => MatchesSearch(b, q) && MatchesStatus(b, statusFilter)
  }

  function StatusIs(status: string): BidView -> bool {
    (b: BidView) => HasStatus(b, status)
  }

  /** `filteredBids`: `None` while the bids are not loaded; otherwise the bids
      passing both tests, in their order. */
  function FilteredBids(bids: Option<seq<BidView>>, q: string, statusFilter: string): (r: Option<seq<BidView>>)
    ensures r.None? <==> bids.None?
    ensures r.Some? ==> IsSubsequence(r.value, bids.value)
    ensures r.Some? ==> forall i :: 0 <= i < |r.value| ==>
              MatchesSearch(r.value[i], q) && MatchesStatus(r.value[i], statusFilter)
    ensures r.Some? ==> forall i :: 0 <= i < |bids.value| ==>
              (MatchesSearch(bids.value[i], q) && MatchesStatus(bids.value[i], statusFilter) ==> bids.value[i] in r.value)
  {
    match bids
    case None => None
    case Some(bs) => FilterIsSubsequence(bs, Shown(q, statusFilter)); Some(Filter(bs, Shown(q, statusFilter)))
  }

  /** With no query and the 'all' tab, every bid is listed. */
  lemma NoFilterShowsAll(bids: seq<BidView>)
    ensures FilteredBids(Some(bids), "", "all") == Some(bids)
  {
    FilterAll(bids, Shown("", "all"));
  }

  /** `getStatusCount(status)`: 0 while loading, the number of bids for
      'all', otherwise the number with that status. */
  function StatusCount(bids: Option<seq<BidView>>, status: string): (n: nat)
    ensures bids.None? ==> n == 0
    ensures bids.Some? && status == "all" ==> n == |bids.value|
    ensures bids.Some? && status != "all" ==> n == |Filter(bids.value, StatusIs(status))|
  {
    match bids
    case None => 0
    case Some(bs) => if status == "all" then |bs| else CountWhere(bs, StatusIs(status))
  }

  /** A tab's count is the length of the list the tab shows with no query. */
  lemma StatusCountIsListLength(bids: seq<BidView>, status: string)
    ensures StatusCount(Some(bids), status) == |FilteredBids(Some(bids), "", status).value|
  {
    if status == "all" {
      NoFilterShowsAll(bids);
    } else {
      FilterCongruent(bids, StatusIs(status), Shown("", status));
    }
  }
}
