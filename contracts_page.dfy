/** The contract management page: its search filter (which also looks at
    the contract's bid when the bids are loaded), the bids offered for a new
    contract, the amount conversion before a create, and the status badge. */
module ContractsPage {
  import opened Wrappers
  import opened Seqs
  import opened Text
  import opened Numeric
  import opened Schema

  function BidIdIs(id: Option<Id>): BidView -> bool {
    (b: BidView) => Some(b.bid.id) == id
  }

  /** `bids?.find(b => b.id === contract.bid_id)`: nothing while the bids are
      not loaded or when the contract has no bid. */
  function BidOf(bids: Option<seq<BidView>>, c: Contract): (r: Option<BidView>)
    ensures r.None? <==> bids.None? || forall i :: 0 <= i < |bids.value| ==> Some(bids.value[i].bid.id) != c.bidId
    ensures r.Some? ==> r.value in bids.value && Some(r.value.bid.id) == c.bidId
  {
    if bids.None? then None else Find(bids.value, BidIdIs(c.bidId))
  }

  /** A non-empty optional text contains the query ignoring case. */
  predicate TextMatches(t: Option<string>, q: string) {
    t.Some? && t.value != "" && IContains(t.value, q)
  }

  /** The contract number, the bid's project or contractor name, or the
      status contains the query ignoring case. */
  predicate MatchesSearch(c: Contract, bid: Option<BidView>, q: string) {
    TextMatches(c.contractNumber, q) ||
    (bid.Some? && bid.value.project.Some? && TextMatches(Some(bid.value.project.value.name), q)) ||
    (bid.Some? && bid.value.contractor.Some? && TextMatches(Some(bid.value.contractor.value.name), q)) ||
    TextMatches(c.status, q)
  }

  function Matching(bids: Option<seq<BidView>>, q: string): Contract -> bool {
    (c: Contract) => MatchesSearch(c, BidOf(bids, c), q)
  }

  /** `filteredContracts`. */
  function FilteredContracts(contracts: Option<seq<Contract>>, bids: Option<seq<BidView>>, q: string)
    : (r: Option<seq<Contract>>)
    ensures r.None? <==> contracts.None?
    ensures r.Some? ==> IsSubsequence(r.value, contracts.value)
    ensures r.Some? ==> forall i :: 0 <= i < |r.value| ==> MatchesSearch(r.value[i], BidOf(bids, r.value[i]), q)
    ensures r.Some? ==> forall i :: 0 <= i < |contracts.value| ==>
              (MatchesSearch(contracts.value[i], BidOf(bids, contracts.value[i]), q) ==> contracts.value[i] in r.value)
  {
    match contracts
    case None => None
    case Some(s) => FilterIsSubsequence(s, Matching(bids, q)); Some(Filter(s, Matching(bids, q)))
  }

  /** Without its bid at hand, a contract is found only by its number or its
      status. */
  lemma WithoutBidOwnFieldsOnly(c: Contract, bids: Option<seq<BidView>>, q: string)
    requires bids.None? || forall i :: 0 <= i < |bids.value| ==> Some(bids.value[i].bid.id) != c.bidId
    ensures Matching(bids, q)(c) <==> TextMatches(c.contractNumber, q) || TextMatches(c.status, q)
  {
  }

  /** The bids offered for a new contract: approved or under review. */
  predicate Eligible(b: BidView) {
    b.bid.status == Some(Approved) || b.bid.status == Some(UnderReview)
  }

  function IsEligible(): BidView -> bool { (b: BidView) => Eligible(b) }

  function EligibleBids(bids: seq<BidView>): (r: seq<BidView>)
    ensures IsSubsequence(r, bids)
    ensures forall i :: 0 <= i < |r| ==> r[i].bid.status == Some(Approved) || r[i].bid.status == Some(UnderReview)
    ensures forall i :: 0 <= i < |bids| && Eligible(bids[i]) ==> bids[i] in r
  {
    FilterIsSubsequence(bids, IsEligible());
    Filter(bids, IsEligible())
  }

  // ---------------------------------------------------------------------------
  // creating a contract

  /** The amount key of the form data: not given, the typed text, or what
      `parseFloat` made of it (`NaN` travels as `null`). */
  datatype AmountField = NoAmount | TypedAmount(text: string) | ParsedAmount(number: Decimal) | NanAmount

  /** `data.contract_amount = parseFloat(data.contract_amount)` when the text
      is non-empty; anything else is left as it is. */
  function ConvertedAmount(a: AmountField): (r: AmountField)
    ensures !(a.TypedAmount? && a.text != "") ==> r == a
    ensures a.TypedAmount? && a.text != "" ==>
              (ParseFloat(a.text).None? ==> r == NanAmount) &&
              (ParseFloat(a.text).Some? ==> r == ParsedAmount(ParseFloat(a.text).value))
  {
    match a
    case TypedAmount(t) =>
      if t == "" then a
      else (match ParseFloat(t) case None => NanAmount case Some(d) => ParsedAmount(d))
    case _ => a
  }

  /** The number sent for a typed amount reaches the database as a text that
      reads back as the same number. */
  lemma ConvertedAmountReadsBack(t: string)
    requires t != "" && ParseFloat(t).Some?
    ensures var r := ConvertedAmount(TypedAmount(t));
            r.ParsedAmount? &&
            SameValue(ParseFloat(CoerceAmount(Schema.AmountNumber(r.number))).value, ParseFloat(t).value)
  {
  }

  /** The contract form's values, about to be sent. */
  class ContractData {
    var bidId: string
    var contractNumber: Option<string>
    var contractAmount: AmountField
    var startDate: Option<string>
    var endDate: Option<string>
    var status: string

    constructor (bidId: string, contractNumber: Option<string>, amount: Option<string>,
                 startDate: Option<string>, endDate: Option<string>, status: string)
      ensures this.bidId == bidId && this.contractNumber == contractNumber
      ensures contractAmount == (if amount.Some? then TypedAmount(amount.value) else NoAmount)
      ensures this.startDate == startDate && this.endDate == endDate && this.status == status
    {
      this.bidId, this.contractNumber := bidId, contractNumber;
      contractAmount := if amount.Some? then TypedAmount(amount.value) else NoAmount;
      this.startDate, this.endDate, this.status := startDate, endDate, status;
    }

    /** The conversion the create mutation applies in place. */
    method ConvertAmount()
      modifies this
      ensures contractAmount == ConvertedAmount(old(contractAmount))
      ensures bidId == old(bidId) && contractNumber == old(contractNumber) && startDate == old(startDate)
      ensures endDate == old(endDate) && status == old(status)
    {
      if contractAmount.TypedAmount? && contractAmount.text != "" {
        var parsed := ParseFloat(contractAmount.text);
        contractAmount := if parsed.Some? then ParsedAmount(parsed.value) else NanAmount;
      }
    }
  }

  // ---------------------------------------------------------------------------
  // status badge

  const GrayStyle := "bg-gray-100 text-gray-800"
  const BlueStyle := "bg-blue-100 text-blue-800"
  const GreenStyle := "bg-green-100 text-green-800"
  const YellowStyle := "bg-yellow-100 text-yellow-800"
  const RedStyle := "bg-red-100 text-red-800"

  /** The statuses the badge knows. */
  predicate KnownStatus(s: string) {
    s == "draft" || s == "sent" || s == "signed" || s == "active" || s == "expired" || s == "terminated"
  }

  function StyleOfLower(s: string): (r: string)
    ensures !KnownStatus(s) ==> r == GrayStyle
  {
    match s
    case "draft" => GrayStyle
    case "sent" => BlueStyle
    case "signed" => GreenStyle
    case "active" => GreenStyle
    case "expired" => YellowStyle
    case "terminated" => RedStyle
    case _ => GrayStyle
  }

  /** `getStatusBadgeStyle`: chosen by the status in lower case, so the
      case of the letters never matters; unknown statuses are gray. */
  function StatusStyle(status: string): (r: string)
    ensures !KnownStatus(Lower(status)) ==> r == GrayStyle
    ensures Lower(status) == "sent" <==> r == BlueStyle
    ensures Lower(status) == "terminated" <==> r == RedStyle
    ensures Lower(status) == "expired" <==> r == YellowStyle
    ensures Lower(status) == "signed" || Lower(status) == "active" <==> r == GreenStyle
  {
    StyleOfLower(Lower(status))
  }

  /** Two statuses that differ only in letter case get the same style. */
  lemma StatusStyleIgnoresCase(a: string, b: string)
    requires Lower(a) == Lower(b)
    ensures StatusStyle(a) == StatusStyle(b)
  {
  }

  lemma StatusStyleOfLower(s: string)
    ensures StatusStyle(Lower(s)) == StatusStyle(s)
  {
    LowerIdempotent(s);
  }
}
