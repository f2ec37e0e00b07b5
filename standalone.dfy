/** The stand-alone server (`standalone.js`): one global object holds seven
    arrays of JSON records, and the HTTP routes append to them, replace an
    element in place, splice one out, or compute joins and summaries over
    them. Records are maps from property names to JSON scalars; the
    generated ids and the clock are parameters. */
module Standalone {
  import opened Wrappers
  import opened Seqs
  import opened Text
  import opened Numeric

  // ---------------------------------------------------------------------------
  // records

  /** A JSON scalar as the body parser produces it. */
  datatype Value = Null | Bool(b: bool) | Num(n: Decimal) | Str(s: string)

  /** A stored object. Spreading (`{...a, ...b}`) is map union, where the
      properties of the right operand win. */
  type Record = map<string, Value>

  /** Reading a property; `None` stands for `undefined`. */
  function Get(r: Record, k: string): Option<Value> {
    if k in r then Some(r[k]) else None
  }

  /** `a === b` on two property reads: numbers compare by value, two
      `undefined`s are equal, and everything else compares structurally. */
  predicate StrictEquals(a: Option<Value>, b: Option<Value>) {
    match a
    case None => b.None?
    case Some(x) =>
      b.Some? && (if x.Num? && b.value.Num? then SameValue(x.n, b.value.n) else x == b.value)
  }

  /** Comparing with a string literal is plain equality of the read. */
  lemma StrictEqualsText(a: Option<Value>, s: string)
    ensures StrictEquals(a, Some(Str(s))) <==> a == Some(Str(s))
  {
  }

  /** The callback `r => r.k === v`. */
  function PropertyIs(k: string, v: Option<Value>): Record -> bool {
    r => StrictEquals(Get(r, k), v)
  }

  /** The callback `r => r.id === id` for an id taken from the URL. */
  function HasId(id: string): Record -> bool {
    PropertyIs("id", Some(Str(id)))
  }

  /** A record whose `id` is a different string never matches. */
  lemma HasIdIff(r: Record, id: string)
    ensures HasId(id)(r) <==> "id" in r && r["id"] == Str(id)
  {
    StrictEqualsText(Get(r, "id"), id);
  }

  // ---------------------------------------------------------------------------
  // the store

  /** The global `data` object. */
  datatype Data = Data(
    emails: seq<Record>,
    contractors: seq<Record>,
    projects: seq<Record>,
    bids: seq<Record>,
    classifications: seq<Record>,
    bidClassifications: seq<Record>,
    contracts: seq<Record>)

  const EmptyData := Data([], [], [], [], [], [], [])

  datatype Collection =
    Emails | Contractors | Projects | Bids | Classifications | BidClassifications | Contracts

  function Table(d: Data, c: Collection): seq<Record> {
    match c
    case Emails => d.emails
    case Contractors => d.contractors
    case Projects => d.projects
    case Bids => d.bids
    case Classifications => d.classifications
    case BidClassifications => d.bidClassifications
    case Contracts => d.contracts
  }

  /** The store with one array replaced and the six others untouched. */
  function WithTable(d: Data, c: Collection, rows: seq<Record>): (r: Data)
    ensures Table(r, c) == rows
    ensures forall o :: o != c ==> Table(r, o) == Table(d, o)
  {
    match c
    case Emails => d.(emails := rows)
    case Contractors => d.(contractors := rows)
    case Projects => d.(projects := rows)
    case Bids => d.(bids := rows)
    case Classifications => d.(classifications := rows)
    case BidClassifications => d.(bidClassifications := rows)
    case Contracts => d.(contracts := rows)
  }

  // ---------------------------------------------------------------------------
  // POST: create

  /** The timestamps a `POST` adds: bid-classification links get only
      `created_at`, every other collection both. */
  function Stamps(c: Collection, now: string): Record {
    if c == BidClassifications then map["created_at" := Str(now)]
    else map["created_at" := Str(now), "updated_at" := Str(now)]
  }

  /** `{ id: uuidv4(), ...req.body, created_at, updated_at }`. */
  function NewRecord(c: Collection, body: Record, id: string, now: string): (r: Record)
    ensures r.Keys == {"id"} + body.Keys + Stamps(c, now).Keys
    ensures r["id"] == if "id" in body then body["id"] else Str(id)
    ensures r["created_at"] == Str(now)
    ensures c != BidClassifications ==> r["updated_at"] == Str(now)
    ensures forall k :: k in body && k !in Stamps(c, now) ==> r[k] == body[k]
  {
    map["id" := Str(id)] + body + Stamps(c, now)
  }

  // ---------------------------------------------------------------------------
  // PATCH: update in place

  /** The collections that have a `PATCH` route. */
  predicate Patchable(c: Collection) {
    c != Classifications && c != BidClassifications
  }

  /** `{ ...old, ...req.body, updated_at }`. */
  function Patched(prev: Record, body: Record, now: string): (r: Record)
    ensures r.Keys == prev.Keys + body.Keys + {"updated_at"}
    ensures r["updated_at"] == Str(now)
    ensures forall k :: k in r && k != "updated_at" ==>
                          r[k] == if k in body then body[k] else prev[k]
  {
    prev + body + map["updated_at" := Str(now)]
  }

  /** The array after `PATCH /:id`, and the response record (`None` for 404).
      Only the first element with the id changes; all others keep their
      place and value. */
  function PatchRows(rows: seq<Record>, id: string, body: Record, now: string)
    : (r: (seq<Record>, Option<Record>))
    ensures |r.0| == |rows|
    ensures r.1.None? <==> forall i :: 0 <= i < |rows| ==> !HasId(id)(rows[i])
    ensures r.1.None? ==> r.0 == rows
    ensures r.1.Some? ==>
              exists k :: 0 <= k < |rows| && HasId(id)(rows[k]) &&
                          (forall j :: 0 <= j < k ==> !HasId(id)(rows[j])) &&
                          r.1.value == Patched(rows[k], body, now) && r.0[k] == r.1.value &&
                          forall i :: 0 <= i < |rows| && i != k ==> r.0[i] == rows[i]
  {
    var k := FindIndex(rows, HasId(id));
    if k == -1 then (rows, None)
    else (rows[k := Patched(rows[k], body, now)], Some(Patched(rows[k], body, now)))
  }

  // ---------------------------------------------------------------------------
  // DELETE /api/bid-classifications/:id

  /** The array after splicing out the first element with the id, or `None`
      (404) when no element has it. */
  function RemoveFirst(rows: seq<Record>, id: string): (r: Option<seq<Record>>)
    ensures r.None? <==> forall i :: 0 <= i < |rows| ==> !HasId(id)(rows[i])
    ensures r.Some? ==> |r.value| == |rows| - 1
    ensures r.Some? ==>
              exists k :: 0 <= k < |rows| && HasId(id)(rows[k]) &&
                          (forall j :: 0 <= j < k ==> !HasId(id)(rows[j])) &&
                          r.value == rows[..k] + rows[k + 1..]
  {
    var k := FindIndex(rows, HasId(id));
    if k == -1 then None else Some(rows[..k] + rows[k + 1..])
  }

  /** What is left keeps its order, and only one element with the id went. */
  lemma RemoveFirstKeepsOthers(rows: seq<Record>, id: string)
    requires RemoveFirst(rows, id).Some?
    ensures IsSubsequence(RemoveFirst(rows, id).value, rows)
    ensures CountWhere(RemoveFirst(rows, id).value, HasId(id)) == CountWhere(rows, HasId(id)) - 1
  {
    var k := FindIndex(rows, HasId(id));
    var a, x, c := rows[..k], rows[k], rows[k + 1..];
    assert rows == a + [x] + c;
    SkipOne(a, x, c);
    FilterAppend(a, c, HasId(id));
    FilterAppend(a + [x], c, HasId(id));
    FilterAppend(a, [x], HasId(id));
    assert Filter([x], HasId(id)) == [x];
  }

  lemma {:induction false} SubsequenceOfItself<T>(s: seq<T>)
    ensures IsSubsequence(s, s)
    decreases |s|
  {
    if s != [] {
      SubsequenceOfItself(s[1..]);
    }
  }

  /** Leaving out one element gives a subsequence. */
  lemma {:induction false} SkipOne<T>(a: seq<T>, x: T, c: seq<T>)
    ensures IsSubsequence(a + c, a + [x] + c)
    decreases |a|
  {
    if a == [] {
      SubsequenceOfItself(c);
      assert a + c == c;
      assert (a + [x] + c)[1..] == c;
    } else {
      SkipOne(a[1..], x, c);
      assert (a + c)[1..] == a[1..] + c;
      assert (a + [x] + c)[1..] == a[1..] + [x] + c;
    }
  }

  // ---------------------------------------------------------------------------
  // GET routes

  /** `GET /api/<collection>/:id`: the first record with the id. */
  function GetById(d: Data, c: Collection, id: string): (r: Option<Record>)
    ensures r.None? <==> forall i :: 0 <= i < |Table(d, c)| ==> !HasId(id)(Table(d, c)[i])
    ensures r.Some? ==> r.value in Table(d, c) && "id" in r.value && r.value["id"] == Str(id)
  {
    var r := Find(Table(d, c), HasId(id));
    if r.Some? then HasIdIff(r.value, id); r else r
  }

  /** `GET /api/emails/unprocessed`: the pending emails, in order. */
  function UnprocessedEmails(d: Data): (r: seq<Record>)
    ensures IsSubsequence(r, d.emails)
    ensures forall e :: e in r <==> e in d.emails && Get(e, "processing_status") == Some(Str("pending"))
  {
    FilterIsSubsequence(d.emails, PropertyIs("processing_status", Some(Str("pending"))));
    Filter(d.emails, PropertyIs("processing_status", Some(Str("pending"))))
  }

  /** `GET /api/projects/active`: the active projects, in order. */
  function ActiveProjects(d: Data): (r: seq<Record>)
    ensures IsSubsequence(r, d.projects)
    ensures forall p :: p in r <==> p in d.projects && Get(p, "status") == Some(Str("active"))
  {
    FilterIsSubsequence(d.projects, PropertyIs("status", Some(Str("active"))));
    Filter(d.projects, PropertyIs("status", Some(Str("active"))))
  }

  // ---------------------------------------------------------------------------
  // GET /api/bids: the relation join

  /** `{ ...bc, classification }`: a link with the classification it names,
      which stays `undefined` when no classification has that id. */
  datatype LinkView = LinkView(link: Record, classification: Option<Record>)

  /** `{ ...bid, project, contractor, emailRecord, classifications }`. */
  datatype BidView = BidView(
    bid: Record,
    project: Option<Record>,
    contractor: Option<Record>,
    emailRecord: Option<Record>,
    classifications: seq<LinkView>)

  /** `rows.find(x => x.id === r[key])`: the first row the property names. */
  function Related(rows: seq<Record>, r: Record, key: string): (m: Option<Record>)
    ensures m.None? <==> forall i :: 0 <= i < |rows| ==> !StrictEquals(Get(rows[i], "id"), Get(r, key))
    ensures m.Some? ==>
              exists i :: 0 <= i < |rows| && rows[i] == m.value &&
                          StrictEquals(Get(rows[i], "id"), Get(r, key)) &&
                          forall j :: 0 <= j < i ==> !StrictEquals(Get(rows[j], "id"), Get(r, key))
  {
    Find(rows, PropertyIs("id", Get(r, key)))
  }

  function LinkViewIn(d: Data): Record -> LinkView {
    bc => LinkView(bc, Related(d.classifications, bc, "classification_id"))
  }

  /** The links of one bid, in array order. */
  function LinksOf(d: Data, bid: Record): seq<Record> {
    Filter(d.bidClassifications, PropertyIs("bid_id", Get(bid, "id")))
  }

  function BidViewIn(d: Data): Record -> BidView {
    bid => BidView(bid,
                   Related(d.projects, bid, "project_id"),
                   Related(d.contractors, bid, "contractor_id"),
                   Related(d.emails, bid, "email_id"),
                   MapSeq(LinksOf(d, bid), LinkViewIn(d)))
  }

  /** `GET /api/bids`. */
  function BidsWithRelations(d: Data): seq<BidView> {
    MapSeq(d.bids, BidViewIn(d))
  }

  /** One view per bid, in array order; each single relation is the first
      row with the id the bid names (the email through `email_id`). */
  lemma BidsWithRelationsSpec(d: Data, i: int)
    requires 0 <= i < |d.bids|
    ensures |BidsWithRelations(d)| == |d.bids|
    ensures BidsWithRelations(d)[i].bid == d.bids[i]
    ensures BidsWithRelations(d)[i].project == Related(d.projects, d.bids[i], "project_id")
    ensures BidsWithRelations(d)[i].contractor == Related(d.contractors, d.bids[i], "contractor_id")
    ensures BidsWithRelations(d)[i].emailRecord == Related(d.emails, d.bids[i], "email_id")
  {
  }

  /** The classifications of a view are every link with the bid's id, in
      order, each paired with the classification it names; a link whose
      classification is missing is kept with `undefined`. */
  lemma BidLinksSpec(d: Data, i: int)
    requires 0 <= i < |d.bids|
    ensures var v := BidsWithRelations(d)[i];
            |v.classifications| == CountWhere(d.bidClassifications, PropertyIs("bid_id", Get(d.bids[i], "id"))) &&
            IsSubsequence(MapSeq(v.classifications, (l: LinkView) => l.link), d.bidClassifications) &&
            forall j :: 0 <= j < |v.classifications| ==>
              StrictEquals(Get(v.classifications[j].link, "bid_id"), Get(d.bids[i], "id")) &&
              v.classifications[j].classification ==
                Related(d.classifications, v.classifications[j].link, "classification_id")
  {
    var links := LinksOf(d, d.bids[i]);
    var v := BidsWithRelations(d)[i];
    assert v.classifications == MapSeq(links, LinkViewIn(d));
    var ls := MapSeq(v.classifications, (l: LinkView) => l.link);
    assert ls == links;
    FilterIsSubsequence(d.bidClassifications, PropertyIs("bid_id", Get(d.bids[i], "id")));
    forall j | 0 <= j < |v.classifications|
      ensures StrictEquals(Get(v.classifications[j].link, "bid_id"), Get(d.bids[i], "id"))
    {
      assert v.classifications[j].link == links[j];
      assert links[j] in links;
    }
  }

  /** A link whose classification id names no classification still appears
      in the bid's view. */
  lemma MissingClassificationKept(d: Data, i: int, bc: Record)
    requires 0 <= i < |d.bids|
    requires bc in d.bidClassifications
    requires StrictEquals(Get(bc, "bid_id"), Get(d.bids[i], "id"))
    requires forall c :: c in d.classifications ==> !StrictEquals(Get(c, "id"), Get(bc, "classification_id"))
    ensures LinkView(bc, None) in BidsWithRelations(d)[i].classifications
  {
    var links := LinksOf(d, d.bids[i]);
    assert bc in links;
    var j :| 0 <= j < |links| && links[j] == bc;
    var v := BidsWithRelations(d)[i];
    assert v.classifications == MapSeq(links, LinkViewIn(d));
    assert v.classifications[j] == LinkViewIn(d)(bc);
    assert Related(d.classifications, bc, "classification_id") == None;
  }

  /** `GET /api/bids/:id`: the view of the first bid with the id, or 404. */
  function BidWithRelationsById(d: Data, id: string): (r: Option<BidView>)
    ensures r.None? <==> forall i :: 0 <= i < |d.bids| ==> !HasId(id)(d.bids[i])
    ensures r.Some? ==> r.value.bid in d.bids && "id" in r.value.bid && r.value.bid["id"] == Str(id) &&
                        r.value == BidViewIn(d)(r.value.bid)
  {
    match GetById(d, Bids, id)
    case None => None
    case Some(bid) => Some(BidViewIn(d)(bid))
  }

  /** Looking a bid up by id gives the same view as the full listing's entry
      for the first bid with that id. */
  lemma BidByIdAgreesWithList(d: Data, id: string, i: int)
    requires 0 <= i < |d.bids| && HasId(id)(d.bids[i])
    requires forall j :: 0 <= j < i ==> !HasId(id)(d.bids[j])
    ensures BidWithRelationsById(d, id) == Some(BidsWithRelations(d)[i])
  {
    var k := FindIndex(d.bids, HasId(id));
    assert k == i;
    assert Find(d.bids, HasId(id)) == Some(d.bids[i]);
    assert GetById(d, Bids, id) == Some(d.bids[i]);
    assert BidsWithRelations(d)[i] == BidViewIn(d)(d.bids[i]);
  }

  // ---------------------------------------------------------------------------
  // GET /api/dashboard/summary

  function StatusIs(s: string): Record -> bool {
    PropertyIs("status", Some(Str(s)))
  }

  function ActiveBid(): Record -> bool {
    b => StatusIs("under_review")(b) || StatusIs("shortlisted")(b)
  }

  function CountedContract(): Record -> bool {
    c => StatusIs("active")(c) || StatusIs("signed")(c)
  }

  /** JavaScript truthiness of a property read. */
  predicate Truthy(v: Option<Value>) {
    match v
    case None => false
    case Some(x) =>
      match x
      case Null => false
      case Bool(b) => b
      case Num(n) => n.mantissa != 0
      case Str(s) => s != ""
  }

  const Zero := Decimal(0, 0)

  /** `value || 0`. */
  function ValueOrZero(v: Option<Value>): Value {
    if Truthy(v) then v.value else Num(Zero)
  }

  function Max(a: nat, b: nat): nat { if a < b then b else a }

  /** The exact sum of two decimals, at the larger of their scales. */
  function AddDecimal(a: Decimal, b: Decimal): Decimal {
    var s := Max(a.scale, b.scale);
    Decimal(a.mantissa * Pow10(s - a.scale) + b.mantissa * Pow10(s - b.scale), s)
  }

  /** A running `sum` of `reduce`: a number until a string is added, a
      string from then on. */
  datatype Total = NumTotal(n: Decimal) | TextTotal(s: string)

  /** `String(v)` of a JSON scalar. */
  function ValueText(v: Value): string {
    match v
    case Null => "null"
    case Bool(b) => if b then "true" else "false"
    case Num(n) => NumberToString(n)
    case Str(s) => s
  }

  /** `Number(v)` of a non-string JSON scalar. */
  function ValueNumber(v: Value): Decimal
    requires !v.Str?
  {
    match v
    case Null => Zero
    case Bool(b) => if b then Decimal(1, 0) else Zero
    case Num(n) => n
  }

  function TotalText(t: Total): string {
    match t
    case NumTotal(n) => NumberToString(n)
    case TextTotal(s) => s
  }

  /** `sum + v`: concatenation as soon as either side is a string. */
  function Plus(t: Total, v: Value): Total {
    if t.TextTotal? || v.Str? then TextTotal(TotalText(t) + ValueText(v))
    else NumTotal(AddDecimal(t.n, ValueNumber(v)))
  }

  /** `rows.reduce((sum, c) => sum + (c.value || 0), 0)`. */
  function SumValues(rows: seq<Record>): Total
    decreases |rows|
  {
    if rows == [] then NumTotal(Zero)
    else Plus(SumValues(rows[..|rows| - 1]), ValueOrZero(Get(rows[|rows| - 1], "value")))
  }

  datatype Summary = Summary(
    activeBids: string,
    unprocessedEmails: string,
    activeProjects: string,
    totalContractValue: string)

  /** `GET /api/dashboard/summary`: three counts and a sum, each sent as
      its `toString()`. */
  function DashboardSummary(d: Data): Summary {
    Summary(
      NatToString(CountWhere(d.bids, ActiveBid())),
      NatToString(CountWhere(d.emails, PropertyIs("processing_status", Some(Str("pending"))))),
      NatToString(CountWhere(d.projects, StatusIs("active"))),
      TotalText(SumValues(Filter(d.contracts, CountedContract()))))
  }

  /** Elements satisfying either of two exclusive tests are counted by the
      sum of the two counts. */
  lemma {:induction false} CountWhereEither<T>(s: seq<T>, p: T -> bool, q: T -> bool, pq: T -> bool)
    requires forall x :: pq(x) == (p(x) || q(x))
    requires forall x :: !(p(x) && q(x))
    ensures CountWhere(s, pq) == CountWhere(s, p) + CountWhere(s, q)
    decreases |s|
  {
    if s != [] {
      CountWhereEither(s[1..], p, q, pq);
    }
  }

  /** The status texts are different, so no bid is both. */
  lemma StatusesExclusive(a: string, b: string, r: Record)
    requires a != b
    ensures !(StatusIs(a)(r) && StatusIs(b)(r))
  {
    StrictEqualsText(Get(r, "status"), a);
    StrictEqualsText(Get(r, "status"), b);
  }

  /** The three counts read back as numbers: active bids are the bids under
      review plus the shortlisted ones, and the other two count pending
      emails and active projects. */
  lemma DashboardCountsSpec(d: Data)
    ensures DigitsValue(DashboardSummary(d).activeBids) ==
            CountWhere(d.bids, StatusIs("under_review")) + CountWhere(d.bids, StatusIs("shortlisted"))
    ensures DigitsValue(DashboardSummary(d).unprocessedEmails) == |UnprocessedEmails(d)|
    ensures DigitsValue(DashboardSummary(d).activeProjects) == |ActiveProjects(d)|
  {
    forall r: Record ensures !(StatusIs("under_review")(r) && StatusIs("shortlisted")(r)) {
      StatusesExclusive("under_review", "shortlisted", r);
    }
    CountWhereEither(d.bids, StatusIs("under_review"), StatusIs("shortlisted"), ActiveBid());
    NatToStringRoundTrip(CountWhere(d.bids, ActiveBid()));
    NatToStringRoundTrip(CountWhere(d.emails, PropertyIs("processing_status", Some(Str("pending")))));
    NatToStringRoundTrip(CountWhere(d.projects, StatusIs("active")));
  }

  // --- the contract total, when every counted value is a number

  /** `d` written at scale `s` (at least its own). */
  function ScaledTo(d: Decimal, s: nat): int
    requires d.scale <= s
  {
    d.mantissa * Pow10(s - d.scale)
  }

  lemma {:induction false} Pow10Add(a: nat, b: nat)
    ensures Pow10(a + b) == Pow10(a) * Pow10(b)
    decreases a
  {
    if a > 0 {
      Pow10Add(a - 1, b);
    }
  }

  lemma MulDistributes(x: int, y: int, z: int)
    ensures (x + y) * z == x * z + y * z
  {
  }

  lemma MulAssociates(x: int, y: int, z: int)
    ensures (x * y) * z == x * (y * z)
  {
  }

  /** Rewriting at a larger scale keeps the value. */
  lemma ScaledSameValue(d: Decimal, s: nat)
    requires d.scale <= s
    ensures SameValue(Decimal(ScaledTo(d, s), s), d)
  {
    Pow10Add(s - d.scale, d.scale);
  }

  /** Addition is exact at any common scale. */
  lemma AddDecimalScaled(a: Decimal, b: Decimal, s: nat)
    requires a.scale <= s && b.scale <= s
    ensures AddDecimal(a, b).scale <= s
    ensures ScaledTo(AddDecimal(a, b), s) == ScaledTo(a, s) + ScaledTo(b, s)
  {
    var m := Max(a.scale, b.scale);
    var pa, pb, q := Pow10(m - a.scale), Pow10(m - b.scale), Pow10(s - m);
    Pow10Add(m - a.scale, s - m);
    Pow10Add(m - b.scale, s - m);
    assert s - a.scale == (m - a.scale) + (s - m);
    assert s - b.scale == (m - b.scale) + (s - m);
    assert ScaledTo(a, s) == a.mantissa * (pa * q);
    assert ScaledTo(b, s) == b.mantissa * (pb * q);
    calc {
      ScaledTo(AddDecimal(a, b), s);
      (a.mantissa * pa + b.mantissa * pb) * q;
      { MulDistributes(a.mantissa * pa, b.mantissa * pb, q); }
      (a.mantissa * pa) * q + (b.mantissa * pb) * q;
      { MulAssociates(a.mantissa, pa, q); MulAssociates(b.mantissa, pb, q); }
      a.mantissa * (pa * q) + b.mantissa * (pb * q);
    }
  }

  /** The `value` of a record is falsy, or a number with at most `s` digits
      after the point. */
  predicate NumericValueAt(r: Record, s: nat) {
    var v := Get(r, "value");
    !Truthy(v) || (v.value.Num? && v.value.n.scale <= s)
  }

  /** `value || 0` at scale `s`, for values that are numbers. */
  function ScaledValue(s: nat): Record -> int {
    r => var v := ValueOrZero(Get(r, "value"));
         if v.Num? && v.n.scale <= s then ScaledTo(v.n, s) else 0
  }

  /** While every value is a number, `reduce` computes their exact sum. */
  lemma {:induction false} SumValuesNumeric(rows: seq<Record>, s: nat)
    requires forall i :: 0 <= i < |rows| ==> NumericValueAt(rows[i], s)
    ensures SumValues(rows).NumTotal? && SumValues(rows).n.scale <= s
    ensures ScaledTo(SumValues(rows).n, s) == SumOf(rows, ScaledValue(s))
    decreases |rows|
  {
    if rows != [] {
      var init, last := rows[..|rows| - 1], rows[|rows| - 1];
      SumValuesNumeric(init, s);
      assert rows == init + [last];
      SumOfAppend(init, [last], ScaledValue(s));
      var v := ValueOrZero(Get(last, "value"));
      assert v.Num? && v.n.scale <= s;
      AddDecimalScaled(SumValues(init).n, v.n, s);
    }
  }

  /** When every active or signed contract's value is a number with at most
      `s` fraction digits (or missing), the sent total reads back as the
      exact sum of those values. */
  lemma DashboardTotalSpec(d: Data, s: nat)
    requires forall c :: c in d.contracts && CountedContract()(c) ==> NumericValueAt(c, s)
    ensures ParseFloat(DashboardSummary(d).totalContractValue).Some?
    ensures SameValue(ParseFloat(DashboardSummary(d).totalContractValue).value,
                      Decimal(SumOf(Filter(d.contracts, CountedContract()), ScaledValue(s)), s))
  {
    var counted := Filter(d.contracts, CountedContract());
    forall i | 0 <= i < |counted| ensures NumericValueAt(counted[i], s) {
      assert counted[i] in counted;
    }
    SumValuesNumeric(counted, s);
    var t := SumValues(counted).n;
    NumberToStringRoundTrip(t);
    ScaledSameValue(t, s);
    SameValueTransitive(ParseFloat(NumberToString(t)).value, t, Decimal(ScaledTo(t, s), s));
  }

  /** A counted contract whose value is a string turns the sum into text:
      the value is appended to "0". */
  lemma TextValueConcatenates()
    ensures TotalText(SumValues([map["status" := Str("active"), "value" := Str("245000")]])) == "0245000"
  {
    var r: Record := map["status" := Str("active"), "value" := Str("245000")];
    assert [r][..0] == [];
    assert Truthy(Get(r, "value"));
    assert ValueOrZero(Get(r, "value")) == Str("245000");
    ZeroText();
    assert SumValues([r]) == Plus(NumTotal(Zero), Str("245000"));
  }

  // ---------------------------------------------------------------------------
  // GET /api/dashboard/email-stats

  const EmailTypes: seq<string> :=
    ["bid_submission", "follow_up", "contract_related", "bid_inquiry",
     "general_inquiry", "project_update", "unknown"]

  datatype CategoryCount = CategoryCount(category: string, count: nat)

  /** `emails.filter(e => e.email_type === t).length`. */
  function TypeCount(emails: seq<Record>, t: string): nat {
    CountWhere(emails, PropertyIs("email_type", Some(Str(t))))
  }

  /** The entries pushed for `types`, one per type with a positive count. */
  function StatsFor(emails: seq<Record>, types: seq<string>): seq<CategoryCount>
    decreases |types|
  {
    if types == [] then []
    else
      StatsFor(emails, types[..|types| - 1]) + StatEntry(emails, types[|types| - 1])
  }

  /** What `if (count > 0) stats.push({ category: t, count })` adds. */
  function StatEntry(emails: seq<Record>, t: string): seq<CategoryCount> {
    if TypeCount(emails, t) > 0 then [CategoryCount(t, TypeCount(emails, t))] else []
  }

  function CategoryOf(c: CategoryCount): string { c.category }

  function HasEmails(emails: seq<Record>): string -> bool {
    t => TypeCount(emails, t) > 0
  }

  /** The categories are exactly the types with at least one email, in the
      order of `types`. */
  lemma {:induction false} StatsCategories(emails: seq<Record>, types: seq<string>)
    ensures MapSeq(StatsFor(emails, types), CategoryOf) == Filter(types, HasEmails(emails))
    decreases |types|
  {
    if types != [] {
      var init, t := types[..|types| - 1], types[|types| - 1];
      var st, tail := StatsFor(emails, init), StatEntry(emails, t);
      assert types == init + [t];
      assert StatsFor(emails, types) == st + tail;
      calc {
        MapSeq(StatsFor(emails, types), CategoryOf);
        MapSeq(st + tail, CategoryOf);
        { MapSeqAppend(st, tail, CategoryOf); }
        MapSeq(st, CategoryOf) + MapSeq(tail, CategoryOf);
        { StatsCategories(emails, init); StatEntryCategory(emails, t); }
        Filter(init, HasEmails(emails)) + Filter([t], HasEmails(emails));
        { FilterAppend(init, [t], HasEmails(emails)); }
        Filter(types, HasEmails(emails));
      }
    }
  }

  lemma StatEntryCategory(emails: seq<Record>, t: string)
    ensures MapSeq(StatEntry(emails, t), CategoryOf) == Filter([t], HasEmails(emails))
  {
    assert [t][1..] == [];
  }

  /** Each entry carries the positive number of emails of its type. */
  lemma {:induction false} StatsCounts(emails: seq<Record>, types: seq<string>)
    ensures forall c :: c in StatsFor(emails, types) ==> c.count == TypeCount(emails, c.category) > 0
    decreases |types|
  {
    if types != [] {
      StatsCounts(emails, types[..|types| - 1]);
    }
  }

  lemma MapSeqAppend<T, U>(a: seq<T>, b: seq<T>, f: T -> U)
    ensures MapSeq(a + b, f) == MapSeq(a, f) + MapSeq(b, f)
  {
    assert |MapSeq(a + b, f)| == |MapSeq(a, f) + MapSeq(b, f)|;
    forall i | 0 <= i < |a| + |b|
      ensures MapSeq(a + b, f)[i] == (MapSeq(a, f) + MapSeq(b, f))[i]
    {
      if i >= |a| {
        assert (a + b)[i] == b[i - |a|];
      }
    }
  }

  /** The email's type is one of `types`. */
  function TypeIn(types: seq<string>): Record -> bool {
    e => exists t :: t in types && PropertyIs("email_type", Some(Str(t)))(e)
  }

  /** With distinct types, the counts add up to the number of emails whose
      type is in the list; emails of any other type are not counted. */
  lemma {:induction false} StatsForTotal(emails: seq<Record>, types: seq<string>)
    requires NoDuplicates(types)
    ensures SumOf(StatsFor(emails, types), EntryCount) == CountWhere(emails, TypeIn(types))
    decreases |types|
  {
    if types == [] {
      CountWhereNone(emails, TypeIn(types));
    } else {
      var init, t := types[..|types| - 1], types[|types| - 1];
      assert types == init + [t];
      assert NoDuplicates(init);
      var tail := StatEntry(emails, t);
      calc {
        SumOf(StatsFor(emails, types), EntryCount);
        SumOf(StatsFor(emails, init) + tail, EntryCount);
        { SumOfAppend(StatsFor(emails, init), tail, EntryCount); }
        SumOf(StatsFor(emails, init), EntryCount) + SumOf(tail, EntryCount);
        { StatsForTotal(emails, init); StatEntrySum(emails, t); }
        CountWhere(emails, TypeIn(init)) + TypeCount(emails, t);
        { TypeInSplit(init, t); }
        CountWhere(emails, TypeIn(types));
      }
    }
  }

  function EntryCount(c: CategoryCount): int { c.count }

  lemma StatEntrySum(emails: seq<Record>, t: string)
    ensures SumOf(StatEntry(emails, t), EntryCount) == TypeCount(emails, t)
  {
    var e := StatEntry(emails, t);
    if e != [] {
      assert e[1..] == [];
    }
  }

  /** An email has a type of `init + [t]` iff it has one of `init` or is of
      type `t`, and with `t` new to `init` not both. */
  lemma TypeInSplit(init: seq<string>, t: string)
    requires NoDuplicates(init + [t])
    ensures forall emails: seq<Record> ::
              CountWhere(emails, TypeIn(init + [t])) ==
              CountWhere(emails, TypeIn(init)) + TypeCount(emails, t)
  {
    var types := init + [t];
    var isT := PropertyIs("email_type", Some(Str(t)));
    forall e: Record ensures TypeIn(types)(e) == (TypeIn(init)(e) || isT(e)) {
      if TypeIn(types)(e) {
        var u :| u in types && PropertyIs("email_type", Some(Str(u)))(e);
        if u != t {
          assert u in init;
        }
      }
    }
    forall e: Record ensures !(TypeIn(init)(e) && isT(e)) {
      if TypeIn(init)(e) {
        var u :| u in init && PropertyIs("email_type", Some(Str(u)))(e);
        assert u != t by {
          var j :| 0 <= j < |init| && init[j] == u;
          assert types[j] == u && types[|init|] == t;
        }
        StrictEqualsText(Get(e, "email_type"), u);
        StrictEqualsText(Get(e, "email_type"), t);
      }
    }
    forall emails: seq<Record>
      ensures CountWhere(emails, TypeIn(types)) == CountWhere(emails, TypeIn(init)) + TypeCount(emails, t)
    {
      CountWhereEither(emails, TypeIn(init), isT, TypeIn(types));
    }
  }

  lemma {:induction false} CountWhereNone<T>(s: seq<T>, p: T -> bool)
    requires forall x :: !p(x)
    ensures CountWhere(s, p) == 0
    decreases |s|
  {
    if s != [] {
      CountWhereNone(s[1..], p);
    }
  }

  /** The seven types are different. */
  lemma EmailTypesDistinct()
    ensures NoDuplicates(EmailTypes)
  {
  }

  // ---------------------------------------------------------------------------
  // sample data

  /** Number of `uuidv4()` calls `initializeSampleData` makes. */
  const SampleIdCount := 18

  function SampleClassification(id: string, name: string, category: string, description: string,
                                now: string): (r: Record)
    ensures Get(r, "id") == Some(Str(id))
  {
    map["id" := Str(id), "name" := Str(name), "category" := Str(category), "description" := Str(description),
        "created_at" := Str(now), "updated_at" := Str(now)]
  }

  function SampleContractor(id: string, name: string, email: string, phone: string, address: string,
                            contact: string, notes: string, now: string): (r: Record)
    ensures Get(r, "id") == Some(Str(id))
  {
    map["id" := Str(id), "name" := Str(name), "email" := Str(email), "phone" := Str(phone),
        "address" := Str(address), "contact_name" := Str(contact), "notes" := Str(notes),
        "status" := Str("active"), "created_at" := Str(now), "updated_at" := Str(now)]
  }

  function SampleProject(id: string, name: string, description: string, endDate: string, budget: int,
                         manager: string, location: string, now: string): (r: Record)
    ensures Get(r, "id") == Some(Str(id))
    ensures Get(r, "status") == Some(Str("active"))
  {
    map["id" := Str(id), "name" := Str(name), "description" := Str(description),
        "start_date" := Str(now), "end_date" := Str(endDate), "budget" := Num(Decimal(budget, 0)),
        "status" := Str("active"), "manager" := Str(manager), "location" := Str(location),
        "created_at" := Str(now), "updated_at" := Str(now)]
  }

  function SampleEmail(id: string, subject: string, sender: string, cc: string, body: string,
                       extracted: string, now: string): (r: Record)
    ensures Get(r, "id") == Some(Str(id))
    ensures Get(r, "processing_status") == Some(Str("pending"))
    ensures Get(r, "email_type") == Some(Str("bid_submission"))
  {
    map["id" := Str(id), "subject" := Str(subject), "sender_email" := Str(sender),
        "recipient_email" := Str("procurement@company.com"), "cc_email" := Str(cc),
        "received_date" := Str(now), "body" := Str(body), "email_type" := Str("bid_submission"),
        "processing_status" := Str("pending"), "extracted_data" := Str(extracted),
        "created_at" := Str(now), "updated_at" := Str(now)]
  }

  /** A sample bid; `project`, `contractor` and `email` are the ids of the
      sample rows it points at (`projects[0].id` and so on). */
  function SampleBid(id: string, project: string, contractor: string, email: string, amount: int,
                     notes: string, now: string): (r: Record)
    ensures Get(r, "id") == Some(Str(id))
    ensures Get(r, "project_id") == Some(Str(project))
    ensures Get(r, "contractor_id") == Some(Str(contractor))
    ensures Get(r, "email_id") == Some(Str(email))
    ensures Get(r, "status") == Some(Str("under_review"))
  {
    map["id" := Str(id), "project_id" := Str(project), "contractor_id" := Str(contractor),
        "email_id" := Str(email), "amount" := Num(Decimal(amount, 0)), "submission_date" := Str(now),
        "status" := Str("under_review"), "notes" := Str(notes),
        "created_at" := Str(now), "updated_at" := Str(now)]
  }

  function SampleContract(id: string, bid: string, now: string, in90: string): (r: Record)
    ensures Get(r, "id") == Some(Str(id))
    ensures Get(r, "bid_id") == Some(Str(bid))
    ensures Get(r, "status") == Some(Str("draft"))
  {
    map["id" := Str(id), "bid_id" := Str(bid), "name" := Str("Office Renovation Contract"),
        "start_date" := Str(now), "end_date" := Str(in90), "value" := Num(Decimal(245000, 0)),
        "status" := Str("draft"), "signed_date" := Null, "payment_terms" := Str("Net 30"),
        "created_at" := Str(now), "updated_at" := Str(now)]
  }

  function SampleLink(id: string, bid: string, classification: string, now: string): (r: Record)
    ensures Get(r, "id") == Some(Str(id))
    ensures Get(r, "bid_id") == Some(Str(bid))
    ensures Get(r, "classification_id") == Some(Str(classification))
  {
    map["id" := Str(id), "bid_id" := Str(bid), "classification_id" := Str(classification),
        "created_at" := Str(now)]
  }

  function SampleClassifications(ids: seq<string>, now: string): (r: seq<Record>)
    requires |ids| == SampleIdCount
    ensures |r| == 5 && forall i :: 0 <= i < 5 ==> Get(r[i], "id") == Some(Str(ids[i]))
  {
    [SampleClassification(ids[0], "High Priority", "priority", "Urgent bids requiring immediate attention", now),
     SampleClassification(ids[1], "Medium Priority", "priority", "Standard priority bids", now),
     SampleClassification(ids[2], "Low Priority", "priority", "Low urgency bids", now),
     SampleClassification(ids[3], "Construction", "industry", "Construction-related bids", now),
     SampleClassification(ids[4], "Technology", "industry", "Technology-related bids", now)]
  }

  function SampleContractors(ids: seq<string>, now: string): (r: seq<Record>)
    requires |ids| == SampleIdCount
    ensures |r| == 2 && forall i :: 0 <= i < 2 ==> Get(r[i], "id") == Some(Str(ids[5 + i]))
  {
    [SampleContractor(ids[5], "Acme Construction", "info@acmeconstruction.com", "555-123-4567",
                      "123 Builder St, Construction City, CC 12345", "John Builder",
                      "Reliable contractor for construction projects", now),
     SampleContractor(ids[6], "TechSolutions Inc", "contact@techsolutions.com", "555-987-6543",
                      "456 Tech Ave, Innovation City, IC 67890", "Sarah Tech",
                      "Specializes in IT infrastructure", now)]
  }

  function SampleProjects(ids: seq<string>, now: string, in60: string, in90: string): (r: seq<Record>)
    requires |ids| == SampleIdCount
    ensures |r| == 2 && forall i :: 0 <= i < 2 ==> Get(r[i], "id") == Some(Str(ids[7 + i]))
    ensures forall i :: 0 <= i < 2 ==> Get(r[i], "status") == Some(Str("active"))
  {
    [SampleProject(ids[7], "Office Renovation", "Complete renovation of the main office space", in90,
                   250000, "Michael Manager", "Headquarters Building", now),
     SampleProject(ids[8], "IT System Upgrade", "Upgrade of company-wide IT infrastructure", in60,
                   175000, "Teresa Tech", "All Locations", now)]
  }

  /** The bodies of the two sample emails, and the `JSON.stringify` text of
      what was extracted from each. */
  const OfficeRenovationBody := "Please find attached our bid for the office renovation project. Our proposal includes all the requested details and pricing."
  const SystemUpgradeBody := "We are pleased to submit our bid for the IT System Upgrade project. Our team has extensive experience with similar projects."
  const OfficeRenovationExtract := "{\"project\":\"Office Renovation\",\"bid_amount\":245000,\"timeline\":\"85 days\"}"
  const SystemUpgradeExtract := "{\"project\":\"IT System Upgrade\",\"bid_amount\":168500,\"timeline\":\"55 days\"}"

  function SampleEmails(ids: seq<string>, now: string): (r: seq<Record>)
    requires |ids| == SampleIdCount
    ensures |r| == 2 && forall i :: 0 <= i < 2 ==> Get(r[i], "id") == Some(Str(ids[9 + i]))
    ensures forall i :: 0 <= i < 2 ==> Get(r[i], "processing_status") == Some(Str("pending"))
    ensures forall i :: 0 <= i < 2 ==> Get(r[i], "email_type") == Some(Str("bid_submission"))
  {
    [SampleEmail(ids[9], "Bid Submission - Office Renovation", "info@acmeconstruction.com", "manager@company.com",
                 OfficeRenovationBody,
                 OfficeRenovationExtract, now),
     SampleEmail(ids[10], "IT System Upgrade Proposal", "contact@techsolutions.com", "it@company.com",
                 SystemUpgradeBody,
                 SystemUpgradeExtract, now)]
  }

  /** Bid `i` points at project `i`, contractor `i` and email `i`. */
  function SampleBids(ids: seq<string>, now: string): (r: seq<Record>)
    requires |ids| == SampleIdCount
    ensures |r| == 2 && forall i :: 0 <= i < 2 ==> Get(r[i], "id") == Some(Str(ids[11 + i]))
    ensures forall i :: 0 <= i < 2 ==> Get(r[i], "project_id") == Some(Str(ids[7 + i]))
    ensures forall i :: 0 <= i < 2 ==> Get(r[i], "contractor_id") == Some(Str(ids[5 + i]))
    ensures forall i :: 0 <= i < 2 ==> Get(r[i], "email_id") == Some(Str(ids[9 + i]))
    ensures forall i :: 0 <= i < 2 ==> Get(r[i], "status") == Some(Str("under_review"))
  {
    [SampleBid(ids[11], ids[7], ids[5], ids[9], 245000, "Comprehensive bid with detailed cost breakdown", now),
     SampleBid(ids[12], ids[8], ids[6], ids[10], 168500, "Includes hardware and software upgrades", now)]
  }

  /** The one contract belongs to bid 0 and is a draft. */
  function SampleContracts(ids: seq<string>, now: string, in90: string): (r: seq<Record>)
    requires |ids| == SampleIdCount
    ensures |r| == 1 && Get(r[0], "id") == Some(Str(ids[13]))
    ensures Get(r[0], "bid_id") == Some(Str(ids[11])) && Get(r[0], "status") == Some(Str("draft"))
  {
    [SampleContract(ids[13], ids[11], now, in90)]
  }

  /** Bid 0 is linked to classifications 0 and 3, bid 1 to 1 and 4. */
  function SampleLinks(ids: seq<string>, now: string): (r: seq<Record>)
    requires |ids| == SampleIdCount
    ensures |r| == 4 && forall i :: 0 <= i < 4 ==> Get(r[i], "id") == Some(Str(ids[14 + i]))
    ensures Get(r[0], "bid_id") == Get(r[1], "bid_id") == Some(Str(ids[11]))
    ensures Get(r[2], "bid_id") == Get(r[3], "bid_id") == Some(Str(ids[12]))
    ensures Get(r[0], "classification_id") == Some(Str(ids[0]))
    ensures Get(r[1], "classification_id") == Some(Str(ids[3]))
    ensures Get(r[2], "classification_id") == Some(Str(ids[1]))
    ensures Get(r[3], "classification_id") == Some(Str(ids[4]))
  {
    [SampleLink(ids[14], ids[11], ids[0], now),
     SampleLink(ids[15], ids[11], ids[3], now),
     SampleLink(ids[16], ids[12], ids[1], now),
     SampleLink(ids[17], ids[12], ids[4], now)]
  }

  /** What `initializeSampleData` assigns, given the 18 generated ids in call
      order, the current time and the times 60 and 90 days later. */
  function SampleData(ids: seq<string>, now: string, in60: string, in90: string): Data
    requires |ids| == SampleIdCount
  {
    Data(SampleEmails(ids, now), SampleContractors(ids, now), SampleProjects(ids, now, in60, in90),
         SampleBids(ids, now), SampleClassifications(ids, now), SampleLinks(ids, now),
         SampleContracts(ids, now, in90))
  }

  /** Every record of `rows` has property `key`, and some record of
      `targets` has that value as its `id`. */
  predicate RefersTo(rows: seq<Record>, key: string, targets: seq<Record>) {
    forall i :: 0 <= i < |rows| ==>
      key in rows[i] && exists j :: 0 <= j < |targets| && StrictEquals(Get(targets[j], "id"), Get(rows[i], key))
  }

  /** `rows[i]` names `targets[j]` through `key`. */
  lemma Names(rows: seq<Record>, i: int, key: string, targets: seq<Record>, j: int)
    requires 0 <= i < |rows| && 0 <= j < |targets|
    requires Get(targets[j], "id").Some? && Get(rows[i], key) == Get(targets[j], "id")
    ensures key in rows[i]
    ensures StrictEquals(Get(targets[j], "id"), Get(rows[i], key))
  {
  }

  /** The `i`-th row of `rows` names the `i`-th row of `targets`, for rows
      of equal number whose ids are set. */
  lemma Pairwise(rows: seq<Record>, key: string, targets: seq<Record>)
    requires |rows| == |targets|
    requires forall i :: 0 <= i < |rows| ==> Get(targets[i], "id").Some? && Get(rows[i], key) == Get(targets[i], "id")
    ensures RefersTo(rows, key, targets)
  {
    forall i | 0 <= i < |rows|
      ensures key in rows[i] && exists j :: 0 <= j < |targets| && StrictEquals(Get(targets[j], "id"), Get(rows[i], key))
    {
      Names(rows, i, key, targets, i);
    }
  }

  /** Each sample bid names an existing project. */
  lemma SampleBidsReferToProjects(ids: seq<string>, now: string, in60: string, in90: string)
    requires |ids| == SampleIdCount
    ensures RefersTo(SampleBids(ids, now), "project_id", SampleProjects(ids, now, in60, in90))
  {
    Pairwise(SampleBids(ids, now), "project_id", SampleProjects(ids, now, in60, in90));
  }

  /** Each sample bid names an existing contractor. */
  lemma SampleBidsReferToContractors(ids: seq<string>, now: string)
    requires |ids| == SampleIdCount
    ensures RefersTo(SampleBids(ids, now), "contractor_id", SampleContractors(ids, now))
  {
    Pairwise(SampleBids(ids, now), "contractor_id", SampleContractors(ids, now));
  }

  /** Each sample bid names an existing email. */
  lemma SampleBidsReferToEmails(ids: seq<string>, now: string)
    requires |ids| == SampleIdCount
    ensures RefersTo(SampleBids(ids, now), "email_id", SampleEmails(ids, now))
  {
    Pairwise(SampleBids(ids, now), "email_id", SampleEmails(ids, now));
  }

  /** The sample contract names an existing bid. */
  lemma SampleContractsRefer(ids: seq<string>, now: string, in90: string)
    requires |ids| == SampleIdCount
    ensures RefersTo(SampleContracts(ids, now, in90), "bid_id", SampleBids(ids, now))
  {
    Names(SampleContracts(ids, now, in90), 0, "bid_id", SampleBids(ids, now), 0);
  }

  /** Row `i` of `rows` names row `at[i]` of `targets`. */
  lemma NamesAt(rows: seq<Record>, key: string, targets: seq<Record>, at: seq<nat>)
    requires |at| == |rows|
    requires forall i :: 0 <= i < |rows| ==>
               at[i] < |targets| && Get(targets[at[i]], "id").Some? && Get(rows[i], key) == Get(targets[at[i]], "id")
    ensures RefersTo(rows, key, targets)
  {
    forall i | 0 <= i < |rows|
      ensures key in rows[i] && exists j :: 0 <= j < |targets| && StrictEquals(Get(targets[j], "id"), Get(rows[i], key))
    {
      Names(rows, i, key, targets, at[i]);
    }
  }

  /** Each sample link names an existing bid. */
  lemma SampleLinksReferToBids(ids: seq<string>, now: string)
    requires |ids| == SampleIdCount
    ensures RefersTo(SampleLinks(ids, now), "bid_id", SampleBids(ids, now))
  {
    var links, bids := SampleLinks(ids, now), SampleBids(ids, now);
    var at := [0, 0, 1, 1];
    forall i | 0 <= i < 4
      ensures at[i] < |bids| && Get(bids[at[i]], "id").Some? && Get(links[i], "bid_id") == Get(bids[at[i]], "id")
    {
      assert Get(bids[at[i]], "id") == Some(Str(ids[11 + at[i]]));
    }
    NamesAt(links, "bid_id", bids, at);
  }

  /** Each sample link names an existing classification. */
  lemma SampleLinksReferToClassifications(ids: seq<string>, now: string)
    requires |ids| == SampleIdCount
    ensures RefersTo(SampleLinks(ids, now), "classification_id", SampleClassifications(ids, now))
  {
    var links, cs := SampleLinks(ids, now), SampleClassifications(ids, now);
    var at := [0, 3, 1, 4];
    forall i | 0 <= i < 4
      ensures at[i] < |cs| && Get(cs[at[i]], "id").Some? && Get(links[i], "classification_id") == Get(cs[at[i]], "id")
    {
      assert Get(cs[at[i]], "id") == Some(Str(ids[at[i]]));
    }
    NamesAt(links, "classification_id", cs, at);
  }

  /** In the sample data every foreign key names an existing sample row. */
  lemma SampleDataIntegrity(ids: seq<string>, now: string, in60: string, in90: string)
    requires |ids| == SampleIdCount
    ensures var d := SampleData(ids, now, in60, in90);
            RefersTo(d.bids, "project_id", d.projects) &&
            RefersTo(d.bids, "contractor_id", d.contractors) &&
            RefersTo(d.bids, "email_id", d.emails) &&
            RefersTo(d.contracts, "bid_id", d.bids) &&
            RefersTo(d.bidClassifications, "bid_id", d.bids) &&
            RefersTo(d.bidClassifications, "classification_id", d.classifications)
  {
    SampleBidsReferToProjects(ids, now, in60, in90);
    SampleBidsReferToContractors(ids, now);
    SampleBidsReferToEmails(ids, now);
    SampleContractsRefer(ids, now, in90);
    SampleLinksReferToBids(ids, now);
    SampleLinksReferToClassifications(ids, now);
  }

  /** Counting over a two-element array. */
  lemma CountPair(s: seq<Record>, p: Record -> bool)
    requires |s| == 2
    ensures CountWhere(s, p) == (if p(s[0]) then 1 else 0) + (if p(s[1]) then 1 else 0)
  {
    assert s[1..][1..] == [];
  }

  lemma SampleActiveBids(ids: seq<string>, now: string)
    requires |ids| == SampleIdCount
    ensures CountWhere(SampleBids(ids, now), ActiveBid()) == 2
  {
    var bids := SampleBids(ids, now);
    assert Get(bids[0], "status") == Get(bids[1], "status") == Some(Str("under_review"));
    assert StatusIs("under_review")(bids[0]) && StatusIs("under_review")(bids[1]);
    CountPair(bids, ActiveBid());
  }

  lemma SamplePendingEmails(ids: seq<string>, now: string)
    requires |ids| == SampleIdCount
    ensures CountWhere(SampleEmails(ids, now), PropertyIs("processing_status", Some(Str("pending")))) == 2
  {
    var emails := SampleEmails(ids, now);
    assert Get(emails[0], "processing_status") == Get(emails[1], "processing_status") == Some(Str("pending"));
    CountPair(emails, PropertyIs("processing_status", Some(Str("pending"))));
  }

  lemma SampleActiveProjects(ids: seq<string>, now: string, in60: string, in90: string)
    requires |ids| == SampleIdCount
    ensures CountWhere(SampleProjects(ids, now, in60, in90), StatusIs("active")) == 2
  {
    var projects := SampleProjects(ids, now, in60, in90);
    assert Get(projects[0], "status") == Get(projects[1], "status") == Some(Str("active"));
    CountPair(projects, StatusIs("active"));
  }

  lemma SampleCountedContracts(ids: seq<string>, now: string, in90: string)
    requires |ids| == SampleIdCount
    ensures Filter(SampleContracts(ids, now, in90), CountedContract()) == []
  {
    var contracts := SampleContracts(ids, now, in90);
    assert Get(contracts[0], "status") == Some(Str("draft"));
    assert !StatusIs("active")(contracts[0]) && !StatusIs("signed")(contracts[0]);
    assert contracts[1..] == [];
  }

  /** On the sample data the dashboard shows two active bids, two pending
      emails, two active projects and a total of "0" (the one contract is a
      draft). */
  lemma SampleDashboard(ids: seq<string>, now: string, in60: string, in90: string)
    requires |ids| == SampleIdCount
    ensures DashboardSummary(SampleData(ids, now, in60, in90)) == Summary("2", "2", "2", "0")
  {
    SampleActiveBids(ids, now);
    SamplePendingEmails(ids, now);
    SampleActiveProjects(ids, now, in60, in90);
    SampleCountedContracts(ids, now, in90);
    assert NatToString(2) == "2";
    ZeroText();
  }

  /** `(0).toString()` is "0". */
  lemma ZeroText()
    ensures TotalText(NumTotal(Zero)) == "0"
  {
    assert Normalize(Zero) == Zero;
    assert NatToString(0) == "0";
  }

  // ---------------------------------------------------------------------------
  // the server state and its routes

  class Store {
    var data: Data

    constructor()
      ensures data == EmptyData
    {
      data := EmptyData;
    }

    /** `initializeSampleData()`. */
    method InitializeSampleData(ids: seq<string>, now: string, in60: string, in90: string)
      requires |ids| == SampleIdCount
      modifies this
      ensures data == SampleData(ids, now, in60, in90)
    {
      data := SampleData(ids, now, in60, in90);
    }

    /** `POST /api/<collection>`: appends exactly one record and leaves every
        existing record, and every other array, as it was. */
    method Post(c: Collection, body: Record, id: string, now: string) returns (created: Record)
      modifies this
      ensures created == NewRecord(c, body, id, now)
      ensures Table(data, c) == Table(old(data), c) + [created]
      ensures forall o :: o != c ==> Table(data, o) == Table(old(data), o)
    {
      created := map["id" := Str(id)] + body + Stamps(c, now);
      data := WithTable(data, c, Table(data, c) + [created]);
    }

    /** `PATCH /api/<collection>/:id`: `None` is the 404 response. */
    method Patch(c: Collection, id: string, body: Record, now: string) returns (updated: Option<Record>)
      requires Patchable(c)
      modifies this
      ensures (Table(data, c), updated) == PatchRows(Table(old(data), c), id, body, now)
      ensures forall o :: o != c ==> Table(data, o) == Table(old(data), o)
    {
      var rows := Table(data, c);
      var index := FindIndex(rows, HasId(id));
      if index == -1 {
        return None;
      }
      var rec := rows[index] + body + map["updated_at" := Str(now)];
      data := WithTable(data, c, rows[index := rec]);
      updated := Some(rec);
    }

    /** `DELETE /api/bid-classifications/:id`: `false` is the 404 response. */
    method DeleteBidClassification(id: string) returns (found: bool)
      modifies this
      ensures found <==> RemoveFirst(old(data).bidClassifications, id).Some?
      ensures data == if found then old(data).(bidClassifications := RemoveFirst(old(data).bidClassifications, id).value)
                      else old(data)
    {
      var index := FindIndex(data.bidClassifications, HasId(id));
      if index == -1 {
        return false;
      }
      var rows := data.bidClassifications;
      data := data.(bidClassifications := rows[..index] + rows[index + 1..]);
      found := true;
    }

    /** `GET /api/dashboard/email-stats`: one entry per type of the fixed
        list, in list order, for the types that have emails. */
    method EmailStats() returns (stats: seq<CategoryCount>)
      ensures stats == StatsFor(data.emails, EmailTypes)
    {
      stats := [];
      var i := 0;
      while i < |EmailTypes|
        invariant 0 <= i <= |EmailTypes|
        invariant stats == StatsFor(data.emails, EmailTypes[..i])
      {
        var t := EmailTypes[i];
        var count := CountWhere(data.emails, PropertyIs("email_type", Some(Str(t))));
        if count > 0 {
          stats := stats + [CategoryCount(t, count)];
        }
        assert EmailTypes[..i + 1][..i] == EmailTypes[..i];
        i := i + 1;
      }
      assert EmailTypes[..|EmailTypes|] == EmailTypes;
    }
  }
}
