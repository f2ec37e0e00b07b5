/** `populateBidRelations`: given bids, fetch the rows they refer to, build
    id-to-row maps and per-bid groups, and emit one `BidView` per bid.

    The tables are a snapshot `Db`, each a sequence in the order the
    database returns its rows; `inArray(column, ids)` is `RowsWithKeyIn`.
    Keys are read through named accessor functions so that the same key
    function denotes the same value in the method and in its specification. */
module Relations {
  import opened Wrappers
  import opened Seqs
  import opened Schema

  /** A snapshot of the eight tables. */
  datatype Db = Db(
    emails: seq<EmailRecord>,
    contractors: seq<Contractor>,
    projects: seq<Project>,
    bids: seq<Bid>,
    classifications: seq<Classification>,
    bidClassifications: seq<BidClassification>,
    bidDocuments: seq<BidDocument>,
    contracts: seq<Contract>)

  /** The tables a query reads. */
  datatype Table =
    | ProjectsTable | ContractorsTable | EmailRecordsTable | BidClassificationsTable
    | ClassificationsTable | BidDocumentsTable | ContractsTable

  // ---------------------------------------------------------------------------
  // key accessors

  function ProjectKey(p: Project): Id { p.id }
  function ContractorKey(c: Contractor): Id { c.id }
  function EmailKey(e: EmailRecord): Id { e.id }
  /** A classification's id as a value of the nullable `classification_id`
      column it is compared with. */
  function ClassificationKey(c: Classification): Option<Id> { Some(c.id) }
  function LinkBidKey(bc: BidClassification): Option<Id> { bc.bidId }
  function LinkClassificationKey(bc: BidClassification): Option<Id> { bc.classificationId }
  function ClassifiedBidKey(l: ClassifiedLink): Option<Id> { l.link.bidId }
  function DocumentBidKey(d: BidDocument): Option<Id> { d.bidId }
  function ContractBidKey(c: Contract): Option<Id> { c.bidId }
  function BidKey(b: Bid): Id { b.id }
  function SomeId(id: Id): Option<Id> { Some(id) }

  /** The set foreign keys of a bid column (`.filter(Boolean)`). */
  function PresentKeys(bids: seq<Bid>, key: Bid -> Option<Id>): (r: seq<Id>)
    ensures forall i :: 0 <= i < |bids| && key(bids[i]).Some? ==> key(bids[i]).value in r
    ensures |r| == 0 <==> forall i :: 0 <= i < |bids| ==> key(bids[i]).None?
    decreases |bids|
  {
    if bids == [] then []
    else
      var rest := PresentKeys(bids[1..], key);
      assert forall i :: 1 <= i < |bids| ==> bids[i] == bids[1..][i - 1];
      match key(bids[0])
      case Some(id) => [id] + rest
      case None => rest
  }

  function BidProjectKey(b: Bid): Option<Id> { b.projectId }
  function BidContractorKey(b: Bid): Option<Id> { b.contractorId }
  function BidEmailKey(b: Bid): Option<Id> { b.emailRecordId }

  // ---------------------------------------------------------------------------
  // rows by key: the specification of lookups and groups

  /** The last row whose key is `k` (a `Map` built from rows keeps the last
      entry for a repeated key). */
  function LastWithKey<K(==), T>(rows: seq<T>, key: T -> K, k: K): (r: Option<T>)
    ensures r.Some? ==> r.value in rows && key(r.value) == k
    ensures r.None? <==> forall i :: 0 <= i < |rows| ==> key(rows[i]) != k
    decreases |rows|
  {
    if rows == [] then None
    else if key(rows[|rows| - 1]) == k then Some(rows[|rows| - 1])
    else
      var r := LastWithKey(rows[..|rows| - 1], key, k);
      assert forall i :: 0 <= i < |rows| - 1 ==> rows[i] == rows[..|rows| - 1][i];
      r
  }

  /** The rows whose key is `k`, in order (`WHERE column = k`). */
  function RowsWithKey<K(==), T>(rows: seq<T>, key: T -> K, k: K): (r: seq<T>)
    ensures |r| <= |rows|
    ensures forall i :: 0 <= i < |r| ==> r[i] in rows && key(r[i]) == k
    decreases |rows|
  {
    if rows == [] then []
    else
      var r := RowsWithKey(rows[..|rows| - 1], key, k);
      assert forall i :: 0 <= i < |rows| - 1 ==> rows[i] == rows[..|rows| - 1][i];
      if key(rows[|rows| - 1]) == k then r + [rows[|rows| - 1]] else r
  }

  /** The rows whose key is one of `ks`, in order (`WHERE column IN ks`). */
  function RowsWithKeyIn<K(==), T>(rows: seq<T>, key: T -> K, ks: seq<K>): (r: seq<T>)
    ensures |r| <= |rows|
    decreases |rows|
  {
    if rows == [] then []
    else
      var r := RowsWithKeyIn(rows[..|rows| - 1], key, ks);
      if key(rows[|rows| - 1]) in ks then r + [rows[|rows| - 1]] else r
  }

  /** No row with the key is left out. */
  lemma {:induction false} RowsWithKeyComplete<K, T>(rows: seq<T>, key: T -> K, k: K, i: nat)
    requires i < |rows| && key(rows[i]) == k
    ensures rows[i] in RowsWithKey(rows, key, k)
    decreases |rows|
  {
    if i < |rows| - 1 {
      RowsWithKeyComplete(rows[..|rows| - 1], key, k, i);
    }
  }

  lemma {:induction false} RowsWithKeyInComplete<K, T>(rows: seq<T>, key: T -> K, ks: seq<K>, i: nat)
    requires i < |rows| && key(rows[i]) in ks
    ensures rows[i] in RowsWithKeyIn(rows, key, ks)
    decreases |rows|
  {
    if i < |rows| - 1 {
      RowsWithKeyInComplete(rows[..|rows| - 1], key, ks, i);
    }
  }

  /** Fetching by a key set and then looking one of those keys up is the
      same as looking it up in the whole table. */
  lemma {:induction false} LastWithKeyFetched<K, T>(rows: seq<T>, key: T -> K, ks: seq<K>, k: K)
    requires k in ks
    ensures LastWithKey(RowsWithKeyIn(rows, key, ks), key, k) == LastWithKey(rows, key, k)
    decreases |rows|
  {
    if rows != [] {
      LastWithKeyFetched(rows[..|rows| - 1], key, ks, k);
    }
  }

  lemma {:induction false} RowsWithKeyFetched<K, T>(rows: seq<T>, key: T -> K, ks: seq<K>, k: K)
    requires k in ks
    ensures RowsWithKey(RowsWithKeyIn(rows, key, ks), key, k) == RowsWithKey(rows, key, k)
    decreases |rows|
  {
    if rows != [] {
      RowsWithKeyFetched(rows[..|rows| - 1], key, ks, k);
      var p := RowsWithKeyIn(rows[..|rows| - 1], key, ks);
      var x := rows[|rows| - 1];
      if key(x) in ks {
        assert RowsWithKeyIn(rows, key, ks) == p + [x];
        assert (p + [x])[..|p + [x]| - 1] == p;
      }
    }
  }

  /** `new Map(rows.map(r => [key(r), r]))`. */
  function IndexBy<K(==), T>(rows: seq<T>, key: T -> K): map<K, T>
    decreases |rows|
  {
    if rows == [] then map[]
    else IndexBy(rows[..|rows| - 1], key)[key(rows[|rows| - 1]) := rows[|rows| - 1]]
  }

  /** The map holds exactly the keys of the rows, each bound to its last row. */
  lemma {:induction false} IndexByLookup<K, T>(rows: seq<T>, key: T -> K, k: K)
    ensures k in IndexBy(rows, key) <==> LastWithKey(rows, key, k).Some?
    ensures k in IndexBy(rows, key) ==> IndexBy(rows, key)[k] == LastWithKey(rows, key, k).value
    decreases |rows|
  {
    if rows != [] {
      IndexByLookup(rows[..|rows| - 1], key, k);
    }
  }

  /** Grouping by key, appending each row to its key's list
      (`existing = map.get(k) || []; existing.push(r); map.set(k, existing)`). */
  function GroupBy<K(==), T>(rows: seq<T>, key: T -> K): map<K, seq<T>>
    decreases |rows|
  {
    if rows == [] then map[]
    else
      var g := GroupBy(rows[..|rows| - 1], key);
      var x := rows[|rows| - 1];
      g[key(x) := (if key(x) in g then g[key(x)] else []) + [x]]
  }

  /** `map.get(k) || []`. */
  function GroupOf<K(==), T>(g: map<K, seq<T>>, k: K): seq<T> {
    if k in g then g[k] else []
  }

  /** A group is the rows with that key in order, and a key without rows
      has no group. */
  lemma {:induction false} GroupByLookup<K, T>(rows: seq<T>, key: T -> K, k: K)
    ensures GroupOf(GroupBy(rows, key), k) == RowsWithKey(rows, key, k)
    ensures k in GroupBy(rows, key) <==> RowsWithKey(rows, key, k) != []
    decreases |rows|
  {
    if rows != [] {
      GroupByLookup(rows[..|rows| - 1], key, k);
    }
  }

  // ---------------------------------------------------------------------------
  // classification pairing

  /** Each link paired with its classification, looked up in `cs` by
      `classification_id`; links whose classification is missing are dropped. */
  function Classify(links: seq<BidClassification>, cs: seq<Classification>): (r: seq<ClassifiedLink>)
    ensures |r| <= |links|
    ensures forall i :: 0 <= i < |r| ==>
              r[i].link in links &&
              LastWithKey(cs, ClassificationKey, r[i].link.classificationId) == Some(r[i].classification)
    decreases |links|
  {
    if links == [] then []
    else
      var r := Classify(links[..|links| - 1], cs);
      var bc := links[|links| - 1];
      assert forall i :: 0 <= i < |links| - 1 ==> links[i] == links[..|links| - 1][i];
      match LastWithKey(cs, ClassificationKey, bc.classificationId)
      case Some(c) => r + [ClassifiedLink(bc, c)]
      case None => r
  }

  /** A link is kept iff its classification exists. */
  lemma {:induction false} ClassifyKeeps(links: seq<BidClassification>, cs: seq<Classification>, i: nat)
    requires i < |links|
    ensures (exists j :: 0 <= j < |Classify(links, cs)| && Classify(links, cs)[j].link == links[i]) <==>
            LastWithKey(cs, ClassificationKey, links[i].classificationId).Some?
    decreases |links|
  {
    var p := links[..|links| - 1];
    var bc := links[|links| - 1];
    var r := Classify(p, cs);
    if i == |links| - 1 {
      if LastWithKey(cs, ClassificationKey, bc.classificationId).Some? {
        assert Classify(links, cs)[|r|].link == links[i];
      } else {
        assert Classify(links, cs) == r;
        forall j | 0 <= j < |r| ensures r[j].link != bc {
          assert r[j].link in p;
          assert LastWithKey(cs, ClassificationKey, r[j].link.classificationId).Some?;
        }
      }
    } else {
      assert links[i] == p[i];
      ClassifyKeeps(p, cs, i);
      var found := LastWithKey(cs, ClassificationKey, links[i].classificationId).Some?;
      if found {
        var j :| 0 <= j < |r| && r[j].link == p[i];
        assert Classify(links, cs)[j] == r[j];
      } else {
        forall j | 0 <= j < |Classify(links, cs)| ensures Classify(links, cs)[j].link != links[i] {
          var cl := Classify(links, cs)[j];
          assert LastWithKey(cs, ClassificationKey, cl.link.classificationId).Some?;
        }
      }
    }
  }

  /** Grouping the paired links by bid is pairing the links of that bid. */
  lemma {:induction false} RowsWithKeyClassify(links: seq<BidClassification>, cs: seq<Classification>, k: Option<Id>)
    ensures RowsWithKey(Classify(links, cs), ClassifiedBidKey, k) == Classify(RowsWithKey(links, LinkBidKey, k), cs)
    decreases |links|
  {
    if links != [] {
      var p := links[..|links| - 1];
      var bc := links[|links| - 1];
      RowsWithKeyClassify(p, cs, k);
      var cp := Classify(p, cs);
      var sub := RowsWithKey(p, LinkBidKey, k);
      match LastWithKey(cs, ClassificationKey, bc.classificationId)
      case Some(c) =>
        assert Classify(links, cs) == cp + [ClassifiedLink(bc, c)];
        assert (cp + [ClassifiedLink(bc, c)])[..|cp|] == cp;
        if bc.bidId == k {
          assert RowsWithKey(links, LinkBidKey, k) == sub + [bc];
          assert (sub + [bc])[..|sub|] == sub;
        }
      case None =>
        if bc.bidId == k {
          assert RowsWithKey(links, LinkBidKey, k) == sub + [bc];
          assert (sub + [bc])[..|sub|] == sub;
        }
    }
  }

  /** Pairing only consults the classifications of the links' own ids. */
  lemma {:induction false} ClassifyCongruent(links: seq<BidClassification>, cs1: seq<Classification>, cs2: seq<Classification>)
    requires forall i :: 0 <= i < |links| ==>
      LastWithKey(cs1, ClassificationKey, links[i].classificationId) ==
      LastWithKey(cs2, ClassificationKey, links[i].classificationId)
    ensures Classify(links, cs1) == Classify(links, cs2)
    decreases |links|
  {
    if links != [] {
      var p := links[..|links| - 1];
      assert forall i :: 0 <= i < |p| ==> p[i] == links[i];
      ClassifyCongruent(p, cs1, cs2);
    }
  }

  // ---------------------------------------------------------------------------
  // the view of one bid

  /** What `populateBidRelations` promises for one bid, stated on the whole
      snapshot: each single relation is the last row with the bid's foreign
      key, when that key is set; the list relations are the table's rows
      with this bid's id, in order, classification links paired with their
      classification. */
  function ViewOf(db: Db, b: Bid): BidView {
    BidView(
      b,
      if b.projectId.Some? then LastWithKey(db.projects, ProjectKey, b.projectId.value) else None,
      if b.contractorId.Some? then LastWithKey(db.contractors, ContractorKey, b.contractorId.value) else None,
      if b.emailRecordId.Some? then LastWithKey(db.emails, EmailKey, b.emailRecordId.value) else None,
      Classify(RowsWithKey(db.bidClassifications, LinkBidKey, Some(b.id)), db.classifications),
      RowsWithKey(db.bidDocuments, DocumentBidKey, Some(b.id)),
      RowsWithKey(db.contracts, ContractBidKey, Some(b.id)))
  }

  /** A view fabricates nothing: the bid's own columns are unchanged, a
      single relation is present only when the foreign key is set and is then
      a row with that id, and every listed row belongs to this bid (and a
      listed classification is the one its link names). */
  lemma ViewSound(db: Db, b: Bid)
    ensures var v := ViewOf(db, b);
      && v.bid == b
      && (b.projectId.None? ==> v.project.None?)
      && (b.contractorId.None? ==> v.contractor.None?)
      && (b.emailRecordId.None? ==> v.emailRecord.None?)
      && (v.project.Some? ==> v.project.value in db.projects && Some(v.project.value.id) == b.projectId)
      && (v.contractor.Some? ==> v.contractor.value in db.contractors && Some(v.contractor.value.id) == b.contractorId)
      && (v.emailRecord.Some? ==> v.emailRecord.value in db.emails && Some(v.emailRecord.value.id) == b.emailRecordId)
      && (forall i :: 0 <= i < |v.documents| ==> v.documents[i] in db.bidDocuments && v.documents[i].bidId == Some(b.id))
      && (forall i :: 0 <= i < |v.contract| ==> v.contract[i] in db.contracts && v.contract[i].bidId == Some(b.id))
      && (forall i :: 0 <= i < |v.classifications| ==>
            v.classifications[i].link in db.bidClassifications &&
            v.classifications[i].link.bidId == Some(b.id) &&
            v.classifications[i].classification in db.classifications &&
            Some(v.classifications[i].classification.id) == v.classifications[i].link.classificationId)
  {
    var links := RowsWithKey(db.bidClassifications, LinkBidKey, Some(b.id));
    var cls := Classify(links, db.classifications);
    assert forall i :: 0 <= i < |cls| ==> cls[i].link in links;
  }

  /** A set foreign key whose row exists always finds it. */
  lemma ViewFindsRows(db: Db, b: Bid)
    ensures b.projectId.Some? && (exists p :: p in db.projects && p.id == b.projectId.value) ==> ViewOf(db, b).project.Some?
    ensures b.contractorId.Some? && (exists c :: c in db.contractors && c.id == b.contractorId.value) ==> ViewOf(db, b).contractor.Some?
    ensures b.emailRecordId.Some? && (exists e :: e in db.emails && e.id == b.emailRecordId.value) ==> ViewOf(db, b).emailRecord.Some?
  {
  }

  /** Every document and contract of the bid is in its view, and so is every
      link of the bid whose classification exists. */
  lemma ViewComplete(db: Db, b: Bid)
    ensures forall i :: 0 <= i < |db.bidDocuments| && db.bidDocuments[i].bidId == Some(b.id) ==>
              db.bidDocuments[i] in ViewOf(db, b).documents
    ensures forall i :: 0 <= i < |db.contracts| && db.contracts[i].bidId == Some(b.id) ==>
              db.contracts[i] in ViewOf(db, b).contract
    ensures forall i :: 0 <= i < |db.bidClassifications| && db.bidClassifications[i].bidId == Some(b.id) ==>
              ((exists j :: 0 <= j < |ViewOf(db, b).classifications| &&
                 ViewOf(db, b).classifications[j].link == db.bidClassifications[i]) <==>
               LastWithKey(db.classifications, ClassificationKey, db.bidClassifications[i].classificationId).Some?)
  {
    forall i | 0 <= i < |db.bidDocuments| && db.bidDocuments[i].bidId == Some(b.id)
      ensures db.bidDocuments[i] in ViewOf(db, b).documents
    {
      RowsWithKeyComplete(db.bidDocuments, DocumentBidKey, Some(b.id), i);
    }
    forall i | 0 <= i < |db.contracts| && db.contracts[i].bidId == Some(b.id)
      ensures db.contracts[i] in ViewOf(db, b).contract
    {
      RowsWithKeyComplete(db.contracts, ContractBidKey, Some(b.id), i);
    }
    var links := RowsWithKey(db.bidClassifications, LinkBidKey, Some(b.id));
    assert ViewOf(db, b).classifications == Classify(links, db.classifications);
    forall i | 0 <= i < |db.bidClassifications| && db.bidClassifications[i].bidId == Some(b.id)
      ensures (exists j :: 0 <= j < |ViewOf(db, b).classifications| &&
                 ViewOf(db, b).classifications[j].link == db.bidClassifications[i]) <==>
              LastWithKey(db.classifications, ClassificationKey, db.bidClassifications[i].classificationId).Some?
    {
      var bc := db.bidClassifications[i];
      RowsWithKeyComplete(db.bidClassifications, LinkBidKey, Some(b.id), i);
      var k :| 0 <= k < |links| && links[k] == bc;
      ClassifyKeeps(links, db.classifications, k);
    }
  }

  // ---------------------------------------------------------------------------
  // fetch, then look up: the steps of the correctness argument

  /** `map.get(k)`: the bound row, or nothing. */
  function Lookup<K(==), T>(m: map<K, T>, k: K): Option<T> {
    if k in m then Some(m[k]) else None
  }

  /** Looking a fetched key up in the map of the fetched rows finds the row
      of the whole table. */
  lemma LookupFetched<K, T>(rows: seq<T>, key: T -> K, ks: seq<K>, k: K)
    requires k in ks
    ensures Lookup(IndexBy(RowsWithKeyIn(rows, key, ks), key), k) == LastWithKey(rows, key, k)
  {
    IndexByLookup(RowsWithKeyIn(rows, key, ks), key, k);
    LastWithKeyFetched(rows, key, ks, k);
  }

  /** The group of a fetched key is that key's rows in the whole table. */
  lemma GroupFetched<K, T>(rows: seq<T>, key: T -> K, ks: seq<K>, k: K)
    requires k in ks
    ensures GroupOf(GroupBy(RowsWithKeyIn(rows, key, ks), key), k) == RowsWithKey(rows, key, k)
  {
    GroupByLookup(RowsWithKeyIn(rows, key, ks), key, k);
    RowsWithKeyFetched(rows, key, ks, k);
  }

  /** The classification rows fetched for the given links. */
  function FetchedClassifications(db: Db, linkRows: seq<BidClassification>): seq<Classification> {
    var ids := MapSeq(linkRows, LinkClassificationKey);
    if |ids| > 0 then RowsWithKeyIn(db.classifications, ClassificationKey, ids) else []
  }

  /** The paired links grouped under a fetched bid id are that bid's links
      in the whole table, paired with the whole classifications table. */
  lemma ClassifiedFetched(db: Db, bidIds: seq<Option<Id>>, k: Option<Id>)
    requires k in bidIds
    ensures
      var linkRows := RowsWithKeyIn(db.bidClassifications, LinkBidKey, bidIds);
      GroupOf(GroupBy(Classify(linkRows, FetchedClassifications(db, linkRows)), ClassifiedBidKey), k) ==
      Classify(RowsWithKey(db.bidClassifications, LinkBidKey, k), db.classifications)
  {
    var linkRows := RowsWithKeyIn(db.bidClassifications, LinkBidKey, bidIds);
    var cs := FetchedClassifications(db, linkRows);
    var ids := MapSeq(linkRows, LinkClassificationKey);
    GroupByLookup(Classify(linkRows, cs), ClassifiedBidKey, k);
    RowsWithKeyClassify(linkRows, cs, k);
    RowsWithKeyFetched(db.bidClassifications, LinkBidKey, bidIds, k);
    var links := RowsWithKey(db.bidClassifications, LinkBidKey, k);
    forall j | 0 <= j < |links|
      ensures LastWithKey(cs, ClassificationKey, links[j].classificationId) ==
              LastWithKey(db.classifications, ClassificationKey, links[j].classificationId)
    {
      var bc := links[j];
      assert bc in db.bidClassifications && bc.bidId == k;
      var n :| 0 <= n < |db.bidClassifications| && db.bidClassifications[n] == bc;
      RowsWithKeyInComplete(db.bidClassifications, LinkBidKey, bidIds, n);
      var m :| 0 <= m < |linkRows| && linkRows[m] == bc;
      assert ids[m] == bc.classificationId;
      LastWithKeyFetched(db.classifications, ClassificationKey, ids, bc.classificationId);
    }
    ClassifyCongruent(links, cs, db.classifications);
  }

  // ---------------------------------------------------------------------------
  // the assembler

  /** Builds `IndexBy(rows, key)` one row at a time. */
  method BuildIndex<K(==), T>(rows: seq<T>, key: T -> K) returns (m: map<K, T>)
    ensures m == IndexBy(rows, key)
  {
    m := map[];
    var i := 0;
    while i < |rows|
      invariant 0 <= i <= |rows|
      invariant m == IndexBy(rows[..i], key)
    {
      assert rows[..i + 1][..i] == rows[..i];
      m := m[key(rows[i]) := rows[i]];
      i := i + 1;
    }
    assert rows[..|rows|] == rows;
  }

  /** Builds `GroupBy(rows, key)` one row at a time. */
  method BuildGroups<K(==), T>(rows: seq<T>, key: T -> K) returns (g: map<K, seq<T>>)
    ensures g == GroupBy(rows, key)
  {
    g := map[];
    var i := 0;
    while i < |rows|
      invariant 0 <= i <= |rows|
      invariant g == GroupBy(rows[..i], key)
    {
      assert rows[..i + 1][..i] == rows[..i];
      var existing := GroupOf(g, key(rows[i]));
      g := g[key(rows[i]) := existing + [rows[i]]];
      i := i + 1;
    }
    assert rows[..|rows|] == rows;
  }

  /** Groups the links by bid, keeping only those whose classification is
      in `cmap` and pairing each with it. */
  method GroupClassified(links: seq<BidClassification>, cmap: map<Option<Id>, Classification>, ghost cs: seq<Classification>)
    returns (g: map<Option<Id>, seq<ClassifiedLink>>)
    requires cmap == IndexBy(cs, ClassificationKey)
    ensures g == GroupBy(Classify(links, cs), ClassifiedBidKey)
  {
    g := map[];
    var i := 0;
    while i < |links|
      invariant 0 <= i <= |links|
      invariant g == GroupBy(Classify(links[..i], cs), ClassifiedBidKey)
    {
      var bc := links[i];
      assert links[..i + 1][..i] == links[..i];
      IndexByLookup(cs, ClassificationKey, bc.classificationId);
      if bc.classificationId in cmap {
        var entry := ClassifiedLink(bc, cmap[bc.classificationId]);
        var existing := GroupOf(g, bc.bidId);
        ghost var before := Classify(links[..i], cs);
        assert Classify(links[..i + 1], cs) == before + [entry];
        assert (before + [entry])[..|before|] == before;
        g := g[bc.bidId := existing + [entry]];
      }
      i := i + 1;
    }
    assert links[..|links|] == links;
  }

  /** Some bid has the foreign key `key` set. */
  predicate AnyKeySet(bids: seq<Bid>, key: Bid -> Option<Id>) {
    exists i :: 0 <= i < |bids| && key(bids[i]).Some?
  }

  /** The ids of the bids, as values of a nullable `bid_id` column. */
  function BidIds(bids: seq<Bid>): seq<Option<Id>> {
    MapSeq(MapSeq(bids, BidKey), SomeId)
  }

  /** The rows of one single-relation table fetched for `bids`: none when
      no bid has that foreign key set. */
  function FetchedRows<T>(rows: seq<T>, key: T -> Id, ids: seq<Id>): seq<T> {
    if |ids| > 0 then RowsWithKeyIn(rows, key, ids) else []
  }

  /** The link rows fetched for `bids`. */
  function FetchedLinks(db: Db, bids: seq<Bid>): seq<BidClassification> {
    RowsWithKeyIn(db.bidClassifications, LinkBidKey, BidIds(bids))
  }

  /** A query that runs only when `cond` holds. */
  function QueryIf(cond: bool, t: Table): seq<Table> {
    if cond then [t] else []
  }

  /** The key list of a column is non-empty exactly when some bid has that
      foreign key set. */
  lemma PresentKeysNonEmpty(bids: seq<Bid>, key: Bid -> Option<Id>)
    ensures (|PresentKeys(bids, key)| > 0) == AnyKeySet(bids, key)
  {
  }

  /** The queries `populateBidRelations` issues for `bids`, in order. */
  function QueriesFor(db: Db, bids: seq<Bid>): seq<Table> {
    if bids == [] then []
    else
      QueryIf(AnyKeySet(bids, BidProjectKey), ProjectsTable) +
      QueryIf(AnyKeySet(bids, BidContractorKey), ContractorsTable) +
      QueryIf(AnyKeySet(bids, BidEmailKey), EmailRecordsTable) +
      [BidClassificationsTable] +
      QueryIf(FetchedLinks(db, bids) != [], ClassificationsTable) +
      [BidDocumentsTable, ContractsTable]
  }

  /** The final `bids.map(...)` step: a bid with its looked-up relations. */
  function Assemble(b: Bid, projectMap: map<Id, Project>, contractorMap: map<Id, Contractor>,
                    emailMap: map<Id, EmailRecord>, linkMap: map<Option<Id>, seq<ClassifiedLink>>,
                    documentsMap: map<Option<Id>, seq<BidDocument>>, contractsMap: map<Option<Id>, seq<Contract>>): BidView
  {
    BidView(
      b,
      if b.projectId.Some? then Lookup(projectMap, b.projectId.value) else None,
      if b.contractorId.Some? then Lookup(contractorMap, b.contractorId.value) else None,
      if b.emailRecordId.Some? then Lookup(emailMap, b.emailRecordId.value) else None,
      GroupOf(linkMap, Some(b.id)),
      GroupOf(documentsMap, Some(b.id)),
      GroupOf(contractsMap, Some(b.id)))
  }

  /** Assembling from the maps of the fetched rows yields `ViewOf`. */
  lemma AssembleFetched(db: Db, bids: seq<Bid>, i: nat)
    requires i < |bids|
    ensures
      var links := FetchedLinks(db, bids);
      Assemble(bids[i],
        IndexBy(FetchedRows(db.projects, ProjectKey, PresentKeys(bids, BidProjectKey)), ProjectKey),
        IndexBy(FetchedRows(db.contractors, ContractorKey, PresentKeys(bids, BidContractorKey)), ContractorKey),
        IndexBy(FetchedRows(db.emails, EmailKey, PresentKeys(bids, BidEmailKey)), EmailKey),
        GroupBy(Classify(links, FetchedClassifications(db, links)), ClassifiedBidKey),
        GroupBy(RowsWithKeyIn(db.bidDocuments, DocumentBidKey, BidIds(bids)), DocumentBidKey),
        GroupBy(RowsWithKeyIn(db.contracts, ContractBidKey, BidIds(bids)), ContractBidKey))
      == ViewOf(db, bids[i])
  {
    var b := bids[i];
    var bidIds := BidIds(bids);
    assert Some(b.id) == bidIds[i];
    SingleFetched(db.projects, ProjectKey, bids, BidProjectKey, i);
    SingleFetched(db.contractors, ContractorKey, bids, BidContractorKey, i);
    SingleFetched(db.emails, EmailKey, bids, BidEmailKey, i);
    GroupFetched(db.bidDocuments, DocumentBidKey, bidIds, Some(b.id));
    GroupFetched(db.contracts, ContractBidKey, bidIds, Some(b.id));
    ClassifiedFetched(db, bidIds, Some(b.id));
  }

  /** One single relation of the `i`-th bid, looked up among the fetched rows. */
  lemma SingleFetched<T>(rows: seq<T>, key: T -> Id, bids: seq<Bid>, fk: Bid -> Option<Id>, i: nat)
    requires i < |bids|
    ensures fk(bids[i]).Some? ==>
      Lookup(IndexBy(FetchedRows(rows, key, PresentKeys(bids, fk)), key), fk(bids[i]).value) ==
      LastWithKey(rows, key, fk(bids[i]).value)
  {
    if fk(bids[i]).Some? {
      LookupFetched(rows, key, PresentKeys(bids, fk), fk(bids[i]).value);
    }
  }

  /** The rows the seven queries return (lines 416-463 of server/storage.ts). */
  datatype Fetched = Fetched(
    projects: seq<Project>,
    contractors: seq<Contractor>,
    emails: seq<EmailRecord>,
    links: seq<BidClassification>,
    classifications: seq<Classification>,
    documents: seq<BidDocument>,
    contracts: seq<Contract>)

  function FetchedFor(db: Db, bids: seq<Bid>): Fetched {
    var links := FetchedLinks(db, bids);
    Fetched(
      FetchedRows(db.projects, ProjectKey, PresentKeys(bids, BidProjectKey)),
      FetchedRows(db.contractors, ContractorKey, PresentKeys(bids, BidContractorKey)),
      FetchedRows(db.emails, EmailKey, PresentKeys(bids, BidEmailKey)),
      links,
      FetchedClassifications(db, links),
      RowsWithKeyIn(db.bidDocuments, DocumentBidKey, BidIds(bids)),
      RowsWithKeyIn(db.contracts, ContractBidKey, BidIds(bids)))
  }

  /** One guarded single-relation query (`if (ids.length > 0) ...`). */
  method FetchByIds<T>(rows: seq<T>, key: T -> Id, ids: seq<Id>, t: Table) returns (r: seq<T>, query: seq<Table>)
    ensures r == FetchedRows(rows, key, ids)
    ensures query == QueryIf(|ids| > 0, t)
  {
    r := [];
    query := [];
    if |ids| > 0 {
      r := RowsWithKeyIn(rows, key, ids);
      query := [t];
    }
  }

  /** The queries for a non-empty bid list, each guarded by a non-empty key
      list; `queries` records which ran. */
  method FetchRelated(db: Db, bids: seq<Bid>) returns (f: Fetched, queries: seq<Table>)
    requires bids != []
    ensures f == FetchedFor(db, bids)
    ensures queries == QueriesFor(db, bids)
  {
    var bidIds := BidIds(bids);
    var projectIds := PresentKeys(bids, BidProjectKey);
    var contractorIds := PresentKeys(bids, BidContractorKey);
    var emailIds := PresentKeys(bids, BidEmailKey);

    var relatedProjects, q1 := FetchByIds(db.projects, ProjectKey, projectIds, ProjectsTable);
    var relatedContractors, q2 := FetchByIds(db.contractors, ContractorKey, contractorIds, ContractorsTable);
    var relatedEmails, q3 := FetchByIds(db.emails, EmailKey, emailIds, EmailRecordsTable);
    var linkRows := RowsWithKeyIn(db.bidClassifications, LinkBidKey, bidIds);
    var classificationIds := MapSeq(linkRows, LinkClassificationKey);
    var classificationRows: seq<Classification> := [];
    var q5: seq<Table> := [];
    if |classificationIds| > 0 {
      classificationRows := RowsWithKeyIn(db.classifications, ClassificationKey, classificationIds);
      q5 := [ClassificationsTable];
    }
    var documentRows := RowsWithKeyIn(db.bidDocuments, DocumentBidKey, bidIds);
    var contractRows := RowsWithKeyIn(db.contracts, ContractBidKey, bidIds);
    queries := q1 + q2 + q3 + [BidClassificationsTable] + q5 + [BidDocumentsTable, ContractsTable];
    f := Fetched(relatedProjects, relatedContractors, relatedEmails, linkRows, classificationRows, documentRows, contractRows);

    PresentKeysNonEmpty(bids, BidProjectKey);
    PresentKeysNonEmpty(bids, BidContractorKey);
    PresentKeysNonEmpty(bids, BidEmailKey);
    assert q5 == QueryIf(linkRows != [], ClassificationsTable);
  }

  /** `populateBidRelations(bids)`: one view per bid, in input order, equal
      to `ViewOf` on the snapshot. `fetched` lists the queries issued: none
      for an empty list; each single-relation table only when some bid has
      that foreign key set; the classifications table only when some link
      rows were found. */
  method PopulateBidRelations(db: Db, bids: seq<Bid>) returns (views: seq<BidView>, fetched: seq<Table>)
    ensures |views| == |bids|
    ensures forall i :: 0 <= i < |bids| ==> views[i] == ViewOf(db, bids[i])
    ensures fetched == QueriesFor(db, bids)
  {
    if |bids| == 0 {
      return [], [];
    }
    var rows;
    rows, fetched := FetchRelated(db, bids);

    var projectMap := BuildIndex(rows.projects, ProjectKey);
    var contractorMap := BuildIndex(rows.contractors, ContractorKey);
    var emailMap := BuildIndex(rows.emails, EmailKey);
    var classificationMap := BuildIndex(rows.classifications, ClassificationKey);
    var linkMap := GroupClassified(rows.links, classificationMap, rows.classifications);
    var documentsMap := BuildGroups(rows.documents, DocumentBidKey);
    var contractsMap := BuildGroups(rows.contracts, ContractBidKey);

    views := seq(|bids|, i requires 0 <= i < |bids| =>
      Assemble(bids[i], projectMap, contractorMap, emailMap, linkMap, documentsMap, contractsMap));
    forall i | 0 <= i < |bids| ensures views[i] == ViewOf(db, bids[i]) {
      AssembleFetched(db, bids, i);
    }
  }
}
