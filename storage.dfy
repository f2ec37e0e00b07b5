/** `DatabaseStorage`: the query methods of the server, each a pure
    expression over a table snapshot `Db`. A `WHERE` clause is a condition
    in SQL's three-valued logic that keeps the rows where it is TRUE; an
    `ORDER BY` is a stable sort whose tie order the database leaves open;
    the bid queries hand their rows to `PopulateBidRelations`. */
module Storage {
  import opened Wrappers
  import opened Seqs
  import opened Text
  import opened Numeric
  import opened Schema
  import opened Relations

  // ---------------------------------------------------------------------------
  // SQL conditions

  /** A SQL boolean: TRUE, FALSE or NULL (unknown). */
  datatype SqlBool = SqlTrue | SqlFalse | SqlNull

  /** `a OR b` in three-valued logic. */
  function SqlOr(a: SqlBool, b: SqlBool): SqlBool {
    if a == SqlTrue || b == SqlTrue then SqlTrue
    else if a == SqlFalse && b == SqlFalse then SqlFalse
    else SqlNull
  }

  /** The `or(...)` helper, `(c1 OR c2 OR ... OR cn)`: TRUE when some
      condition is TRUE, FALSE when all are FALSE, NULL otherwise. An empty
      list would produce `()`, which is not SQL; storage.ts never passes one. */
  function AnyOf(cs: seq<SqlBool>): (r: SqlBool)
    requires |cs| >= 1
    ensures r == SqlTrue <==> exists i :: 0 <= i < |cs| && cs[i] == SqlTrue
    ensures r == SqlFalse <==> forall i :: 0 <= i < |cs| ==> cs[i] == SqlFalse
    decreases |cs|
  {
    if |cs| == 1 then cs[0]
    else
      var front := cs[..|cs| - 1];
      assert forall i :: 0 <= i < |cs| - 1 ==> cs[i] == front[i];
      SqlOr(AnyOf(front), cs[|cs| - 1])
  }

  /** The query holds none of ILIKE's pattern characters, so `%q%` is a
      plain case-insensitive substring test. */
  predicate NoWildcards(q: string) {
    forall i :: 0 <= i < |q| ==> q[i] != '%' && q[i] != '_' && q[i] != '\\'
  }

  /** `column ILIKE '%q%'`; NULL on a NULL column. The `column || ''` of the
      source is a JavaScript expression on the column object and leaves the
      SQL unchanged. */
  function ILike(col: Option<string>, q: string): SqlBool
    requires NoWildcards(q)
  {
    match col
    case None => SqlNull
    case Some(s) => if IContains(s, q) then SqlTrue else SqlFalse
  }

  /** `column IN (ids)`; NULL on a NULL column. */
  function InArray(col: Option<Id>, ids: seq<Id>): SqlBool {
    match col
    case None => SqlNull
    case Some(v) => if v in ids then SqlTrue else SqlFalse
  }

  /** A `WHERE` keeps a row exactly when the condition is TRUE, with the
      multiplicity the row has in the table; sorting the result keeps that. */
  lemma {:induction false} FilterCount<T>(s: seq<T>, p: T -> bool, x: T)
    ensures multiset(Filter(s, p))[x] == if p(x) then multiset(s)[x] else 0
    decreases |s|
  {
    if s != [] {
      FilterCount(s[1..], p, x);
      assert s == [s[0]] + s[1..];
      assert multiset(s) == multiset{s[0]} + multiset(s[1..]);
    }
  }

  /** Query results: `ORDER BY before` over the rows with `p`. */
  lemma SortedWhere<T(!new)>(s: seq<T>, p: T -> bool, before: (T, T) -> bool)
    requires TotalPreorder(before)
    ensures SortedBy(SortBy(Filter(s, p), before), before)
    ensures forall x :: multiset(SortBy(Filter(s, p), before))[x] == if p(x) then multiset(s)[x] else 0
  {
    SortBySorted(Filter(s, p), before);
    forall x ensures multiset(SortBy(Filter(s, p), before))[x] == if p(x) then multiset(s)[x] else 0 {
      FilterCount(s, p, x);
    }
  }

  // ---------------------------------------------------------------------------
  // orderings

  /** `ORDER BY received_date DESC` (and `submission_date DESC` below). */
  predicate ReceivedLater(a: EmailRecord, b: EmailRecord) { a.receivedDate >= b.receivedDate }
  predicate SubmittedLater(a: Bid, b: Bid) { a.submissionDate >= b.submissionDate }
  /** `ORDER BY name`, by character code. */
  predicate ContractorNameLe(a: Contractor, b: Contractor) { TextLe(a.name, b.name) }
  predicate ProjectNameLe(a: Project, b: Project) { TextLe(a.name, b.name) }

  lemma ReceivedLaterTotal()
    ensures TotalPreorder(ReceivedLater)
  {
  }

  lemma SubmittedLaterTotal()
    ensures TotalPreorder(SubmittedLater)
  {
  }

  lemma ContractorNameTotal()
    ensures TotalPreorder(ContractorNameLe)
  {
    forall a: Contractor, b: Contractor ensures ContractorNameLe(a, b) || ContractorNameLe(b, a) {
      TextLeTotal(a.name, b.name);
    }
    forall a: Contractor, b: Contractor, c: Contractor | ContractorNameLe(a, b) && ContractorNameLe(b, c)
      ensures ContractorNameLe(a, c)
    {
      TextLeTransitive(a.name, b.name, c.name);
    }
  }

  lemma ProjectNameTotal()
    ensures TotalPreorder(ProjectNameLe)
  {
    forall a: Project, b: Project ensures ProjectNameLe(a, b) || ProjectNameLe(b, a) {
      TextLeTotal(a.name, b.name);
    }
    forall a: Project, b: Project, c: Project | ProjectNameLe(a, b) && ProjectNameLe(b, c)
      ensures ProjectNameLe(a, c)
    {
      TextLeTransitive(a.name, b.name, c.name);
    }
  }

  // ---------------------------------------------------------------------------
  // searches

  /** The search conditions, as storage.ts writes them. */
  function EmailCondition(e: EmailRecord, q: string): SqlBool
    requires NoWildcards(q)
  {
    AnyOf([ILike(Some(e.subject), q), ILike(Some(e.senderEmail), q), ILike(e.senderName, q), ILike(e.bodyText, q)])
  }

  function ContractorCondition(c: Contractor, q: string): SqlBool
    requires NoWildcards(q)
  {
    AnyOf([ILike(Some(c.name), q), ILike(Some(c.email), q), ILike(c.phone, q), ILike(c.certificationLevel, q)])
  }

  function ProjectCondition(p: Project, q: string): SqlBool
    requires NoWildcards(q)
  {
    AnyOf([ILike(Some(p.name), q), ILike(p.description, q), ILike(p.projectType, q)])
  }

  /** A nullable text column that is set and contains `q`, ignoring case. */
  predicate HasText(col: Option<string>, q: string) {
    col.Some? && IContains(col.value, q)
  }

  /** The meaning of the search conditions in plain terms. */
  predicate EmailMatches(e: EmailRecord, q: string) {
    IContains(e.subject, q) || IContains(e.senderEmail, q) || HasText(e.senderName, q) || HasText(e.bodyText, q)
  }

  predicate ContractorMatches(c: Contractor, q: string) {
    IContains(c.name, q) || IContains(c.email, q) || HasText(c.phone, q) || HasText(c.certificationLevel, q)
  }

  predicate ProjectMatches(p: Project, q: string) {
    IContains(p.name, q) || HasText(p.description, q) || HasText(p.projectType, q)
  }

  /** Each search condition is TRUE exactly when its plain reading holds:
      a NULL column never matches. */
  lemma EmailConditionMeaning(e: EmailRecord, q: string)
    requires NoWildcards(q)
    ensures EmailCondition(e, q) == SqlTrue <==> EmailMatches(e, q)
  {
    var cs := [ILike(Some(e.subject), q), ILike(Some(e.senderEmail), q), ILike(e.senderName, q), ILike(e.bodyText, q)];
    assert (exists i :: 0 <= i < |cs| && cs[i] == SqlTrue) <==> cs[0] == SqlTrue || cs[1] == SqlTrue || cs[2] == SqlTrue || cs[3] == SqlTrue;
  }

  lemma ContractorConditionMeaning(c: Contractor, q: string)
    requires NoWildcards(q)
    ensures ContractorCondition(c, q) == SqlTrue <==> ContractorMatches(c, q)
  {
    var cs := [ILike(Some(c.name), q), ILike(Some(c.email), q), ILike(c.phone, q), ILike(c.certificationLevel, q)];
    assert (exists i :: 0 <= i < |cs| && cs[i] == SqlTrue) <==> cs[0] == SqlTrue || cs[1] == SqlTrue || cs[2] == SqlTrue || cs[3] == SqlTrue;
  }

  lemma ProjectConditionMeaning(p: Project, q: string)
    requires NoWildcards(q)
    ensures ProjectCondition(p, q) == SqlTrue <==> ProjectMatches(p, q)
  {
    var cs := [ILike(Some(p.name), q), ILike(p.description, q), ILike(p.projectType, q)];
    assert (exists i :: 0 <= i < |cs| && cs[i] == SqlTrue) <==> cs[0] == SqlTrue || cs[1] == SqlTrue || cs[2] == SqlTrue;
  }

  function EmailHit(q: string): EmailRecord -> bool
    requires NoWildcards(q)
  {
    e => EmailCondition(e, q) == SqlTrue
  }

  function ContractorHit(q: string): Contractor -> bool
    requires NoWildcards(q)
  {
    c => ContractorCondition(c, q) == SqlTrue
  }

  function ProjectHit(q: string): Project -> bool
    requires NoWildcards(q)
  {
    p => ProjectCondition(p, q) == SqlTrue
  }

  /** `searchEmails(q)`. */
  function SearchEmails(emails: seq<EmailRecord>, q: string): seq<EmailRecord>
    requires NoWildcards(q)
  {
    SortBy(Filter(emails, EmailHit(q)), ReceivedLater)
  }

  /** `searchContractors(q)`. */
  function SearchContractors(contractors: seq<Contractor>, q: string): seq<Contractor>
    requires NoWildcards(q)
  {
    SortBy(Filter(contractors, ContractorHit(q)), ContractorNameLe)
  }

  /** `searchProjects(q)`. */
  function SearchProjects(projects: seq<Project>, q: string): seq<Project>
    requires NoWildcards(q)
  {
    SortBy(Filter(projects, ProjectHit(q)), ProjectNameLe)
  }

  /** The emails found are those whose subject or sender address contains
      the query, or whose sender name or body is set and contains it,
      ignoring case; each as often as it is stored, newest first. */
  lemma SearchEmailsSpec(emails: seq<EmailRecord>, q: string)
    requires NoWildcards(q)
    ensures SortedBy(SearchEmails(emails, q), ReceivedLater)
    ensures forall e :: multiset(SearchEmails(emails, q))[e] == if EmailMatches(e, q) then multiset(emails)[e] else 0
    ensures forall e :: e in SearchEmails(emails, q) <==> e in emails && EmailMatches(e, q)
  {
    ReceivedLaterTotal();
    SortedWhere(emails, EmailHit(q), ReceivedLater);
    var r := SearchEmails(emails, q);
    forall e ensures multiset(r)[e] == if EmailMatches(e, q) then multiset(emails)[e] else 0 {
      EmailConditionMeaning(e, q);
    }
    forall e ensures e in r <==> e in emails && EmailMatches(e, q) {
      assert e in r <==> multiset(r)[e] > 0;
      assert e in emails <==> multiset(emails)[e] > 0;
    }
  }

  /** The contractors found are those whose name or email contains the
      query, or whose phone or certification level is set and contains it,
      ignoring case; by name. */
  lemma SearchContractorsSpec(contractors: seq<Contractor>, q: string)
    requires NoWildcards(q)
    ensures SortedBy(SearchContractors(contractors, q), ContractorNameLe)
    ensures forall c :: multiset(SearchContractors(contractors, q))[c] ==
                        if ContractorMatches(c, q) then multiset(contractors)[c] else 0
    ensures forall c :: c in SearchContractors(contractors, q) <==> c in contractors && ContractorMatches(c, q)
  {
    ContractorNameTotal();
    SortedWhere(contractors, ContractorHit(q), ContractorNameLe);
    var r := SearchContractors(contractors, q);
    forall c ensures multiset(r)[c] == if ContractorMatches(c, q) then multiset(contractors)[c] else 0 {
      ContractorConditionMeaning(c, q);
    }
    forall c ensures c in r <==> c in contractors && ContractorMatches(c, q) {
      assert c in r <==> multiset(r)[c] > 0;
      assert c in contractors <==> multiset(contractors)[c] > 0;
    }
  }

  /** The projects found are those whose name contains the query, or whose
      description or project type is set and contains it, ignoring case; by
      name. */
  lemma SearchProjectsSpec(projects: seq<Project>, q: string)
    requires NoWildcards(q)
    ensures SortedBy(SearchProjects(projects, q), ProjectNameLe)
    ensures forall p :: multiset(SearchProjects(projects, q))[p] ==
                        if ProjectMatches(p, q) then multiset(projects)[p] else 0
    ensures forall p :: p in SearchProjects(projects, q) <==> p in projects && ProjectMatches(p, q)
  {
    ProjectNameTotal();
    SortedWhere(projects, ProjectHit(q), ProjectNameLe);
    var r := SearchProjects(projects, q);
    forall p ensures multiset(r)[p] == if ProjectMatches(p, q) then multiset(projects)[p] else 0 {
      ProjectConditionMeaning(p, q);
    }
    forall p ensures p in r <==> p in projects && ProjectMatches(p, q) {
      assert p in r <==> multiset(r)[p] > 0;
      assert p in projects <==> multiset(projects)[p] > 0;
    }
  }

  // ---------------------------------------------------------------------------
  // searchBids

  /** The condition of `searchBids`; an empty id list contributes `FALSE`
      instead of an `IN ()`. */
  function BidCondition(b: Bid, projectIds: seq<Id>, contractorIds: seq<Id>, q: string): SqlBool
    requires NoWildcards(q)
  {
    AnyOf([
      if |projectIds| > 0 then InArray(b.projectId, projectIds) else SqlFalse,
      if |contractorIds| > 0 then InArray(b.contractorId, contractorIds) else SqlFalse,
      ILike(b.notes, q)])
  }

  function BidHit(projectIds: seq<Id>, contractorIds: seq<Id>, q: string): Bid -> bool
    requires NoWildcards(q)
  {
    b => BidCondition(b, projectIds, contractorIds, q) == SqlTrue
  }

  /** The bid rows of `searchBids(q)`, newest submission first. */
  function SearchBidRows(db: Db, q: string): seq<Bid>
    requires NoWildcards(q)
  {
    var projectIds := MapSeq(SearchProjects(db.projects, q), ProjectKey);
    var contractorIds := MapSeq(SearchContractors(db.contractors, q), ContractorKey);
    SortBy(Filter(db.bids, BidHit(projectIds, contractorIds, q)), SubmittedLater)
  }

  /** Some project with this id matches the query (and likewise for
      contractors). */
  predicate ProjectIdFound(db: Db, q: string, id: Id) {
    exists p :: p in db.projects && p.id == id && ProjectMatches(p, q)
  }

  predicate ContractorIdFound(db: Db, q: string, id: Id) {
    exists c :: c in db.contractors && c.id == id && ContractorMatches(c, q)
  }

  /** A bid is found when its project or its contractor is found by the
      project or contractor search, or its notes contain the query. */
  predicate BidMatches(db: Db, b: Bid, q: string) {
    (b.projectId.Some? && ProjectIdFound(db, q, b.projectId.value)) ||
    (b.contractorId.Some? && ContractorIdFound(db, q, b.contractorId.value)) ||
    HasText(b.notes, q)
  }

  /** One instance of the membership facts of the project and contractor
      searches. */
  lemma ProjectFound(projects: seq<Project>, q: string, p: Project)
    requires NoWildcards(q)
    ensures p in SearchProjects(projects, q) <==> p in projects && ProjectMatches(p, q)
  {
    SearchProjectsSpec(projects, q);
  }

  lemma ContractorFound(contractors: seq<Contractor>, q: string, c: Contractor)
    requires NoWildcards(q)
    ensures c in SearchContractors(contractors, q) <==> c in contractors && ContractorMatches(c, q)
  {
    SearchContractorsSpec(contractors, q);
  }

  /** A project id is among the ids of the project search hits exactly when
      a matching project has it. */
  lemma ProjectHitIds(db: Db, q: string, id: Id)
    requires NoWildcards(q)
    ensures id in MapSeq(SearchProjects(db.projects, q), ProjectKey) <==> ProjectIdFound(db, q, id)
  {
    var hits := SearchProjects(db.projects, q);
    var ids := MapSeq(hits, ProjectKey);
    if id in ids {
      var i :| 0 <= i < |ids| && ids[i] == id;
      ProjectFound(db.projects, q, hits[i]);
    }
    if exists p :: p in db.projects && p.id == id && ProjectMatches(p, q) {
      var p :| p in db.projects && p.id == id && ProjectMatches(p, q);
      ProjectFound(db.projects, q, p);
      var i :| 0 <= i < |hits| && hits[i] == p;
      assert ids[i] == id;
    }
  }

  lemma ContractorHitIds(db: Db, q: string, id: Id)
    requires NoWildcards(q)
    ensures id in MapSeq(SearchContractors(db.contractors, q), ContractorKey) <==> ContractorIdFound(db, q, id)
  {
    var hits := SearchContractors(db.contractors, q);
    var ids := MapSeq(hits, ContractorKey);
    if id in ids {
      var i :| 0 <= i < |ids| && ids[i] == id;
      ContractorFound(db.contractors, q, hits[i]);
    }
    if exists c :: c in db.contractors && c.id == id && ContractorMatches(c, q) {
      var c :| c in db.contractors && c.id == id && ContractorMatches(c, q);
      ContractorFound(db.contractors, q, c);
      var i :| 0 <= i < |hits| && hits[i] == c;
      assert ids[i] == id;
    }
  }

  /** A guarded `IN` is TRUE exactly when the column is set and listed. */
  lemma GuardedInArray(col: Option<Id>, ids: seq<Id>)
    ensures ((if |ids| > 0 then InArray(col, ids) else SqlFalse) == SqlTrue) <==> col.Some? && col.value in ids
  {
  }

  /** The `searchBids` condition is TRUE exactly when the bid matches,
      given id lists that hold the ids of the matching projects and
      contractors. */
  lemma BidConditionMeaning(db: Db, b: Bid, q: string, pids: seq<Id>, cids: seq<Id>)
    requires NoWildcards(q)
    requires b.projectId.Some? ==> (b.projectId.value in pids <==> ProjectIdFound(db, q, b.projectId.value))
    requires b.contractorId.Some? ==> (b.contractorId.value in cids <==> ContractorIdFound(db, q, b.contractorId.value))
    ensures BidCondition(b, pids, cids, q) == SqlTrue <==> BidMatches(db, b, q)
  {
    var c0 := if |pids| > 0 then InArray(b.projectId, pids) else SqlFalse;
    var c1 := if |cids| > 0 then InArray(b.contractorId, cids) else SqlFalse;
    var cs := [c0, c1, ILike(b.notes, q)];
    assert (exists i :: 0 <= i < |cs| && cs[i] == SqlTrue) <==> cs[0] == SqlTrue || cs[1] == SqlTrue || cs[2] == SqlTrue;
    GuardedInArray(b.projectId, pids);
    GuardedInArray(b.contractorId, cids);
  }

  /** `searchBids` finds each bid that matches, as often as it is stored,
      newest first. */
  lemma SearchBidRowsSpec(db: Db, q: string)
    requires NoWildcards(q)
    ensures SortedBy(SearchBidRows(db, q), SubmittedLater)
    ensures forall b :: multiset(SearchBidRows(db, q))[b] == if BidMatches(db, b, q) then multiset(db.bids)[b] else 0
    ensures forall b :: b in SearchBidRows(db, q) <==> b in db.bids && BidMatches(db, b, q)
  {
    var pids := MapSeq(SearchProjects(db.projects, q), ProjectKey);
    var cids := MapSeq(SearchContractors(db.contractors, q), ContractorKey);
    SubmittedLaterTotal();
    SortedWhere(db.bids, BidHit(pids, cids, q), SubmittedLater);
    var r := SearchBidRows(db, q);
    forall b ensures multiset(r)[b] == if BidMatches(db, b, q) then multiset(db.bids)[b] else 0 {
      if b.projectId.Some? {
        ProjectHitIds(db, q, b.projectId.value);
      }
      if b.contractorId.Some? {
        ContractorHitIds(db, q, b.contractorId.value);
      }
      BidConditionMeaning(db, b, q, pids, cids);
    }
    forall b ensures b in r <==> b in db.bids && BidMatches(db, b, q) {
      assert b in r <==> multiset(r)[b] > 0;
      assert b in db.bids <==> multiset(db.bids)[b] > 0;
    }
  }

  /** `searchBids(q)`: the found bids with their relations. */
  method SearchBids(db: Db, q: string) returns (views: seq<BidView>)
    requires NoWildcards(q)
    ensures |views| == |SearchBidRows(db, q)|
    ensures forall i :: 0 <= i < |views| ==> views[i] == ViewOf(db, SearchBidRows(db, q)[i])
  {
    var rawBids := SearchBidRows(db, q);
    var fetched;
    views, fetched := PopulateBidRelations(db, rawBids);
  }

  // ---------------------------------------------------------------------------
  // bid queries

  /** The default `limit` of the list queries. */
  const DefaultLimit: nat := 100

  /** The rows of `getBids(limit)`: the `limit` latest submissions. */
  function LatestBids(bids: seq<Bid>, limit: nat): seq<Bid> {
    Take(SortBy(bids, SubmittedLater), limit)
  }

  /** At most `limit` stored bids, newest first, none of them older than
      a stored bid that was left out. */
  lemma LatestBidsSpec(bids: seq<Bid>, limit: nat)
    ensures |LatestBids(bids, limit)| == if limit < |bids| then limit else |bids|
    ensures SortedBy(LatestBids(bids, limit), SubmittedLater)
    ensures forall b :: b in LatestBids(bids, limit) ==> b in bids
    ensures forall i, j :: 0 <= i < |LatestBids(bids, limit)| <= j < |bids| ==>
              LatestBids(bids, limit)[i].submissionDate >= SortBy(bids, SubmittedLater)[j].submissionDate
  {
    var sorted := SortBy(bids, SubmittedLater);
    SubmittedLaterTotal();
    SortBySorted(bids, SubmittedLater);
    forall b | b in LatestBids(bids, limit) ensures b in bids {
      assert b in multiset(sorted);
    }
  }

  method GetBids(db: Db, limit: nat) returns (views: seq<BidView>)
    ensures |views| == |LatestBids(db.bids, limit)|
    ensures forall i :: 0 <= i < |views| ==> views[i] == ViewOf(db, LatestBids(db.bids, limit)[i])
  {
    var rawBids := LatestBids(db.bids, limit);
    var fetched;
    views, fetched := PopulateBidRelations(db, rawBids);
  }

  function HasId(id: Id): Bid -> bool {
    (b: Bid) => b.id == id
  }

  /** `getBidById(id)`: the first bid with the id, with its relations;
      `None` when there is none. */
  method GetBidById(db: Db, id: Id) returns (view: Option<BidView>)
    ensures view.None? <==> forall i :: 0 <= i < |db.bids| ==> db.bids[i].id != id
    ensures view.Some? ==> view.value == ViewOf(db, Find(db.bids, HasId(id)).value)
    ensures view.Some? ==> view.value.bid in db.bids && view.value.bid.id == id
  {
    var bid := Find(db.bids, HasId(id));
    if bid.None? {
      return None;
    }
    var views, fetched := PopulateBidRelations(db, [bid.value]);
    return Some(views[0]);
  }

  function OfProject(projectId: Id): Bid -> bool {
    (b: Bid) => b.projectId == Some(projectId)
  }

  function OfContractor(contractorId: Id): Bid -> bool {
    (b: Bid) => b.contractorId == Some(contractorId)
  }

  /** The rows of `getBidsByProjectId` and `getBidsByContractorId`. */
  function BidsOfProject(bids: seq<Bid>, projectId: Id): seq<Bid> {
    SortBy(Filter(bids, OfProject(projectId)), SubmittedLater)
  }

  function BidsOfContractor(bids: seq<Bid>, contractorId: Id): seq<Bid> {
    SortBy(Filter(bids, OfContractor(contractorId)), SubmittedLater)
  }

  /** Exactly the bids with that foreign key, newest first; a bid whose key
      is NULL is in neither list. */
  lemma BidsOfProjectSpec(bids: seq<Bid>, projectId: Id)
    ensures SortedBy(BidsOfProject(bids, projectId), SubmittedLater)
    ensures forall b :: multiset(BidsOfProject(bids, projectId))[b] ==
                        if b.projectId == Some(projectId) then multiset(bids)[b] else 0
  {
    SubmittedLaterTotal();
    SortedWhere(bids, OfProject(projectId), SubmittedLater);
  }

  lemma BidsOfContractorSpec(bids: seq<Bid>, contractorId: Id)
    ensures SortedBy(BidsOfContractor(bids, contractorId), SubmittedLater)
    ensures forall b :: multiset(BidsOfContractor(bids, contractorId))[b] ==
                        if b.contractorId == Some(contractorId) then multiset(bids)[b] else 0
  {
    SubmittedLaterTotal();
    SortedWhere(bids, OfContractor(contractorId), SubmittedLater);
  }

  method GetBidsByProjectId(db: Db, projectId: Id) returns (views: seq<BidView>)
    ensures |views| == |BidsOfProject(db.bids, projectId)|
    ensures forall i :: 0 <= i < |views| ==> views[i] == ViewOf(db, BidsOfProject(db.bids, projectId)[i])
  {
    var rawBids := BidsOfProject(db.bids, projectId);
    var fetched;
    views, fetched := PopulateBidRelations(db, rawBids);
  }

  method GetBidsByContractorId(db: Db, contractorId: Id) returns (views: seq<BidView>)
    ensures |views| == |BidsOfContractor(db.bids, contractorId)|
    ensures forall i :: 0 <= i < |views| ==> views[i] == ViewOf(db, BidsOfContractor(db.bids, contractorId)[i])
  {
    var rawBids := BidsOfContractor(db.bids, contractorId);
    var fetched;
    views, fetched := PopulateBidRelations(db, rawBids);
  }

  // ---------------------------------------------------------------------------
  // updates: `.set(data)` merges the given columns into every row with the
  // id, and `returning()` yields the first updated row

  /** The rows with `f` applied where `hit` holds. */
  function UpdateRows<T>(rows: seq<T>, hit: T -> bool, f: T -> T): (r: seq<T>)
    ensures |r| == |rows|
    ensures forall i :: 0 <= i < |rows| ==> r[i] == if hit(rows[i]) then f(rows[i]) else rows[i]
    decreases |rows|
  {
    if rows == [] then []
    else [if hit(rows[0]) then f(rows[0]) else rows[0]] + UpdateRows(rows[1..], hit, f)
  }

  /** The first row `returning()` gives back, if any row was updated. */
  function Returned<T>(rows: seq<T>, hit: T -> bool, f: T -> T): (r: Option<T>)
    ensures r.None? <==> forall i :: 0 <= i < |rows| ==> !hit(rows[i])
    ensures r.Some? ==> exists i :: 0 <= i < |rows| && hit(rows[i]) && r.value == f(rows[i])
  {
    match Find(rows, hit)
    case None => None
    case Some(x) => Some(f(x))
  }

  /** `Partial<InsertContractor>`. */
  datatype ContractorPatch = ContractorPatch(
    name: Field<string>,
    email: Field<string>,
    phone: Field<Option<string>>,
    certificationLevel: Field<Option<string>>)

  /** Given columns replace the stored ones, the others are kept, and
      `updated_at` becomes `now`. */
  function MergeContractor(c: Contractor, d: ContractorPatch, now: Timestamp): (r: Contractor)
    ensures r.id == c.id && r.createdAt == c.createdAt && r.updatedAt == now
    ensures r.name == d.name.Or(c.name) && r.email == d.email.Or(c.email)
    ensures r.phone == d.phone.Or(c.phone) && r.certificationLevel == d.certificationLevel.Or(c.certificationLevel)
  {
    c.(name := d.name.Or(c.name), email := d.email.Or(c.email), phone := d.phone.Or(c.phone),
       certificationLevel := d.certificationLevel.Or(c.certificationLevel), updatedAt := now)
  }

  function ContractorIdIs(id: Id): Contractor -> bool { (c: Contractor) => c.id == id }
  function ContractorMerger(d: ContractorPatch, now: Timestamp): Contractor -> Contractor {
    (c: Contractor) => MergeContractor(c, d, now)
  }

  /** `updateContractor(id, data)`: the new snapshot and the returned row. */
  function UpdateContractor(db: Db, id: Id, d: ContractorPatch, now: Timestamp): (r: (Db, Option<Contractor>))
    ensures r.0 == db.(contractors := r.0.contractors) && |r.0.contractors| == |db.contractors|
    ensures forall i :: 0 <= i < |db.contractors| ==>
              r.0.contractors[i] == if db.contractors[i].id == id then MergeContractor(db.contractors[i], d, now) else db.contractors[i]
    ensures r.1.None? <==> forall i :: 0 <= i < |db.contractors| ==> db.contractors[i].id != id
    ensures r.1.Some? ==> r.1.value in r.0.contractors && r.1.value.id == id && r.1.value.updatedAt == now
  {
    var rows := UpdateRows(db.contractors, ContractorIdIs(id), ContractorMerger(d, now));
    var ret := Returned(db.contractors, ContractorIdIs(id), ContractorMerger(d, now));
    (db.(contractors := rows), ret)
  }

  /** `Partial<InsertProject>`. */
  datatype ProjectPatch = ProjectPatch(
    name: Field<string>,
    description: Field<Option<string>>,
    projectType: Field<Option<string>>,
    budgetRange: Field<Option<string>>,
    startDate: Field<Option<string>>,
    endDate: Field<Option<string>>,
    status: Field<Option<ProjectStatus>>)

  function MergeProject(p: Project, d: ProjectPatch, now: Timestamp): (r: Project)
    ensures r.id == p.id && r.createdAt == p.createdAt && r.updatedAt == now
    ensures r.name == d.name.Or(p.name) && r.description == d.description.Or(p.description)
    ensures r.projectType == d.projectType.Or(p.projectType) && r.budgetRange == d.budgetRange.Or(p.budgetRange)
    ensures r.startDate == d.startDate.Or(p.startDate) && r.endDate == d.endDate.Or(p.endDate)
    ensures r.status == d.status.Or(p.status)
  {
    p.(name := d.name.Or(p.name), description := d.description.Or(p.description),
       projectType := d.projectType.Or(p.projectType), budgetRange := d.budgetRange.Or(p.budgetRange),
       startDate := d.startDate.Or(p.startDate), endDate := d.endDate.Or(p.endDate),
       status := d.status.Or(p.status), updatedAt := now)
  }

  function ProjectIdIs(id: Id): Project -> bool { (p: Project) => p.id == id }
  function ProjectMerger(d: ProjectPatch, now: Timestamp): Project -> Project {
    (p: Project) => MergeProject(p, d, now)
  }

  /** `updateProject(id, data)`. */
  function UpdateProject(db: Db, id: Id, d: ProjectPatch, now: Timestamp): (r: (Db, Option<Project>))
    ensures r.0 == db.(projects := r.0.projects) && |r.0.projects| == |db.projects|
    ensures forall i :: 0 <= i < |db.projects| ==>
              r.0.projects[i] == if db.projects[i].id == id then MergeProject(db.projects[i], d, now) else db.projects[i]
    ensures r.1.None? <==> forall i :: 0 <= i < |db.projects| ==> db.projects[i].id != id
    ensures r.1.Some? ==> r.1.value in r.0.projects && r.1.value.id == id && r.1.value.updatedAt == now
  {
    var rows := UpdateRows(db.projects, ProjectIdIs(id), ProjectMerger(d, now));
    var ret := Returned(db.projects, ProjectIdIs(id), ProjectMerger(d, now));
    (db.(projects := rows), ret)
  }

  /** `Partial<InsertBid>`; an amount is given in cents. */
  datatype BidPatch = BidPatch(
    projectId: Field<Option<Id>>,
    contractorId: Field<Option<Id>>,
    emailRecordId: Field<Option<Id>>,
    bidAmount: Field<Option<int>>,
    submissionDate: Field<Timestamp>,
    notes: Field<Option<string>>,
    status: Field<Option<BidStatus>>)

  function MergeBid(b: Bid, d: BidPatch, now: Timestamp): (r: Bid)
    ensures r.id == b.id && r.createdAt == b.createdAt && r.updatedAt == now
    ensures r.projectId == d.projectId.Or(b.projectId) && r.contractorId == d.contractorId.Or(b.contractorId)
    ensures r.emailRecordId == d.emailRecordId.Or(b.emailRecordId) && r.bidAmount == d.bidAmount.Or(b.bidAmount)
    ensures r.submissionDate == d.submissionDate.Or(b.submissionDate) && r.notes == d.notes.Or(b.notes)
    ensures r.status == d.status.Or(b.status)
  {
    b.(projectId := d.projectId.Or(b.projectId), contractorId := d.contractorId.Or(b.contractorId),
       emailRecordId := d.emailRecordId.Or(b.emailRecordId), bidAmount := d.bidAmount.Or(b.bidAmount),
       submissionDate := d.submissionDate.Or(b.submissionDate), notes := d.notes.Or(b.notes),
       status := d.status.Or(b.status), updatedAt := now)
  }

  function BidIdIs(id: Id): Bid -> bool { (b: Bid) => b.id == id }
  function BidMerger(d: BidPatch, now: Timestamp): Bid -> Bid {
    (b: Bid) => MergeBid(b, d, now)
  }

  /** `updateBid(id, data)`. */
  function UpdateBid(db: Db, id: Id, d: BidPatch, now: Timestamp): (r: (Db, Option<Bid>))
    ensures r.0 == db.(bids := r.0.bids) && |r.0.bids| == |db.bids|
    ensures forall i :: 0 <= i < |db.bids| ==>
              r.0.bids[i] == if db.bids[i].id == id then MergeBid(db.bids[i], d, now) else db.bids[i]
    ensures r.1.None? <==> forall i :: 0 <= i < |db.bids| ==> db.bids[i].id != id
    ensures r.1.Some? ==> r.1.value in r.0.bids && r.1.value.id == id && r.1.value.updatedAt == now
  {
    var rows := UpdateRows(db.bids, BidIdIs(id), BidMerger(d, now));
    var ret := Returned(db.bids, BidIdIs(id), BidMerger(d, now));
    (db.(bids := rows), ret)
  }

  /** `Partial<InsertContract>`; an amount is given in cents. */
  datatype ContractPatch = ContractPatch(
    bidId: Field<Option<Id>>,
    contractNumber: Field<Option<string>>,
    contractAmount: Field<Option<int>>,
    startDate: Field<Option<string>>,
    endDate: Field<Option<string>>,
    status: Field<Option<string>>)

  function MergeContract(c: Contract, d: ContractPatch, now: Timestamp): (r: Contract)
    ensures r.id == c.id && r.createdAt == c.createdAt && r.updatedAt == now
    ensures r.bidId == d.bidId.Or(c.bidId) && r.contractNumber == d.contractNumber.Or(c.contractNumber)
    ensures r.contractAmount == d.contractAmount.Or(c.contractAmount)
    ensures r.startDate == d.startDate.Or(c.startDate) && r.endDate == d.endDate.Or(c.endDate)
    ensures r.status == d.status.Or(c.status)
  {
    c.(bidId := d.bidId.Or(c.bidId), contractNumber := d.contractNumber.Or(c.contractNumber),
       contractAmount := d.contractAmount.Or(c.contractAmount), startDate := d.startDate.Or(c.startDate),
       endDate := d.endDate.Or(c.endDate), status := d.status.Or(c.status), updatedAt := now)
  }

  function ContractIdIs(id: Id): Contract -> bool { (c: Contract) => c.id == id }
  function ContractMerger(d: ContractPatch, now: Timestamp): Contract -> Contract {
    (c: Contract) => MergeContract(c, d, now)
  }

  /** `updateContract(id, data)`. */
  function UpdateContract(db: Db, id: Id, d: ContractPatch, now: Timestamp): (r: (Db, Option<Contract>))
    ensures r.0 == db.(contracts := r.0.contracts) && |r.0.contracts| == |db.contracts|
    ensures forall i :: 0 <= i < |db.contracts| ==>
              r.0.contracts[i] == if db.contracts[i].id == id then MergeContract(db.contracts[i], d, now) else db.contracts[i]
    ensures r.1.None? <==> forall i :: 0 <= i < |db.contracts| ==> db.contracts[i].id != id
    ensures r.1.Some? ==> r.1.value in r.0.contracts && r.1.value.id == id && r.1.value.updatedAt == now
  {
    var rows := UpdateRows(db.contracts, ContractIdIs(id), ContractMerger(d, now));
    var ret := Returned(db.contracts, ContractIdIs(id), ContractMerger(d, now));
    (db.(contracts := rows), ret)
  }

  /** `Partial<InsertEmailRecord>`. */
  datatype EmailPatch = EmailPatch(
    subject: Field<string>,
    senderEmail: Field<string>,
    senderName: Field<Option<string>>,
    recipientEmail: Field<string>,
    receivedDate: Field<Timestamp>,
    bodyText: Field<Option<string>>,
    emailType: Field<Option<EmailType>>,
    isProcessed: Field<Option<bool>>,
    processingStatus: Field<Option<ProcessingStatus>>,
    extractedData: Field<Option<string>>)

  /** The email merge has no `updated_at`: nothing else changes. */
  function MergeEmail(e: EmailRecord, d: EmailPatch): (r: EmailRecord)
    ensures r.id == e.id
    ensures r.subject == d.subject.Or(e.subject) && r.senderEmail == d.senderEmail.Or(e.senderEmail)
    ensures r.senderName == d.senderName.Or(e.senderName) && r.recipientEmail == d.recipientEmail.Or(e.recipientEmail)
    ensures r.receivedDate == d.receivedDate.Or(e.receivedDate) && r.bodyText == d.bodyText.Or(e.bodyText)
    ensures r.emailType == d.emailType.Or(e.emailType) && r.isProcessed == d.isProcessed.Or(e.isProcessed)
    ensures r.processingStatus == d.processingStatus.Or(e.processingStatus)
    ensures r.extractedData == d.extractedData.Or(e.extractedData)
  {
    e.(subject := d.subject.Or(e.subject), senderEmail := d.senderEmail.Or(e.senderEmail),
       senderName := d.senderName.Or(e.senderName), recipientEmail := d.recipientEmail.Or(e.recipientEmail),
       receivedDate := d.receivedDate.Or(e.receivedDate), bodyText := d.bodyText.Or(e.bodyText),
       emailType := d.emailType.Or(e.emailType), isProcessed := d.isProcessed.Or(e.isProcessed),
       processingStatus := d.processingStatus.Or(e.processingStatus),
       extractedData := d.extractedData.Or(e.extractedData))
  }

  function EmailIdIs(id: Id): EmailRecord -> bool { (e: EmailRecord) => e.id == id }
  function EmailMerger(d: EmailPatch): EmailRecord -> EmailRecord {
    (e: EmailRecord) => MergeEmail(e, d)
  }

  /** `updateEmailRecord(id, data)`. */
  function UpdateEmailRecord(db: Db, id: Id, d: EmailPatch): (r: (Db, Option<EmailRecord>))
    ensures r.0 == db.(emails := r.0.emails) && |r.0.emails| == |db.emails|
    ensures forall i :: 0 <= i < |db.emails| ==>
              r.0.emails[i] == if db.emails[i].id == id then MergeEmail(db.emails[i], d) else db.emails[i]
    ensures r.1.None? <==> forall i :: 0 <= i < |db.emails| ==> db.emails[i].id != id
    ensures r.1.Some? ==> r.1.value in r.0.emails && r.1.value.id == id
  {
    var rows := UpdateRows(db.emails, EmailIdIs(id), EmailMerger(d));
    var ret := Returned(db.emails, EmailIdIs(id), EmailMerger(d));
    (db.(emails := rows), ret)
  }

  /** `Partial<InsertClassification>`. */
  datatype ClassificationPatch = ClassificationPatch(
    name: Field<string>,
    category: Field<string>,
    description: Field<Option<string>>)

  function MergeClassification(c: Classification, d: ClassificationPatch): (r: Classification)
    ensures r.id == c.id && r.createdAt == c.createdAt
    ensures r.name == d.name.Or(c.name) && r.category == d.category.Or(c.category)
    ensures r.description == d.description.Or(c.description)
  {
    c.(name := d.name.Or(c.name), category := d.category.Or(c.category),
       description := d.description.Or(c.description))
  }

  function ClassificationIdIs(id: Id): Classification -> bool { (c: Classification) => c.id == id }
  function ClassificationMerger(d: ClassificationPatch): Classification -> Classification {
    (c: Classification) => MergeClassification(c, d)
  }

  /** `updateClassification(id, data)`. */
  function UpdateClassification(db: Db, id: Id, d: ClassificationPatch): (r: (Db, Option<Classification>))
    ensures r.0 == db.(classifications := r.0.classifications) && |r.0.classifications| == |db.classifications|
    ensures forall i :: 0 <= i < |db.classifications| ==>
              r.0.classifications[i] ==
                if db.classifications[i].id == id then MergeClassification(db.classifications[i], d) else db.classifications[i]
    ensures r.1.None? <==> forall i :: 0 <= i < |db.classifications| ==> db.classifications[i].id != id
    ensures r.1.Some? ==> r.1.value in r.0.classifications && r.1.value.id == id
  {
    var rows := UpdateRows(db.classifications, ClassificationIdIs(id), ClassificationMerger(d));
    var ret := Returned(db.classifications, ClassificationIdIs(id), ClassificationMerger(d));
    (db.(classifications := rows), ret)
  }

  /** An update that gives no column still stamps a contractor, project, bid
      or contract with `now`, and leaves an email or a classification as it
      was. */
  lemma EmptyPatches(c: Contractor, p: Project, b: Bid, k: Contract, e: EmailRecord, l: Classification, now: Timestamp)
    ensures MergeContractor(c, ContractorPatch(Absent, Absent, Absent, Absent), now) == c.(updatedAt := now)
    ensures MergeProject(p, ProjectPatch(Absent, Absent, Absent, Absent, Absent, Absent, Absent), now) == p.(updatedAt := now)
    ensures MergeBid(b, BidPatch(Absent, Absent, Absent, Absent, Absent, Absent, Absent), now) == b.(updatedAt := now)
    ensures MergeContract(k, ContractPatch(Absent, Absent, Absent, Absent, Absent, Absent), now) == k.(updatedAt := now)
    ensures MergeEmail(e, EmailPatch(Absent, Absent, Absent, Absent, Absent, Absent, Absent, Absent, Absent, Absent)) == e
    ensures MergeClassification(l, ClassificationPatch(Absent, Absent, Absent)) == l
  {
  }

  // ---------------------------------------------------------------------------
  // deletes: `delete ... where id = ? returning id`, true iff a row went

  /** PostgreSQL refuses to delete a row that another row still refers to
      (the foreign keys carry no `ON DELETE` action). */
  datatype DbError = ForeignKeyViolation

  /** The snapshot after a delete and the `result.length > 0` answer. */
  datatype Deleted = Deleted(db: Db, removed: bool)

  /** The rows without those that `hit` selects. */
  function DeleteRows<T(!new)>(rows: seq<T>, hit: T -> bool): (r: seq<T>)
    ensures |r| <= |rows|
    ensures forall x :: multiset(r)[x] == if hit(x) then 0 else multiset(rows)[x]
    ensures |r| < |rows| <==> exists i :: 0 <= i < |rows| && hit(rows[i])
    decreases |rows|
  {
    if rows == [] then []
    else
      var rest := DeleteRows(rows[1..], hit);
      assert rows == [rows[0]] + rows[1..];
      assert multiset(rows) == multiset{rows[0]} + multiset(rows[1..]);
      assert (exists i :: 0 <= i < |rows| && hit(rows[i])) <==>
             hit(rows[0]) || exists i :: 0 <= i < |rows[1..]| && hit(rows[1..][i]);
      if hit(rows[0]) then rest else [rows[0]] + rest
  }

  /** The kept rows stay in table order. */
  lemma {:induction false} DeleteRowsInOrder<T(!new)>(rows: seq<T>, hit: T -> bool)
    ensures IsSubsequence(DeleteRows(rows, hit), rows)
    decreases |rows|
  {
    if rows != [] {
      DeleteRowsInOrder(rows[1..], hit);
      var r := DeleteRows(rows, hit);
      if !hit(rows[0]) {
        assert r[1..] == DeleteRows(rows[1..], hit);
      }
    }
  }

  /** `deleteContractor(id)`; refused while a bid names the contractor. */
  function DeleteContractor(db: Db, id: Id): (r: Result<Deleted, DbError>)
    ensures r.Failure? <==> (exists i :: 0 <= i < |db.contractors| && db.contractors[i].id == id) &&
                            (exists j :: 0 <= j < |db.bids| && db.bids[j].contractorId == Some(id))
    ensures r.Success? ==> r.value.db == db.(contractors := r.value.db.contractors)
    ensures r.Success? ==> forall c :: multiset(r.value.db.contractors)[c] == if c.id == id then 0 else multiset(db.contractors)[c]
    ensures r.Success? ==> (r.value.removed <==> exists i :: 0 <= i < |db.contractors| && db.contractors[i].id == id)
  {
    var rows := DeleteRows(db.contractors, ContractorIdIs(id));
    if |rows| < |db.contractors| && exists j :: 0 <= j < |db.bids| && db.bids[j].contractorId == Some(id) then
      Failure(ForeignKeyViolation)
    else Success(Deleted(db.(contractors := rows), |rows| < |db.contractors|))
  }

  /** `deleteProject(id)`; refused while a bid names the project. */
  function DeleteProject(db: Db, id: Id): (r: Result<Deleted, DbError>)
    ensures r.Failure? <==> (exists i :: 0 <= i < |db.projects| && db.projects[i].id == id) &&
                            (exists j :: 0 <= j < |db.bids| && db.bids[j].projectId == Some(id))
    ensures r.Success? ==> r.value.db == db.(projects := r.value.db.projects)
    ensures r.Success? ==> forall p :: multiset(r.value.db.projects)[p] == if p.id == id then 0 else multiset(db.projects)[p]
    ensures r.Success? ==> (r.value.removed <==> exists i :: 0 <= i < |db.projects| && db.projects[i].id == id)
  {
    var rows := DeleteRows(db.projects, ProjectIdIs(id));
    if |rows| < |db.projects| && exists j :: 0 <= j < |db.bids| && db.bids[j].projectId == Some(id) then
      Failure(ForeignKeyViolation)
    else Success(Deleted(db.(projects := rows), |rows| < |db.projects|))
  }

  /** Some link, document or contract row still names the bid. */
  predicate BidReferenced(db: Db, id: Id) {
    (exists j :: 0 <= j < |db.bidClassifications| && db.bidClassifications[j].bidId == Some(id)) ||
    (exists j :: 0 <= j < |db.bidDocuments| && db.bidDocuments[j].bidId == Some(id)) ||
    (exists j :: 0 <= j < |db.contracts| && db.contracts[j].bidId == Some(id))
  }

  /** `deleteBid(id)`; refused while a classification link, a document or a
      contract names the bid. */
  function DeleteBid(db: Db, id: Id): (r: Result<Deleted, DbError>)
    ensures r.Failure? <==> (exists i :: 0 <= i < |db.bids| && db.bids[i].id == id) && BidReferenced(db, id)
    ensures r.Success? ==> r.value.db == db.(bids := r.value.db.bids)
    ensures r.Success? ==> forall b :: multiset(r.value.db.bids)[b] == if b.id == id then 0 else multiset(db.bids)[b]
    ensures r.Success? ==> (r.value.removed <==> exists i :: 0 <= i < |db.bids| && db.bids[i].id == id)
  {
    var rows := DeleteRows(db.bids, BidIdIs(id));
    if |rows| < |db.bids| && BidReferenced(db, id) then Failure(ForeignKeyViolation)
    else Success(Deleted(db.(bids := rows), |rows| < |db.bids|))
  }

  /** `deleteClassification(id)`; refused while a link names it. */
  function DeleteClassification(db: Db, id: Id): (r: Result<Deleted, DbError>)
    ensures r.Failure? <==> (exists i :: 0 <= i < |db.classifications| && db.classifications[i].id == id) &&
                            (exists j :: 0 <= j < |db.bidClassifications| && db.bidClassifications[j].classificationId == Some(id))
    ensures r.Success? ==> r.value.db == db.(classifications := r.value.db.classifications)
    ensures r.Success? ==> forall c :: multiset(r.value.db.classifications)[c] ==
                                      if c.id == id then 0 else multiset(db.classifications)[c]
    ensures r.Success? ==> (r.value.removed <==> exists i :: 0 <= i < |db.classifications| && db.classifications[i].id == id)
  {
    var rows := DeleteRows(db.classifications, ClassificationIdIs(id));
    if |rows| < |db.classifications| &&
       exists j :: 0 <= j < |db.bidClassifications| && db.bidClassifications[j].classificationId == Some(id)
    then Failure(ForeignKeyViolation)
    else Success(Deleted(db.(classifications := rows), |rows| < |db.classifications|))
  }

  function LinkIdIs(id: Id): BidClassification -> bool { (l: BidClassification) => l.id == id }
  function DocumentIdIs(id: Id): BidDocument -> bool { (d: BidDocument) => d.id == id }

  /** `removeBidClassification(id)`; no row refers to a link, a document or
      a contract, so these deletes always succeed. */
  function RemoveBidClassification(db: Db, id: Id): (r: Deleted)
    ensures r.db == db.(bidClassifications := r.db.bidClassifications)
    ensures forall l :: multiset(r.db.bidClassifications)[l] == if l.id == id then 0 else multiset(db.bidClassifications)[l]
    ensures r.removed <==> exists i :: 0 <= i < |db.bidClassifications| && db.bidClassifications[i].id == id
  {
    var rows := DeleteRows(db.bidClassifications, LinkIdIs(id));
    Deleted(db.(bidClassifications := rows), |rows| < |db.bidClassifications|)
  }

  /** `deleteBidDocument(id)`. */
  function DeleteBidDocument(db: Db, id: Id): (r: Deleted)
    ensures r.db == db.(bidDocuments := r.db.bidDocuments)
    ensures forall d :: multiset(r.db.bidDocuments)[d] == if d.id == id then 0 else multiset(db.bidDocuments)[d]
    ensures r.removed <==> exists i :: 0 <= i < |db.bidDocuments| && db.bidDocuments[i].id == id
  {
    var rows := DeleteRows(db.bidDocuments, DocumentIdIs(id));
    Deleted(db.(bidDocuments := rows), |rows| < |db.bidDocuments|)
  }

  /** `deleteContract(id)`. */
  function DeleteContract(db: Db, id: Id): (r: Deleted)
    ensures r.db == db.(contracts := r.db.contracts)
    ensures forall c :: multiset(r.db.contracts)[c] == if c.id == id then 0 else multiset(db.contracts)[c]
    ensures r.removed <==> exists i :: 0 <= i < |db.contracts| && db.contracts[i].id == id
  {
    var rows := DeleteRows(db.contracts, ContractIdIs(id));
    Deleted(db.(contracts := rows), |rows| < |db.contracts|)
  }

  // ---------------------------------------------------------------------------
  // getDashboardSummary

  /** `status IN ('submitted', 'under_review', 'approved', 'contract_pending')`;
      a NULL status is not counted. */
  predicate IsActiveBid(b: Bid) {
    b.status == Some(Submitted) || b.status == Some(UnderReview) ||
    b.status == Some(Approved) || b.status == Some(ContractPending)
  }

  /** `is_processed = false`; NULL is not counted. */
  predicate IsUnprocessedEmail(e: EmailRecord) { e.isProcessed == Some(false) }

  /** `status = 'active'`. */
  predicate IsActiveProject(p: Project) { p.status == Some(Active) }

  /** SQL `SUM(contract_amount)` in cents: NULL when no amount is set. */
  function AmountSum(cs: seq<Contract>): Option<int>
    decreases |cs|
  {
    if cs == [] then None
    else
      match (cs[0].contractAmount, AmountSum(cs[1..]))
      case (None, rest) => rest
      case (Some(a), None) => Some(a)
      case (Some(a), Some(t)) => Some(a + t)
  }

  function AmountOrZero(c: Contract): int { c.contractAmount.GetOr(0) }

  /** The sum is NULL exactly when no amount is set, and otherwise the sum of
      the amounts that are. */
  lemma {:induction false} AmountSumMeaning(cs: seq<Contract>)
    ensures AmountSum(cs).None? <==> forall i :: 0 <= i < |cs| ==> cs[i].contractAmount.None?
    ensures AmountSum(cs).GetOr(0) == SumOf(cs, AmountOrZero)
    decreases |cs|
  {
    if cs != [] {
      AmountSumMeaning(cs[1..]);
      assert forall i :: 1 <= i < |cs| ==> cs[i] == cs[1..][i - 1];
    }
  }

  /** The text the driver returns for `COALESCE(SUM(contract_amount), 0)`. */
  function ContractValueText(cs: seq<Contract>): string {
    match AmountSum(cs)
    case None => "0"
    case Some(c) => CentsToText(c)
  }

  /** The four figures; `totalContractValue` is `parseFloat` of the sum's
      text, `None` standing for `NaN`. */
  datatype DashboardSummary = DashboardSummary(
    activeBids: nat,
    unprocessedEmails: nat,
    activeProjects: nat,
    totalContractValue: Option<Decimal>)

  function GetDashboardSummary(db: Db): DashboardSummary {
    DashboardSummary(
      CountWhere(db.bids, IsActiveBid),
      CountWhere(db.emails, IsUnprocessedEmail),
      CountWhere(db.projects, IsActiveProject),
      ParseFloat(ContractValueText(db.contracts)))
  }

  function BidStatusOf(b: Bid): Option<BidStatus> { b.status }
  function IsProcessedOf(e: EmailRecord): Option<bool> { e.isProcessed }
  function ProjectStatusOf(p: Project): Option<ProjectStatus> { p.status }

  /** Counting rows by a predicate is counting a key value, when the
      predicate tests for that value. */
  lemma {:induction false} CountWhereKey<T, K>(s: seq<T>, p: T -> bool, key: T -> K, k: K)
    requires forall x :: p(x) <==> key(x) == k
    ensures CountWhere(s, p) == Count(MapSeq(s, key), k)
    decreases |s|
  {
    if s != [] {
      CountWhereKey(s[1..], p, key, k);
      assert MapSeq(s, key)[1..] == MapSeq(s[1..], key);
    }
  }

  lemma {:induction false} ActiveBidsCount(bids: seq<Bid>)
    ensures var st := MapSeq(bids, BidStatusOf);
      CountWhere(bids, IsActiveBid) ==
        Count(st, Some(Submitted)) + Count(st, Some(UnderReview)) + Count(st, Some(Approved)) + Count(st, Some(ContractPending))
    decreases |bids|
  {
    if bids != [] {
      ActiveBidsCount(bids[1..]);
      assert MapSeq(bids, BidStatusOf)[1..] == MapSeq(bids[1..], BidStatusOf);
    }
  }

  /** The active-bid figure adds up the four active statuses; unprocessed
      emails and active projects count one value each; the total reads back
      as the exact sum of the set amounts (0 when there are none). */
  lemma DashboardSummarySpec(db: Db)
    ensures var r := GetDashboardSummary(db);
      var st := MapSeq(db.bids, BidStatusOf);
      && r.activeBids == Count(st, Some(Submitted)) + Count(st, Some(UnderReview)) +
                         Count(st, Some(Approved)) + Count(st, Some(ContractPending))
      && r.unprocessedEmails == Count(MapSeq(db.emails, IsProcessedOf), Some(false))
      && r.activeProjects == Count(MapSeq(db.projects, ProjectStatusOf), Some(Active))
      && r.totalContractValue.Some?
      && SameValue(r.totalContractValue.value, Decimal(SumOf(db.contracts, AmountOrZero), 2))
  {
    ActiveBidsCount(db.bids);
    CountWhereKey(db.emails, IsUnprocessedEmail, IsProcessedOf, Some(false));
    CountWhereKey(db.projects, IsActiveProject, ProjectStatusOf, Some(Active));
    AmountSumMeaning(db.contracts);
    match AmountSum(db.contracts)
    case None =>
      ParseFloatDigits("0");
      assert DigitsValue("0") == 0;
    case Some(c) =>
      CentsToTextRoundTrip(c);
  }

  // ---------------------------------------------------------------------------
  // getEmailClassificationStats

  /** One row of the result. */
  datatype CategoryCount = CategoryCount(category: string, count: nat)

  /** One `GROUP BY email_type` group with its `count(*)`. */
  datatype TypeCount = TypeCount(emailType: Option<EmailType>, count: nat)

  function EmailTypeOf(e: EmailRecord): Option<EmailType> { e.emailType }
  function TypeCountOf(c: TypeCount): int { c.count }
  function CategoryCountOf(c: CategoryCount): int { c.count }
  function CategoryOf(c: CategoryCount): string { c.category }

  /** The group of each key, counted in `types`. */
  function CountsFor(keys: seq<Option<EmailType>>, types: seq<Option<EmailType>>): (r: seq<TypeCount>)
    ensures |r| == |keys|
    ensures forall i :: 0 <= i < |keys| ==> r[i] == TypeCount(keys[i], Count(types, keys[i]))
    decreases |keys|
  {
    if keys == [] then [] else [TypeCount(keys[0], Count(types, keys[0]))] + CountsFor(keys[1..], types)
  }

  /** `ORDER BY count(*) DESC`. */
  predicate MoreFrequent(a: TypeCount, b: TypeCount) { a.count >= b.count }

  /** `r.category || 'unclassified'`: only a NULL type is renamed. */
  function CategoryName(t: Option<EmailType>): string {
    match t
    case None => "unclassified"
    case Some(x) => EmailTypeName(x)
  }

  function Labelled(c: TypeCount): CategoryCount {
    CategoryCount(CategoryName(c.emailType), c.count)
  }

  /** The groups of a type column, most frequent first. */
  function GroupsOf(types: seq<Option<EmailType>>): seq<TypeCount> {
    SortBy(CountsFor(Distinct(types), types), MoreFrequent)
  }

  function EmailTypeGroups(emails: seq<EmailRecord>): seq<TypeCount> {
    GroupsOf(MapSeq(emails, EmailTypeOf))
  }

  function EmailClassificationStats(emails: seq<EmailRecord>): seq<CategoryCount> {
    MapSeq(EmailTypeGroups(emails), Labelled)
  }

  lemma {:induction false} CountOnce<T>(keys: seq<T>, x: T)
    requires NoDuplicates(keys) && x in keys
    ensures Count(keys, x) == 1
    decreases |keys|
  {
    if keys[0] == x {
      assert x !in keys[1..];
    } else {
      CountOnce(keys[1..], x);
    }
  }

  lemma {:induction false} CountsOfNothing(keys: seq<Option<EmailType>>)
    ensures SumOf(CountsFor(keys, []), TypeCountOf) == 0
    decreases |keys|
  {
    if keys != [] {
      CountsOfNothing(keys[1..]);
      assert CountsFor(keys, [])[1..] == CountsFor(keys[1..], []);
    }
  }

  /** One more email adds one to the group of its type. */
  lemma {:induction false} CountsStep(keys: seq<Option<EmailType>>, types: seq<Option<EmailType>>, x: Option<EmailType>)
    ensures SumOf(CountsFor(keys, types + [x]), TypeCountOf) == SumOf(CountsFor(keys, types), TypeCountOf) + Count(keys, x)
    decreases |keys|
  {
    if keys != [] {
      CountsStep(keys[1..], types, x);
      CountAppend(types, [x], keys[0]);
      assert CountsFor(keys, types + [x])[1..] == CountsFor(keys[1..], types + [x]);
      assert CountsFor(keys, types)[1..] == CountsFor(keys[1..], types);
    }
  }

  /** Groups over distinct keys that cover every type count each email once. */
  lemma {:induction false} CountsCoverAll(keys: seq<Option<EmailType>>, types: seq<Option<EmailType>>)
    requires NoDuplicates(keys)
    requires forall x :: x in types ==> x in keys
    ensures SumOf(CountsFor(keys, types), TypeCountOf) == |types|
    decreases |types|
  {
    if types == [] {
      CountsOfNothing(keys);
    } else {
      var front := types[..|types| - 1];
      var x := types[|types| - 1];
      assert types == front + [x];
      CountsCoverAll(keys, front);
      CountsStep(keys, front, x);
      CountOnce(keys, x);
    }
  }

  lemma {:induction false} SumOfLabelled(g: seq<TypeCount>)
    ensures SumOf(MapSeq(g, Labelled), CategoryCountOf) == SumOf(g, TypeCountOf)
    decreases |g|
  {
    if g != [] {
      SumOfLabelled(g[1..]);
      assert MapSeq(g, Labelled)[1..] == MapSeq(g[1..], Labelled);
    }
  }

  /** The counts add up to the number of emails. */
  lemma StatsTotal(emails: seq<EmailRecord>)
    ensures SumOf(EmailClassificationStats(emails), CategoryCountOf) == |emails|
  {
    var types := MapSeq(emails, EmailTypeOf);
    var groups := CountsFor(Distinct(types), types);
    CountsCoverAll(Distinct(types), types);
    SumOfSortBy(groups, MoreFrequent, TypeCountOf);
    SumOfLabelled(EmailTypeGroups(emails));
  }

  /** The counts never increase down the list. */
  lemma StatsOrdered(emails: seq<EmailRecord>)
    ensures var r := EmailClassificationStats(emails);
      forall i, j :: 0 <= i < j < |r| ==> r[i].count >= r[j].count
  {
    var types := MapSeq(emails, EmailTypeOf);
    SortBySorted(CountsFor(Distinct(types), types), MoreFrequent);
  }

  lemma CategoryNameInjective(a: Option<EmailType>, b: Option<EmailType>)
    ensures CategoryName(a) == CategoryName(b) ==> a == b
  {
    assert ParseEmailType("unclassified") == None;
    match a
    case Some(x) => assert ParseEmailType(EmailTypeName(x)) == Some(x);
    case None =>
  }

  lemma {:induction false} AtMostOnce<T>(s: seq<T>, x: T)
    requires NoDuplicates(s)
    ensures multiset(s)[x] <= 1
    decreases |s|
  {
    if s != [] {
      assert s == [s[0]] + s[1..];
      assert multiset(s) == multiset{s[0]} + multiset(s[1..]);
      AtMostOnce(s[1..], x);
      if s[0] == x {
        assert x !in s[1..];
      }
    }
  }

  /** A permutation of a list without repeats has none either. */
  lemma PermutationNoDuplicates<T>(a: seq<T>, b: seq<T>)
    requires multiset(a) == multiset(b) && NoDuplicates(a)
    ensures NoDuplicates(b)
  {
    forall i, j | 0 <= i < j < |b| ensures b[i] != b[j] {
      if b[i] == b[j] {
        var x := b[i];
        assert b == b[..j] + b[j..];
        assert multiset(b) == multiset(b[..j]) + multiset(b[j..]);
        assert x in b[..j] && x == b[j..][0];
        assert multiset(b)[x] >= 2;
        AtMostOnce(a, x);
      }
    }
  }

  /** Each type that occurs has its group. */
  lemma GroupsHaveEveryType(types: seq<Option<EmailType>>, t: Option<EmailType>)
    requires t in types
    ensures TypeCount(t, Count(types, t)) in GroupsOf(types)
  {
    var keys := Distinct(types);
    var groups := CountsFor(keys, types);
    var i :| 0 <= i < |keys| && keys[i] == t;
    assert groups[i] in multiset(GroupsOf(types));
  }

  /** Each group is that of a type that occurs. */
  lemma GroupIsOfAType(types: seq<Option<EmailType>>, i: nat)
    requires i < |GroupsOf(types)|
    ensures exists k :: k in types && GroupsOf(types)[i] == TypeCount(k, Count(types, k))
  {
    var keys := Distinct(types);
    var groups := CountsFor(keys, types);
    assert GroupsOf(types)[i] in multiset(groups);
    var m :| 0 <= m < |groups| && groups[m] == GroupsOf(types)[i];
    assert keys[m] in types;
  }

  lemma GroupsDistinct(types: seq<Option<EmailType>>)
    ensures NoDuplicates(GroupsOf(types))
  {
    var groups := CountsFor(Distinct(types), types);
    assert NoDuplicates(groups);
    PermutationNoDuplicates(groups, GroupsOf(types));
  }

  /** Every type that occurs has a row under its category name with its
      number of emails. */
  lemma StatsHaveEveryType(emails: seq<EmailRecord>, t: Option<EmailType>)
    requires t in MapSeq(emails, EmailTypeOf)
    ensures CategoryCount(CategoryName(t), Count(MapSeq(emails, EmailTypeOf), t)) in EmailClassificationStats(emails)
  {
    var types := MapSeq(emails, EmailTypeOf);
    var g := GroupsOf(types);
    var r := EmailClassificationStats(emails);
    assert r == MapSeq(g, Labelled);
    GroupsHaveEveryType(types, t);
    var j :| 0 <= j < |g| && g[j] == TypeCount(t, Count(types, t));
    assert r[j] == Labelled(g[j]);
    assert r[j] in r;
  }

  /** Every row is the row of a type that occurs. */
  lemma StatsRowIsOfAType(emails: seq<EmailRecord>, i: nat)
    requires i < |EmailClassificationStats(emails)|
    ensures exists t :: t in MapSeq(emails, EmailTypeOf) &&
                        EmailClassificationStats(emails)[i] == CategoryCount(CategoryName(t), Count(MapSeq(emails, EmailTypeOf), t))
  {
    var types := MapSeq(emails, EmailTypeOf);
    GroupIsOfAType(types, i);
    var k :| k in types && GroupsOf(types)[i] == TypeCount(k, Count(types, k));
    assert EmailClassificationStats(emails)[i] == Labelled(GroupsOf(types)[i]);
  }

  /** No category appears twice. */
  lemma StatsCategoriesDistinct(emails: seq<EmailRecord>)
    ensures NoDuplicates(MapSeq(EmailClassificationStats(emails), CategoryOf))
  {
    var r := EmailClassificationStats(emails);
    var types := MapSeq(emails, EmailTypeOf);
    var g := GroupsOf(types);
    GroupsDistinct(types);
    var cats := MapSeq(r, CategoryOf);
    forall i, j | 0 <= i < j < |cats| ensures cats[i] != cats[j] {
      GroupIsOfAType(types, i);
      GroupIsOfAType(types, j);
      var ki :| ki in types && g[i] == TypeCount(ki, Count(types, ki));
      var kj :| kj in types && g[j] == TypeCount(kj, Count(types, kj));
      CategoryNameInjective(ki, kj);
      assert r[i] == Labelled(g[i]) && r[j] == Labelled(g[j]);
    }
  }

  /** `'unknown'` keeps its own row, with the number of `unknown` emails. */
  lemma UnknownKeepsItsRow(emails: seq<EmailRecord>)
    requires Some(Unknown) in MapSeq(emails, EmailTypeOf)
    ensures CategoryCount("unknown", Count(MapSeq(emails, EmailTypeOf), Some(Unknown))) in EmailClassificationStats(emails)
  {
    var name := CategoryName(Some(Unknown));
    assert name == "unknown";
    StatsHaveEveryType(emails, Some(Unknown));
  }

  /** The `'unclassified'` row counts only the emails whose type is NULL. */
  lemma UnclassifiedCountsNulls(emails: seq<EmailRecord>, i: nat)
    requires i < |EmailClassificationStats(emails)|
    requires EmailClassificationStats(emails)[i].category == "unclassified"
    ensures EmailClassificationStats(emails)[i].count == Count(MapSeq(emails, EmailTypeOf), None)
  {
    var types := MapSeq(emails, EmailTypeOf);
    StatsRowIsOfAType(emails, i);
    var t :| t in types && EmailClassificationStats(emails)[i] == CategoryCount(CategoryName(t), Count(types, t));
    CategoryNameInjective(t, None);
  }
}
