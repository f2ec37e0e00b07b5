/** The shared data model: the four PostgreSQL enums, one record per table
    (a nullable column is an `Option`), the column defaults applied on insert,
    the amount coercion of the bid and contract insert schemas, and the shape
    of a bid with its relations. */
module Schema {
  import opened Wrappers
  import opened Seqs
  import opened Numeric

  /** A uuid primary or foreign key. */
  type Id = string
  /** A `timestamp with time zone`, as an instant count. */
  type Timestamp = int

  // ---------------------------------------------------------------------------
  // enums

  datatype EmailType =
    | BidSubmission | BidInquiry | FollowUp | ContractRelated
    | ProjectUpdate | GeneralInquiry | Unknown

  /** The enum labels, in declaration order. */
  const AllEmailTypes: seq<EmailType> :=
    [BidSubmission, BidInquiry, FollowUp, ContractRelated, ProjectUpdate, GeneralInquiry, Unknown]

  function EmailTypeName(t: EmailType): string {
    match t
    case BidSubmission => "bid_submission"
    case BidInquiry => "bid_inquiry"
    case FollowUp => "follow_up"
    case ContractRelated => "contract_related"
    case ProjectUpdate => "project_update"
    case GeneralInquiry => "general_inquiry"
    case Unknown => "unknown"
  }

  /** The label a text denotes, if it is one. */
  function ParseEmailType(s: string): (r: Option<EmailType>)
    ensures forall t :: r == Some(t) <==> EmailTypeName(t) == s
  {
    if s == "bid_submission" then Some(BidSubmission)
    else if s == "bid_inquiry" then Some(BidInquiry)
    else if s == "follow_up" then Some(FollowUp)
    else if s == "contract_related" then Some(ContractRelated)
    else if s == "project_update" then Some(ProjectUpdate)
    else if s == "general_inquiry" then Some(GeneralInquiry)
    else if s == "unknown" then Some(Unknown)
    else None
  }

  datatype BidStatus =
    | Submitted | UnderReview | Approved | Rejected
    | ContractPending | ContractSigned | Withdrawn

  const AllBidStatuses: seq<BidStatus> :=
    [Submitted, UnderReview, Approved, Rejected, ContractPending, ContractSigned, Withdrawn]

  function BidStatusName(s: BidStatus): string {
    match s
    case Submitted => "submitted"
    case UnderReview => "under_review"
    case Approved => "approved"
    case Rejected => "rejected"
    case ContractPending => "contract_pending"
    case ContractSigned => "contract_signed"
    case Withdrawn => "withdrawn"
  }

  function ParseBidStatus(s: string): (r: Option<BidStatus>)
    ensures forall t :: r == Some(t) <==> BidStatusName(t) == s
  {
    if s == "submitted" then Some(Submitted)
    else if s == "under_review" then Some(UnderReview)
    else if s == "approved" then Some(Approved)
    else if s == "rejected" then Some(Rejected)
    else if s == "contract_pending" then Some(ContractPending)
    else if s == "contract_signed" then Some(ContractSigned)
    else if s == "withdrawn" then Some(Withdrawn)
    else None
  }

  datatype ProjectStatus = Active | Completed | Cancelled | OnHold

  const AllProjectStatuses: seq<ProjectStatus> := [Active, Completed, Cancelled, OnHold]

  function ProjectStatusName(s: ProjectStatus): string {
    match s
    case Active => "active"
    case Completed => "completed"
    case Cancelled => "cancelled"
    case OnHold => "on_hold"
  }

  function ParseProjectStatus(s: string): (r: Option<ProjectStatus>)
    ensures forall t :: r == Some(t) <==> ProjectStatusName(t) == s
  {
    if s == "active" then Some(Active)
    else if s == "completed" then Some(Completed)
    else if s == "cancelled" then Some(Cancelled)
    else if s == "on_hold" then Some(OnHold)
    else None
  }

  datatype ProcessingStatus = Unprocessed | Processing | Processed | Failed | NeedsReview

  const AllProcessingStatuses: seq<ProcessingStatus> :=
    [Unprocessed, Processing, Processed, Failed, NeedsReview]

  function ProcessingStatusName(s: ProcessingStatus): string {
    match s
    case Unprocessed => "unprocessed"
    case Processing => "processing"
    case Processed => "processed"
    case Failed => "failed"
    case NeedsReview => "needs_review"
  }

  function ParseProcessingStatus(s: string): (r: Option<ProcessingStatus>)
    ensures forall t :: r == Some(t) <==> ProcessingStatusName(t) == s
  {
    if s == "unprocessed" then Some(Unprocessed)
    else if s == "processing" then Some(Processing)
    else if s == "processed" then Some(Processed)
    else if s == "failed" then Some(Failed)
    else if s == "needs_review" then Some(NeedsReview)
    else None
  }

  // Each enum lists every value exactly once and names distinct values
  // distinctly: 7 email types, 7 bid statuses, 4 project statuses and 5
  // processing statuses.

  lemma EmailTypesComplete()
    ensures |AllEmailTypes| == 7 && NoDuplicates(AllEmailTypes)
    ensures forall t :: t in AllEmailTypes
    ensures forall t, u :: EmailTypeName(t) == EmailTypeName(u) ==> t == u
  {
    forall t ensures t in AllEmailTypes {
      match t
      case BidSubmission => assert t == AllEmailTypes[0];
      case BidInquiry => assert t == AllEmailTypes[1];
      case FollowUp => assert t == AllEmailTypes[2];
      case ContractRelated => assert t == AllEmailTypes[3];
      case ProjectUpdate => assert t == AllEmailTypes[4];
      case GeneralInquiry => assert t == AllEmailTypes[5];
      case Unknown => assert t == AllEmailTypes[6];
    }
    forall t, u | EmailTypeName(t) == EmailTypeName(u) ensures t == u {
      assert ParseEmailType(EmailTypeName(t)) == Some(t);
      assert ParseEmailType(EmailTypeName(u)) == Some(u);
    }
  }

  lemma BidStatusesComplete()
    ensures |AllBidStatuses| == 7 && NoDuplicates(AllBidStatuses)
    ensures forall t :: t in AllBidStatuses
    ensures forall t, u :: BidStatusName(t) == BidStatusName(u) ==> t == u
  {
    forall t ensures t in AllBidStatuses {
      match t
      case Submitted => assert t == AllBidStatuses[0];
      case UnderReview => assert t == AllBidStatuses[1];
      case Approved => assert t == AllBidStatuses[2];
      case Rejected => assert t == AllBidStatuses[3];
      case ContractPending => assert t == AllBidStatuses[4];
      case ContractSigned => assert t == AllBidStatuses[5];
      case Withdrawn => assert t == AllBidStatuses[6];
    }
    forall t, u | BidStatusName(t) == BidStatusName(u) ensures t == u {
      assert ParseBidStatus(BidStatusName(t)) == Some(t);
      assert ParseBidStatus(BidStatusName(u)) == Some(u);
    }
  }

  lemma ProjectStatusesComplete()
    ensures |AllProjectStatuses| == 4 && NoDuplicates(AllProjectStatuses)
    ensures forall t :: t in AllProjectStatuses
    ensures forall t, u :: ProjectStatusName(t) == ProjectStatusName(u) ==> t == u
  {
    forall t ensures t in AllProjectStatuses {
      match t
      case Active => assert t == AllProjectStatuses[0];
      case Completed => assert t == AllProjectStatuses[1];
      case Cancelled => assert t == AllProjectStatuses[2];
      case OnHold => assert t == AllProjectStatuses[3];
    }
    forall t, u | ProjectStatusName(t) == ProjectStatusName(u) ensures t == u {
      assert ParseProjectStatus(ProjectStatusName(t)) == Some(t);
      assert ParseProjectStatus(ProjectStatusName(u)) == Some(u);
    }
  }

  lemma ProcessingStatusesComplete()
    ensures |AllProcessingStatuses| == 5 && NoDuplicates(AllProcessingStatuses)
    ensures forall t :: t in AllProcessingStatuses
    ensures forall t, u :: ProcessingStatusName(t) == ProcessingStatusName(u) ==> t == u
  {
    forall t ensures t in AllProcessingStatuses {
      match t
      case Unprocessed => assert t == AllProcessingStatuses[0];
      case Processing => assert t == AllProcessingStatuses[1];
      case Processed => assert t == AllProcessingStatuses[2];
      case Failed => assert t == AllProcessingStatuses[3];
      case NeedsReview => assert t == AllProcessingStatuses[4];
    }
    forall t, u | ProcessingStatusName(t) == ProcessingStatusName(u) ensures t == u {
      assert ParseProcessingStatus(ProcessingStatusName(t)) == Some(t);
      assert ParseProcessingStatus(ProcessingStatusName(u)) == Some(u);
    }
  }

  // ---------------------------------------------------------------------------
  // rows (a `numeric(12, 2)` amount is a whole number of cents)

  datatype EmailRecord = EmailRecord(
    id: Id,
    subject: string,
    senderEmail: string,
    senderName: Option<string>,
    recipientEmail: string,
    receivedDate: Timestamp,
    bodyText: Option<string>,
    emailType: Option<EmailType>,
    isProcessed: Option<bool>,
    processingStatus: Option<ProcessingStatus>,
    extractedData: Option<string>)

  datatype Contractor = Contractor(
    id: Id,
    name: string,
    email: string,
    phone: Option<string>,
    certificationLevel: Option<string>,
    createdAt: Timestamp,
    updatedAt: Timestamp)

  datatype Project = Project(
    id: Id,
    name: string,
    description: Option<string>,
    projectType: Option<string>,
    budgetRange: Option<string>,
    startDate: Option<string>,
    endDate: Option<string>,
    status: Option<ProjectStatus>,
    createdAt: Timestamp,
    updatedAt: Timestamp)

  datatype Bid = Bid(
    id: Id,
    projectId: Option<Id>,
    contractorId: Option<Id>,
    emailRecordId: Option<Id>,
    bidAmount: Option<int>,
    submissionDate: Timestamp,
    notes: Option<string>,
    status: Option<BidStatus>,
    createdAt: Timestamp,
    updatedAt: Timestamp)

  datatype Classification = Classification(
    id: Id,
    name: string,
    category: string,
    description: Option<string>,
    createdAt: Timestamp)

  datatype BidClassification = BidClassification(
    id: Id,
    bidId: Option<Id>,
    classificationId: Option<Id>,
    confidenceScore: Option<int>,
    createdAt: Timestamp)

  datatype BidDocument = BidDocument(
    id: Id,
    bidId: Option<Id>,
    documentName: string,
    documentUrl: string,
    documentType: Option<string>,
    uploadedAt: Timestamp)

  datatype Contract = Contract(
    id: Id,
    bidId: Option<Id>,
    contractNumber: Option<string>,
    contractAmount: Option<int>,
    startDate: Option<string>,
    endDate: Option<string>,
    status: Option<string>,
    createdAt: Timestamp,
    updatedAt: Timestamp)

  /** A bid-classification link joined with its classification. */
  datatype ClassifiedLink = ClassifiedLink(link: BidClassification, classification: Classification)

  /** `BidWithRelations`: the bid's own columns, its three optional single
      relations and its three list relations (the contracts list is named
      `contract`). */
  datatype BidView = BidView(
    bid: Bid,
    project: Option<Project>,
    contractor: Option<Contractor>,
    emailRecord: Option<EmailRecord>,
    classifications: seq<ClassifiedLink>,
    documents: seq<BidDocument>,
    contract: seq<Contract>)

  // ---------------------------------------------------------------------------
  // insert values and partial updates

  /** A key of an insert or update object: `Absent` when the object does not
      carry it; `Present(None)` for an explicit `null` on a nullable column. */
  datatype Field<T> = Absent | Present(value: T) {
    /** The carried value, else `d` (the column default on insert, the old
        value on update). */
    function Or(d: T): (r: T)
      ensures this.Present? ==> r == this.value
      ensures this.Absent? ==> r == d
    {
      if Present? then value else d
    }
  }

  /** The columns an email insert may carry; defaulted columns are `Field`s. */
  datatype NewEmailRecord = NewEmailRecord(
    subject: string,
    senderEmail: string,
    senderName: Option<string>,
    recipientEmail: string,
    receivedDate: Field<Timestamp>,
    bodyText: Option<string>,
    emailType: Field<Option<EmailType>>,
    isProcessed: Field<Option<bool>>,
    processingStatus: Field<Option<ProcessingStatus>>,
    extractedData: Option<string>)

  /** The row an email insert creates, with the database defaults. */
  function InsertEmailRecord(n: NewEmailRecord, id: Id, now: Timestamp): (r: EmailRecord)
    ensures r.id == id && r.subject == n.subject && r.senderEmail == n.senderEmail
    ensures r.senderName == n.senderName && r.recipientEmail == n.recipientEmail
    ensures r.bodyText == n.bodyText && r.extractedData == n.extractedData
    ensures n.receivedDate.Absent? ==> r.receivedDate == now
    ensures n.receivedDate.Present? ==> r.receivedDate == n.receivedDate.value
    ensures n.emailType.Absent? ==> r.emailType == Some(Unknown)
    ensures n.isProcessed.Absent? ==> r.isProcessed == Some(false)
    ensures n.processingStatus.Absent? ==> r.processingStatus == Some(Unprocessed)
    ensures n.emailType.Present? ==> r.emailType == n.emailType.value
    ensures n.isProcessed.Present? ==> r.isProcessed == n.isProcessed.value
    ensures n.processingStatus.Present? ==> r.processingStatus == n.processingStatus.value
  {
    EmailRecord(id, n.subject, n.senderEmail, n.senderName, n.recipientEmail,
      n.receivedDate.Or(now), n.bodyText, n.emailType.Or(Some(Unknown)),
      n.isProcessed.Or(Some(false)), n.processingStatus.Or(Some(Unprocessed)), n.extractedData)
  }

  datatype NewProject = NewProject(
    name: string,
    description: Option<string>,
    projectType: Option<string>,
    budgetRange: Option<string>,
    startDate: Option<string>,
    endDate: Option<string>,
    status: Field<Option<ProjectStatus>>)

  function InsertProject(n: NewProject, id: Id, now: Timestamp): (r: Project)
    ensures r.id == id && r.name == n.name && r.description == n.description
    ensures r.projectType == n.projectType && r.budgetRange == n.budgetRange
    ensures r.startDate == n.startDate && r.endDate == n.endDate
    ensures n.status.Absent? ==> r.status == Some(Active)
    ensures n.status.Present? ==> r.status == n.status.value
    ensures r.createdAt == now && r.updatedAt == now
  {
    Project(id, n.name, n.description, n.projectType, n.budgetRange, n.startDate, n.endDate,
      n.status.Or(Some(Active)), now, now)
  }

  /** A bid insert; `submission_date` is NOT NULL with default now, and the
      three foreign keys are nullable. */
  datatype NewBid = NewBid(
    projectId: Option<Id>,
    contractorId: Option<Id>,
    emailRecordId: Option<Id>,
    bidAmount: Option<int>,
    submissionDate: Field<Timestamp>,
    notes: Option<string>,
    status: Field<Option<BidStatus>>)

  function InsertBid(n: NewBid, id: Id, now: Timestamp): (r: Bid)
    ensures r.id == id && r.projectId == n.projectId && r.contractorId == n.contractorId
    ensures r.emailRecordId == n.emailRecordId && r.bidAmount == n.bidAmount && r.notes == n.notes
    ensures n.submissionDate.Absent? ==> r.submissionDate == now
    ensures n.submissionDate.Present? ==> r.submissionDate == n.submissionDate.value
    ensures n.status.Absent? ==> r.status == Some(Submitted)
    ensures n.status.Present? ==> r.status == n.status.value
    ensures r.createdAt == now && r.updatedAt == now
  {
    Bid(id, n.projectId, n.contractorId, n.emailRecordId, n.bidAmount,
      n.submissionDate.Or(now), n.notes, n.status.Or(Some(Submitted)), now, now)
  }

  datatype NewContract = NewContract(
    bidId: Option<Id>,
    contractNumber: Option<string>,
    contractAmount: Option<int>,
    startDate: Option<string>,
    endDate: Option<string>,
    status: Field<Option<string>>)

  function InsertContract(n: NewContract, id: Id, now: Timestamp): (r: Contract)
    ensures r.id == id && r.bidId == n.bidId && r.contractNumber == n.contractNumber
    ensures r.contractAmount == n.contractAmount && r.startDate == n.startDate && r.endDate == n.endDate
    ensures n.status.Absent? ==> r.status == Some("draft")
    ensures n.status.Present? ==> r.status == n.status.value
    ensures r.createdAt == now && r.updatedAt == now
  {
    Contract(id, n.bidId, n.contractNumber, n.contractAmount, n.startDate, n.endDate,
      n.status.Or(Some("draft")), now, now)
  }

  // ---------------------------------------------------------------------------
  // amount coercion of the bid and contract insert schemas

  /** What the `bid_amount` / `contract_amount` validators accept: a string
      or a number. */
  datatype AmountInput = AmountString(text: string) | AmountNumber(number: Decimal)

  /** Numbers become their `toString` text; strings pass through unchanged.
      Either way the text reads back as the number that was given. */
  function CoerceAmount(v: AmountInput): (s: string)
    ensures v.AmountString? ==> s == v.text
    ensures v.AmountNumber? ==> ParseFloat(s).Some? && SameValue(ParseFloat(s).value, v.number)
  {
    match v
    case AmountString(t) => t
    case AmountNumber(d) => NumberToStringRoundTrip(d); NumberToString(d)
  }
}
