/** The email detail dialog: the dollar amount read from an email body, the
    project and contractor an email is matched to, the value-range bucket it
    shows, the bid it creates and the patch that marks the email processed. */
module EmailDetail {
  import opened Wrappers
  import opened Seqs
  import opened Text
  import opened Numeric
  import opened Schema
  import opened Relations
  import opened Storage

  // ---------------------------------------------------------------------------
  // the amount pattern  \$([0-9,]+(?:\.[0-9]{2})?)

  predicate IsAmountChar(c: char) { IsDigit(c) || c == ',' }

  /** End of the run of digits and commas of `s` starting at `i`. */
  function AmountRun(s: string, i: nat): (k: nat)
    requires i <= |s|
    ensures i <= k <= |s|
    ensures forall m :: i <= m < k ==> IsAmountChar(s[m])
    ensures k < |s| ==> !IsAmountChar(s[k])
    decreases |s| - i
  {
    if i < |s| && IsAmountChar(s[i]) then AmountRun(s, i + 1) else i
  }

  /** The pattern matches at offset `i`: a '$' and at least one digit or comma. */
  predicate MatchesAt(s: string, i: int) {
    0 <= i && i + 1 < |s| && s[i] == '$' && IsAmountChar(s[i + 1])
  }

  /** Where the match at `i` ends: after the greedy run, plus a '.' and two
      digits when exactly those follow. */
  function MatchEnd(s: string, i: int): (k: nat)
    requires MatchesAt(s, i)
    ensures i + 2 <= k <= |s|
  {
    var k := AmountRun(s, i + 1);
    if k + 3 <= |s| && s[k] == '.' && IsDigit(s[k + 1]) && IsDigit(s[k + 2]) then k + 3 else k
  }

  /** The captured group of the match at `i`. */
  function Captured(s: string, i: int): string
    requires MatchesAt(s, i)
  {
    s[i + 1..MatchEnd(s, i)]
  }

  function NotComma(c: char): bool { c != ',' }

  /** `replace(/,/g, '')`. */
  function RemoveCommas(s: string): (r: string)
    ensures ',' !in r
    ensures |r| <= |s|
  {
    Filter(s, NotComma)
  }

  /** Leftmost offset at or after `from` where the pattern matches. */
  function FirstMatchFrom(s: string, from: nat): (r: Option<nat>)
    ensures r.None? <==> forall j :: from <= j < |s| ==> !MatchesAt(s, j)
    ensures r.Some? ==> from <= r.value && MatchesAt(s, r.value) &&
                        forall j :: from <= j < r.value ==> !MatchesAt(s, j)
    decreases |s| - from
  {
    if from >= |s| then None
    else if MatchesAt(s, from) then Some(from)
    else FirstMatchFrom(s, from + 1)
  }

  /** Digits only, save one '.' that is followed by exactly two digits. */
  predicate IsAmountText(x: string) {
    forall k :: 0 <= k < |x| ==> IsDigit(x[k]) || (x[k] == '.' && k == |x| - 3)
  }

  /** `extractBidAmount(text)`: the leftmost match's group without commas,
      `None` (JavaScript `null`) when nothing matches. */
  function ExtractBidAmount(text: string): (r: Option<string>)
    ensures r.None? <==> forall i :: 0 <= i < |text| ==> !MatchesAt(text, i)
    ensures r.Some? ==> exists i :: MatchesAt(text, i) && (forall j :: 0 <= j < i ==> !MatchesAt(text, j)) &&
                                    r.value == RemoveCommas(Captured(text, i))
    ensures r.Some? ==> IsAmountText(r.value)
  {
    match FirstMatchFrom(text, 0)
    case None => None
    case Some(i) => CapturedShape(text, i); Some(RemoveCommas(Captured(text, i)))
  }

  /** The group is digits and commas, optionally followed by '.' and two digits;
      without its commas it is an amount text. */
  lemma CapturedShape(s: string, i: int)
    requires MatchesAt(s, i)
    ensures IsAmountText(RemoveCommas(Captured(s, i)))
  {
    var k := AmountRun(s, i + 1);
    var run, tail := s[i + 1..k], s[k..MatchEnd(s, i)];
    TailShape(s, i);
    assert Captured(s, i) == run + tail;
    assert forall m :: 0 <= m < |run| ==> IsAmountChar(run[m]) by {
      forall m | 0 <= m < |run| ensures IsAmountChar(run[m]) {
        assert run[m] == s[i + 1 + m];
      }
    }
    RemoveCommasAppend(run, tail);
    RunWithoutCommas(run);
    DigitsThenTail(RemoveCommas(run), tail);
  }

  /** After the run comes nothing of the group, or '.' and two digits. */
  lemma TailShape(s: string, i: int)
    requires MatchesAt(s, i)
    ensures var t := s[AmountRun(s, i + 1)..MatchEnd(s, i)];
            t == [] || (|t| == 3 && t[0] == '.' && IsDigit(t[1]) && IsDigit(t[2]))
  {
  }

  lemma RemoveCommasAppend(a: string, b: string)
    requires b == [] || (|b| == 3 && b[0] == '.' && IsDigit(b[1]) && IsDigit(b[2]))
    ensures RemoveCommas(a + b) == RemoveCommas(a) + b
  {
    FilterAppend(a, b, NotComma);
    NoCommaKept(b);
  }

  lemma NoCommaKept(t: string)
    requires forall m :: 0 <= m < |t| ==> t[m] != ','
    ensures RemoveCommas(t) == t
  {
    FilterAll(t, NotComma);
  }

  /** Without its commas, a run of digits and commas is all digits. */
  lemma RunWithoutCommas(run: string)
    requires forall m :: 0 <= m < |run| ==> IsAmountChar(run[m])
    ensures forall m :: 0 <= m < |RemoveCommas(run)| ==> IsDigit(RemoveCommas(run)[m])
  {
    var d := RemoveCommas(run);
    forall m | 0 <= m < |d| ensures IsDigit(d[m]) {
      assert d[m] in run && d[m] != ',';
    }
  }

  lemma DigitsThenTail(d: string, tail: string)
    requires forall m :: 0 <= m < |d| ==> IsDigit(d[m])
    requires tail == [] || (|tail| == 3 && tail[0] == '.' && IsDigit(tail[1]) && IsDigit(tail[2]))
    ensures IsAmountText(d + tail)
  {
    var x := d + tail;
    forall m | 0 <= m < |x| ensures IsDigit(x[m]) || (x[m] == '.' && m == |x| - 3) {
      if m >= |d| {
        assert x[m] == tail[m - |d|];
      } else {
        assert x[m] == d[m];
      }
    }
  }

  /** A non-empty amount text is a number to `parseFloat` (never `NaN`). */
  lemma AmountTextParses(x: string)
    requires IsAmountText(x) && x != ""
    ensures ParseFloat(x).Some?
  {
    assert !IsJsSpace(x[0]);
    assert TrimStartFrom(x, 0) == 0;
    assert x[0..] == x;
    if IsDigit(x[0]) {
      assert DigitRun(x, 0) >= 1;
    } else {
      assert |x| == 3 && x[0] == '.';
      assert DigitRun(x, 0) == 0;
    }
  }

  lemma ExtractHalfCents()
    ensures ExtractBidAmount("$1.5") == Some("1")
  {
    var s := "$1.5";
    assert MatchesAt(s, 0);
    assert AmountRun(s, 1) == 2 by {
      assert !IsAmountChar(s[2]);
    }
    assert Captured(s, 0) == "1";
    assert RemoveCommas("1") == "1" by { FilterAll("1", NotComma); }
  }

  lemma ExtractThreeDecimals()
    ensures ExtractBidAmount("$1.234") == Some("1.23")
  {
    var s := "$1.234";
    assert MatchesAt(s, 0);
    assert AmountRun(s, 1) == 2 by {
      assert !IsAmountChar(s[2]);
    }
    assert MatchEnd(s, 0) == 5;
    assert Captured(s, 0) == "1.23";
    assert RemoveCommas("1.23") == "1.23" by { FilterAll("1.23", NotComma); }
  }

  lemma ExtractGrouped()
    ensures ExtractBidAmount("$1,234.56") == Some("1234.56")
  {
    var s := "$1,234.56";
    assert MatchesAt(s, 0);
    assert AmountRun(s, 1) == 6 by {
      assert !IsAmountChar(s[6]);
      AmountRunFrom(s, 1, 6);
    }
    assert MatchEnd(s, 0) == 9;
    assert Captured(s, 0) == "1,234.56";
    GroupedWithoutCommas();
  }

  lemma {:induction false} AmountRunFrom(s: string, i: nat, k: nat)
    requires i <= k < |s| && !IsAmountChar(s[k])
    requires forall m :: i <= m < k ==> IsAmountChar(s[m])
    ensures AmountRun(s, i) == k
    decreases k - i
  {
    if i < k {
      AmountRunFrom(s, i + 1, k);
    }
  }

  lemma GroupedWithoutCommas()
    ensures RemoveCommas("1,234.56") == "1234.56"
  {
    assert "1,234.56" == "1" + [','] + "234.56";
    assert "1234.56" == "1" + "234.56";
    DropOneComma("1", "234.56");
  }

  lemma DropOneComma(a: string, b: string)
    requires forall m :: 0 <= m < |a| ==> a[m] != ','
    requires forall m :: 0 <= m < |b| ==> b[m] != ','
    ensures RemoveCommas(a + [','] + b) == a + b
  {
    var comma: string := [','];
    assert a + [','] + b == (a + comma) + b;
    calc {
      Filter((a + comma) + b, NotComma);
      { FilterAppend(a + comma, b, NotComma); }
      Filter(a + comma, NotComma) + Filter(b, NotComma);
      { FilterAppend(a, comma, NotComma); }
      Filter(a, NotComma) + Filter(comma, NotComma) + Filter(b, NotComma);
      { NoCommaKept(a); NoCommaKept(b); CommaDropped(); }
      a + [] + b;
    }
    assert a + [] + b == a + b;
  }

  lemma CommaDropped()
    ensures Filter([','], NotComma) == []
  {
    var comma: string := [','];
    assert comma[1..] == [];
    assert !NotComma(comma[0]);
  }

  /** A '$' followed only by commas yields the empty string, which the dialog
      treats like no amount at all. */
  lemma ExtractOnlyCommas()
    ensures ExtractBidAmount("$,") == Some("")
  {
    var s := "$,";
    assert MatchesAt(s, 0);
    assert AmountRun(s, 1) == 2;
    assert Captured(s, 0) == ",";
    assert Filter([','], NotComma) == [];
  }

  // ---------------------------------------------------------------------------
  // matching an email to a project and a contractor

  /** `(email.subject || '') + ' ' + (email.body_text || '')`, lower-cased. */
  function CombinedContent(e: EmailRecord): string {
    Lower(e.subject + " " + e.bodyText.GetOr(""))
  }

  /** The project's name is non-empty and occurs in the email's subject and
      body, ignoring case. */
  predicate Mentions(e: EmailRecord, p: Project) {
    p.name != "" && IContains(e.subject + " " + e.bodyText.GetOr(""), p.name)
  }

  function NameMentioned(content: string): Project -> bool {
    (p: Project) => p.name != "" && Contains(content, Lower(p.name))
  }

  /** `findRelatedProject(emailContent, projects)`: the first project the
      dialog's email mentions; the `emailContent` argument plays no part. */
  function FindRelatedProject(email: Option<EmailRecord>, emailContent: string, projects: seq<Project>): (r: Option<Project>)
    ensures r.None? <==> (email.None? || forall i :: 0 <= i < |projects| ==> !Mentions(email.value, projects[i]))
    ensures r.Some? ==>
              && email.Some?
              && (exists i :: 0 <= i < |projects| && projects[i] == r.value && Mentions(email.value, r.value) &&
                    forall j :: 0 <= j < i ==> !Mentions(email.value, projects[j]))
  {
    if |projects| == 0 || email.None? then None
    else
      var p := NameMentioned(CombinedContent(email.value));
      assert forall i :: 0 <= i < |projects| ==> (p(projects[i]) <==> Mentions(email.value, projects[i]));
      Find(projects, p)
  }

  /** Which text is passed as `emailContent` never changes the result. */
  lemma FindRelatedProjectIgnoresContent(email: Option<EmailRecord>, a: string, b: string, projects: seq<Project>)
    ensures FindRelatedProject(email, a, projects) == FindRelatedProject(email, b, projects)
  {
  }

  /** The contractor's email is non-empty and equals `sender` ignoring case. */
  predicate SameEmailAs(sender: string, c: Contractor) {
    c.email != "" && Lower(c.email) == Lower(sender)
  }

  function SameEmail(sender: string): Contractor -> bool {
    (c: Contractor) => SameEmailAs(sender, c)
  }

  /** `findRelatedContractor(email, contractors)`: the first contractor whose
      email is the sender's; `None` without an email or with an empty sender. */
  function FindRelatedContractor(email: Option<EmailRecord>, contractors: seq<Contractor>): (r: Option<Contractor>)
    ensures r.None? <==> (email.None? || email.value.senderEmail == "" ||
                          forall i :: 0 <= i < |contractors| ==> !SameEmailAs(email.value.senderEmail, contractors[i]))
    ensures r.Some? ==>
              && email.Some?
              && (exists i :: 0 <= i < |contractors| && contractors[i] == r.value &&
                    SameEmailAs(email.value.senderEmail, r.value) &&
                    forall j :: 0 <= j < i ==> !SameEmailAs(email.value.senderEmail, contractors[j]))
  {
    if |contractors| == 0 || email.None? || email.value.senderEmail == "" then None
    else Find(contractors, SameEmail(email.value.senderEmail))
  }

  // ---------------------------------------------------------------------------
  // the value-range bucket

  datatype ValueRange = HighValue | MediumValue | LowValue | NotDetected {
    function Label(): string {
      match this
      case HighValue => "High Value Bid"
      case MediumValue => "Medium Value Bid"
      case LowValue => "Low Value Bid"
      case NotDetected => "Value Not Detected"
    }
  }

  /** The bucket shown for a bid email: no amount (or an empty one) is not
      detected; otherwise the amount is compared with 100000 and 10000. */
  function ValueRangeOf(bodyText: Option<string>): (r: ValueRange)
    ensures var a := ExtractBidAmount(bodyText.GetOr(""));
            (r == NotDetected <==> a.None? || a.value == "") &&
            (r != NotDetected ==> ParseFloat(a.value).Some?) &&
            (r == HighValue <==> r != NotDetected && Exceeds(ParseFloat(a.value).value, 100000)) &&
            (r == MediumValue <==> r != NotDetected && !Exceeds(ParseFloat(a.value).value, 100000) &&
                                    Exceeds(ParseFloat(a.value).value, 10000)) &&
            (r == LowValue <==> r != NotDetected && !Exceeds(ParseFloat(a.value).value, 10000))
  {
    var a := ExtractBidAmount(bodyText.GetOr(""));
    if a.None? || a.value == "" then NotDetected
    else
      AmountTextParses(a.value);
      var d := ParseFloat(a.value).value;
      if Exceeds(d, 100000) then HighValue
      else if Exceeds(d, 10000) then MediumValue
      else LowValue
  }

  lemma ExceedsMonotone(d: Decimal, m: int, n: int)
    requires m <= n && Exceeds(d, n)
    ensures Exceeds(d, m)
  {
    assert m * Pow10(d.scale) <= n * Pow10(d.scale);
  }

  /** The three detected buckets are ordered by amount: a larger amount never
      gets a lower bucket. */
  lemma ValueRangeMonotone(a: Option<string>, b: Option<string>)
    requires ValueRangeOf(a) != NotDetected && ValueRangeOf(b) != NotDetected
    requires var x := ParseFloat(ExtractBidAmount(a.GetOr("")).value).value;
             var y := ParseFloat(ExtractBidAmount(b.GetOr("")).value).value;
             x.mantissa * Pow10(y.scale) <= y.mantissa * Pow10(x.scale)
    ensures ValueRangeOf(a) == HighValue ==> ValueRangeOf(b) == HighValue
    ensures ValueRangeOf(a) == MediumValue ==> ValueRangeOf(b) != LowValue
  {
    var x := ParseFloat(ExtractBidAmount(a.GetOr("")).value).value;
    var y := ParseFloat(ExtractBidAmount(b.GetOr("")).value).value;
    if Exceeds(x, 100000) {
      ExceedsShift(x, y, 100000);
    }
    if Exceeds(x, 10000) {
      ExceedsShift(x, y, 10000);
    }
  }

  /** `x > n` and `x <= y` give `y > n`. */
  lemma ExceedsShift(x: Decimal, y: Decimal, n: int)
    requires Exceeds(x, n) && x.mantissa * Pow10(y.scale) <= y.mantissa * Pow10(x.scale)
    ensures Exceeds(y, n)
  {
    var px, py := Pow10(x.scale), Pow10(y.scale);
    MulStrict(x.mantissa, n * px, py);
    assert n * px * py == (n * py) * px;
    MulCancelStrict(y.mantissa, n * py, px);
  }

  lemma MulStrict(a: int, b: int, c: int)
    requires a > b && c > 0
    ensures a * c > b * c
  {
  }

  lemma MulCancelStrict(a: int, b: int, c: int)
    requires a * c > b * c && c > 0
    ensures a > b
  {
  }

  // ---------------------------------------------------------------------------
  // the bid created from an email

  /** The body of the `POST /api/bids` request the dialog sends. */
  datatype BidDraft = BidDraft(
    projectId: Id,
    contractorId: Id,
    emailRecordId: Id,
    bidAmount: string,
    submissionDate: string,
    notes: string,
    status: BidStatus)

  /** What pressing "Create Bid" leads to. */
  datatype BidOutcome = MissingProject | MissingContractor | Draft(bid: BidDraft)

  const NotesPrefix := "Auto-created from email: "

  /** The bid built for `email` on day `today`, or which relation could not
      be found (the project is reported first). */
  function BidFromEmail(email: EmailRecord, projects: seq<Project>, contractors: seq<Contractor>, today: string): (r: BidOutcome)
    ensures var p := FindRelatedProject(Some(email), email.bodyText.GetOr(""), projects);
            var c := FindRelatedContractor(Some(email), contractors);
            var a := ExtractBidAmount(email.bodyText.GetOr(""));
            (r == MissingProject <==> p.None?) &&
            (r == MissingContractor <==> p.Some? && c.None?) &&
            (r.Draft? <==> p.Some? && c.Some?) &&
            (r.Draft? ==>
               r.bid.projectId == p.value.id && r.bid.contractorId == c.value.id &&
               r.bid.emailRecordId == email.id && r.bid.submissionDate == today &&
               r.bid.notes == NotesPrefix + email.subject && r.bid.status == Submitted &&
               (r.bid.bidAmount == "0" <==> a.None? || a.value == "" || a.value == "0") &&
               (a.Some? && a.value != "" ==> r.bid.bidAmount == a.value))
  {
    var p := FindRelatedProject(Some(email), email.bodyText.GetOr(""), projects);
    var c := FindRelatedContractor(Some(email), contractors);
    var a := ExtractBidAmount(email.bodyText.GetOr(""));
    if p.None? then MissingProject
    else if c.None? then MissingContractor
    else
      var amount := if a.Some? && a.value != "" then a.value else "0";
      Draft(BidDraft(p.value.id, c.value.id, email.id, amount, today, NotesPrefix + email.subject, Submitted))
  }

  // ---------------------------------------------------------------------------
  // marking the email processed

  /** `{ is_processed: true, processing_status: 'processed' }`. */
  function ProcessedPatch(): (d: EmailPatch)
    ensures d.isProcessed == Present(Some(true)) && d.processingStatus == Present(Some(Processed))
    ensures d.subject.Absent? && d.senderEmail.Absent? && d.senderName.Absent? && d.recipientEmail.Absent?
    ensures d.receivedDate.Absent? && d.bodyText.Absent? && d.emailType.Absent? && d.extractedData.Absent?
  {
    EmailPatch(Absent, Absent, Absent, Absent, Absent, Absent, Absent,
      Present(Some(true)), Present(Some(Processed)), Absent)
  }

  /** Applying the patch marks the email with that id processed and changes
      nothing else about it or any other email. */
  lemma MarkProcessedEffect(db: Db, id: Id, i: nat)
    requires i < |db.emails|
    ensures var e, e' := db.emails[i], UpdateEmailRecord(db, id, ProcessedPatch()).0.emails[i];
            (e.id == id ==> e' == e.(isProcessed := Some(true), processingStatus := Some(Processed))) &&
            (e.id != id ==> e' == e)
  {
  }

  /** A notice the dialog shows instead of acting. */
  datatype Notice = ProjectNotFound | ContractorNotFound | EmailMissing

  /** A request the dialog sends to the server. */
  datatype Request =
    | CreateBidRequest(draft: BidDraft)
    | PatchEmailRequest(emailId: Id, patch: EmailPatch)

  /** The dialog's own state: whether it is busy and open, and what it has
      shown and sent so far. */
  class DetailDialog {
    var loading: bool
    var open: bool
    var notices: seq<Notice>
    var sent: seq<Request>

    constructor ()
      ensures !loading && open && notices == [] && sent == []
    {
      loading, open, notices, sent := false, true, [], [];
    }

    /** `handleCreateBid`: nothing without an email; a notice when a relation
        is missing; otherwise the draft is sent and the dialog stays busy. */
    method HandleCreateBid(email: Option<EmailRecord>, projects: seq<Project>, contractors: seq<Contractor>, today: string)
      modifies this
      ensures email.None? ==> loading == old(loading) && notices == old(notices) && sent == old(sent)
      ensures open == old(open)
      ensures email.Some? ==> match BidFromEmail(email.value, projects, contractors, today)
        case MissingProject => !loading && notices == old(notices) + [ProjectNotFound] && sent == old(sent)
        case MissingContractor => !loading && notices == old(notices) + [ContractorNotFound] && sent == old(sent)
        case Draft(b) => loading && notices == old(notices) && sent == old(sent) + [CreateBidRequest(b)]
    {
      if email.None? {
        return;
      }
      loading := true;
      var outcome := BidFromEmail(email.value, projects, contractors, today);
      match outcome
      case MissingProject =>
        notices := notices + [ProjectNotFound];
        loading := false;
      case MissingContractor =>
        notices := notices + [ContractorNotFound];
        loading := false;
      case Draft(b) =>
        sent := sent + [CreateBidRequest(b)];
    }

    /** The create request succeeded: the email is marked processed and the
        dialog closes. */
    method OnBidCreated(email: EmailRecord)
      modifies this
      ensures sent == old(sent) + [PatchEmailRequest(email.id, ProcessedPatch())]
      ensures !open && loading == old(loading) && notices == old(notices)
    {
      sent := sent + [PatchEmailRequest(email.id, ProcessedPatch())];
      open := false;
    }

    /** `handleMarkAsReviewed`: without an email or an id, a notice; otherwise
        the processed patch. The dialog closes either way. */
    method HandleMarkAsReviewed(email: Option<EmailRecord>)
      modifies this
      ensures email.None? || email.value.id == "" ==>
                notices == old(notices) + [EmailMissing] && sent == old(sent)
      ensures email.Some? && email.value.id != "" ==>
                notices == old(notices) && sent == old(sent) + [PatchEmailRequest(email.value.id, ProcessedPatch())]
      ensures !open && loading == old(loading)
    {
      if email.None? || email.value.id == "" {
        notices := notices + [EmailMissing];
      } else {
        sent := sent + [PatchEmailRequest(email.value.id, ProcessedPatch())];
      }
      open := false;
    }
  }
}
