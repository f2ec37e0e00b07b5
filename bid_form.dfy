/** The bid form dialog: its field values and chosen files, the
    classification toggle, adding and removing files, the request a submit
    sends, the form filled in from a bid being edited, and the document
    records uploaded for the chosen files. */
module BidForm {
  import opened Wrappers
  import opened Seqs
  import opened Text
  import opened Numeric
  import opened Schema

  /** The form's values, all as the text the inputs hold. */
  datatype FormData = FormData(
    projectId: string,
    contractorId: string,
    bidAmount: string,
    submissionDate: string,
    emailRecordId: string,
    notes: string,
    status: string,
    classifications: seq<Id>)

  /** A chosen file: its name and media type. */
  datatype FileRef = FileRef(name: string, mediaType: string)

  /** The form of a new bid on day `today`. */
  function BlankForm(today: string): (f: FormData)
    ensures f.projectId == "" && f.contractorId == "" && f.bidAmount == "" && f.emailRecordId == ""
    ensures f.notes == "" && f.submissionDate == today && f.status == "submitted" && f.classifications == []
  {
    FormData("", "", "", today, "", "", "submitted", [])
  }

  // ---------------------------------------------------------------------------
  // classification toggle

  function IsNot(id: Id): Id -> bool { (x: Id) => x != id }

  /** `handleClassificationToggle(id)`: a chosen id is dropped (every copy of
      it), any other id is appended. */
  function Toggled(ids: seq<Id>, id: Id): (r: seq<Id>)
    ensures id in ids ==> id !in r && IsSubsequence(r, ids) &&
                          forall x :: x != id ==> Count(r, x) == Count(ids, x)
    ensures id !in ids ==> r == ids + [id]
  {
    if id in ids then
      FilterIsSubsequence(ids, IsNot(id));
      FilterOtherCount(ids, id);
      Filter(ids, IsNot(id))
    else ids + [id]
  }

  /** Dropping `id` keeps the number of copies of every other id. */
  lemma {:induction false} FilterOtherCount(s: seq<Id>, id: Id)
    ensures forall x :: x != id ==> Count(Filter(s, IsNot(id)), x) == Count(s, x)
    decreases |s|
  {
    if s != [] {
      FilterOtherCount(s[1..], id);
      var head: seq<Id> := if IsNot(id)(s[0]) then [s[0]] else [];
      assert Filter(s, IsNot(id)) == head + Filter(s[1..], IsNot(id));
      forall x | x != id ensures Count(Filter(s, IsNot(id)), x) == Count(s, x) {
        CountAppend(head, Filter(s[1..], IsNot(id)), x);
      }
    }
  }

  /** Toggling an id that is not chosen, twice, gives back the same list. */
  lemma ToggleTwice(ids: seq<Id>, id: Id)
    requires id !in ids
    ensures Toggled(Toggled(ids, id), id) == ids
  {
    var once := ids + [id];
    assert Toggled(ids, id) == once;
    assert id in once;
    FilterAppend(ids, [id], IsNot(id));
    FilterAll(ids, IsNot(id));
    assert Filter([id], IsNot(id)) == [] by {
      var one: seq<Id> := [id];
      assert one[1..] == [];
    }
  }

  // ---------------------------------------------------------------------------
  // the file list

  /** Where `splice(index, 1)` starts for a list of length `n`: a negative
      index counts from the end, and the start is clamped to the list. */
  function SpliceStart(n: nat, index: int): (k: nat)
    ensures k <= n
    ensures 0 <= index < n ==> k == index
  {
    if index < 0 then (if n + index < 0 then 0 else n + index) else if index > n then n else index
  }

  /** `newFiles.splice(index, 1)` on a copy of the list. */
  function Spliced<T>(s: seq<T>, index: int): (r: seq<T>)
    ensures var k := SpliceStart(|s|, index);
            (k < |s| ==> |r| == |s| - 1 && r[..k] == s[..k] && r[k..] == s[k + 1..]) &&
            (k == |s| ==> r == s)
  {
    var k := SpliceStart(|s|, index);
    if k < |s| then s[..k] + s[k + 1..] else s
  }

  /** For an index of the list, exactly that element goes and the others
      keep their order. */
  lemma SplicedRemovesIndex<T>(s: seq<T>, i: int)
    requires 0 <= i < |s|
    ensures |Spliced(s, i)| == |s| - 1
    ensures forall k :: 0 <= k < i ==> Spliced(s, i)[k] == s[k]
    ensures forall k :: i <= k < |s| - 1 ==> Spliced(s, i)[k] == s[k + 1]
  {
    var r := Spliced(s, i);
    forall k | 0 <= k < i ensures r[k] == s[k] {
      assert r[..i][k] == s[..i][k];
    }
    forall k | i <= k < |s| - 1 ensures r[k] == s[k + 1] {
      assert r[i..][k - i] == s[i + 1..][k - i];
    }
  }

  /** A copy of `s` with the element at `k` taken out by moving the rest down
      one place, as `splice` does in the copied array. */
  method RemoveAt<T>(s: seq<T>, index: int) returns (r: seq<T>)
    ensures r == Spliced(s, index)
  {
    var k := SpliceStart(|s|, index);
    if k == |s| {
      return s;
    }
    var a := new T[|s|](i requires 0 <= i < |s| => s[i]);
    var j := k;
    while j < a.Length - 1
      invariant k <= j <= a.Length - 1
      invariant forall m :: 0 <= m < k ==> a[m] == s[m]
      invariant forall m :: k <= m < j ==> a[m] == s[m + 1]
      invariant forall m :: j <= m < a.Length ==> a[m] == s[m]
    {
      a[j] := a[j + 1];
      j := j + 1;
    }
    r := a[..a.Length - 1];
    assert r[..k] == s[..k];
    assert r[k..] == s[k + 1..];
  }

  // ---------------------------------------------------------------------------
  // submit

  /** The bid fields of a submit: the form, with the amount as a number
      (`None` for an empty field and for text that is not a number: the
      `NaN` of `parseFloat` travels as `null` in JSON). */
  datatype BidPayload = BidPayload(
    projectId: string,
    contractorId: string,
    bidAmount: Option<Decimal>,
    submissionDate: string,
    emailRecordId: string,
    notes: string,
    status: string,
    classifications: seq<Id>)

  datatype Submission = CreateRequest(payload: BidPayload) | UpdateRequest(id: Id, payload: BidPayload)

  /** The bid fields `handleSubmit` sends. */
  function Payload(f: FormData): (p: BidPayload)
    ensures f.bidAmount == "" ==> p.bidAmount.None?
    ensures f.bidAmount != "" ==> p.bidAmount == ParseFloat(f.bidAmount)
    ensures p.projectId == f.projectId && p.contractorId == f.contractorId && p.notes == f.notes
    ensures p.submissionDate == f.submissionDate && p.emailRecordId == f.emailRecordId
    ensures p.status == f.status && p.classifications == f.classifications
  {
    BidPayload(f.projectId, f.contractorId, if f.bidAmount != "" then ParseFloat(f.bidAmount) else None,
      f.submissionDate, f.emailRecordId, f.notes, f.status, f.classifications)
  }

  /** `handleSubmit`: an update of the edited bid when editing one, a create
      otherwise. */
  function Submit(f: FormData, editing: bool, bid: Option<BidView>): (s: Submission)
    ensures s.payload == Payload(f)
    ensures s.UpdateRequest? <==> editing && bid.Some?
    ensures s.UpdateRequest? ==> s.id == bid.value.bid.id
  {
    if editing && bid.Some? then UpdateRequest(bid.value.bid.id, Payload(f)) else CreateRequest(Payload(f))
  }

  /** A typed amount survives the round trip to a number and back. */
  lemma PayloadAmount(f: FormData, d: Decimal)
    requires f.bidAmount == NumberToString(d)
    ensures Payload(f).bidAmount.Some? && SameValue(Payload(f).bidAmount.value, d)
  {
    NumberToStringRoundTrip(d);
  }

  // ---------------------------------------------------------------------------
  // editing an existing bid

  function LinkClassification(l: ClassifiedLink): Id { l.classification.id }

  /** The form filled in from `bid`, `date` being its submission date as the
      date input writes it. Missing text becomes "", a missing status
      'submitted', and the chosen classifications are those of its links. */
  function EditForm(bid: BidView, date: string): (f: FormData)
    ensures f.projectId == bid.bid.projectId.GetOr("") && f.contractorId == bid.bid.contractorId.GetOr("")
    ensures f.emailRecordId == bid.bid.emailRecordId.GetOr("") && f.notes == bid.bid.notes.GetOr("")
    ensures bid.bid.bidAmount.None? <==> f.bidAmount == ""
    ensures bid.bid.bidAmount.Some? ==> ParseFloat(f.bidAmount) == Some(Decimal(bid.bid.bidAmount.value, 2))
    ensures bid.bid.status.None? ==> f.status == "submitted"
    ensures bid.bid.status.Some? ==> f.status == BidStatusName(bid.bid.status.value)
    ensures f.submissionDate == date
    ensures |f.classifications| == |bid.classifications|
    ensures forall i :: 0 <= i < |bid.classifications| ==> f.classifications[i] == bid.classifications[i].classification.id
  {
    CentsRoundTrip(bid.bid.bidAmount);
    FormData(
      bid.bid.projectId.GetOr(""),
      bid.bid.contractorId.GetOr(""),
      match bid.bid.bidAmount case None => "" case Some(c) => CentsToText(c),
      date,
      bid.bid.emailRecordId.GetOr(""),
      bid.bid.notes.GetOr(""),
      match bid.bid.status case None => "submitted" case Some(s) => BidStatusName(s),
      MapSeq(bid.classifications, LinkClassification))
  }

  lemma CentsRoundTrip(amount: Option<int>)
    ensures amount.Some? ==> ParseFloat(CentsToText(amount.value)) == Some(Decimal(amount.value, 2))
  {
    if amount.Some? {
      CentsToTextRoundTrip(amount.value);
    }
  }

  /** Editing a bid and submitting at once sends its amount back unchanged. */
  lemma EditThenSubmitKeepsAmount(bid: BidView, date: string)
    ensures var p := Submit(EditForm(bid, date), true, Some(bid));
            p == UpdateRequest(bid.bid.id, p.payload) &&
            (bid.bid.bidAmount.None? ==> p.payload.bidAmount.None?) &&
            (bid.bid.bidAmount.Some? ==> p.payload.bidAmount == Some(Decimal(bid.bid.bidAmount.value, 2)))
  {
  }

  // ---------------------------------------------------------------------------
  // documents

  const StorageBase := "https://storage.example.com/"

  /** `https://storage.example.com/${bidId}/${name}`. */
  function DocumentUrl(bidId: Id, name: string): (u: string)
    ensures |u| == |StorageBase| + |bidId| + 1 + |name|
    ensures StartsWith(u, StorageBase) && EndsWith(u, "/" + name)
    ensures u[|StorageBase|..|StorageBase| + |bidId|] == bidId
  {
    var u := StorageBase + bidId + "/" + name;
    assert u[|u| - |"/" + name|..] == "/" + name;
    u
  }

  /** The body of one `POST /api/bid-documents` request. */
  datatype DocumentRequest = DocumentRequest(bidId: Id, documentName: string, documentUrl: string, documentType: string)

  function DocumentFor(bidId: Id): FileRef -> DocumentRequest {
    (f: FileRef) => DocumentRequest(bidId, f.name, DocumentUrl(bidId, f.name), f.mediaType)
  }

  /** What the upload tells the user at the end. */
  datatype UploadNotice = SomeFailed | AllUploaded(count: nat) | NothingUploaded

  /** `uploadDocuments(bidId)`: one request per file, in order; `succeeded[i]`
      is whether the server accepted the `i`-th. */
  method UploadDocuments(bidId: Id, files: seq<FileRef>, succeeded: seq<bool>)
    returns (sent: seq<DocumentRequest>, allSuccess: bool, notice: UploadNotice)
    requires |succeeded| == |files|
    ensures sent == MapSeq(files, DocumentFor(bidId))
    ensures allSuccess <==> forall i :: 0 <= i < |files| ==> succeeded[i]
    ensures notice == if !allSuccess then SomeFailed else if |files| > 0 then AllUploaded(|files|) else NothingUploaded
  {
    sent, allSuccess := [], true;
    var i := 0;
    while i < |files|
      invariant 0 <= i <= |files|
      invariant sent == MapSeq(files[..i], DocumentFor(bidId))
      invariant allSuccess <==> forall k :: 0 <= k < i ==> succeeded[k]
    {
      MapSeqSnoc(files[..i], files[i], DocumentFor(bidId));
      assert files[..i + 1] == files[..i] + [files[i]];
      sent := sent + [DocumentFor(bidId)(files[i])];
      if !succeeded[i] {
        allSuccess := false;
      }
      i := i + 1;
    }
    assert files[..i] == files;
    if !allSuccess {
      notice := SomeFailed;
    } else if |files| > 0 {
      notice := AllUploaded(|files|);
    } else {
      notice := NothingUploaded;
    }
  }

  lemma MapSeqSnoc<T, U>(s: seq<T>, x: T, f: T -> U)
    ensures MapSeq(s + [x], f) == MapSeq(s, f) + [f(x)]
  {
    var l, r := MapSeq(s + [x], f), MapSeq(s, f) + [f(x)];
    assert |l| == |r|;
    forall i | 0 <= i < |l| ensures l[i] == r[i] {
      if i < |s| {
        assert (s + [x])[i] == s[i];
      }
    }
  }

  // ---------------------------------------------------------------------------
  // the dialog state

  class BidFormDialog {
    var form: FormData
    var files: seq<FileRef>

    constructor (today: string)
      ensures form == BlankForm(today) && files == []
    {
      form, files := BlankForm(today), [];
    }

    /** Opening the dialog: filled from the bid when editing one, otherwise a
        blank form and no files. Opening to edit without a bid changes
        nothing. */
    method Open(editing: bool, bid: Option<BidView>, bidDate: string, today: string)
      modifies this
      ensures editing && bid.Some? ==> form == EditForm(bid.value, bidDate) && files == old(files)
      ensures !editing ==> form == BlankForm(today) && files == []
      ensures editing && bid.None? ==> form == old(form) && files == old(files)
    {
      if bid.Some? && editing {
        form := EditForm(bid.value, bidDate);
      } else if !editing {
        form, files := BlankForm(today), [];
      }
    }

    method ToggleClassification(id: Id)
      modifies this
      ensures form == old(form).(classifications := Toggled(old(form.classifications), id))
      ensures files == old(files)
    {
      var current := form.classifications;
      form := form.(classifications := Toggled(current, id));
    }

    /** `handleFileChange`: the new files come after those already chosen. */
    method AddFiles(newFiles: seq<FileRef>)
      modifies this
      ensures files == old(files) + newFiles && files[..|old(files)|] == old(files)
      ensures form == old(form)
    {
      files := files + newFiles;
    }

    /** `removeFile(index)`. */
    method RemoveFile(index: int)
      modifies this
      ensures files == Spliced(old(files), index)
      ensures form == old(form)
    {
      files := RemoveAt(files, index);
    }

    method HandleSubmit(editing: bool, bid: Option<BidView>) returns (s: Submission)
      ensures s == Submit(form, editing, bid)
    {
      s := Submit(form, editing, bid);
    }
  }
}
