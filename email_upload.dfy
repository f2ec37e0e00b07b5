/** Uploading an email file on the email processing page: the extension
    check, the scan of the first lines for `Subject:` and `From:` headers
    (a simplified reading of the header fields of section 3.6 of RFC 5322:
    case-sensitive names, no unfolding of continuation lines), and the email
    record sent to the server. */
module EmailUpload {
  import opened Wrappers
  import opened Seqs
  import opened Text
  import opened Schema

  /** How many lines are scanned for headers. */
  const HeaderWindow: nat := 20
  const SubjectPrefix := "Subject:"
  const FromPrefix := "From:"
  const DefaultSender := "example@example.com"
  const Recipient := "procurement@company.com"
  /** How much of the file becomes the body text. */
  const BodyLimit: nat := 1000

  /** Only `.eml` and `.msg` files are accepted. */
  predicate AcceptedFile(name: string) {
    EndsWith(name, ".eml") || EndsWith(name, ".msg")
  }

  /** The value of a header line: what follows the prefix, trimmed. */
  function HeaderValue(line: string, prefix: string): string
    requires StartsWith(line, prefix)
  {
    Trim(line[|prefix|..])
  }

  /** The value of the last line starting with `prefix`, or `default`. */
  function LastHeader(lines: seq<string>, prefix: string, default: string): string
    decreases |lines|
  {
    if lines == [] then default
    else
      var last := lines[|lines| - 1];
      if StartsWith(last, prefix) then HeaderValue(last, prefix)
      else LastHeader(lines[..|lines| - 1], prefix, default)
  }

  /** Without a matching line the default stands. */
  lemma {:induction false} LastHeaderDefault(lines: seq<string>, prefix: string, default: string)
    requires forall i :: 0 <= i < |lines| ==> !StartsWith(lines[i], prefix)
    ensures LastHeader(lines, prefix, default) == default
    decreases |lines|
  {
    if lines != [] {
      var front := lines[..|lines| - 1];
      assert forall i :: 0 <= i < |front| ==> front[i] == lines[i];
      LastHeaderDefault(front, prefix, default);
    }
  }

  /** The last line that starts with `prefix` gives the value. */
  lemma {:induction false} LastHeaderLast(lines: seq<string>, prefix: string, default: string, i: nat)
    requires i < |lines| && StartsWith(lines[i], prefix)
    requires forall j :: i < j < |lines| ==> !StartsWith(lines[j], prefix)
    ensures LastHeader(lines, prefix, default) == HeaderValue(lines[i], prefix)
    decreases |lines|
  {
    if i < |lines| - 1 {
      var front := lines[..|lines| - 1];
      assert front[i] == lines[i];
      assert forall j :: i < j < |front| ==> front[j] == lines[j];
      LastHeaderLast(front, prefix, default, i);
    }
  }

  /** The header scan of `handleEmailUpload`: the subject and the sender
      read from the first lines of the file, the file name and a fixed
      address standing in when a header is missing. */
  method ScrapeHeaders(text: string, fileName: string) returns (subject: string, sender: string)
    ensures subject == LastHeader(Take(Split(text, '\n'), HeaderWindow), SubjectPrefix, fileName)
    ensures sender == LastHeader(Take(Split(text, '\n'), HeaderWindow), FromPrefix, DefaultSender)
  {
    var lines := Take(Split(text, '\n'), HeaderWindow);
    subject, sender := fileName, DefaultSender;
    var i := 0;
    while i < |lines|
      invariant 0 <= i <= |lines|
      invariant subject == LastHeader(lines[..i], SubjectPrefix, fileName)
      invariant sender == LastHeader(lines[..i], FromPrefix, DefaultSender)
    {
      var line := lines[i];
      assert lines[..i + 1][..i] == lines[..i];
      if StartsWith(line, SubjectPrefix) {
        subject := HeaderValue(line, SubjectPrefix);
      }
      if StartsWith(line, FromPrefix) {
        sender := HeaderValue(line, FromPrefix);
      }
      i := i + 1;
    }
    assert lines[..i] == lines;
  }

  /** A header line below the scanned window has no effect. */
  lemma {:induction false} LaterLinesIgnored(lines: seq<string>, more: seq<string>, prefix: string, default: string)
    requires |lines| >= HeaderWindow
    ensures LastHeader(Take(lines + more, HeaderWindow), prefix, default) ==
            LastHeader(Take(lines, HeaderWindow), prefix, default)
  {
    assert Take(lines + more, HeaderWindow) == (lines + more)[..HeaderWindow];
    assert (lines + more)[..HeaderWindow] == lines[..HeaderWindow];
  }

  /** The first piece of a split is everything before the first separator. */
  lemma {:induction false} SplitFirst(s: string, sep: char)
    ensures var k := IndexOfChar(s, sep);
            Split(s, sep)[0] == if k < 0 then s else s[..k]
    decreases |s|
  {
    if s != [] {
      SplitFirst(s[1..], sep);
      if s[0] != sep {
        var k := IndexOfChar(s[1..], sep);
        if k >= 0 {
          assert s[..k + 1] == [s[0]] + s[1..][..k];
        } else {
          assert s == [s[0]] + s[1..];
        }
      }
    }
  }

  /** `sender.split('<')[0].trim()`: the display name before an address in
      angle brackets, or the whole sender when there is none. */
  function SenderName(sender: string): (r: string)
    ensures var k := IndexOfChar(sender, '<');
            r == Trim(if k < 0 then sender else sender[..k])
    ensures '<' !in r
  {
    SplitFirst(sender, '<');
    var piece := Split(sender, '<')[0];
    assert forall c :: c in Trim(piece) ==> c in piece;
    Trim(piece)
  }

  /** `Name <address>` gives back the name. */
  lemma SenderNameBeforeAddress(name: string, address: string)
    requires name != [] && '<' !in name
    requires !IsJsSpace(name[0]) && !IsJsSpace(name[|name| - 1])
    ensures SenderName(name + " <" + address) == name
  {
    var s := name + " <" + address;
    var k := |name| + 1;
    assert s[k] == '<';
    assert s[..k] == name + " ";
    FirstIndexOfChar(s, '<', k);
    var p := s[..k];
    assert TrimStartFrom(p, 0) == 0 by {
      assert !IsJsSpace(p[0]);
    }
    assert TrimEndFrom(p, 0, k - 1) == k - 1 by {
      assert !IsJsSpace(p[k - 2]);
    }
    assert TrimEndFrom(p, 0, k) == k - 1 by {
      assert IsJsSpace(p[k - 1]);
    }
    assert p[0..k - 1] == name;
  }

  lemma FirstIndexOfChar(s: string, c: char, k: nat)
    requires k < |s| && s[k] == c && c !in s[..k]
    ensures IndexOfChar(s, c) == k
  {
    assert c in s;
  }

  /** `handleEmailUpload` after the file has been read: `None` for a file of
      the wrong kind, otherwise the body of the `POST /api/emails` request. */
  method HandleEmailUpload(fileName: string, text: string, now: Timestamp) returns (r: Option<NewEmailRecord>)
    ensures r.None? <==> !AcceptedFile(fileName)
    ensures r.Some? ==>
              var lines := Take(Split(text, '\n'), HeaderWindow);
              var sender := LastHeader(lines, FromPrefix, DefaultSender);
              && r.value.subject == LastHeader(lines, SubjectPrefix, fileName)
              && r.value.senderEmail == sender
              && r.value.senderName == Some(SenderName(sender))
              && r.value.recipientEmail == Recipient
              && r.value.receivedDate == Present(now)
              && r.value.bodyText == Some(Take(text, BodyLimit))
              && r.value.emailType == Present(Some(Unknown))
              && r.value.isProcessed == Present(Some(false))
              && r.value.processingStatus == Present(Some(Unprocessed))
              && r.value.extractedData.None?
  {
    if !AcceptedFile(fileName) {
      return None;
    }
    var subject, sender := ScrapeHeaders(text, fileName);
    r := Some(NewEmailRecord(subject, sender, Some(SenderName(sender)), Recipient, Present(now),
      Some(Take(text, BodyLimit)), Present(Some(Unknown)), Present(Some(false)), Present(Some(Unprocessed)), None));
  }
}
