/** The e-mail sender: records a send in the `emails` table, builds one
    multipart message and hands it to the SMTP relay once per recipient. */
module EmailService {
  import opened Common
  import opened Store
  import opened Trace
  import OperationService
  import PdfService

  type Port = p: nat | p < 65536

  /** The request as its two call sites fill it in. */
  datatype SendUniversalEmailRequest = SendUniversalEmailRequest(
    smtpHost: string,
    smtpPort: Port,
    smtpUser: string,
    smtpPass: string,
    recipients: seq<string>,
    subject: string,
    body: string,
    asyncSend: bool,
    pdfHtml: Option<string>,
    pdfOrientation: Option<PdfService.PdfOrientation>,
    pdfPageSizePreset: Option<PdfService.PdfPagePreset>,
    pdfCustomPageSize: Option<PdfService.PaperSize>,
    pdfMargins: Option<PdfService.PdfMargins>,
    pdfScale: Option<real>,
    pdfAttachmentName: Option<string>,
    otherAttachments: Option<seq<Attachment>>)

  /** The attachments a send carries: the generated PDF first, when there is
      one, then the caller's own attachments in their order. */
  function FinalAttachments(pdf: Option<Bytes>, pdfName: Option<string>, others: Option<seq<Attachment>>)
    : (r: seq<Attachment>)
    ensures pdf.None? ==> r == others.GetOr([])
    ensures pdf.Some? ==>
      (&& |r| == 1 + |others.GetOr([])| && r[1..] == others.GetOr([])
       && r[0].contentType == "application/pdf" && r[0].data == pdf.value
       && r[0].filename == (if pdfName.Some? then pdfName.value else "document.pdf"))
  {
    (if pdf.Some? then [Attachment(pdfName.GetOr("document.pdf"), "application/pdf", pdf.value)] else [])
    + others.GetOr([])
  }

  /** Collects the attachments: the PDF first, when there is one, then the
      caller's own. */
  method AssembleAttachments(pdf: Option<Bytes>, pdfName: Option<string>, others: Option<seq<Attachment>>)
    returns (attachments: seq<Attachment>)
    ensures attachments == FinalAttachments(pdf, pdfName, others)
  {
    attachments := [];
    if pdf.Some? {
      var name := pdfName.GetOr("document.pdf");
      attachments := attachments + [Attachment(name, "application/pdf", pdf.value)];
    }
    if others.Some? {
      attachments := attachments + others.value;
    }
  }

  datatype EmailStatusResponse = EmailStatusResponse(id: Id, status: string, error: Option<string>)

  // ---------------------------------------------------------------------
  // The SMTP side
  // ---------------------------------------------------------------------

  /** What the relay does with the message for one recipient; a rejection
      carries the mail library's error with its own chain of causes. */
  datatype Delivery = Delivered | Rejected(error: Error) | TimedOut

  /** How one step of building the transport ends. */
  datatype Setup = Ready | Refused(error: Error)

  /** How the mail library's parsers and the relay answer for one request. */
  datatype Smtp = Smtp(
    isMailbox: string -> bool,
    addressError: string -> Error,
    isContentType: string -> bool,
    contentTypeError: string -> Error,
    tls: Setup,
    relay: Setup,
    deliver: string -> Delivery)

  /** What an expired 30-second send timeout reports. */
  const Elapsed := "deadline has elapsed"

  function FromAddress(user: string): string {
    "Calipso Dynamics <" + user + ">"
  }

  datatype PartBody = Html(text: string) | Binary(data: Bytes)

  /** One part of the multipart/mixed body. */
  datatype Part = Part(contentType: string, attachmentName: Option<string>, body: PartBody)

  function HtmlPart(body: string): Part {
    Part("text/html; charset=utf-8", None, Html(body))
  }

  function AttachmentPart(a: Attachment): Part {
    Part(a.contentType, Some(a.filename), Binary(a.data))
  }

  /** The message body: the HTML part, then one part per attachment in
      order; the first content type that does not parse stops it. */
  method BuildMultipart(smtp: Smtp, body: string, attachments: seq<Attachment>) returns (r: Result<seq<Part>>)
    ensures r.Ok? <==> forall k :: 0 <= k < |attachments| ==> smtp.isContentType(attachments[k].contentType)
    ensures r.Err? ==> Some(r.error) == TypeError(smtp, attachments)
    ensures r.Ok? ==>
      && |r.value| == |attachments| + 1 && r.value[0] == HtmlPart(body)
      && forall k :: 0 <= k < |attachments| ==> r.value[k + 1] == AttachmentPart(attachments[k])
  {
    var parts := [HtmlPart(body)];
    var i := 0;
    while i < |attachments|
      invariant 0 <= i <= |attachments|
      invariant |parts| == i + 1 && parts[0] == HtmlPart(body)
      invariant forall k :: 0 <= k < i ==> smtp.isContentType(attachments[k].contentType)
      invariant TypeError(smtp, attachments) == TypeError(smtp, attachments[i..])
      invariant forall k :: 0 <= k < i ==> parts[k + 1] == AttachmentPart(attachments[k])
    {
      var a := attachments[i];
      if !smtp.isContentType(a.contentType) {
        return Err(smtp.contentTypeError(a.contentType));
      }
      assert attachments[i..][1..] == attachments[i + 1..];
      parts := parts + [AttachmentPart(a)];
      i := i + 1;
    }
    r := Ok(parts);
  }

  /** The mail library's error for the first attachment whose content type
      does not parse, if there is one. */
  function TypeError(smtp: Smtp, attachments: seq<Attachment>): (e: Option<Error>)
    ensures e.None? <==> forall k :: 0 <= k < |attachments| ==> smtp.isContentType(attachments[k].contentType)
    ensures attachments != [] && !smtp.isContentType(attachments[0].contentType) ==>
      e == Some(smtp.contentTypeError(attachments[0].contentType))
  {
    if attachments == [] then None
    else if !smtp.isContentType(attachments[0].contentType) then Some(smtp.contentTypeError(attachments[0].contentType))
    else
      var rest := TypeError(smtp, attachments[1..]);
      assert forall k :: 1 <= k < |attachments| ==> attachments[k] == attachments[1..][k - 1];
      rest
  }

  /** A content-type failure is the library's error for the first attachment
      whose type does not parse. */
  lemma {:induction false} TypeErrorIsFirst(smtp: Smtp, attachments: seq<Attachment>)
    requires TypeError(smtp, attachments).Some?
    ensures exists k :: 0 <= k < |attachments| && FirstBadType(smtp, attachments, k)
                        && TypeError(smtp, attachments).value == smtp.contentTypeError(attachments[k].contentType)
  {
    if smtp.isContentType(attachments[0].contentType) {
      var tail := attachments[1..];
      TypeErrorIsFirst(smtp, tail);
      var k :| 0 <= k < |tail| && FirstBadType(smtp, tail, k)
               && TypeError(smtp, tail).value == smtp.contentTypeError(tail[k].contentType);
      assert forall j :: 1 <= j <= k + 1 ==> attachments[j] == tail[j - 1];
      assert FirstBadType(smtp, attachments, k + 1);
    } else {
      assert FirstBadType(smtp, attachments, 0);
    }
  }

  /** Attachment `k` is the first whose content type does not parse. */
  ghost predicate FirstBadType(smtp: Smtp, attachments: seq<Attachment>, k: nat)
    requires k < |attachments|
  {
    && !smtp.isContentType(attachments[k].contentType)
    && forall j :: 0 <= j < k ==> smtp.isContentType(attachments[j].contentType)
  }

  /** What sending to one recipient yields: None when the relay took it. */
  function RecipientVerdict(smtp: Smtp, to: string): (v: Option<Error>)
    ensures v.None? <==> smtp.isMailbox(to) && smtp.deliver(to).Delivered?
  {
    if !smtp.isMailbox(to) then Some(Context(smtp.addressError(to), "Invalid recipient address"))
    else match smtp.deliver(to)
      case Delivered => None
      case Rejected(err) => Some(err)
      case TimedOut => Some(Fail(Elapsed))
  }

  function Verdict(smtp: Smtp): string -> Option<Error> {
    to => RecipientVerdict(smtp, to)
  }

  /** The first failure before any recipient is tried: the sender address,
      the TLS parameters, the relay, then the attachments' content types. */
  function SetupError(smtp: Smtp, req: SendUniversalEmailRequest, attachments: seq<Attachment>): (e: Option<Error>)
    ensures e.None? <==>
      && smtp.isMailbox(FromAddress(req.smtpUser)) && smtp.tls.Ready? && smtp.relay.Ready?
      && forall k :: 0 <= k < |attachments| ==> smtp.isContentType(attachments[k].contentType)
    ensures !smtp.isMailbox(FromAddress(req.smtpUser)) ==> e == Some(Context(smtp.addressError(FromAddress(req.smtpUser)), "Invalid from address"))
  {
    if !smtp.isMailbox(FromAddress(req.smtpUser)) then Some(Context(smtp.addressError(FromAddress(req.smtpUser)), "Invalid from address"))
    else if smtp.tls.Refused? then Some(smtp.tls.error)
    else if smtp.relay.Refused? then Some(smtp.relay.error)
    else TypeError(smtp, attachments)
  }

  /** The reference for one send: the recipients tried, in order, and the
      result. */
  function SmtpRun(smtp: Smtp, req: SendUniversalEmailRequest, attachments: seq<Attachment>): (r: Run<string>)
    ensures SetupError(smtp, req, attachments).Some? ==>
      r.sent == [] && r.res == Err(SetupError(smtp, req, attachments).value)
    ensures SetupError(smtp, req, attachments).None? ==> IsRun(req.recipients, Verdict(smtp), r.sent, r.res)
  {
    match SetupError(smtp, req, attachments)
    case Some(e) => Run([], Err(e))
    case None =>
      DriveIsRun(req.recipients, Verdict(smtp));
      Drive(req.recipients, Verdict(smtp))
  }

  /** A send succeeds iff setup succeeds and every recipient is delivered;
      a failing send tried every recipient up to the first failing one and
      none after it. */
  lemma {:induction false} SmtpRunSucceedsIff(smtp: Smtp, req: SendUniversalEmailRequest, attachments: seq<Attachment>)
    ensures var run := SmtpRun(smtp, req, attachments);
      && (run.res.Ok? <==> (SetupError(smtp, req, attachments).None?
            && forall k :: 0 <= k < |req.recipients| ==> RecipientVerdict(smtp, req.recipients[k]).None?))
      && (run.res.Ok? ==> run.sent == req.recipients)
      && (run.res.Err? && run.sent != [] ==>
            && run.sent == req.recipients[..|run.sent|]
            && RecipientVerdict(smtp, run.sent[|run.sent| - 1]) == Some(run.res.error)
            && forall k :: 0 <= k < |run.sent| - 1 ==> RecipientVerdict(smtp, req.recipients[k]).None?)
  {
    if SetupError(smtp, req, attachments).None? {
      var run := Drive(req.recipients, Verdict(smtp));
      DriveIsRun(req.recipients, Verdict(smtp));
      RunSucceedsIffNoFailure(req.recipients, Verdict(smtp), run.sent, run.res);
    }
  }

  /** `send_email_via_smtp_multiple`: sets up the transport and the body,
      then sends to each recipient in turn and stops at the first failure.
      `attempted` lists the recipients tried. */
  method SendEmailViaSmtpMultiple(smtp: Smtp, req: SendUniversalEmailRequest, attachments: seq<Attachment>)
    returns (r: Result<()>, attempted: seq<string>)
    ensures Run(attempted, r) == SmtpRun(smtp, req, attachments)
    ensures SetupError(smtp, req, attachments).None? ==> IsRun(req.recipients, Verdict(smtp), attempted, r)
  {
    attempted := [];
    if !smtp.isMailbox(FromAddress(req.smtpUser)) {
      return Err(Context(smtp.addressError(FromAddress(req.smtpUser)), "Invalid from address")), attempted;
    }
    if smtp.tls.Refused? {
      return Err(smtp.tls.error), attempted;
    }
    if smtp.relay.Refused? {
      return Err(smtp.relay.error), attempted;
    }
    var parts := BuildMultipart(smtp, req.body, attachments);
    if parts.Err? {
      return Err(parts.error), attempted;
    }
    var plan := req.recipients;
    var i := 0;
    while i < |plan|
      invariant 0 <= i <= |plan| && attempted == plan[..i]
      invariant forall k :: 0 <= k < i ==> Verdict(smtp)(plan[k]).None?
    {
      var to := plan[i];
      attempted := attempted + [to];
      assert attempted == plan[..i + 1];
      var failure := SendTo(smtp, to);
      if failure.Some? {
        r := Err(failure.value);
        RunIsDrive(plan, Verdict(smtp), attempted, r);
        return;
      }
      i := i + 1;
    }
    r := Ok(());
    assert attempted == plan;
    RunIsDrive(plan, Verdict(smtp), attempted, r);
  }

  /** One pass of the recipient loop: the address must parse, then the relay
      must accept the message. */
  method SendTo(smtp: Smtp, to: string) returns (failure: Option<Error>)
    ensures failure == Verdict(smtp)(to)
  {
    if !smtp.isMailbox(to) {
      return Some(Context(smtp.addressError(to), "Invalid recipient address"));
    }
    match smtp.deliver(to)
    case Rejected(err) =>
      failure := Some(err);
    case TimedOut =>
      failure := Some(Fail(Elapsed));
    case Delivered =>
      failure := None;
  }

  // ---------------------------------------------------------------------
  // The `emails` table
  // ---------------------------------------------------------------------

  /** The table after `UPDATE emails SET status, error_message WHERE
      operation_id`: every row of the operation, and only those. */
  function EmailsWithStatus(emails: map<Id, EmailRow>, operationId: Id, status: string, error: Option<string>)
    : (r: map<Id, EmailRow>)
    ensures r.Keys == emails.Keys
    ensures forall id :: id in emails && emails[id].operationId == operationId ==>
      r[id] == emails[id].(status := status, errorMessage := error)
    ensures forall id :: id in emails && emails[id].operationId != operationId ==> r[id] == emails[id]
  {
    map id | id in emails :: if emails[id].operationId == operationId
      then emails[id].(status := status, errorMessage := error) else emails[id]
  }

  /** Inserts one "pending" row for the whole send, recipients joined by ";". */
  method InsertEmailRecordMultiple(db: Database, operationId: Id, req: SendUniversalEmailRequest) returns (r: Result<()>)
    requires db.Valid()
    modifies db`emails, db`emailOrder, db`nextId, db`clock, db`log
    ensures db.Valid()
    ensures r.Ok? <==> db.available
    ensures r.Err? ==> (Display(r.error) == "Failed to insert email record (multiple)"
      && db.emails == old(db.emails) && db.emailOrder == old(db.emailOrder) && db.log == old(db.log))
    ensures r.Ok? ==>
      var id := old(db.nextId);
      && id !in old(db.emails)
      && db.emails == old(db.emails)[id := EmailRow(operationId, Join(req.recipients, ";"), req.subject,
                                                   req.body, "pending", None, Rfc3339(old(db.clock)))]
      && db.emailOrder == old(db.emailOrder) + [id]
      && db.log == old(db.log) + [EmailInserted(operationId)]
    ensures db.nextId == old(db.nextId) + 1 && db.clock == old(db.clock) + 1
  {
    var id := db.FreshId();
    var now := db.Now();
    if !db.available {
      return Err(Context(Fail(StoreDown), "Failed to insert email record (multiple)"));
    }
    var row := EmailRow(operationId, Join(req.recipients, ";"), req.subject, req.body, "pending", None, Rfc3339(now));
    db.InsertEmail(id, row);
    db.log := db.log + [EmailInserted(operationId)];
    r := Ok(());
  }

  /** The pieces of a ";"-joined text, split at every ";". */
  function SplitAtSemicolons(s: string): (parts: seq<string>)
    ensures |parts| > 0
  {
    if ';' !in s then [s]
    else
      var k := FirstSemicolon(s);
      [s[..k]] + SplitAtSemicolons(s[k + 1..])
  }

  function FirstSemicolon(s: string): (k: nat)
    requires ';' in s
    ensures k < |s| && s[k] == ';' && ';' !in s[..k]
  {
    if s[0] == ';' then 0
    else
      assert s == [s[0]] + s[1..];
      var k := FirstSemicolon(s[1..]);
      assert s[..k + 1] == [s[0]] + s[1..][..k];
      k + 1
  }

  /** The stored recipient list reads back as the list given, as long as no
      address holds a ";" and the list is not empty. */
  lemma {:induction false} JoinedRecipientsSplitBack(recipients: seq<string>)
    requires |recipients| > 0
    requires forall k :: 0 <= k < |recipients| ==> ';' !in recipients[k]
    ensures SplitAtSemicolons(Join(recipients, ";")) == recipients
  {
    if |recipients| > 1 {
      var head, rest := recipients[0], Join(recipients[1..], ";");
      var s := head + ";" + rest;
      assert Join(recipients, ";") == s;
      assert s[|head|] == ';' && s[..|head|] == head;
      assert FirstSemicolon(s) == |head| by {
        FirstSemicolonAfter(head, rest);
      }
      assert s[|head| + 1..] == rest;
      JoinedRecipientsSplitBack(recipients[1..]);
      assert recipients == [head] + recipients[1..];
    }
  }

  lemma {:induction false} FirstSemicolonAfter(head: string, rest: string)
    requires ';' !in head
    ensures ';' in head + ";" + rest && FirstSemicolon(head + ";" + rest) == |head|
  {
    var s := head + ";" + rest;
    assert s[|head|] == ';';
    if head != [] {
      assert s[1..] == head[1..] + ";" + rest;
      assert s[0] == head[0] && head[0] in head;
      FirstSemicolonAfter(head[1..], rest);
    }
  }

  /** The two writes of `update_email_status`, in order. */
  function StatusWrites(operationId: Id, status: string, error: Option<string>): seq<Write> {
    [OperationSet(operationId, status, error), EmailsSet(operationId, status, error)]
  }

  /** `update_email_status`: the same status and error go to the operation's
      row in `operations` and to every row of it in `emails`. */
  method UpdateEmailStatus(db: Database, operationId: Id, status: string, error: Option<string>) returns (r: Result<()>)
    requires db.Valid()
    modifies db`operations, db`emails, db`log
    ensures db.Valid()
    ensures r.Ok? <==> db.available
    ensures r.Err? ==> (Display(r.error) == "Failed to update operation status"
      && db.operations == old(db.operations) && db.emails == old(db.emails) && db.log == old(db.log))
    ensures r.Ok? ==>
      && db.operations == OperationService.SetStatus(old(db.operations), operationId, status, error)
      && db.emails == EmailsWithStatus(old(db.emails), operationId, status, error)
      && db.log == old(db.log) + StatusWrites(operationId, status, error)
  {
    if !db.available {
      return Err(Context(Fail(StoreDown), "Failed to update operation status"));
    }
    db.WriteOperations(OperationService.SetStatus(db.operations, operationId, status, error));
    db.WriteEmails(EmailsWithStatus(db.emails, operationId, status, error));
    db.log := db.log + StatusWrites(operationId, status, error);
    r := Ok(());
  }

  /** The status a finished send leaves behind. */
  function SentStatus(res: Result<()>): (status: string)
    ensures status == "sent" <==> res.Ok?
    ensures status == "failed" <==> res.Err?
  {
    if res.Ok? then "sent" else "failed"
  }

  /** The error a finished send leaves behind: the whole chain, as `{:?}`
      prints it, outermost message first. */
  function SentError(res: Result<()>): (error: Option<string>)
    ensures error.None? <==> res.Ok?
    ensures error.Some? ==> Display(res.error) <= error.value
    ensures error.Some? && |Causes(res.error)| > 0 ==> Display(res.error) + "\n\nCaused by:" <= error.value
  {
    if res.Ok? then None else Some(Debug(res.error))
  }

  /** What a synchronous send returns for a given SMTP result. */
  function SyncResult(operationId: Id, res: Result<()>): (r: Result<Id>)
    ensures r.Ok? <==> res.Ok?
    ensures r.Ok? ==> r.value == operationId
    ensures r.Err? ==> Display(r.error) == "Email send failed: " + Debug(res.error)
  {
    if res.Ok? then Ok(operationId) else Err(Fail("Email send failed: " + Debug(res.error)))
  }

  /** `handle_sync_email_multiple`: "running", the send, then "sent" or
      "failed" with the full error chain. */
  method HandleSyncEmailMultiple(db: Database, smtp: Smtp, operationId: Id, req: SendUniversalEmailRequest,
                                 attachments: seq<Attachment>) returns (r: Result<Id>)
    requires db.Valid()
    modifies db`operations, db`emails, db`log
    ensures db.Valid()
    ensures !db.available ==> (r.Err? && Display(r.error) == "Failed to update operation status"
      && db.operations == old(db.operations) && db.emails == old(db.emails) && db.log == old(db.log))
    ensures db.available ==>
      var res := SmtpRun(smtp, req, attachments).res;
      && r == SyncResult(operationId, res)
      && db.operations == OperationService.SetStatus(old(db.operations), operationId, SentStatus(res), SentError(res))
      && db.emails == EmailsWithStatus(old(db.emails), operationId, SentStatus(res), SentError(res))
      && db.log == old(db.log) + [OperationSet(operationId, "running", None)]
                    + StatusWrites(operationId, SentStatus(res), SentError(res))
  {
    var running := OperationService.UpdateOperationStatus(db, operationId, "running", None);
    if running.Err? {
      return Err(Context(running.error, "Failed to update operation status"));
    }
    var afterRunning := db.operations;
    var sent, attempted := SendEmailViaSmtpMultiple(smtp, req, attachments);
    var status, error := SentStatus(sent), SentError(sent);
    var written := UpdateEmailStatus(db, operationId, status, error);
    OperationService.SetStatusTwice(old(db.operations), operationId, "running", None, status, error);
    // the store answered the first update, so it answers this one too
    assert written.Ok?;
    r := SyncResult(operationId, sent);
  }

  /** `send_unified`: records the send, then either hands it to a background
      task and returns at once, or sends now. */
  method SendUnified(db: Database, smtp: Smtp, operationId: Id, req: SendUniversalEmailRequest,
                     attachments: seq<Attachment>) returns (r: Result<Id>)
    requires db.Valid()
    modifies db`operations, db`emails, db`emailOrder, db`nextId, db`clock, db`log
    ensures db.Valid()
    ensures !db.available ==> (r.Err? && Display(r.error) == "Failed to insert email record (multiple)"
      && db.operations == old(db.operations) && db.emails == old(db.emails) && db.log == old(db.log))
    ensures db.available ==>
      var id := old(db.nextId);
      var pending := old(db.emails)[id := EmailRow(operationId, Join(req.recipients, ";"), req.subject,
                                                   req.body, "pending", None, Rfc3339(old(db.clock)))];
      && id !in old(db.emails)
      && db.emailOrder == old(db.emailOrder) + [id]
      && (req.asyncSend ==>
            && r == Ok(operationId) && db.operations == old(db.operations) && db.emails == pending
            && db.log == old(db.log) + [EmailInserted(operationId)])
      && (!req.asyncSend ==>
            var res := SmtpRun(smtp, req, attachments).res;
            && r == SyncResult(operationId, res)
            && db.operations == OperationService.SetStatus(old(db.operations), operationId, SentStatus(res), SentError(res))
            && db.emails == EmailsWithStatus(pending, operationId, SentStatus(res), SentError(res))
            && db.log == old(db.log) + [EmailInserted(operationId)] + [OperationSet(operationId, "running", None)]
                          + StatusWrites(operationId, SentStatus(res), SentError(res)))
  {
    var inserted := InsertEmailRecordMultiple(db, operationId, req);
    if inserted.Err? {
      return Err(inserted.error);
    }
    if req.asyncSend {
      // the send itself runs in a background task, which is not modelled
      return Ok(operationId);
    }
    r := HandleSyncEmailMultiple(db, smtp, operationId, req, attachments);
  }

  /** The first row of the operation in insertion order, if any. */
  function FirstEmailOf(order: seq<Id>, emails: map<Id, EmailRow>, operationId: Id): (r: Option<Id>)
    requires forall id :: id in order ==> id in emails
    ensures r.Some? ==> r.value in emails && emails[r.value].operationId == operationId
    ensures r.None? <==> forall id :: id in order ==> emails[id].operationId != operationId
  {
    if order == [] then None
    else if emails[order[0]].operationId == operationId then Some(order[0])
    else
      assert forall id :: id in order ==> id == order[0] || id in order[1..];
      FirstEmailOf(order[1..], emails, operationId)
  }

  /** `get_email_status`: status and error of the operation's first email
      row, under the queried id; fails when it has none. */
  method GetEmailStatus(db: Database, operationId: Id) returns (r: Result<EmailStatusResponse>)
    requires db.Valid()
    ensures r.Err? ==> Display(r.error) == "Email operation not found"
    ensures r.Ok? <==> db.available && exists id :: id in db.emails && db.emails[id].operationId == operationId
    ensures r.Ok? ==>
      var row := db.emails[FirstEmailOf(db.emailOrder, db.emails, operationId).value];
      r.value == EmailStatusResponse(operationId, row.status, row.errorMessage)
  {
    if !db.available {
      return Err(Context(Fail(StoreDown), "Email operation not found"));
    }
    var first := FirstEmailOf(db.emailOrder, db.emails, operationId);
    if first.None? {
      return Err(Context(Fail("no rows returned by a query that expected to return at least one row"),
                         "Email operation not found"));
    }
    var row := db.emails[first.value];
    r := Ok(EmailStatusResponse(operationId, row.status, row.errorMessage));
  }
}
