/** The e-mail endpoints: `GET /api/email/status/{op_id}` and
    `POST /api/email/send-unified`, which registers a "send_unified_email"
    operation, renders the optional PDF and hands everything to the e-mail
    service. */
module EmailHandler {
  import opened Common
  import opened Store
  import OperationService
  import PdfService
  import EmailService

  /** The body of a status answer. */
  datatype StatusReply = StatusReply(code: nat, success: bool, status: Option<EmailService.EmailStatusResponse>,
                                     error: Option<string>)

  /** `email_status_endpoint`: 200 with the status, otherwise 404 when the
      error says "not found" and 500 when it does not. */
  method EmailStatusEndpoint(db: Database, operationId: Id) returns (reply: StatusReply)
    requires db.Valid()
    ensures reply.success <==> reply.code == 200
    ensures reply.code == 200 <==>
      db.available && exists id :: id in db.emails && db.emails[id].operationId == operationId
    ensures reply.code == 200 ==>
      var row := db.emails[EmailService.FirstEmailOf(db.emailOrder, db.emails, operationId).value];
      reply.status == Some(EmailService.EmailStatusResponse(operationId, row.status, row.errorMessage))
    ensures reply.code != 200 ==> reply == StatusReply(404, false, None, Some("Email operation not found"))
  {
    var r := EmailService.GetEmailStatus(db, operationId);
    if r.Ok? {
      return StatusReply(200, true, Some(r.value), None);
    }
    var message := Display(r.error);
    ContainsAt(message, "not found", 16);
    var code := if Contains(message, "not found") then 404 else 500;
    reply := StatusReply(code, false, None, Some(message));
  }

  /** The operation the endpoint registers for a request. */
  function CreateRequest(req: EmailService.SendUniversalEmailRequest): (c: OperationService.CreateOperationRequest)
    ensures c.operationType == "send_unified_email" && c.isAsync == req.asyncSend
    ensures c.metadata == Some(EmailPlan(req.recipients, req.subject, req.pdfHtml.Some?,
                                         |req.otherAttachments.GetOr([])|))
  {
    OperationService.CreateOperationRequest("send_unified_email", req.asyncSend,
      Some(EmailPlan(req.recipients, req.subject, req.pdfHtml.Some?, |req.otherAttachments.GetOr([])|)))
  }

  /** The PDF request built from the e-mail request's PDF fields. */
  function PdfRequestFor(req: EmailService.SendUniversalEmailRequest, html: string): (p: PdfService.PdfRequest)
    ensures !PdfService.IsLarge(p) && p.html == html
    ensures p.fileName == req.pdfAttachmentName.GetOr("document.pdf")
  {
    PdfService.PdfRequest(req.pdfAttachmentName.GetOr("document.pdf"), html, req.pdfOrientation,
      req.pdfPageSizePreset, req.pdfCustomPageSize, req.pdfMargins, req.pdfScale, None, None, None)
  }

  /** The PDF step: nothing to render, the rendered bytes, or the renderer's
      error as it is. */
  function PdfOutcome(config: PdfService.PdfGlobalConfig, chrome: PdfService.Chrome,
                      req: EmailService.SendUniversalEmailRequest, tmp: set<PdfService.TmpEntry>, uuid: nat)
    : (r: Result<Option<Bytes>>)
    ensures req.pdfHtml.None? ==> r == Ok(None)
    ensures req.pdfHtml.Some? ==>
      var g := PdfService.Generated(config, chrome, PdfRequestFor(req, req.pdfHtml.value), tmp, uuid);
      && (r.Ok? <==> g.Ok?) && (r.Ok? ==> r.value == Some(chrome.pdf)) && (r.Err? ==> r.error == g.error)
  {
    if req.pdfHtml.None? then Ok(None)
    else
      var g := PdfService.Generated(config, chrome, PdfRequestFor(req, req.pdfHtml.value), tmp, uuid);
      if g.Ok? then Ok(Some(g.value)) else Err(g.error)
  }

  /** Renders the PDF when the request carries HTML. */
  method RenderPdf(renderer: PdfService.Renderer, chrome: PdfService.Chrome, req: EmailService.SendUniversalEmailRequest)
    returns (r: Result<Option<Bytes>>)
    requires renderer.Valid()
    modifies renderer`tmp, renderer`calls, renderer`nextUuid
    ensures renderer.Valid()
    ensures r == PdfOutcome(renderer.config, chrome, req, old(renderer.tmp), old(renderer.nextUuid))
    ensures renderer.tmp == old(renderer.tmp)
  {
    if req.pdfHtml.None? {
      return Ok(None);
    }
    var bytes := renderer.GeneratePdf(chrome, PdfRequestFor(req, req.pdfHtml.value));
    if bytes.Err? {
      return Err(bytes.error);
    }
    r := Ok(Some(bytes.value));
  }

  /** The request the e-mail service receives: the HTML was taken out of it
      and its attachment list emptied into the final attachments. */
  function Forwarded(req: EmailService.SendUniversalEmailRequest): (r: EmailService.SendUniversalEmailRequest)
    ensures r.pdfHtml.None?
    ensures req.otherAttachments.Some? ==> r.otherAttachments == Some([])
    ensures r.(pdfHtml := req.pdfHtml, otherAttachments := req.otherAttachments) == req
  {
    req.(pdfHtml := None, otherAttachments := if req.otherAttachments.Some? then Some([]) else None)
  }

  /** Taking the HTML and the attachments out changes nothing about the send. */
  lemma ForwardedSendsAlike(smtp: EmailService.Smtp, req: EmailService.SendUniversalEmailRequest,
                            attachments: seq<Attachment>)
    ensures EmailService.SmtpRun(smtp, Forwarded(req), attachments) == EmailService.SmtpRun(smtp, req, attachments)
  {
  }

  /** `send_unified` on the forwarded request, as the endpoint sees it:
      whether it was accepted, the message it fails with, and the status it
      leaves on the operation. */
  method Send(db: Database, smtp: EmailService.Smtp, operationId: Id, req: EmailService.SendUniversalEmailRequest,
              attachments: seq<Attachment>) returns (r: Result<Id>)
    requires db.Valid() && db.available && operationId in db.operations
    modifies db`operations, db`emails, db`emailOrder, db`nextId, db`clock, db`log
    ensures db.Valid()
    ensures var res := EmailService.SmtpRun(smtp, req, attachments).res;
      && (r.Ok? <==> req.asyncSend || res.Ok?)
      && (r.Err? ==> Display(r.error) == "Email send failed: " + Debug(res.error))
      && operationId in db.operations
      && (req.asyncSend ==> db.operations == old(db.operations))
      && (!req.asyncSend ==> db.operations[operationId].status == EmailService.SentStatus(res))
    ensures |db.emailOrder| == |old(db.emailOrder)| + 1
  {
    ForwardedSendsAlike(smtp, req, attachments);
    r := EmailService.SendUnified(db, smtp, operationId, Forwarded(req), attachments);
  }

  /** The answer and the operation row after the e-mail service returned:
      an asynchronous send is accepted and leaves the status `before`; a
      synchronous one is accepted and leaves it "sent", or is refused and
      marked failed with the service's message under one more prefix. */
  ghost predicate Answered(resp: Response, before: string, ops: map<Id, OperationRow>, operationId: Id,
                           asyncSend: bool, res: Result<()>)
  {
    var accepted := Response(200, true, Some(operationId), Some("Unified email queued/sent successfully"), None);
    && operationId in ops
    && (asyncSend ==> resp == accepted && ops[operationId].status == before)
    && (!asyncSend && res.Ok? ==> resp == accepted && ops[operationId].status == "sent")
    && (!asyncSend && res.Err? ==>
          && resp == Response(500, false, Some(operationId), None,
                              Some("Email Error: " + ("Email send failed: " + Debug(res.error))))
          && ops[operationId].status == "failed"
          && ops[operationId].errorMessage == Some("Email send failed: " + ("Email send failed: " + Debug(res.error))))
  }

  /** Hands the send to the e-mail service and answers for it. */
  method Deliver(db: Database, smtp: EmailService.Smtp, operationId: Id, req: EmailService.SendUniversalEmailRequest,
                 attachments: seq<Attachment>) returns (resp: Response)
    requires db.Valid() && db.available && operationId in db.operations
    modifies db`operations, db`emails, db`emailOrder, db`nextId, db`clock, db`log
    ensures db.Valid()
    ensures Answered(resp, old(db.operations[operationId].status), db.operations, operationId, req.asyncSend,
                     EmailService.SmtpRun(smtp, req, attachments).res)
    ensures |db.emailOrder| == |old(db.emailOrder)| + 1
  {
    var sent := Send(db, smtp, operationId, req, attachments);
    if sent.Err? {
      var marked := OperationService.MarkOperationFailed(db, operationId, "Email send failed: " + Display(sent.error));
      return Response(500, false, Some(operationId), None, Some("Email Error: " + Display(sent.error)));
    }
    resp := Response(200, true, Some(operationId), Some("Unified email queued/sent successfully"), None);
  }

  /** Everything after the operation exists: the PDF, the attachments, the
      send. A failed PDF marks the operation failed and sends nothing. */
  method RenderAndDeliver(db: Database, renderer: PdfService.Renderer, chrome: PdfService.Chrome,
                          smtp: EmailService.Smtp, operationId: Id, req: EmailService.SendUniversalEmailRequest)
    returns (resp: Response)
    requires db.Valid() && db.available && renderer.Valid() && operationId in db.operations
    modifies db`operations, db`emails, db`emailOrder, db`nextId, db`clock, db`log
    modifies renderer`tmp, renderer`calls, renderer`nextUuid
    ensures db.Valid() && renderer.Valid() && renderer.tmp == old(renderer.tmp)
    ensures var pdf := PdfOutcome(renderer.config, chrome, req, old(renderer.tmp), old(renderer.nextUuid));
      && (pdf.Err? ==>
            && resp == Response(500, false, Some(operationId), None, Some("PDF Error: " + Display(pdf.error)))
            && operationId in db.operations && db.operations[operationId].status == "failed"
            && db.operations[operationId].errorMessage == Some("PDF generation failed: " + Display(pdf.error))
            && db.emails == old(db.emails))
      && (pdf.Ok? ==>
            var attachments := EmailService.FinalAttachments(pdf.value, req.pdfAttachmentName, req.otherAttachments);
            && |db.emailOrder| == |old(db.emailOrder)| + 1
            && Answered(resp, old(db.operations[operationId].status), db.operations, operationId, req.asyncSend,
                        EmailService.SmtpRun(smtp, req, attachments).res))
  {
    var pdf := RenderPdf(renderer, chrome, req);
    if pdf.Err? {
      var marked := OperationService.MarkOperationFailed(db, operationId, "PDF generation failed: " + Display(pdf.error));
      return Response(500, false, Some(operationId), None, Some("PDF Error: " + Display(pdf.error)));
    }
    var attachments := EmailService.AssembleAttachments(pdf.value, req.pdfAttachmentName, req.otherAttachments);
    resp := Deliver(db, smtp, operationId, req, attachments);
  }

  /** `send_universal_email_endpoint`. */
  method SendUniversalEmailEndpoint(db: Database, renderer: PdfService.Renderer, chrome: PdfService.Chrome,
                                    smtp: EmailService.Smtp, req: EmailService.SendUniversalEmailRequest)
    returns (resp: Response)
    requires db.Valid() && renderer.Valid()
    modifies db`operations, db`operationOrder, db`emails, db`emailOrder, db`nextId, db`clock, db`log
    modifies renderer`tmp, renderer`calls, renderer`nextUuid
    ensures db.Valid() && renderer.Valid() && renderer.tmp == old(renderer.tmp)
    ensures !db.available ==>
      && resp == Response(500, false, None, None, Some("Operation creation failed: " + "Fallo al insertar operation"))
      && db.operations == old(db.operations) && db.emails == old(db.emails)
    ensures db.available ==>
      var pdf := PdfOutcome(renderer.config, chrome, req, old(renderer.tmp), old(renderer.nextUuid));
      && resp.operationId.Some? && resp.operationId.value !in old(db.operations)
      && var operationId := resp.operationId.value;
      && (pdf.Err? ==>
            && resp == Response(500, false, Some(operationId), None, Some("PDF Error: " + Display(pdf.error)))
            && operationId in db.operations && db.operations[operationId].status == "failed"
            && db.operations[operationId].errorMessage == Some("PDF generation failed: " + Display(pdf.error))
            && db.emails == old(db.emails))
      && (pdf.Ok? ==>
            var attachments := EmailService.FinalAttachments(pdf.value, req.pdfAttachmentName, req.otherAttachments);
            && |db.emailOrder| == |old(db.emailOrder)| + 1
            && Answered(resp, "pending", db.operations, operationId, req.asyncSend,
                        EmailService.SmtpRun(smtp, req, attachments).res))
  {
    var created := OperationService.CreateOperation(db, CreateRequest(req));
    if created.Err? {
      return Response(500, false, None, None, Some("Operation creation failed: " + Display(created.error)));
    }
    resp := RenderAndDeliver(db, renderer, chrome, smtp, created.value.id, req);
  }
}
