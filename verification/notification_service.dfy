/** The notification dispatcher: marks the operation running, renders the
    optional PDF, opens one channel row per requested channel and drives each
    through the e-mail service or the WhatsApp gateway. */
module NotificationService {
  import opened Common
  import opened Store
  import opened Trace
  import OperationService
  import ChannelService
  import PdfService
  import EmailService

  datatype EmailConfig = EmailConfig(
    smtpHost: string,
    smtpPort: EmailService.Port,
    smtpUser: string,
    smtpPass: string,
    recipients: seq<string>)

  datatype WhatsAppConfig = WhatsAppConfig(recipients: seq<string>, message: Option<string>)

  datatype NotificationRequest = NotificationRequest(
    channels: seq<string>,
    emailConfig: Option<EmailConfig>,
    whatsappConfig: Option<WhatsAppConfig>,
    subject: Option<string>,
    body: Option<string>,
    asyncSend: bool,
    pdfHtml: Option<string>,
    pdfOrientation: Option<PdfService.PdfOrientation>,
    pdfPageSizePreset: Option<PdfService.PdfPagePreset>,
    pdfCustomPageSize: Option<PdfService.PaperSize>,
    pdfMargins: Option<PdfService.PdfMargins>,
    pdfScale: Option<real>,
    pdfAttachmentName: Option<string>,
    otherAttachments: Option<seq<Attachment>>)

  // ---------------------------------------------------------------------
  // The WhatsApp gateway
  // ---------------------------------------------------------------------

  /** The answer to `GET {base}/session/status/{session}`. */
  datatype StatusAnswer =
    | StatusUnreachable(error: Error)
    | StatusRefused(body: string)
    | StatusMalformed(error: Error)
    | StatusAnswered(state: Option<string>)

  /** The answer to one `POST {base}/client/sendMessage/{session}`. */
  datatype PostAnswer = PostUnreachable(error: Error) | PostRefused(body: string) | PostAccepted

  /** One message posted to the gateway; the media payload carries the
      attachment (base64-encoded on the wire). */
  datatype WaRequest = TextMessage(chatId: string, content: string) | MediaMessage(chatId: string, attachment: Attachment)

  datatype Gateway = Gateway(status: StatusAnswer, post: WaRequest -> PostAnswer)

  /** Everything outside the process a dispatch talks to: its environment
      variables, the gateway, the SMTP relay and the browser. */
  datatype Senders = Senders(
    env: map<string, string>,
    gateway: Gateway,
    smtp: EmailService.Smtp,
    chrome: PdfService.Chrome)

  const UrlVar := "WHATSAPP_API_URL"
  const SessionVar := "WHATSAPP_API_SESSION_ID"

  /** One text message per recipient, when there is a text at all. */
  function TextPlan(recipients: seq<string>, message: string): (p: seq<WaRequest>)
    ensures |p| == if |message| > 0 then |recipients| else 0
    ensures forall k :: 0 <= k < |p| ==> p[k] == TextMessage(recipients[k], message)
  {
    if |message| == 0 then []
    else seq(|recipients|, k requires 0 <= k < |recipients| => TextMessage(recipients[k], message))
  }

  /** One media message per recipient for one attachment. */
  function MediaRow(recipients: seq<string>, a: Attachment): (p: seq<WaRequest>)
    ensures |p| == |recipients|
    ensures forall k :: 0 <= k < |p| ==> p[k] == MediaMessage(recipients[k], a)
  {
    seq(|recipients|, k requires 0 <= k < |recipients| => MediaMessage(recipients[k], a))
  }

  /** The media messages, attachment by attachment. */
  function MediaPlan(recipients: seq<string>, attachments: seq<Attachment>): seq<WaRequest> {
    if attachments == [] then []
    else MediaPlan(recipients, attachments[..|attachments| - 1]) + MediaRow(recipients, attachments[|attachments| - 1])
  }

  /** Every message a WhatsApp send posts, in order. */
  function WhatsAppPlan(recipients: seq<string>, message: string, attachments: seq<Attachment>): seq<WaRequest> {
    TextPlan(recipients, message) + MediaPlan(recipients, attachments)
  }

  lemma {:induction false} MediaPlanSnoc(recipients: seq<string>, attachments: seq<Attachment>, i: nat)
    requires i < |attachments|
    ensures MediaPlan(recipients, attachments[..i + 1])
         == MediaPlan(recipients, attachments[..i]) + MediaRow(recipients, attachments[i])
  {
    assert attachments[..i + 1][..i] == attachments[..i];
  }

  lemma {:induction false} MediaPlanPrefix(recipients: seq<string>, attachments: seq<Attachment>, i: nat)
    requires i <= |attachments|
    ensures MediaPlan(recipients, attachments[..i]) <= MediaPlan(recipients, attachments)
    decreases |attachments|
  {
    if i < |attachments| {
      var shorter := attachments[..|attachments| - 1];
      assert shorter[..i] == attachments[..i];
      MediaPlanPrefix(recipients, shorter, i);
    } else {
      assert attachments[..i] == attachments;
    }
  }

  /** The plan has `|recipients|` messages per attachment, and every text
      message comes before every media message. */
  lemma {:induction false} WhatsAppPlanShape(recipients: seq<string>, message: string, attachments: seq<Attachment>)
    ensures var plan := WhatsAppPlan(recipients, message, attachments);
      && |plan| == |TextPlan(recipients, message)| + |attachments| * |recipients|
      && forall p, q :: 0 <= p < q < |plan| && plan[p].MediaMessage? ==> plan[q].MediaMessage?
  {
    MediaPlanAllMedia(recipients, attachments);
  }

  lemma {:induction false} MediaPlanAllMedia(recipients: seq<string>, attachments: seq<Attachment>)
    ensures |MediaPlan(recipients, attachments)| == |attachments| * |recipients|
    ensures forall k :: 0 <= k < |MediaPlan(recipients, attachments)| ==> MediaPlan(recipients, attachments)[k].MediaMessage?
  {
    if attachments != [] {
      var n := |attachments|;
      MediaPlanAllMedia(recipients, attachments[..n - 1]);
      assert (n - 1) * |recipients| + |recipients| == n * |recipients|;
    }
  }

  /** What one post yields: None when the gateway accepted it. */
  function PostVerdict(gateway: Gateway, request: WaRequest): (v: Option<Error>)
    ensures v.None? <==> gateway.post(request).PostAccepted?
  {
    match gateway.post(request)
    case PostAccepted => None
    case PostUnreachable(err) =>
      Some(Context(err, if request.TextMessage? then "(send_via_whatsapp) Fallo al POST para texto"
                                                    else "(send_via_whatsapp) Fallo al POST para adjunto"))
    case PostRefused(body) =>
      Some(Fail((if request.TextMessage? then "Fallo al enviar texto WhatsApp: "
                                        else "Fallo al enviar adjunto WhatsApp: ") + body))
  }

  function PostVerdicts(gateway: Gateway): WaRequest -> Option<Error> {
    request => PostVerdict(gateway, request)
  }

  /** The first failure before any message is posted: the two environment
      variables, the configuration, then the session check. */
  function WhatsAppSetupError(env: map<string, string>, gateway: Gateway, req: NotificationRequest): (e: Option<Error>)
    ensures e.None? <==>
      UrlVar in env && SessionVar in env && req.whatsappConfig.Some?
      && gateway.status == StatusAnswered(Some("CONNECTED"))
  {
    if UrlVar !in env then Some(Fail("No se definió WHATSAPP_API_URL"))
    else if SessionVar !in env then Some(Fail("No se definió WHATSAPP_API_SESSION_ID"))
    else if req.whatsappConfig.None? then Some(Fail("No se proporcionó whatsapp_config"))
    else match gateway.status
      case StatusUnreachable(err) => Some(Context(err, "Fallo al hacer GET session/status"))
      case StatusRefused(body) => Some(Fail("Error consultando sesión: " + body))
      case StatusMalformed(err) => Some(err)
      case StatusAnswered(state) =>
        if state == Some("CONNECTED") then None else Some(Fail("Sesión WhatsApp no está CONNECTED"))
  }

  /** The reference for one WhatsApp send: the messages posted and the result. */
  function WhatsAppRun(env: map<string, string>, gateway: Gateway, req: NotificationRequest, attachments: seq<Attachment>)
    : (r: Run<WaRequest>)
    ensures WhatsAppSetupError(env, gateway, req).Some? ==>
      r.sent == [] && r.res == Err(WhatsAppSetupError(env, gateway, req).value)
    ensures WhatsAppSetupError(env, gateway, req).None? ==>
      var cfg := req.whatsappConfig.value;
      IsRun(WhatsAppPlan(cfg.recipients, cfg.message.GetOr(""), attachments), PostVerdicts(gateway), r.sent, r.res)
  {
    var e := WhatsAppSetupError(env, gateway, req);
    if e.Some? then Run([], Err(e.value))
    else
      var cfg := req.whatsappConfig.value;
      var plan := WhatsAppPlan(cfg.recipients, cfg.message.GetOr(""), attachments);
      DriveIsRun(plan, PostVerdicts(gateway));
      Drive(plan, PostVerdicts(gateway))
  }

  /** The text loop: the message to every recipient, in order, stopping at
      the first post the gateway does not accept. */
  method PostTexts(gateway: Gateway, recipients: seq<string>, message: string)
    returns (r: Result<()>, posted: seq<WaRequest>)
    ensures Run(posted, r) == Drive(TextPlan(recipients, message), PostVerdicts(gateway))
  {
    ghost var plan := TextPlan(recipients, message);
    ghost var verdicts := PostVerdicts(gateway);
    posted := [];
    if |message| == 0 {
      return Ok(()), posted;
    }
    var i := 0;
    while i < |recipients|
      invariant 0 <= i <= |recipients| && posted == plan[..i]
      invariant forall k :: 0 <= k < |posted| ==> verdicts(posted[k]).None?
    {
      var request := TextMessage(recipients[i], message);
      posted := posted + [request];
      assert posted == plan[..i + 1];
      match gateway.post(request) {
        case PostUnreachable(err) =>
          r := Err(Context(err, "(send_via_whatsapp) Fallo al POST para texto"));
          RunIsDrive(plan, verdicts, posted, r);
          return;
        case PostRefused(body) =>
          r := Err(Fail("Fallo al enviar texto WhatsApp: " + body));
          RunIsDrive(plan, verdicts, posted, r);
          return;
        case PostAccepted =>
      }
      i := i + 1;
    }
    assert posted == plan;
    r := Ok(());
    RunIsDrive(plan, verdicts, posted, r);
  }

  /** The inner media loop: one attachment to every recipient. */
  method PostAttachment(gateway: Gateway, recipients: seq<string>, a: Attachment)
    returns (r: Result<()>, posted: seq<WaRequest>)
    ensures Run(posted, r) == Drive(MediaRow(recipients, a), PostVerdicts(gateway))
  {
    ghost var plan := MediaRow(recipients, a);
    ghost var verdicts := PostVerdicts(gateway);
    posted := [];
    var j := 0;
    while j < |recipients|
      invariant 0 <= j <= |recipients| && posted == plan[..j]
      invariant forall k :: 0 <= k < |posted| ==> verdicts(posted[k]).None?
    {
      var request := MediaMessage(recipients[j], a);
      posted := posted + [request];
      assert posted == plan[..j + 1];
      match gateway.post(request) {
        case PostUnreachable(err) =>
          r := Err(Context(err, "(send_via_whatsapp) Fallo al POST para adjunto"));
          RunIsDrive(plan, verdicts, posted, r);
          return;
        case PostRefused(body) =>
          r := Err(Fail("Fallo al enviar adjunto WhatsApp: " + body));
          RunIsDrive(plan, verdicts, posted, r);
          return;
        case PostAccepted =>
      }
      j := j + 1;
    }
    assert posted == plan;
    r := Ok(());
    RunIsDrive(plan, verdicts, posted, r);
  }

  /** One attachment of the media loop: a failure ends the whole run there,
      a success extends the run by the attachment's row. */
  lemma {:induction false} MediaStep(recipients: seq<string>, attachments: seq<Attachment>, i: nat,
                                     verdicts: WaRequest -> Option<Error>, posted: seq<WaRequest>,
                                     sent: seq<WaRequest>, res: Result<()>)
    requires i < |attachments|
    requires posted == MediaPlan(recipients, attachments[..i])
    requires Drive(posted, verdicts) == Run(posted, Ok(()))
    requires Drive(MediaRow(recipients, attachments[i]), verdicts) == Run(sent, res)
    ensures res.Err? ==> Drive(MediaPlan(recipients, attachments), verdicts) == Run(posted + sent, res)
    ensures res.Ok? ==>
      && res == Ok(())
      && posted + sent == MediaPlan(recipients, attachments[..i + 1])
      && Drive(posted + sent, verdicts) == Run(posted + sent, Ok(()))
  {
    var row := MediaRow(recipients, attachments[i]);
    MediaPlanSnoc(recipients, attachments, i);
    DriveAppend(posted, row, verdicts);
    if res.Err? {
      MediaPlanPrefix(recipients, attachments, i + 1);
      var done := MediaPlan(recipients, attachments[..i + 1]);
      var all := MediaPlan(recipients, attachments);
      assert all == done + all[|done|..];
      DriveAppend(done, all[|done|..], verdicts);
    } else {
      DriveIsRun(row, verdicts);
      assert res == Ok(()) by { assert res.value == (); }
    }
  }

  /** The outer media loop, attachment by attachment. */
  method PostMedia(gateway: Gateway, recipients: seq<string>, attachments: seq<Attachment>)
    returns (r: Result<()>, posted: seq<WaRequest>)
    ensures Run(posted, r) == Drive(MediaPlan(recipients, attachments), PostVerdicts(gateway))
  {
    ghost var verdicts := PostVerdicts(gateway);
    posted := [];
    var i := 0;
    while i < |attachments|
      invariant 0 <= i <= |attachments|
      invariant posted == MediaPlan(recipients, attachments[..i])
      invariant Drive(posted, verdicts) == Run(posted, Ok(()))
    {
      var res, sent := PostAttachment(gateway, recipients, attachments[i]);
      MediaStep(recipients, attachments, i, verdicts, posted, sent, res);
      posted := posted + sent;
      if res.Err? {
        return res, posted;
      }
      i := i + 1;
    }
    assert attachments[..i] == attachments;
    r := Ok(());
  }

  /** `send_via_whatsapp`: checks the environment, the configuration and the
      session, then posts the texts and the attachments. */
  method SendViaWhatsApp(env: map<string, string>, gateway: Gateway, req: NotificationRequest, attachments: seq<Attachment>)
    returns (r: Result<()>, posted: seq<WaRequest>)
    ensures Run(posted, r) == WhatsAppRun(env, gateway, req, attachments)
  {
    posted := [];
    if UrlVar !in env {
      return Err(Fail("No se definió WHATSAPP_API_URL")), posted;
    }
    if SessionVar !in env {
      return Err(Fail("No se definió WHATSAPP_API_SESSION_ID")), posted;
    }
    if req.whatsappConfig.None? {
      return Err(Fail("No se proporcionó whatsapp_config")), posted;
    }
    var recipients := req.whatsappConfig.value.recipients;
    var message := req.whatsappConfig.value.message.GetOr("");
    match gateway.status {
      case StatusUnreachable(err) =>
        return Err(Context(err, "Fallo al hacer GET session/status")), posted;
      case StatusRefused(body) =>
        return Err(Fail("Error consultando sesión: " + body)), posted;
      case StatusMalformed(err) =>
        return Err(err), posted;
      case StatusAnswered(state) =>
        if state != Some("CONNECTED") {
          return Err(Fail("Sesión WhatsApp no está CONNECTED")), posted;
        }
    }
    ghost var verdicts := PostVerdicts(gateway);
    var texted, texts := PostTexts(gateway, recipients, message);
    DriveAppend(TextPlan(recipients, message), MediaPlan(recipients, attachments), verdicts);
    if texted.Err? {
      return texted, texts;
    }
    DriveIsRun(TextPlan(recipients, message), verdicts);
    var media;
    r, media := PostMedia(gateway, recipients, attachments);
    posted := texts + media;
  }

  // ---------------------------------------------------------------------
  // The e-mail channel
  // ---------------------------------------------------------------------

  /** The e-mail request `send_via_email` builds: synchronous, no PDF of its
      own, the prepared attachments both in the request and beside it. */
  function EmailRequestFor(cfg: EmailConfig, req: NotificationRequest, attachments: seq<Attachment>)
    : EmailService.SendUniversalEmailRequest
  {
    EmailService.SendUniversalEmailRequest(
      cfg.smtpHost, cfg.smtpPort, cfg.smtpUser, cfg.smtpPass, cfg.recipients,
      req.subject.GetOr(""), req.body.GetOr(""), false,
      None, None, None, None, None, None, None, Some(attachments))
  }

  /** What the relay answers for the e-mail channel of `req`. */
  function EmailRun(smtp: EmailService.Smtp, req: NotificationRequest, attachments: seq<Attachment>): Result<()>
    requires req.emailConfig.Some?
  {
    EmailService.SmtpRun(smtp, EmailRequestFor(req.emailConfig.value, req, attachments), attachments).res
  }

  /** What the e-mail channel returns when the store answers. */
  function EmailOutcome(smtp: EmailService.Smtp, req: NotificationRequest, attachments: seq<Attachment>)
    : (r: Result<()>)
    ensures req.emailConfig.None? ==> r == Err(Fail("Falta email_config para canal email"))
    ensures req.emailConfig.Some? ==> (r.Ok? <==> EmailRun(smtp, req, attachments).Ok?)
    ensures r.Err? && req.emailConfig.Some? ==>
      && Display(r.error) == "(send_via_email) Fallo en email_service"
      && Causes(r.error) == ["Email send failed: " + Debug(EmailRun(smtp, req, attachments).error)]
  {
    if req.emailConfig.None? then Err(Fail("Falta email_config para canal email"))
    else
      var res := EmailRun(smtp, req, attachments);
      if res.Ok? then Ok(())
      else Err(Context(Fail("Email send failed: " + Debug(res.error)), "(send_via_email) Fallo en email_service"))
  }

  /** The operations table after the e-mail channel: the e-mail service
      writes the outcome of its own send on the same operation. */
  function EmailedOps(ops: map<Id, OperationRow>, operationId: Id, service: Option<Result<()>>): map<Id, OperationRow>
  {
    if service.None? then ops
    else OperationService.SetStatus(ops, operationId, EmailService.SentStatus(service.value),
                                    EmailService.SentError(service.value))
  }

  /** What the e-mail service itself returns, when it is called at all. */
  function ServiceRun(smtp: EmailService.Smtp, req: NotificationRequest, attachments: seq<Attachment>)
    : Option<Result<()>>
  {
    if req.emailConfig.None? then None else Some(EmailRun(smtp, req, attachments))
  }

  /** Rows of other operations are kept as they were, and no row of the
      operation is removed. */
  ghost predicate EmailsKept(before: map<Id, EmailRow>, after: map<Id, EmailRow>, operationId: Id) {
    && (forall id :: id in before ==> id in after && after[id].operationId == before[id].operationId)
    && (forall id :: id in before && before[id].operationId != operationId ==> after[id] == before[id])
    && (forall id :: id in after && id !in before ==> after[id].operationId == operationId)
  }

  lemma {:induction false} EmailsKeptTrans(a: map<Id, EmailRow>, b: map<Id, EmailRow>, c: map<Id, EmailRow>, operationId: Id)
    requires EmailsKept(a, b, operationId) && EmailsKept(b, c, operationId)
    ensures EmailsKept(a, c, operationId)
  {
    forall id | id in c && id !in a ensures c[id].operationId == operationId {
      if id in b {
        assert c[id].operationId == b[id].operationId;
      }
    }
  }

  /** A new pending row of the operation, then the status of every row of it:
      the other operations' rows are untouched. */
  lemma {:induction false} SentEmailsKept(before: map<Id, EmailRow>, id: Id, row: EmailRow, operationId: Id,
                                          status: string, error: Option<string>)
    requires id !in before && row.operationId == operationId
    ensures EmailsKept(before, EmailService.EmailsWithStatus(before[id := row], operationId, status, error), operationId)
  {
    var after := EmailService.EmailsWithStatus(before[id := row], operationId, status, error);
    forall other | other in before
      ensures other in after && after[other].operationId == before[other].operationId
      ensures before[other].operationId != operationId ==> after[other] == before[other]
    {
      assert before[id := row][other] == before[other];
    }
  }

  /** Writes after an earlier point in the log that open no channel row. */
  ghost predicate Extends(before: seq<Write>, after: seq<Write>) {
    && before <= after
    && forall k :: |before| <= k < |after| ==> !after[k].ChannelInserted?
  }

  lemma {:induction false} ExtendsBy(before: seq<Write>, extra: seq<Write>)
    requires forall k :: 0 <= k < |extra| ==> !extra[k].ChannelInserted?
    ensures Extends(before, before + extra)
  {
    var all := before + extra;
    forall k | |before| <= k < |all| ensures !all[k].ChannelInserted? {
      assert all[k] == extra[k - |before|];
    }
  }

  lemma {:induction false} ExtendsTrans(a: seq<Write>, b: seq<Write>, c: seq<Write>)
    requires Extends(a, b) && Extends(b, c)
    ensures Extends(a, c)
  {
  }

  /** A send through the e-mail service opens no channel row. */
  lemma {:induction false} SendLogExtends(log: seq<Write>, operationId: Id, status: string, error: Option<string>)
    ensures Extends(log, log + [EmailInserted(operationId)] + [OperationSet(operationId, "running", None)]
                         + EmailService.StatusWrites(operationId, status, error))
  {
    var log1 := log + [EmailInserted(operationId)];
    var log2 := log1 + [OperationSet(operationId, "running", None)];
    ExtendsBy(log, [EmailInserted(operationId)]);
    ExtendsBy(log1, [OperationSet(operationId, "running", None)]);
    ExtendsBy(log2, EmailService.StatusWrites(operationId, status, error));
    ExtendsTrans(log, log1, log2);
    ExtendsTrans(log, log2, log2 + EmailService.StatusWrites(operationId, status, error));
  }

  /** `send_via_email`: a synchronous send through the e-mail service, which
      records it in `emails` and overwrites the operation's status. */
  method SendViaEmail(db: Database, smtp: EmailService.Smtp, operationId: Id, req: NotificationRequest,
                      attachments: seq<Attachment>) returns (r: Result<()>)
    requires db.Valid() && db.available
    modifies db`operations, db`emails, db`emailOrder, db`nextId, db`clock, db`log
    ensures db.Valid()
    ensures r == EmailOutcome(smtp, req, attachments)
    ensures db.operations == EmailedOps(old(db.operations), operationId, ServiceRun(smtp, req, attachments))
    ensures EmailsKept(old(db.emails), db.emails, operationId)
    ensures Extends(old(db.log), db.log)
  {
    if req.emailConfig.None? {
      ExtendsBy(db.log, []);
      assert db.log + [] == db.log;
      return Err(Fail("Falta email_config para canal email"));
    }
    ghost var log0, emails0, id, now := db.log, db.emails, db.nextId, db.clock;
    var sendReq := EmailRequestFor(req.emailConfig.value, req, attachments);
    var sent := EmailService.SendUnified(db, smtp, operationId, sendReq, attachments);
    ghost var res := EmailService.SmtpRun(smtp, sendReq, attachments).res;
    ghost var status, error := EmailService.SentStatus(res), EmailService.SentError(res);
    SendLogExtends(log0, operationId, status, error);
    SentEmailsKept(emails0, id, EmailRow(operationId, Join(sendReq.recipients, ";"), sendReq.subject,
                                         sendReq.body, "pending", None, Rfc3339(now)), operationId, status, error);
    if sent.Err? {
      return Err(Context(sent.error, "(send_via_email) Fallo en email_service"));
    }
    r := Ok(());
  }

  // ---------------------------------------------------------------------
  // The PDF
  // ---------------------------------------------------------------------

  /** The PDF request built from a notification; the notification never asks
      for the file-backed ("large") path. */
  function PdfRequestFor(req: NotificationRequest, html: string): (p: PdfService.PdfRequest)
    ensures !PdfService.IsLarge(p) && p.html == html
  {
    PdfService.PdfRequest(req.pdfAttachmentName.GetOr("document.pdf"), html, req.pdfOrientation,
      req.pdfPageSizePreset, req.pdfCustomPageSize, req.pdfMargins, req.pdfScale, None, None, Some(false))
  }

  /** The PDF step: nothing to do, the bytes, or the renderer's error under
      one more context line. */
  function PdfStep(config: PdfService.PdfGlobalConfig, chrome: PdfService.Chrome, req: NotificationRequest,
                   tmp: set<PdfService.TmpEntry>, uuid: nat): (r: Result<Option<Bytes>>)
    ensures req.pdfHtml.None? ==> r == Ok(None)
    ensures req.pdfHtml.Some? ==>
      var g := PdfService.Generated(config, chrome, PdfRequestFor(req, req.pdfHtml.value), tmp, uuid);
      && (r.Ok? <==> g.Ok?)
      && (r.Ok? ==> r.value == Some(chrome.pdf))
      && (r.Err? ==> Display(r.error) == "Error generando PDF con pdf_service"
                     && Causes(r.error) == [Display(g.error)] + Causes(g.error))
  {
    if req.pdfHtml.None? then Ok(None)
    else
      var g := PdfService.Generated(config, chrome, PdfRequestFor(req, req.pdfHtml.value), tmp, uuid);
      if g.Ok? then Ok(Some(g.value)) else Err(Context(g.error, "Error generando PDF con pdf_service"))
  }

  /** `generate_pdf_for_notification`; since the request is never large, the
      temporary directory is left alone. */
  method GeneratePdfForNotification(renderer: PdfService.Renderer, chrome: PdfService.Chrome,
                                    req: NotificationRequest) returns (r: Result<Bytes>)
    requires renderer.Valid() && req.pdfHtml.Some?
    modifies renderer`tmp, renderer`calls, renderer`nextUuid
    ensures renderer.Valid()
    ensures var step := PdfStep(renderer.config, chrome, req, old(renderer.tmp), old(renderer.nextUuid));
      (r.Ok? <==> step.Ok?) && (r.Ok? ==> Some(r.value) == step.value) && (r.Err? ==> r.error == step.error)
    ensures renderer.tmp == old(renderer.tmp)
  {
    var pdfReq := PdfRequestFor(req, req.pdfHtml.value);
    var generated := renderer.GeneratePdf(chrome, pdfReq);
    if generated.Err? {
      return Err(Context(generated.error, "Error generando PDF con pdf_service"));
    }
    r := generated;
  }

  // ---------------------------------------------------------------------
  // The channels
  // ---------------------------------------------------------------------

  /** How the senders answer one request: what the e-mail channel returns,
      what the e-mail service underneath it returns (None when it is not
      called), and what the WhatsApp channel returns. Every channel of a
      request sends the same thing, so it fares the same way every time. */
  datatype Answers = Answers(email: Result<()>, service: Option<Result<()>>, whatsapp: Result<()>)

  function AnswersFor(senders: Senders, req: NotificationRequest, attachments: seq<Attachment>): Answers {
    Answers(EmailOutcome(senders.smtp, req, attachments), ServiceRun(senders.smtp, req, attachments),
            WhatsAppRun(senders.env, senders.gateway, req, attachments).res)
  }

  /** What one channel returns, when the store answers. */
  function ChannelOutcome(answers: Answers, tag: string): (r: Result<()>)
    ensures tag == "email" ==> r == answers.email
    ensures tag == "whatsapp" ==> r == answers.whatsapp
    ensures tag != "email" && tag != "whatsapp" ==>
      r.Err? && Display(r.error) == "Canal no soportado: " + tag && Causes(r.error) == []
  {
    if tag == "email" then answers.email
    else if tag == "whatsapp" then answers.whatsapp
    else Err(Fail("Canal no soportado: " + tag))
  }

  /** The outcome of every channel, in the order requested. */
  function Outcomes(answers: Answers, tags: seq<string>): (outs: seq<Result<()>>)
    ensures |outs| == |tags|
    ensures forall k :: 0 <= k < |tags| ==> outs[k] == ChannelOutcome(answers, tags[k])
  {
    seq(|tags|, k requires 0 <= k < |tags| => ChannelOutcome(answers, tags[k]))
  }

  ghost predicate AnsweredBy(senders: Senders, req: NotificationRequest, attachments: seq<Attachment>, answers: Answers) {
    answers == AnswersFor(senders, req, attachments)
  }

  /** `out` is what channel `tag` returns for this request: the outcome the
      senders' answers give it. */
  ghost predicate Returns(senders: Senders, req: NotificationRequest, attachments: seq<Attachment>, tag: string,
                          out: Result<()>)
  {
    forall answers {:trigger AnsweredBy(senders, req, attachments, answers)} ::
      AnsweredBy(senders, req, attachments, answers) ==> out == ChannelOutcome(answers, tag)
  }

  /** Results that every channel returned are the channels' outcomes. */
  lemma {:induction false} ReturnedOutcomes(senders: Senders, req: NotificationRequest, attachments: seq<Attachment>,
                                            tags: seq<string>, outs: seq<Result<()>>)
    requires |outs| == |tags| && forall k :: 0 <= k < |tags| ==> Returns(senders, req, attachments, tags[k], outs[k])
    ensures outs == Outcomes(AnswersFor(senders, req, attachments), tags)
  {
    assert AnsweredBy(senders, req, attachments, AnswersFor(senders, req, attachments));
  }

  /** The operations table after one channel: what the e-mail service wrote,
      then "failed" with the full error chain when the channel failed. */
  function OpsAfterChannel(ops: map<Id, OperationRow>, operationId: Id, service: Option<Result<()>>, tag: string,
                           out: Result<()>): map<Id, OperationRow>
  {
    var emailed := if tag == "email" then EmailedOps(ops, operationId, service) else ops;
    if out.Ok? then emailed else OperationService.SetStatus(emailed, operationId, "failed", Some(Debug(out.error)))
  }

  /** The operations table after the channels `tags`, which returned `outs`. */
  function OpsTrail(ops: map<Id, OperationRow>, operationId: Id, service: Option<Result<()>>, tags: seq<string>,
                    outs: seq<Result<()>>): map<Id, OperationRow>
    requires |outs| == |tags|
  {
    if tags == [] then ops
    else
      var last := |tags| - 1;
      OpsAfterChannel(OpsTrail(ops, operationId, service, tags[..last], outs[..last]), operationId, service,
                      tags[last], outs[last])
  }

  /** The last step: "done" when every row of the operation is done. */
  function Concluded(ops: map<Id, OperationRow>, operationId: Id, allDone: bool): map<Id, OperationRow> {
    if allDone then OperationService.SetStatus(ops, operationId, "done", None) else ops
  }

  /** A channel row once its channel has been processed. */
  ghost predicate Settled(before: ChannelRow, after: ChannelRow, out: Result<()>) {
    && after.operationId == before.operationId && after.channel == before.channel
    && after.createdAt == before.createdAt && after.updatedAt.Rfc3339?
    && after.status == (if out.Ok? then "done" else "failed")
    && after.errorMessage == (if out.Ok? then None else Some(Debug(out.error)))
    && after.attempts == (if out.Ok? then before.attempts else before.attempts + 1)
  }

  /** The channel table after one channel was processed: its row is settled
      and every other row is as it was. */
  ghost predicate SettledOnly(before: map<Id, ChannelRow>, after: map<Id, ChannelRow>, id: Id, out: Result<()>) {
    && after.Keys == before.Keys
    && (forall other :: other in before && other != id ==> after[other] == before[other])
    && (id in before ==> Settled(before[id], after[id], out))
  }

  /** A freshly opened row of `operationId` for channel `tag`. */
  ghost predicate Pending(row: ChannelRow, operationId: Id, tag: string) {
    row.operationId == operationId && row.channel == tag && row.status == "pending"
    && row.errorMessage == None && row.attempts == 0
  }

  /** A row of the dispatch in its final state. */
  ghost predicate Finished(row: ChannelRow, operationId: Id, tag: string, out: Result<()>) {
    && row.operationId == operationId && row.channel == tag
    && row.status == (if out.Ok? then "done" else "failed")
    && row.errorMessage == (if out.Ok? then None else Some(Debug(out.error)))
    && row.attempts == (if out.Ok? then 0 else 1)
  }

  /** The log entries of the rows opened for `tags`, in order. */
  function InsertsOf(ids: seq<Id>, operationId: Id, tags: seq<string>): (w: seq<Write>)
    requires |ids| == |tags|
    ensures |w| == |ids|
    ensures forall k :: 0 <= k < |ids| ==> w[k] == ChannelInserted(ids[k], operationId, tags[k], "pending")
  {
    seq(|ids|, k requires 0 <= k < |ids| => ChannelInserted(ids[k], operationId, tags[k], "pending"))
  }

  /** The rows opened so far: `ids` appended to the order, each a pending row
      of its channel, logged in order, with the rows there before untouched. */
  ghost predicate Opened(channels: map<Id, ChannelRow>, order: seq<Id>, log: seq<Write>, nextId: nat,
                         channels0: map<Id, ChannelRow>, order0: seq<Id>, log0: seq<Write>,
                         ids: seq<Id>, operationId: Id, tags: seq<string>)
  {
    && |ids| == |tags|
    && order == order0 + ids
    && (forall k :: 0 <= k < |ids| ==> ids[k] < nextId && ids[k] in channels && Pending(channels[ids[k]], operationId, tags[k]))
    && (forall id :: id in channels0 ==> id < nextId && id in channels && channels[id] == channels0[id])
    && log == log0 + InsertsOf(ids, operationId, tags)
  }

  /** Opens the row of one channel. */
  method OpenRow(db: Database, operationId: Id, tags: seq<string>, i: nat, ghost channels0: map<Id, ChannelRow>,
                 ghost order0: seq<Id>, ghost log0: seq<Write>, ghost ids: seq<Id>)
    returns (id: Id)
    requires db.Valid() && db.available && i < |tags|
    requires Opened(db.channels, db.channelOrder, db.log, db.nextId, channels0, order0, log0, ids, operationId, tags[..i])
    modifies db`channels, db`channelOrder, db`nextId, db`clock, db`log
    ensures db.Valid()
    ensures Opened(db.channels, db.channelOrder, db.log, db.nextId, channels0, order0, log0,
                   ids + [id], operationId, tags[..i + 1])
  {
    var created := ChannelService.CreateChannel(db, operationId, tags[i], "pending");
    id := created.value;
    assert tags[..i + 1] == tags[..i] + [tags[i]];
    assert InsertsOf(ids + [id], operationId, tags[..i + 1])
        == InsertsOf(ids, operationId, tags[..i]) + [ChannelInserted(id, operationId, tags[i], "pending")];
  }

  /** Ids appended to a listed table are new, distinct, and exactly the keys
      it gained. */
  lemma {:induction false} AppendedIds<T>(order: seq<Id>, ids: seq<Id>, before: map<Id, T>, after: map<Id, T>)
    requires Listed(order, before) && Listed(order + ids, after)
    ensures forall p, q :: 0 <= p < q < |ids| ==> ids[p] != ids[q]
    ensures forall k :: 0 <= k < |ids| ==> ids[k] !in before
    ensures forall id :: id in after <==> id in before || id in ids
  {
    var all := order + ids;
    forall p, q | 0 <= p < q < |ids| ensures ids[p] != ids[q] {
      assert ids[p] == all[|order| + p] && ids[q] == all[|order| + q];
    }
    forall k | 0 <= k < |ids| ensures ids[k] !in before {
      forall j | 0 <= j < |order| ensures order[j] != ids[k] {
        assert all[j] == order[j] && all[|order| + k] == ids[k];
      }
    }
    forall id ensures id in after <==> id in before || id in ids {
      assert id in all <==> id in order || id in ids;
    }
  }

  /** Opens one "pending" row per channel, in order, before any is sent. */
  method CreateChannelRows(db: Database, operationId: Id, tags: seq<string>) returns (ids: seq<Id>)
    requires db.Valid() && db.available
    modifies db`channels, db`channelOrder, db`nextId, db`clock, db`log
    ensures db.Valid()
    ensures Opened(db.channels, db.channelOrder, db.log, db.nextId, old(db.channels), old(db.channelOrder),
                   old(db.log), ids, operationId, tags)
    ensures forall p, q :: 0 <= p < q < |ids| ==> ids[p] != ids[q]
    ensures forall k :: 0 <= k < |ids| ==> ids[k] !in old(db.channels)
    ensures forall id :: id in db.channels <==> id in old(db.channels) || id in ids
  {
    ids := [];
    assert old(db.channelOrder) + [] == old(db.channelOrder) && old(db.log) + [] == old(db.log);
    var i := 0;
    while i < |tags|
      invariant 0 <= i <= |tags| && db.Valid() && db.available
      invariant Opened(db.channels, db.channelOrder, db.log, db.nextId, old(db.channels), old(db.channelOrder),
                       old(db.log), ids, operationId, tags[..i])
    {
      var id := OpenRow(db, operationId, tags, i, old(db.channels), old(db.channelOrder), old(db.log), ids);
      ids := ids + [id];
      i := i + 1;
    }
    assert tags[..i] == tags;
    AppendedIds(old(db.channelOrder), ids, old(db.channels), db.channels);
  }


  /** The send itself, by channel name. */
  method Dispatch(db: Database, senders: Senders, operationId: Id, req: NotificationRequest,
                  attachments: seq<Attachment>, tag: string) returns (r: Result<()>)
    requires db.Valid() && db.available
    modifies db`operations, db`emails, db`emailOrder, db`nextId, db`clock, db`log
    ensures db.Valid()
    ensures Returns(senders, req, attachments, tag, r)
    ensures db.operations == if tag == "email" then EmailedOps(old(db.operations), operationId, ServiceRun(senders.smtp, req, attachments))
                             else old(db.operations)
    ensures EmailsKept(old(db.emails), db.emails, operationId)
    ensures Extends(old(db.log), db.log)
  {
    if tag == "email" {
      r := SendViaEmail(db, senders.smtp, operationId, req, attachments);
    } else {
      if tag == "whatsapp" {
        var posted;
        r, posted := SendViaWhatsApp(senders.env, senders.gateway, req, attachments);
      } else {
        r := Err(Fail("Canal no soportado: " + tag));
      }
      ExtendsBy(db.log, []);
      assert db.log + [] == db.log;
    }
  }

  /** After the send: "done" on the row, or "failed" on the row (one more
      attempt) and on the operation, both with the full error chain. */
  method RecordOutcome(db: Database, operationId: Id, id: Id, result: Result<()>)
    requires db.Valid() && db.available
    modifies db`operations, db`channels, db`clock, db`log
    ensures db.Valid()
    ensures SettledOnly(old(db.channels), db.channels, id, result)
    ensures db.operations == if result.Ok? then old(db.operations)
      else OperationService.SetStatus(old(db.operations), operationId, "failed", Some(Debug(result.error)))
    ensures Extends(old(db.log), db.log)
  {
    if result.Ok? {
      var done := ChannelService.UpdateChannelStatus(db, id, "done", None, false);
      ExtendsBy(old(db.log), [ChannelSet(id, "done", None, false)]);
    } else {
      var error := Debug(result.error);
      var failed := ChannelService.UpdateChannelStatus(db, id, "failed", Some(error), true);
      var marked := OperationService.UpdateOperationStatus(db, operationId, "failed", Some(error));
      assert db.log == old(db.log) + [ChannelSet(id, "failed", Some(error), true), OperationSet(operationId, "failed", Some(error))];
      ExtendsBy(old(db.log), [ChannelSet(id, "failed", Some(error), true), OperationSet(operationId, "failed", Some(error))]);
    }
  }

  /** The row marked "running" and then settled is settled. */
  lemma {:induction false} RunningThenSettled(c0: map<Id, ChannelRow>, c1: map<Id, ChannelRow>, c2: map<Id, ChannelRow>,
                                              id: Id, now: nat, out: Result<()>)
    requires c1 == ChannelService.UpdatedTable(c0, id, "running", None, now, false)
    requires SettledOnly(c1, c2, id, out)
    ensures SettledOnly(c0, c2, id, out)
  {
  }

  /** The first half of a channel: its row goes "running", then the send. */
  method RunChannel(db: Database, senders: Senders, operationId: Id, req: NotificationRequest,
                    attachments: seq<Attachment>, ghost service: Option<Result<()>>, id: Id, tag: string)
    returns (result: Result<()>)
    requires db.Valid() && db.available && service == ServiceRun(senders.smtp, req, attachments)
    modifies db`operations, db`channels, db`emails, db`emailOrder, db`nextId, db`clock, db`log
    ensures db.Valid()
    ensures Returns(senders, req, attachments, tag, result)
    ensures db.channels == ChannelService.UpdatedTable(old(db.channels), id, "running", None, old(db.clock), false)
    ensures db.operations == if tag == "email" then EmailedOps(old(db.operations), operationId, service)
                             else old(db.operations)
    ensures EmailsKept(old(db.emails), db.emails, operationId)
    ensures Extends(old(db.log), db.log)
  {
    var running := ChannelService.UpdateChannelStatus(db, id, "running", None, false);
    ExtendsBy(old(db.log), [ChannelSet(id, "running", None, false)]);
    ghost var log1 := db.log;
    result := Dispatch(db, senders, operationId, req, attachments, tag);
    ExtendsTrans(old(db.log), log1, db.log);
  }

  /** One channel: "running", the send, then its outcome. */
  method ProcessChannel(db: Database, senders: Senders, operationId: Id, req: NotificationRequest,
                        attachments: seq<Attachment>, ghost service: Option<Result<()>>, id: Id, tag: string)
    returns (result: Result<()>)
    requires db.Valid() && db.available && service == ServiceRun(senders.smtp, req, attachments)
    modifies db`operations, db`channels, db`emails, db`emailOrder, db`nextId, db`clock, db`log
    ensures db.Valid()
    ensures Returns(senders, req, attachments, tag, result)
    ensures SettledOnly(old(db.channels), db.channels, id, result)
    ensures db.operations == OpsAfterChannel(old(db.operations), operationId, service, tag, result)
    ensures EmailsKept(old(db.emails), db.emails, operationId)
    ensures Extends(old(db.log), db.log)
  {
    result := RunChannel(db, senders, operationId, req, attachments, service, id, tag);
    ghost var channels1, log1 := db.channels, db.log;
    RecordOutcome(db, operationId, id, result);
    ExtendsTrans(old(db.log), log1, db.log);
    RunningThenSettled(old(db.channels), channels1, db.channels, id, old(db.clock), result);
  }

  /** The channel table part way through the loop: the rows of `ids` whose
      channels returned `outs` are settled, the others and every other row
      untouched. */
  ghost predicate Progress(channels: map<Id, ChannelRow>, channels0: map<Id, ChannelRow>, ids: seq<Id>,
                           outs: seq<Result<()>>)
  {
    && |outs| <= |ids|
    && channels.Keys == channels0.Keys
    && (forall id :: id in channels0 && id !in ids ==> channels[id] == channels0[id])
    && (forall k :: 0 <= k < |ids| ==> RowProgress(channels, channels0, ids[k], outs, k))
  }

  /** Row `k` of the loop: settled once its channel has returned, untouched
      before. */
  ghost predicate RowProgress(channels: map<Id, ChannelRow>, channels0: map<Id, ChannelRow>, id: Id,
                              outs: seq<Result<()>>, k: nat)
  {
    id in channels0 && id in channels
    && if k < |outs| then Settled(channels0[id], channels[id], outs[k]) else channels[id] == channels0[id]
  }

  lemma {:induction false} ProgressStart(channels: map<Id, ChannelRow>, ids: seq<Id>)
    requires forall k :: 0 <= k < |ids| ==> ids[k] in channels
    ensures Progress(channels, channels, ids, [])
  {
    forall k | 0 <= k < |ids| ensures RowProgress(channels, channels, ids[k], [], k) {
    }
  }

  lemma {:induction false} ProgressStep(before: map<Id, ChannelRow>, after: map<Id, ChannelRow>,
                                        channels0: map<Id, ChannelRow>, ids: seq<Id>, outs: seq<Result<()>>,
                                        out: Result<()>)
    requires Progress(before, channels0, ids, outs) && |outs| < |ids|
    requires forall p, q :: 0 <= p < q < |ids| ==> ids[p] != ids[q]
    requires SettledOnly(before, after, ids[|outs|], out)
    ensures Progress(after, channels0, ids, outs + [out])
  {
    var i, outs' := |outs|, outs + [out];
    forall k | 0 <= k < |ids| ensures RowProgress(after, channels0, ids[k], outs', k) {
      assert RowProgress(before, channels0, ids[k], outs, k);
      if k != i {
        assert ids[k] != ids[i];
        assert after[ids[k]] == before[ids[k]];
      }
      if k < i {
        assert outs'[k] == outs[k];
      }
    }
  }

  /** What the loop over the channels keeps once `outs` were returned. */
  ghost predicate Through(db: Database, senders: Senders, operationId: Id, req: NotificationRequest,
                          attachments: seq<Attachment>, service: Option<Result<()>>, ids: seq<Id>, tags: seq<string>,
                          outs: seq<Result<()>>, channels0: map<Id, ChannelRow>, ops0: map<Id, OperationRow>,
                          emails0: map<Id, EmailRow>, log0: seq<Write>)
    reads db
  {
    && |outs| <= |tags| == |ids|
    && (forall k :: 0 <= k < |outs| ==> Returns(senders, req, attachments, tags[k], outs[k]))
    && Progress(db.channels, channels0, ids, outs)
    && db.operations == OpsTrail(ops0, operationId, service, tags[..|outs|], outs)
    && EmailsKept(emails0, db.emails, operationId)
    && Extends(log0, db.log)
  }

  /** Processes the next channel. */
  method ProcessNext(db: Database, senders: Senders, operationId: Id, req: NotificationRequest,
                     attachments: seq<Attachment>, ghost service: Option<Result<()>>, ids: seq<Id>, tags: seq<string>,
                     ghost outs: seq<Result<()>>, i: nat, ghost channels0: map<Id, ChannelRow>,
                     ghost ops0: map<Id, OperationRow>, ghost emails0: map<Id, EmailRow>, ghost log0: seq<Write>)
    returns (result: Result<()>)
    requires db.Valid() && db.available && i == |outs| < |ids|
    requires forall p, q :: 0 <= p < q < |ids| ==> ids[p] != ids[q]
    requires service == ServiceRun(senders.smtp, req, attachments)
    requires Through(db, senders, operationId, req, attachments, service, ids, tags, outs, channels0, ops0, emails0, log0)
    modifies db`operations, db`channels, db`emails, db`emailOrder, db`nextId, db`clock, db`log
    ensures db.Valid()
    ensures Through(db, senders, operationId, req, attachments, service, ids, tags, outs + [result],
                    channels0, ops0, emails0, log0)
  {
    ghost var channels1, emails1, log1 := db.channels, db.emails, db.log;
    result := ProcessChannel(db, senders, operationId, req, attachments, service, ids[i], tags[i]);
    ProgressStep(channels1, db.channels, channels0, ids, outs, result);
    EmailsKeptTrans(emails0, emails1, db.emails, operationId);
    ExtendsTrans(log0, log1, db.log);
    ReturnsSnoc(senders, req, attachments, tags, outs, result);
    OpsTrailSnoc(ops0, operationId, service, tags, outs, result);
  }

  lemma {:induction false} ReturnsSnoc(senders: Senders, req: NotificationRequest, attachments: seq<Attachment>,
                                       tags: seq<string>, outs: seq<Result<()>>, out: Result<()>)
    requires |outs| < |tags| && Returns(senders, req, attachments, tags[|outs|], out)
    requires forall k :: 0 <= k < |outs| ==> Returns(senders, req, attachments, tags[k], outs[k])
    ensures forall k :: 0 <= k < |outs| + 1 ==> Returns(senders, req, attachments, tags[k], (outs + [out])[k])
  {
    forall k | 0 <= k < |outs| + 1 ensures Returns(senders, req, attachments, tags[k], (outs + [out])[k]) {
      if k < |outs| {
        assert (outs + [out])[k] == outs[k];
      }
    }
  }

  lemma {:induction false} OpsTrailSnoc(ops: map<Id, OperationRow>, operationId: Id, service: Option<Result<()>>,
                                        tags: seq<string>, outs: seq<Result<()>>, out: Result<()>)
    requires |outs| < |tags|
    ensures var i := |outs|;
      OpsTrail(ops, operationId, service, tags[..i + 1], outs + [out])
        == OpsAfterChannel(OpsTrail(ops, operationId, service, tags[..i], outs), operationId, service, tags[i], out)
  {
    var i := |outs|;
    assert tags[..i + 1][..i] == tags[..i] && (outs + [out])[..i] == outs;
  }

  /** Processes the channels in order, each through its own row. */
  method ProcessChannels(db: Database, senders: Senders, operationId: Id, req: NotificationRequest,
                         attachments: seq<Attachment>, ghost service: Option<Result<()>>, ids: seq<Id>,
                         tags: seq<string>) returns (ghost outs: seq<Result<()>>)
    requires db.Valid() && db.available && |ids| == |tags|
    requires service == ServiceRun(senders.smtp, req, attachments)
    requires forall p, q :: 0 <= p < q < |ids| ==> ids[p] != ids[q]
    requires forall k :: 0 <= k < |ids| ==> ids[k] in db.channels
    modifies db`operations, db`channels, db`emails, db`emailOrder, db`nextId, db`clock, db`log
    ensures db.Valid()
    ensures |outs| == |tags| && forall k :: 0 <= k < |tags| ==> Returns(senders, req, attachments, tags[k], outs[k])
    ensures Progress(db.channels, old(db.channels), ids, outs)
    ensures db.operations == OpsTrail(old(db.operations), operationId, service, tags, outs)
    ensures EmailsKept(old(db.emails), db.emails, operationId)
    ensures Extends(old(db.log), db.log)
  {
    ExtendsBy(db.log, []);
    assert db.log + [] == db.log;
    assert tags[..0] == [];
    ProgressStart(db.channels, ids);
    outs := [];
    var i := 0;
    while i < |ids|
      invariant i == |outs| <= |ids| && db.Valid() && db.available
      invariant Through(db, senders, operationId, req, attachments, service, ids, tags, outs,
                        old(db.channels), old(db.operations), old(db.emails), old(db.log))
    {
      var result := ProcessNext(db, senders, operationId, req, attachments, service, ids, tags, outs, i,
                                old(db.channels), old(db.operations), old(db.emails), old(db.log));
      outs := outs + [result];
      i := i + 1;
    }
    assert tags[..i] == tags;
  }

  /** Lists the operation's rows and marks the operation "done" when every
      one of them is. */
  method FinishOperation(db: Database, operationId: Id)
    requires db.Valid() && db.available
    modifies db`operations, db`log
    ensures db.Valid()
    ensures db.operations == Concluded(old(db.operations), operationId, ChannelService.AllDone(db.channels, operationId))
    ensures Extends(old(db.log), db.log)
  {
    var listed := ChannelService.ListChannelsForOperation(db, operationId);
    var rows := listed.value;
    ChannelService.ListedAllDone(db, operationId, rows);
    var allDone := forall k :: 0 <= k < |rows| ==> rows[k].status == "done";
    if allDone {
      var marked := OperationService.UpdateOperationStatus(db, operationId, "done", None);
      ExtendsBy(old(db.log), [OperationSet(operationId, "done", None)]);
    } else {
      ExtendsBy(db.log, []);
      assert db.log + [] == db.log;
    }
  }

  /** The channel table after a dispatch: one new row per channel, in its
      final state, every older row as it was. */
  ghost predicate Delivered(channels0: map<Id, ChannelRow>, channels: map<Id, ChannelRow>, ids: seq<Id>,
                            operationId: Id, tags: seq<string>, outs: seq<Result<()>>)
  {
    && |ids| == |tags| == |outs|
    && (forall p, q :: 0 <= p < q < |ids| ==> ids[p] != ids[q])
    && (forall id :: id in channels <==> id in channels0 || id in ids)
    && (forall id :: id in channels0 ==> channels[id] == channels0[id])
    && (forall k :: 0 <= k < |ids| ==> ids[k] !in channels0 && Finished(channels[ids[k]], operationId, tags[k], outs[k]))
  }

  /** Opening the rows, then settling each of them, delivers. */
  lemma {:induction false} OpenedThenSettled(channels0: map<Id, ChannelRow>, channels1: map<Id, ChannelRow>,
                                             channels: map<Id, ChannelRow>, ids: seq<Id>, operationId: Id,
                                             tags: seq<string>, outs: seq<Result<()>>)
    requires |ids| == |tags| == |outs|
    requires forall p, q :: 0 <= p < q < |ids| ==> ids[p] != ids[q]
    requires forall k :: 0 <= k < |ids| ==> ids[k] !in channels0
    requires forall id :: id in channels1 <==> id in channels0 || id in ids
    requires forall id :: id in channels0 ==> id in channels1 && channels1[id] == channels0[id]
    requires forall k :: 0 <= k < |ids| ==> ids[k] in channels1 && Pending(channels1[ids[k]], operationId, tags[k])
    requires Progress(channels, channels1, ids, outs)
    ensures Delivered(channels0, channels, ids, operationId, tags, outs)
  {
    forall k | 0 <= k < |ids| ensures Finished(channels[ids[k]], operationId, tags[k], outs[k]) {
      assert RowProgress(channels, channels1, ids[k], outs, k);
    }
  }

  /** Opens a row per channel, then processes every channel in order. */
  method OpenAndProcess(db: Database, senders: Senders, operationId: Id, req: NotificationRequest,
                        attachments: seq<Attachment>) returns (ids: seq<Id>, ghost outs: seq<Result<()>>)
    requires db.Valid() && db.available
    modifies db`operations, db`channels, db`channelOrder, db`emails, db`emailOrder, db`nextId, db`clock, db`log
    ensures db.Valid()
    ensures |outs| == |req.channels|
    ensures forall k :: 0 <= k < |outs| ==> Returns(senders, req, attachments, req.channels[k], outs[k])
    ensures Delivered(old(db.channels), db.channels, ids, operationId, req.channels, outs)
    ensures db.channelOrder == old(db.channelOrder) + ids
    ensures db.operations == OpsTrail(old(db.operations), operationId, ServiceRun(senders.smtp, req, attachments),
                                      req.channels, outs)
    ensures Extends(old(db.log) + InsertsOf(ids, operationId, req.channels), db.log)
    ensures EmailsKept(old(db.emails), db.emails, operationId)
  {
    ids := CreateChannelRows(db, operationId, req.channels);
    ghost var channels1 := db.channels;
    outs := ProcessChannels(db, senders, operationId, req, attachments, ServiceRun(senders.smtp, req, attachments),
                            ids, req.channels);
    OpenedThenSettled(old(db.channels), channels1, db.channels, ids, operationId, req.channels, outs);
  }

  /** The state a dispatch leaves: every channel of the request answered as
      its sender does, one settled row per channel, the operation concluded
      after the per-channel updates. */
  ghost predicate Notified(channels0: map<Id, ChannelRow>, channels: map<Id, ChannelRow>,
                           order0: seq<Id>, order: seq<Id>, ops0: map<Id, OperationRow>, ops: map<Id, OperationRow>,
                           emails0: map<Id, EmailRow>, emails: map<Id, EmailRow>, ids: seq<Id>,
                           operationId: Id, senders: Senders, req: NotificationRequest, attachments: seq<Attachment>)
  {
    var outs := Outcomes(AnswersFor(senders, req, attachments), req.channels);
    && Delivered(channels0, channels, ids, operationId, req.channels, outs)
    && order == order0 + ids
    && ops == Concluded(OpsTrail(ops0, operationId, ServiceRun(senders.smtp, req, attachments), req.channels, outs),
                        operationId, ChannelService.AllDone(channels, operationId))
    && EmailsKept(emails0, emails, operationId)
  }

  /** Opens a row per channel, processes every channel in order, then
      concludes the operation. */
  method DeliverAll(db: Database, senders: Senders, operationId: Id, req: NotificationRequest,
                    attachments: seq<Attachment>) returns (ids: seq<Id>)
    requires db.Valid() && db.available
    modifies db`operations, db`channels, db`channelOrder, db`emails, db`emailOrder, db`nextId, db`clock, db`log
    ensures db.Valid()
    ensures |ids| == |req.channels|
    ensures Notified(old(db.channels), db.channels, old(db.channelOrder), db.channelOrder,
                     old(db.operations), db.operations, old(db.emails), db.emails,
                     ids, operationId, senders, req, attachments)
    ensures Extends(old(db.log) + InsertsOf(ids, operationId, req.channels), db.log)
  {
    ghost var outs;
    ids, outs := OpenAndProcess(db, senders, operationId, req, attachments);
    ghost var log1 := db.log;
    FinishOperation(db, operationId);
    ExtendsTrans(old(db.log) + InsertsOf(ids, operationId, req.channels), log1, db.log);
    ReturnedOutcomes(senders, req, attachments, req.channels, outs);
  }

  /** No channel writes "done" on the operation: the e-mail service writes
      "sent" or "failed", a failing channel writes "failed". */
  lemma {:induction false} TrailNeverDone(ops: map<Id, OperationRow>, operationId: Id, service: Option<Result<()>>,
                                          tags: seq<string>, outs: seq<Result<()>>)
    requires |outs| == |tags| && operationId in ops && ops[operationId].status != "done"
    ensures var after := OpsTrail(ops, operationId, service, tags, outs);
      operationId in after && after[operationId].status != "done"
  {
    if tags != [] {
      var last := |tags| - 1;
      TrailNeverDone(ops, operationId, service, tags[..last], outs[..last]);
    }
  }

  /** With no earlier row of the operation, its rows are all "done" after a
      dispatch exactly when every channel succeeded. */
  lemma {:induction false} AllDoneIffAllSucceeded(channels0: map<Id, ChannelRow>, channels: map<Id, ChannelRow>,
                                                  ids: seq<Id>, operationId: Id, tags: seq<string>,
                                                  outs: seq<Result<()>>)
    requires Delivered(channels0, channels, ids, operationId, tags, outs)
    requires forall id :: id in channels0 ==> channels0[id].operationId != operationId
    ensures ChannelService.AllDone(channels, operationId) <==> forall k :: 0 <= k < |outs| ==> outs[k].Ok?
  {
    if ChannelService.AllDone(channels, operationId) {
      forall k | 0 <= k < |outs| ensures outs[k].Ok? {
        assert Finished(channels[ids[k]], operationId, tags[k], outs[k]);
      }
    } else {
      var id :| id in channels && channels[id].operationId == operationId && channels[id].status != "done";
      assert id !in channels0;
      var k :| 0 <= k < |ids| && ids[k] == id;
      assert Finished(channels[ids[k]], operationId, tags[k], outs[k]);
    }
  }

  /** After a dispatch, an operation that was not "done" before is "done"
      exactly when every one of its channel rows is. */
  lemma {:induction false} NotifiedDone(channels0: map<Id, ChannelRow>, channels: map<Id, ChannelRow>,
                                        order0: seq<Id>, order: seq<Id>,
                                        ops0: map<Id, OperationRow>, ops: map<Id, OperationRow>,
                                        emails0: map<Id, EmailRow>, emails: map<Id, EmailRow>, ids: seq<Id>,
                                        operationId: Id, senders: Senders, req: NotificationRequest,
                                        attachments: seq<Attachment>)
    requires Notified(channels0, channels, order0, order, ops0, ops, emails0, emails, ids, operationId, senders, req,
                      attachments)
    requires operationId in ops0 && ops0[operationId].status != "done"
    ensures operationId in ops && (ops[operationId].status == "done" <==> ChannelService.AllDone(channels, operationId))
  {
    var outs := Outcomes(AnswersFor(senders, req, attachments), req.channels);
    TrailNeverDone(ops0, operationId, ServiceRun(senders.smtp, req, attachments), req.channels, outs);
  }

  /** With no earlier channel row of the operation, a dispatch leaves it
      "done" exactly when every requested channel succeeded; with no channel
      at all it is "done". */
  lemma {:induction false} DoneIffAllSucceeded(channels0: map<Id, ChannelRow>, channels: map<Id, ChannelRow>,
                                               order0: seq<Id>, order: seq<Id>,
                                               ops0: map<Id, OperationRow>, ops: map<Id, OperationRow>,
                                               emails0: map<Id, EmailRow>, emails: map<Id, EmailRow>, ids: seq<Id>,
                                               operationId: Id, senders: Senders, req: NotificationRequest,
                                               attachments: seq<Attachment>)
    requires Notified(channels0, channels, order0, order, ops0, ops, emails0, emails, ids, operationId, senders, req,
                      attachments)
    requires operationId in ops0 && ops0[operationId].status != "done"
    requires forall id :: id in channels0 ==> channels0[id].operationId != operationId
    ensures var outs := Outcomes(AnswersFor(senders, req, attachments), req.channels);
      operationId in ops && (ops[operationId].status == "done" <==> forall k :: 0 <= k < |outs| ==> outs[k].Ok?)
  {
    var outs := Outcomes(AnswersFor(senders, req, attachments), req.channels);
    NotifiedDone(channels0, channels, order0, order, ops0, ops, emails0, emails, ids, operationId, senders, req,
                 attachments);
    AllDoneIffAllSucceeded(channels0, channels, ids, operationId, req.channels, outs);
  }

  /** A later e-mail channel overwrites the "failed" a WhatsApp failure wrote:
      with channels ["whatsapp", "email"], a failed WhatsApp send and a
      successful e-mail, the operation ends "sent", not "failed" and not
      "done". */
  lemma EmailOverwritesFailure(ops: map<Id, OperationRow>, operationId: Id, e: Error)
    requires operationId in ops
    ensures var after := Concluded(OpsTrail(ops, operationId, Some(Ok(())), ["whatsapp", "email"], [Err(e), Ok(())]),
                                   operationId, false);
      operationId in after && after[operationId].status == "sent" && after[operationId].errorMessage == None
  {
    var tags: seq<string> := ["whatsapp", "email"];
    var outs: seq<Result<()>> := [Err(e), Ok(())];
    assert tags[..1] == ["whatsapp"] && outs[..1] == [Err(e)];
    var failed := OpsTrail(ops, operationId, Some(Ok(())), ["whatsapp"], [Err(e)]);
    assert failed == OperationService.SetStatus(ops, operationId, "failed", Some(Debug(e))) by {
      var w: seq<string>, f: seq<Result<()>> := ["whatsapp"], [Err(e)];
      assert w[..0] == [] && f[..0] == [];
      assert OpsTrail(ops, operationId, Some(Ok(())), w[..0], f[..0]) == ops;
      assert "whatsapp" != "email" by { assert "whatsapp"[0] != "email"[0]; }
      assert failed == OpsAfterChannel(ops, operationId, Some(Ok(())), "whatsapp", Err(e));
    }
    assert OpsTrail(ops, operationId, Some(Ok(())), tags, outs)
        == OperationService.SetStatus(failed, operationId, "sent", None);
  }

  /** What `process_notification` does once the operation is "running":
      render the PDF when there is HTML, then deliver on every channel. */
  method RenderAndDeliver(db: Database, renderer: PdfService.Renderer, senders: Senders, operationId: Id,
                          req: NotificationRequest) returns (r: Result<()>, ghost ids: seq<Id>)
    requires db.Valid() && db.available && renderer.Valid()
    modifies db`operations, db`channels, db`channelOrder, db`emails, db`emailOrder, db`nextId, db`clock, db`log
    modifies renderer`tmp, renderer`calls, renderer`nextUuid
    ensures db.Valid() && renderer.Valid()
    ensures renderer.tmp == old(renderer.tmp)
    ensures |ids| == |req.channels| || ids == []
    ensures Extends(old(db.log) + (if ids == [] then [] else InsertsOf(ids, operationId, req.channels)), db.log)
    ensures var step := PdfStep(renderer.config, senders.chrome, req, old(renderer.tmp), old(renderer.nextUuid));
      && (step.Err? ==>
            && r == Err(step.error) && ids == []
            && db.operations == old(db.operations) && db.channels == old(db.channels) && db.emails == old(db.emails))
      && (step.Ok? ==>
            && r == Ok(())
            && Notified(old(db.channels), db.channels, old(db.channelOrder), db.channelOrder,
                        old(db.operations), db.operations, old(db.emails), db.emails,
                        ids, operationId, senders, req,
                        EmailService.FinalAttachments(step.value, req.pdfAttachmentName, req.otherAttachments)))
  {
    ids := [];
    var pdf: Option<Bytes> := None;
    if req.pdfHtml.Some? {
      var generated := GeneratePdfForNotification(renderer, senders.chrome, req);
      if generated.Err? {
        ExtendsBy(db.log, []);
        assert db.log + [] == db.log;
        return Err(generated.error), ids;
      }
      pdf := Some(generated.value);
    }
    // `req.pdf_html` has been taken by now; no channel reads it
    var attachments := EmailService.AssembleAttachments(pdf, req.pdfAttachmentName, req.otherAttachments);
    var rowIds := DeliverAll(db, senders, operationId, req, attachments);
    ids := rowIds;
    r := Ok(());
  }

  /** `process_notification`: the operation goes "running", the PDF is
      rendered, a row is opened per channel, every channel is sent in order,
      and the operation is marked "done" when all rows are. */
  method ProcessNotification(db: Database, renderer: PdfService.Renderer, senders: Senders, operationId: Id,
                             req: NotificationRequest) returns (r: Result<()>, ghost ids: seq<Id>)
    requires db.Valid() && renderer.Valid()
    modifies db`operations, db`channels, db`channelOrder, db`emails, db`emailOrder, db`nextId, db`clock, db`log
    modifies renderer`tmp, renderer`calls, renderer`nextUuid
    ensures db.Valid() && renderer.Valid()
    ensures renderer.tmp == old(renderer.tmp)
    ensures !db.available ==>
      && r.Err? && Display(r.error) == "Failed to update operation status"
      && db.operations == old(db.operations) && db.channels == old(db.channels) && db.log == old(db.log)
    ensures db.available ==> |ids| == |req.channels| || ids == []
    ensures db.available ==>
      Extends(old(db.log) + [OperationSet(operationId, "running", None)]
              + (if ids == [] then [] else InsertsOf(ids, operationId, req.channels)), db.log)
    ensures db.available ==>
      var step := PdfStep(renderer.config, senders.chrome, req, old(renderer.tmp), old(renderer.nextUuid));
      var running := OperationService.SetStatus(old(db.operations), operationId, "running", None);
      && (step.Err? ==>
            && r == Err(step.error) && ids == []
            && db.operations == running && db.channels == old(db.channels) && db.emails == old(db.emails))
      && (step.Ok? ==>
            && r == Ok(())
            && Notified(old(db.channels), db.channels, old(db.channelOrder), db.channelOrder,
                        running, db.operations, old(db.emails), db.emails, ids, operationId, senders, req,
                        EmailService.FinalAttachments(step.value, req.pdfAttachmentName, req.otherAttachments)))
  {
    ids := [];
    var started := OperationService.UpdateOperationStatus(db, operationId, "running", None);
    if started.Err? {
      return Err(started.error), ids;
    }
    ghost var log1 := db.log;
    r, ids := RenderAndDeliver(db, renderer, senders, operationId, req);
    ghost var tail := if ids == [] then [] else InsertsOf(ids, operationId, req.channels);
    assert old(db.log) + [OperationSet(operationId, "running", None)] + tail == log1 + tail;
  }
}
