/** `POST /api/notifications/send`: registers a "send_notification"
    operation, then processes the notification now or in a detached task. */
module NotificationHandler {
  import opened Common
  import opened Store
  import OperationService
  import ChannelService
  import PdfService
  import EmailService
  import NotificationService

  /** The operation the endpoint registers for a request. */
  function CreateRequest(req: NotificationService.NotificationRequest): (c: OperationService.CreateOperationRequest)
    ensures c.operationType == "send_notification" && c.isAsync == req.asyncSend
    ensures c.metadata == Some(NotificationPlan(req.channels, req.pdfHtml.Some?, |req.otherAttachments.GetOr([])|))
  {
    OperationService.CreateOperationRequest("send_notification", req.asyncSend,
      Some(NotificationPlan(req.channels, req.pdfHtml.Some?, |req.otherAttachments.GetOr([])|)))
  }

  /** How the operation row ends once processing is over: marked failed
      with `failure` when the PDF step failed, otherwise "done" exactly when
      all of its channel rows are. */
  ghost predicate Settled(ops: map<Id, OperationRow>, channels: map<Id, ChannelRow>, operationId: Id,
                          step: Result<Option<Bytes>>, failure: string)
  {
    && operationId in ops
    && (step.Err? ==> ops[operationId].status == "failed" && ops[operationId].errorMessage == Some(failure))
    && (step.Ok? ==> (ops[operationId].status == "done" <==> ChannelService.AllDone(channels, operationId)))
  }

  /** `process_notification` as both paths see it: the PDF step's result,
      and an operation that is "done" exactly when its channel rows are. */
  method Process(db: Database, renderer: PdfService.Renderer, senders: NotificationService.Senders,
                 operationId: Id, req: NotificationService.NotificationRequest) returns (r: Result<()>)
    requires db.Valid() && db.available && renderer.Valid()
    requires operationId in db.operations && db.operations[operationId].status != "done"
    modifies db`operations, db`channels, db`channelOrder, db`emails, db`emailOrder, db`nextId, db`clock, db`log
    modifies renderer`tmp, renderer`calls, renderer`nextUuid
    ensures db.Valid() && renderer.Valid()
    ensures var step := NotificationService.PdfStep(renderer.config, senders.chrome, req, old(renderer.tmp),
                                                    old(renderer.nextUuid));
      && (r.Ok? <==> step.Ok?) && (r.Err? ==> r.error == step.error)
      && operationId in db.operations
      && (step.Ok? ==> (db.operations[operationId].status == "done"
                        <==> ChannelService.AllDone(db.channels, operationId)))
  {
    ghost var channels0, order0, ops0, emails0 := db.channels, db.channelOrder, db.operations, db.emails;
    ghost var ids;
    r, ids := NotificationService.ProcessNotification(db, renderer, senders, operationId, req);
    if r.Ok? {
      ghost var step := NotificationService.PdfStep(renderer.config, senders.chrome, req, old(renderer.tmp),
                                                    old(renderer.nextUuid));
      NotificationService.NotifiedDone(channels0, db.channels, order0, db.channelOrder,
        OperationService.SetStatus(ops0, operationId, "running", None), db.operations, emails0, db.emails, ids,
        operationId, senders, req, EmailService.FinalAttachments(step.value, req.pdfAttachmentName,
                                                                 req.otherAttachments));
    }
  }

  /** The detached task: processes the notification and, when that fails,
      marks the operation failed with the error's whole chain. */
  method RunDetached(db: Database, renderer: PdfService.Renderer, senders: NotificationService.Senders,
                     operationId: Id, req: NotificationService.NotificationRequest)
    requires db.Valid() && db.available && renderer.Valid()
    requires operationId in db.operations && db.operations[operationId].status != "done"
    modifies db`operations, db`channels, db`channelOrder, db`emails, db`emailOrder, db`nextId, db`clock, db`log
    modifies renderer`tmp, renderer`calls, renderer`nextUuid
    ensures db.Valid() && renderer.Valid()
    ensures var step := NotificationService.PdfStep(renderer.config, senders.chrome, req, old(renderer.tmp),
                                                    old(renderer.nextUuid));
      Settled(db.operations, db.channels, operationId, step,
              if step.Err? then "Async task error: " + Debug(step.error) else "")
  {
    var r := Process(db, renderer, senders, operationId, req);
    if r.Err? {
      var marked := OperationService.MarkOperationFailed(db, operationId, "Async task error: " + Debug(r.error));
    }
  }

  /** The synchronous path: processes the notification and answers 200, or
      marks the operation failed with the error's outermost message and
      answers 500 with its whole chain. */
  method ProcessNow(db: Database, renderer: PdfService.Renderer, senders: NotificationService.Senders,
                    operationId: Id, req: NotificationService.NotificationRequest) returns (resp: Response)
    requires db.Valid() && db.available && renderer.Valid()
    requires operationId in db.operations && db.operations[operationId].status != "done"
    modifies db`operations, db`channels, db`channelOrder, db`emails, db`emailOrder, db`nextId, db`clock, db`log
    modifies renderer`tmp, renderer`calls, renderer`nextUuid
    ensures db.Valid() && renderer.Valid()
    ensures var step := NotificationService.PdfStep(renderer.config, senders.chrome, req, old(renderer.tmp),
                                                    old(renderer.nextUuid));
      && resp == (if step.Ok? then Response(200, true, Some(operationId), Some("Notification processed successfully"), None)
                  else Response(500, false, Some(operationId), None, Some(Debug(step.error))))
      && Settled(db.operations, db.channels, operationId, step,
                 if step.Err? then "Send failed: " + Display(step.error) else "")
  {
    var r := Process(db, renderer, senders, operationId, req);
    if r.Err? {
      var marked := OperationService.MarkOperationFailed(db, operationId, "Send failed: " + Display(r.error));
      return Response(500, false, Some(operationId), None, Some(Debug(r.error)));
    }
    resp := Response(200, true, Some(operationId), Some("Notification processed successfully"), None);
  }

  /** `send_unified_notification_endpoint`. */
  method SendUnifiedNotificationEndpoint(db: Database, renderer: PdfService.Renderer,
                                         senders: NotificationService.Senders,
                                         req: NotificationService.NotificationRequest) returns (resp: Response)
    requires db.Valid() && renderer.Valid()
    modifies db`operations, db`operationOrder, db`channels, db`channelOrder, db`emails, db`emailOrder, db`nextId
    modifies db`clock, db`log, renderer`tmp, renderer`calls, renderer`nextUuid
    ensures db.Valid() && renderer.Valid()
    ensures !db.available ==>
      && resp == Response(500, false, None, None, Some("Operation creation failed: " + "Fallo al insertar operation"))
      && db.operations == old(db.operations) && db.channels == old(db.channels) && db.log == old(db.log)
    ensures db.available ==>
      var step := NotificationService.PdfStep(renderer.config, senders.chrome, req, old(renderer.tmp),
                                              old(renderer.nextUuid));
      && resp.operationId.Some? && resp.operationId.value !in old(db.operations)
      && var operationId := resp.operationId.value;
      && (req.asyncSend ==>
            && resp == Response(200, true, Some(operationId), Some("Notification queued for async processing"), None)
            && Settled(db.operations, db.channels, operationId, step,
                       if step.Err? then "Async task error: " + Debug(step.error) else ""))
      && (!req.asyncSend ==>
            && resp == (if step.Ok? then Response(200, true, Some(operationId), Some("Notification processed successfully"), None)
                        else Response(500, false, Some(operationId), None, Some(Debug(step.error))))
            && Settled(db.operations, db.channels, operationId, step,
                       if step.Err? then "Send failed: " + Display(step.error) else ""))
  {
    var created := OperationService.CreateOperation(db, CreateRequest(req));
    if created.Err? {
      return Response(500, false, None, None, Some("Operation creation failed: " + Display(created.error)));
    }
    var operationId := created.value.id;
    if req.asyncSend {
      RunDetached(db, renderer, senders, operationId, req);
      resp := Response(200, true, Some(operationId), Some("Notification queued for async processing"), None);
    } else {
      resp := ProcessNow(db, renderer, senders, operationId, req);
    }
  }
}
