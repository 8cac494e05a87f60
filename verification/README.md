# html-to-pdf: operations, channels, e-mail and notification dispatch

This project models the core of the html-to-pdf service. The service registers
every request as an *operation* row in a relational store. It sends the request
over one or more *channels* (e-mail through an SMTP relay, WhatsApp through an
HTTP gateway), optionally attaching a PDF rendered by a headless browser, and
records what happened in three tables: `operations`, `operation_channels` and
`emails`.

The model covers:

- **Store** (`store.dfy`). A class `Database` holds the three tables as maps,
  with their insertion order as sequences. It also holds a clock, an id
  counter (standing in for `Uuid::new_v4`), a flag saying whether the store
  answers, and a ghost log of every accepted write.
- **Operation registry** (`operation_service.dfy`). `create_operation`,
  `update_operation`, `update_operation_status`, `mark_operation_failed`,
  `get_operation` and `list_operations`, with the u64 page arithmetic, the i64
  casts and SQLite's `LIMIT`/`OFFSET` written out.
- **Channel registry** (`channel_service.dfy`). `create_channel`,
  `update_channel_status` (the status and the attempt counter change in one
  statement), `get_channel` and `list_channels_for_operation`.
- **E-mail service** (`email_service.dfy`). It records a send in `emails`,
  builds one multipart message, hands it to the relay recipient by recipient
  and writes the outcome on both the operation and its e-mail rows.
- **Recipient loops** (`trace.dfy`). The "send in order, stop at the first
  failure" loop that the SMTP recipient loop and the WhatsApp gateway calls
  share, with a reference definition (`Drive`) and a proof that every run
  equals it.
- **Notification dispatcher** (`notification_service.dfy`).
  `process_notification`, `generate_pdf_for_notification`, `send_via_email`
  and `send_via_whatsapp`, down to the exact sequence of messages posted to
  the gateway.
- **PDF renderer** (`pdf_service.dfy`). `TimingInfo::format`, the
  close-the-tab-always wrapper `generate_pdf`, and the temporary-file
  lifecycle of `_generate_pdf_internal`, as a class `Renderer` whose `tmp`
  field is the `./tmp` directory.
- **HTTP handlers** (`notification_handler.dfy`, `email_handler.dfy`).
  `POST /api/notifications/send`, `POST /api/email/send-unified` and
  `GET /api/email/status/{op_id}`, with their status codes and JSON bodies
  modelled as a `Response` value.

Everything outside the process is a parameter. The environment variables, the
WhatsApp gateway's answers, the SMTP relay's answers and the browser's answers
are values (`Senders`, `Gateway`, `Smtp`, `Chrome`) fixed for one request.
Errors follow `anyhow`: an `Error` is a root message under a stack of context
lines. `Display` shows the outermost line (`{}`). `Debug` shows the whole chain
as anyhow's `{:?}` prints it: the outermost line, a blank line, "Caused by:",
then each cause on its own line. The causes are numbered from 0 when there
are two or more, and a cause that spans several lines has its further lines
indented. The errors of the mail library and the HTTP client, including its
address and content-type parse errors, are supplied by the `Smtp` and
`Gateway` values and keep their own chains of causes.

## Model

| member | source | states |
|---|---|---|
| Common.Debug | src/services/email_service.rs:148 | `{:?}` of an error, for a chain of any length: the outermost message alone when there is no cause; otherwise that message, "\n\nCaused by:", then one `CauseLine` per cause in chain order, numbered from 0 when there are two or more causes and unnumbered when there is one |
| Common.CauseLines | src/services/notification_service.rs:169 | The loop's output is empty iff there is no cause, and otherwise starts with a line break and the first cause's number (or four spaces) |
| Common.CauseLinesAreLines | src/services/notification_service.rs:169 | The loop writes exactly one line per cause, in chain order, the k-th cause numbered n + k |
| Common.CauseLineReadsBack | src/services/notification_service.rs:176 | A cause's line is a line break and its number (or four spaces), and the cause's own text reads back from the rest once the indentation is removed |
| Common.DebugShowsEveryCause | src/services/email_service.rs:148 | Every cause of the chain appears in the `{:?}` text on its own line, behind its position in the chain when there are several |
| Common.CauseNumber | src/services/notification_service.rs:176 | A cause's number is right-aligned in five columns (spaces, then its digits, which read back as the number), then ": " |
| Common.IndentRoundTrip | src/services/notification_service.rs:169 | Indenting the further lines of a cause loses nothing: removing the padding gives the cause back |
| Common.DebugOneCause | src/services/email_service.rs:148 | One cause: "Caused by:", then four spaces and the cause, every line break in it followed by four spaces |
| Common.DebugNumbersCauses | src/services/notification_service.rs:169 | Two single-line causes are printed as "    0: " and "    1: " lines, outermost cause first |
| OperationService.SetStatus | src/services/operation_service.rs:198-206 | An update by id keeps the table's keys, rewrites only the named row's status and error, and changes nothing when the id is absent |
| OperationService.SetStatusAt | src/services/operation_service.rs:69-76 | The same update that also stamps `updated_at`: keys kept, other rows untouched |
| OperationService.SetStatusTwice | src/services/operation_service.rs:198-206 | A later status write fully hides an earlier one on the same row |
| OperationService.NoTransitionGuard | src/services/operation_service.rs:192-208 | An update of a row that is already "done" or "failed" still takes effect: no transition is refused |
| OperationService.CreateOperation | src/services/operation_service.rs:29-59 | With the store up: a fresh id, a "pending" row with no error, both timestamps the current instant, `is_async` stored as 1/0, appended to the insertion order, message "Operación creada". Store down: error "Fallo al insertar operation", table unchanged |
| OperationService.UpdateOperation | src/services/operation_service.rs:62-87 | Store up: status, error and an RFC 3339 `updated_at` on that row only. Store down: error "Fallo al actualizar operación", table unchanged |
| OperationService.UpdateOperationStatus | src/services/operation_service.rs:192-208 | Store up: status and error overwritten, `updated_at` kept. Store down: "Failed to update operation status", table unchanged |
| OperationService.MarkOperationFailed | src/services/operation_service.rs:172-190 | Store up: status "failed", the given error, and `updated_at` set to SQLite's CURRENT_TIMESTAMP text. Store down: table unchanged |
| OperationService.ToRecord | src/services/operation_service.rs:105-115 | A row reads back iff both timestamps parse as RFC 3339, and then every field is carried over, `is_async` read as `!= 0` |
| OperationService.GetOperation | src/services/operation_service.rs:90-116 | A missing id or a store that is down fails with "No se encontró operación con ese id"; otherwise the row's record, or the timestamp parse error |
| OperationService.MarkedFailedIsUnreadable | src/services/operation_service.rs:172-190 | After `mark_operation_failed` the row's `updated_at` is not RFC 3339, so `get_operation` on it fails |
| OperationService.PageOffset | src/services/operation_service.rs:124 | `(page - 1) * page_size` on u64: the true product when it neither underflows nor overflows, and in every case congruent to it modulo 2^64 |
| OperationService.PageZeroIsFirstPage | src/services/operation_service.rs:124-145 | Page 0 wraps to the offset -page_size once read as i64, which SQLite reads as 0, so page 0 lists the same rows as page 1 |
| OperationService.AsI64 | src/services/operation_service.rs:125-126 | `as i64` keeps values below 2^63 and turns larger ones negative |
| OperationService.Window | src/services/operation_service.rs:142 | `LIMIT`/`OFFSET`: at most `limit` rows, a contiguous run of the input starting at the offset (a negative offset reads as 0, a negative limit as no limit) |
| OperationService.NewestFirst | src/services/operation_service.rs:141 | The rows in reverse insertion order |
| OperationService.ListPage | src/services/operation_service.rs:124-169 | Total is the row count, page and page size echoed, at most `page_size` items, each the response of the row at that position of the window |
| OperationService.ListOperations | src/services/operation_service.rs:119-170 | Succeeds iff the store answers, and then returns the page of the newest-first rows |
| OperationService.PageIsSlice | src/services/operation_service.rs:124-148 | For page >= 1 without overflow, the items are the newest-first rows from `(page - 1) * page_size` on, at most `page_size` of them |
| OperationService.ListedNewestFirst | src/services/operation_service.rs:141 | Listed items have strictly decreasing creation instants (ORDER BY created_at DESC) |
| OperationService.WindowKeepsOrder | src/services/operation_service.rs:141-142 | Cutting a page out of a newest-first list keeps it newest first |
| OperationService.NewestFirstDecreasing | src/services/operation_service.rs:141 | Reversing a chronological insertion order gives strictly decreasing creation instants |
| OperationService.NewestFirstSameRows | src/services/operation_service.rs:141 | The newest-first list holds exactly the stored ids |
| ChannelService.Updated | src/services/notification_channel_service.rs:66-76 | The updated row has the new status, error and timestamp, one more attempt iff asked, and the same operation, channel and creation time |
| ChannelService.UpdatedTable | src/services/notification_channel_service.rs:68-74 | `UPDATE ... WHERE id`: only that row changes, nothing changes when it is absent, keys are kept |
| ChannelService.CreateChannel | src/services/notification_channel_service.rs:18-46 | Store up: a fresh row with the given status, no error, zero attempts, stamped now, appended to the order. Store down: "Error creando operation_channel", table unchanged |
| ChannelService.UpdateChannelStatus | src/services/notification_channel_service.rs:48-88 | Store up: status, error, time and (iff asked) the attempt counter change together in one write. Store down: "Error actualizando operation_channel", table unchanged |
| ChannelService.ToRecord | src/services/notification_channel_service.rs:104-113 | A row reads back iff both timestamps parse, and then field by field |
| ChannelService.GetChannel | src/services/notification_channel_service.rs:90-114 | Missing id or store down: "No se encontró operation_channel"; otherwise the row's record |
| ChannelService.RowsOf | src/services/notification_channel_service.rs:120-130 | `WHERE operation_id = ?`: exactly the stored rows of that operation |
| ChannelService.ListChannelsForOperation | src/services/notification_channel_service.rs:116-147 | Succeeds only when the store answers, and always does then if every timestamp parses; the k-th record is the k-th row of the operation read back |
| ChannelService.ListedExactly | src/services/notification_channel_service.rs:120-146 | Every listed record belongs to the operation, and every row of the operation is listed |
| ChannelService.ListedAllDone | src/services/notification_channel_service.rs:120-146 | The listing is all "done" iff every stored row of the operation is "done" |
| Trace.DriveIsRun | src/services/email_service.rs:192-203 | The reference run is a run: it sends a prefix of the plan, every request but the last succeeded, and an error is the last request's |
| Trace.RunIsUnique | src/services/email_service.rs:192-203 | Plan and verdicts determine the run: two runs of the same plan are equal |
| Trace.RunIsDrive | src/services/email_service.rs:192-203 | Every run is the reference run |
| Trace.DriveAppend | src/services/notification_service.rs:377-477 | Two loops back to back: the second starts only when the first went through entirely |
| Trace.RunSucceedsIffNoFailure | src/services/email_service.rs:192-203 | A run succeeds iff no request of the plan fails; a failed run stops right after its first failing request |
| EmailService.FinalAttachments | src/services/notification_service.rs:62-99 | The PDF first, when there is one, named `pdf_attachment_name` or "document.pdf" with type application/pdf, then the caller's attachments in order |
| EmailService.AssembleAttachments | src/services/notification_service.rs:62-99 | Pushing the PDF then extending with the others yields exactly `FinalAttachments` |
| EmailService.BuildMultipart | src/services/email_service.rs:175-189 | Succeeds iff every attachment's content type parses, and otherwise fails with `TypeError`; the parts are the HTML body then one part per attachment in order |
| EmailService.TypeError | src/services/email_service.rs:182-186 | No error iff every content type parses; a failing first attachment gives the library's error for its type |
| EmailService.TypeErrorIsFirst | src/services/email_service.rs:182-186 | A content-type error is the library's error for the first attachment whose type does not parse |
| EmailService.RecipientVerdict | src/services/email_service.rs:193-202 | A recipient succeeds iff its address parses and the relay delivers within the timeout |
| EmailService.SetupError | src/services/email_service.rs:161-189 | Setup succeeds iff the sender address parses, the TLS parameters and the relay are built and every attachment's content type parses; a bad sender address fails first, with the library's address error under "Invalid from address" |
| EmailService.SmtpRun | src/services/email_service.rs:156-206 | A setup failure tries no recipient and returns the setup error; otherwise the recipients are run in order and stop at the first failure |
| EmailService.SmtpRunSucceedsIff | src/services/email_service.rs:156-206 | A send succeeds iff setup succeeds and every recipient succeeds; a failing send tried each recipient up to the first failing one and none after |
| EmailService.SendEmailViaSmtpMultiple | src/services/email_service.rs:156-206 | The recipients tried and the result are exactly the reference send `SmtpRun` |
| EmailService.SendTo | src/services/email_service.rs:193-202 | One pass of the recipient loop yields that recipient's verdict |
| EmailService.EmailsWithStatus | src/services/email_service.rs:251-259 | Every e-mail row of the operation gets the status and error, every other row is untouched |
| EmailService.InsertEmailRecordMultiple | src/services/email_service.rs:93-131 | Store up: one "pending" row with the recipients joined by ";". Store down: "Failed to insert email record (multiple)", table unchanged |
| EmailService.JoinedRecipientsSplitBack | src/services/email_service.rs:102 | The stored recipient text splits back into the list given, when no address holds ";" and the list is not empty |
| EmailService.UpdateEmailStatus | src/services/email_service.rs:235-262 | The same status and error reach the operation row and every e-mail row of the operation |
| EmailService.SentStatus | src/services/email_service.rs:142-151 | "sent" iff the send succeeded, "failed" iff it failed |
| EmailService.SentError | src/services/email_service.rs:146-151 | No error iff the send succeeded; otherwise the `{:?}` text, which starts with the outermost message and goes on with "Caused by:" when the chain has causes |
| EmailService.SyncResult | src/services/email_service.rs:142-153 | Ok with the operation id iff the send succeeded; otherwise "Email send failed: " followed by the send error's chain |
| EmailService.HandleSyncEmailMultiple | src/services/email_service.rs:133-154 | "running", then the reference send, then "sent" or "failed" with the error chain on the operation and its e-mail rows, and the matching result |
| EmailService.SendUnified | src/services/email_service.rs:50-68 | Records the send; asynchronous: returns the id at once with the operation untouched; synchronous: the outcome of the synchronous send |
| EmailService.FirstEmailOf | src/services/email_service.rs:74-80 | `fetch_one` picks a row of the operation, and finds none iff the operation has no e-mail row |
| EmailService.GetEmailStatus | src/services/email_service.rs:73-87 | Succeeds iff the store answers and the operation has an e-mail row, with that row's status and error under the queried id; every failure reads "Email operation not found" |
| NotificationService.TextPlan | src/services/notification_service.rs:378-418 | One text message per recipient, in order, and none when the message is empty |
| NotificationService.MediaRow | src/services/notification_service.rs:441-476 | One media message per recipient for one attachment, in order |
| NotificationService.WhatsAppPlanShape | src/services/notification_service.rs:377-477 | The texts come first, then `|recipients|` media messages per attachment |
| NotificationService.PostVerdict | src/services/notification_service.rs:396-417 | A post succeeds iff the gateway accepts it |
| NotificationService.WhatsAppSetupError | src/services/notification_service.rs:317-375 | Nothing is posted unless both environment variables are set, the configuration is present and the session status is a success with state CONNECTED, checked in that order |
| NotificationService.WhatsAppRun | src/services/notification_service.rs:305-484 | A setup failure posts nothing and returns the setup error; otherwise the messages of the plan are posted in order up to the first one the gateway does not accept |
| NotificationService.PostTexts | src/services/notification_service.rs:383-418 | The text loop posts exactly what the reference run of the text plan posts |
| NotificationService.PostAttachment | src/services/notification_service.rs:441-476 | The inner media loop posts exactly the reference run of one attachment's row |
| NotificationService.MediaStep | src/services/notification_service.rs:433-477 | A failing attachment ends the whole media run there; a successful one extends the run by its row |
| NotificationService.PostMedia | src/services/notification_service.rs:433-477 | The media loop posts exactly the reference run of the media plan |
| NotificationService.SendViaWhatsApp | src/services/notification_service.rs:305-484 | The messages posted and the result equal the reference `WhatsAppRun`: setup checks, then texts, then media, stopping at the first failure |
| NotificationService.EmailOutcome | src/services/notification_service.rs:247-303 | Without `email_config` the channel fails with "Falta email_config para canal email"; otherwise it succeeds iff the relay run succeeds |
| NotificationService.SendViaEmail | src/services/notification_service.rs:247-303 | Returns `EmailOutcome`; the operation ends with what the e-mail service wrote; other operations' e-mail rows are kept; no channel row is opened |
| NotificationService.PdfRequestFor | src/services/notification_service.rs:220-232 | The notification's PDF request is never the file-backed kind and carries the HTML |
| NotificationService.PdfStep | src/services/notification_service.rs:210-245 | No HTML: nothing to do; otherwise the rendered bytes, or the renderer's error under "Error generando PDF con pdf_service" |
| NotificationService.GeneratePdfForNotification | src/services/notification_service.rs:210-245 | Returns what `PdfStep` says and leaves ./tmp as it was |
| NotificationService.ChannelOutcome | src/services/notification_service.rs:129-144 | "email" and "whatsapp" give their sender's answer; any other tag fails with "Canal no soportado: <tag>" and no cause |
| NotificationService.Outcomes | src/services/notification_service.rs:129-144 | One outcome per requested channel, each what its sender answers ("Canal no soportado" for an unknown tag) |
| NotificationService.ReturnedOutcomes | src/services/notification_service.rs:129-144 | What the channels returned, one by one, is the list of outcomes |
| NotificationService.OpenRow | src/services/notification_service.rs:103-114 | Opens one "pending" row for the next channel and keeps every earlier row |
| NotificationService.CreateChannelRows | src/services/notification_service.rs:102-114 | One new, distinct, "pending" row per channel, in order, logged in order, before any send, older rows untouched |
| NotificationService.Dispatch | src/services/notification_service.rs:129-144 | The channel returns its sender's answer; only the e-mail channel writes the operation row |
| NotificationService.RecordOutcome | src/services/notification_service.rs:146-179 | Success: the row "done". Failure: the row "failed" with the error chain and one more attempt, and the operation "failed" with the same chain |
| NotificationService.RunningThenSettled | src/services/notification_service.rs:124-179 | A row marked "running" and then settled is settled |
| NotificationService.RunChannel | src/services/notification_service.rs:124-144 | The row goes "running" without an attempt, then the send returns its answer |
| NotificationService.ProcessChannel | src/services/notification_service.rs:117-180 | One channel: its row settled according to its answer, the operation row as the channel and the outcome leave it |
| NotificationService.ProcessNext | src/services/notification_service.rs:117-180 | One more iteration keeps the loop's progress invariant |
| NotificationService.ProcessChannels | src/services/notification_service.rs:116-180 | Every channel processed in order: each row settled by its own answer, the operation row the fold of the per-channel writes |
| NotificationService.FinishOperation | src/services/notification_service.rs:182-201 | The operation is marked "done" iff every row of it is "done", and untouched otherwise |
| NotificationService.OpenedThenSettled | src/services/notification_service.rs:101-180 | Rows opened pending and then settled one by one leave one finished row per channel |
| NotificationService.OpenAndProcess | src/services/notification_service.rs:101-180 | One finished row per channel, older rows untouched, the operation row the fold of the per-channel writes |
| NotificationService.DeliverAll | src/services/notification_service.rs:101-201 | The full dispatch: rows opened, every channel answered and settled in order, then the operation concluded |
| NotificationService.TrailNeverDone | src/services/notification_service.rs:146-179 | No channel step writes "done" on the operation |
| NotificationService.AllDoneIffAllSucceeded | src/services/notification_service.rs:182-195 | With no earlier row of the operation, its rows are all "done" iff every channel succeeded |
| NotificationService.NotifiedDone | src/services/notification_service.rs:182-195 | After a dispatch the operation is "done" iff every one of its rows is "done" |
| NotificationService.DoneIffAllSucceeded | src/services/notification_service.rs:182-195 | With no earlier row of the operation, a dispatch leaves it "done" iff every requested channel succeeded (so "done" with no channel at all) |
| NotificationService.EmailOverwritesFailure | src/services/notification_service.rs:129-177 | Channels ["whatsapp", "email"], WhatsApp failing and e-mail succeeding: the operation ends "sent" with no error, not "failed" |
| NotificationService.RenderAndDeliver | src/services/notification_service.rs:61-201 | A failed PDF returns its error with no row opened and no table changed; otherwise the dispatch with the assembled attachments |
| NotificationService.ProcessNotification | src/services/notification_service.rs:46-208 | "running" first (store down: "Failed to update operation status", nothing changed); then a PDF error leaves the operation "running", or the dispatch runs and concludes |
| Common.DecimalRoundTrip | src/services/pdf_service.rs:34 | `{}` of an integer reads back as that integer |
| PdfService.Pad3RoundTrip | src/services/pdf_service.rs:34-36 | `{:03}` of a number below 1000 is three digits that read back as it |
| PdfService.FormatDuration | src/services/pdf_service.rs:28-40 | The formatted text parses back into the number, fraction and unit it was built from |
| PdfService.ShownIsTruncation | src/services/pdf_service.rs:28-40 | Exactly one form is chosen by magnitude (seconds, milliseconds, microseconds), and the number shown is the duration truncated to its last digit's unit |
| PdfService.PrintParamsFor | src/services/pdf_service.rs:214-240 | The request's paper size and margins, else the configured defaults; always portrait, scale 1, backgrounds on, no header or footer |
| PdfService.IgnoredFields | src/services/pdf_service.rs:226-229 | Orientation, preset, custom page size and scale never change the print parameters |
| PdfService.Render | src/services/pdf_service.rs:157-278 | Succeeds iff every step passes (the file steps only for a large request), returns the browser's PDF, prints with `PrintParamsFor`, and leaves ./tmp alone for a small request |
| PdfService.Generated | src/services/pdf_service.rs:124-153 | Succeeds iff the tab opens and the work on it succeeds |
| PdfService.TempFileCleanedUp | src/services/pdf_service.rs:259-268 | A successful large request whose file could be removed leaves ./tmp as it found it |
| PdfService.TempFileLeaksOnError | src/services/pdf_service.rs:167-205 | A large request failing after its file was written leaves the file in ./tmp |
| PdfService.Renderer.GeneratePdf | src/services/pdf_service.rs:124-153 | Returns `Generated`; the tab is closed whenever it was opened, whatever the work returned, and a failing close changes nothing |
| PdfService.Renderer.GenerateInternal | src/services/pdf_service.rs:157-278 | Result, browser calls and ./tmp are those of `Render` |
| NotificationHandler.CreateRequest | src/handlers/notification_handler.rs:22-33 | Type "send_notification", `is_async` from the request, metadata with the channels, whether a PDF is planned and the attachment count |
| NotificationHandler.Process | src/handlers/notification_handler.rs:52-55 | Processing fails iff the PDF step fails, with its error; otherwise the operation is "done" iff all its rows are |
| NotificationHandler.RunDetached | src/handlers/notification_handler.rs:51-60 | A failure marks the operation "failed" with "Async task error: " and the error chain; otherwise "done" iff all rows are |
| NotificationHandler.ProcessNow | src/handlers/notification_handler.rs:67-87 | 200 "Notification processed successfully", or 500 with the error chain and the operation marked failed with "Send failed: " and the outermost message |
| NotificationHandler.SendUnifiedNotificationEndpoint | src/handlers/notification_handler.rs:13-89 | Store down: 500 "Operation creation failed: Fallo al insertar operation" and nothing changed; else a fresh operation and the queued (async) or processed (sync) answer |
| EmailHandler.EmailStatusEndpoint | src/handlers/email_handler.rs:18-42 | 200 iff the store answers and the operation has an e-mail row, with that row's status; every other answer is 404 "Email operation not found", never 500 |
| EmailHandler.CreateRequest | src/handlers/email_handler.rs:61-73 | Type "send_unified_email", `is_async` from the request, metadata with recipients, subject, PDF planned and attachment count |
| EmailHandler.PdfRequestFor | src/handlers/email_handler.rs:90-101 | File name from `pdf_attachment_name` or "document.pdf", the request's HTML, never the file-backed kind |
| EmailHandler.PdfOutcome | src/handlers/email_handler.rs:88-117 | No HTML: nothing; otherwise the rendered bytes or the renderer's error unchanged |
| EmailHandler.RenderPdf | src/handlers/email_handler.rs:88-117 | Returns `PdfOutcome` and leaves ./tmp as it was |
| EmailHandler.Forwarded | src/handlers/email_handler.rs:88-134 | The service receives the request with the HTML taken out and its attachment list emptied, every other field unchanged |
| EmailHandler.Send | src/handlers/email_handler.rs:137-140 | Accepted iff asynchronous or the relay run succeeds; a refusal reads "Email send failed: " and the chain; async leaves the operation row alone, sync leaves "sent"/"failed" |
| EmailHandler.Deliver | src/handlers/email_handler.rs:137-157 | 200 "Unified email queued/sent successfully", or 500 "Email Error: ..." with the operation failed under a second "Email send failed: " prefix |
| EmailHandler.RenderAndDeliver | src/handlers/email_handler.rs:85-157 | PDF failure: 500 "PDF Error: ...", operation failed with "PDF generation failed: ...", nothing sent; otherwise one e-mail row and the answer to the send of the assembled attachments |
| EmailHandler.SendUniversalEmailEndpoint | src/handlers/email_handler.rs:52-159 | Store down: 500 "Operation creation failed: ...", nothing changed; else a fresh operation, then the PDF and send outcomes above, starting from "pending" |

## Left out

- The store fails all at once or not at all. One constant flag says whether it answers, so a store that fails part way through a request is not modelled.
- Concurrency is left out. The notification handler's detached `tokio::spawn` task is run to completion inside the endpoint; the response does not depend on what it does.
- EmailService.SendUnified: the asynchronous branch does not run the spawned task (email_service.rs:208-229). It returns the id with the operation untouched. What that task does is `HandleSyncEmailMultiple`.
- EmailHandler.SendUniversalEmailEndpoint: for an asynchronous send, the operation is left "pending" because the spawned e-mail task is not run.
- No backtrace is captured, so `Debug` prints no backtrace section. This is anyhow's behaviour when RUST_BACKTRACE is not set.
- The browser's and the file system's errors are carried as one message. The code prints them with `{}`, or puts them under a context whose `io::Error` has no cause of its own.
- OperationService.NewestFirst: reads `ORDER BY created_at DESC` as reverse insertion order. This relies on the store's clock rising strictly with every write, so two rows never share a creation instant and the clock never steps back.
- EmailService.FirstEmailOf: `fetch_one` has no ORDER BY. The model takes the first e-mail row of the operation in insertion order.
- The relay's answer for a recipient depends only on the address, and the gateway's answer for a post depends only on the message. A recipient listed twice, or the same message posted twice, gets the same answer both times.
- The store's own error messages (sqlx's) are one placeholder root message, `StoreDown` ("database unavailable"). Where a `{:?}` chain is printed, this placeholder stands in for sqlx's text under the context line.
- The 30-second send timeout is modelled as a relay answer `TimedOut` that reports "deadline has elapsed", not as time.
- The message builder's `multipart` step (email_service.rs:199) is taken never to fail. The model carries no header that could make it fail.
- The senders answer the same way for every channel of one request. A relay or gateway whose answer changes between two channels of the same request is not modelled.
- Base64 and URL encoding are carried as the raw bytes and HTML. Page dimensions, margins and scale are opaque `real`s that are never computed with.
- The JSON metadata of an operation is stored as a structured `Metadata` value, not as text.
- The fields `size_category`, `paper_size` and `store_local_pdf` do not exist in the PdfRequest the call sites build. They are taken as absent, so both call sites render the inline, non-large way.
- A failing `fs::write` is taken to leave no file behind. `canonicalize` failing after the write does leave the file.
- `attempts as i32` is carried as an unbounded counter. The i32 truncation only matters after 2^31 attempts.
- `page - 1` with page 0 panics in a debug build. The model follows a release build, where it wraps.
- NotificationService.SendViaEmail: states the `emails` table only partially. Rows of other operations are kept and no row of the operation is removed; the exact new row is stated by `EmailService.SendUnified`.
- NotificationService.DoneIffAllSucceeded: requires that the operation had no channel row before the dispatch. The store enforces no link between channel rows and operations; `NotifiedDone` holds without that condition.
- ChannelService.ListChannelsForOperation: the query has no ORDER BY, and the rows are modelled in insertion order.
- Logging, the timing lines around each renderer step, and the commented-out retry loop (notification_service.rs:486 on) are left out.
- The browser's start-up, its handler task and the PDF service constructor are not part of this model.

Behaviours of the code that a reader might not expect, each proved of the model:

- A later e-mail channel overwrites the "failed" that an earlier failing channel wrote. The operation ends "sent", not "failed" (`EmailOverwritesFailure`).
- An unknown channel tag is not rejected when the request arrives. Its row is opened, and the channel then fails with "Canal no soportado: <tag>" (`ChannelOutcome`).
- A PDF failure inside `process_notification` leaves the operation "running". Only the handlers mark it failed (`ProcessNotification`, `RunDetached`, `ProcessNow`).
- No status transition is refused, even out of "done" or "failed" (`NoTransitionGuard`).
- The temporary HTML file is not removed on the error paths (`TempFileLeaksOnError`).
- The status endpoint answers 404 for every failure, including a store that does not answer, because every error of `get_email_status` carries "Email operation not found" (`EmailStatusEndpoint`).
