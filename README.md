# flask-email, modelled in Dafny

This project models flask-email, a Flask extension that sends e-mail. Its core has two parts:

- the message container, `EmailMessage` in `flask_email/message.py`;
- the mail objects, which are backends that send a batch of messages.

The backends are:

- SMTP, in `flask_email/backends/smtp.py`;
- console, in `console.py`;
- local memory, in `locmem.py`;
- dummy, in `dummy.py`;
- their shared base class, in `base.py`.

What the model covers:

- **Messages.** The model shows how an `EmailMessage` is built from its keyword arguments. It covers the extension's compatibility layer: `charset`, `extra_headers`, `html`, tuple senders and `content_type`. It also covers how `message()` turns a message into a MIME tree and an ordered list of headers. The tree is a text part, optionally inside `multipart/alternative`, optionally inside `multipart/mixed`, as in RFC 2046.
- **The header guard.** Every header passes through `forbid_multi_line_headers`. That guard refuses CR and LF, and RFC 2047-encodes non-ASCII values. `sanitize_address` formats addresses.
- **The SMTP backend.** The model covers its `connection` attribute, `open`, `close`, `send_messages` and `_send`, and the `email_dispatched` signal that `_send` fires.
- **The console backend.** It writes each rendered message and a separator line to a stream.
- **The local-memory backend.** It appends whole batches to an outbox shared by all its instances.
- **The dummy backend.** It only counts.
- **The operations in `base.py`.** These are `send`, the `with` block, `send_mail`, `send_mass_mail`, `mail_admins`, `mail_managers` and `record_messages`, plus `EmailMessage.send`, which hands a message to its bound mail object.

Modules:

- `Outcomes` holds the exceptions that reach callers and a value-or-exception `Result`.
- `Traversal` is the "map a fallible step over a list, stop at the first exception" shape shared by every loop in the core.
- `AppConfig` holds the application configuration as `app.config.get` reads it.
- `HeaderGuard` is the guard and the address sanitizer.
- `Message` covers `message.py`.
- `BaseMail` holds the settings and the signal.
- `SmtpBackend`, `ConsoleBackend`, `LocmemBackend` and `DummyBackend` are the four backends.
- `Mailer` holds the `base.py` operations that go through whichever backend `self` is. A datatype over the four backend classes plays the role of Python's dynamic dispatch.

Classes stand for the objects whose attributes the source updates in place. These are `EmailMessage`, the four `Mail` classes, the signal with its `record_messages` blocks, the console stream and the package's shared `outbox`. Their methods are proved against specification functions on values:

- `Render` for `message()`;
- `SendBatch` for SMTP `send_messages`;
- `Output` and `Returned` for the console;
- `Delivered` for local memory;
- `Transition` for every backend.

The properties of the source are proved as lemmas about those functions.

Several outside services become parameters or oracle fields:

- the standard-library encoders and parsers: a `Library` value;
- the SMTP server: a `Network` value;
- the MIME generator behind `as_string()`: an `asString` function;
- the clock, process id, random number and host name that `make_msgid` and `formatdate` read.

## Where the classes run the corrected definitions

Three of the five findings below are source bugs in code that the classes run. For each of them, the classes and the operations built on them run the corrected definition. The code as written survives only in the `…AsWritten` members, which show each failure. So on the following inputs the operational layer describes the evidently intended behaviour, not what the source does:

- **`EmailMessage(headers=...)` or `EmailMessage(encoding=...)` without the compatibility keyword.** The constructor keeps the extra headers and the charset (`Construct`). As written, both are dropped (`ConstructAsWritten`). `tests/locmem.py:25` builds such a message.
- **An attachment stored with neither file name nor mime type, as `attach(content=...)` stores it.** `message()` builds an application/octet-stream part (`CreateAttachment`). As written, it raises `TypeError` (`CreateAttachmentAsWritten`).
- **A starttls or login failure, whether `fail_silently` is on or off.** `open()` leaves no connection (`OpenOutcome`). Under `fail_silently`, `send_messages` then returns `None` without sending. As written, the session was stored before the handshake and stays stored (`OpenOutcomeAsWritten`). Under `fail_silently`, `send_messages` sends over it (`SendBatchAsWritten`). Without `fail_silently`, `open()` raises, and the next `open()` returns False and reuses the failed session (`SmtpBackend.FailedHandshakeKeptAsWritten`).

The fourth finding, at `message.py:207`, is in the compatibility `attach`'s argument binding. `Message.EmailMessage.Attach` models the base `attach` after its arguments are bound: it takes the mime type as an argument. The binding itself is modelled by `Message.CompatMimetypeAsWritten` and `Message.CompatMimetype`.

The fifth finding, about `mail_admins` and `mail_managers`, has both halves as operations: `Mailer.BroadcastAsWritten` / `Mailer.BroadcastInBase` and `Mailer.Broadcast`.

## Where the model follows the code rather than the documented intent

- `EmailMessage.recipients()` is the compatibility layer's `list(self.send_to)`, because that class comes first in the method resolution order. So it has no duplicates. It is not `to + cc + bcc`. Python gives a set no order; the model lists each address where it first appears in to, bcc, cc.
- `_send` with no sender at all raises. `sanitize_address` cannot unpack `None`. The message is not skipped.
- SMTP `send_messages` returns `None`, not a count, in two cases: for an empty batch, and when `open()` failed silently. An exception from `_send` leaves before `close()`, so a session opened by that call stays open. There is no `finally` around the loop.
- Console `send_messages` wraps rendering in its bare `except`. Under `fail_silently`, a refused header is swallowed too, and the batch's full length is returned.
- `close()` with no connection raises unless `fail_silently`, because `None.quit()` fails inside the bare `except`. The `socket.sslerror` branch is modelled with Python 2's meaning.
- `extra_headers.get('From')` matches the key case-sensitively, while the copy loop skips `from` in any case. So a lower-case `from` extra header is dropped altogether.
- `sanitize_address` encodes the local part of a non-ASCII address as `str(Header(...))`. The model takes Python 2's meaning: an encoded word. On Python 3, `str()` of a header gives back the raw text.
- `EmailMessage.send(fail_silently)`, `send_mail(fail_silently=...)` and the local-memory backend do not consult `fail_silently`. `mail_admins` and `mail_managers` return `None`.

## Model

| member | source | states |
|---|---|---|
| HeaderGuard.SplitFirst | flask_email/message.py:91 | `split(c, 1)` exists exactly when `c` occurs; the parts rejoin to the input and the left part has no `c` |
| HeaderGuard.SplitFirstAt | flask_email/message.py:361 | the split happens at the first occurrence of the separator |
| HeaderGuard.SplitFirstJoin | flask_email/message.py:361 | splitting `a + c + b` with `c` not in `a` gives back `(a, b)` |
| HeaderGuard.SanitizeAddressCases | flask_email/message.py:77-97 | the display name is always encoded, in the message charset or in utf-8 when it is not encodable there; an ASCII address is kept; a non-ASCII address with '@' gets its local part encoded and its domain IDNA-converted, split at the first '@'; one without '@' is encoded whole |
| HeaderGuard.SanitizeKeepsLines | flask_email/message.py:77-97 | sanitizing a (name, address) pair without line breaks gives a formatted address whose name, local part, domain or whole address has none either |
| HeaderGuard.SanitizeAllKeepsLines | flask_email/message.py:109-111 | when `getaddresses` adds no line break, every address sanitized from a value without one has none |
| HeaderGuard.ForbidMultiLineHeaders | flask_email/message.py:100-117 | raises BadHeaderError exactly when the value holds CR or LF; otherwise no raw line break survives, in the sanitized addresses as well, given a `getaddresses` that adds none; ASCII values are kept except Subject, which is always encoded; non-ASCII values of address headers (any case) become sanitized address lists and others one encoded word in the effective charset |
| Message.Dedup | flask_email/message.py:195-198 | each element once, and exactly the elements of the input |
| Message.DistinctCard | flask_email/message.py:195-198 | a list without duplicates has as many elements as its set |
| Message.RecipientsEmpty | flask_email/message.py:295-299 | the emptiness test of `send()` on `recipients()` holds exactly when to + cc + bcc is empty |
| Message.RecipientsAreSendTo | flask_email/message.py:193-198 | `recipients()` lists each address of `send_to` exactly once, and is empty exactly when to + cc + bcc is |
| Message.CreateMimeAttachment | flask_email/message.py:357-370 | raises exactly when the mime type has no '/'; otherwise the type is main/sub split at the first '/'; a text main type gives a text part in the effective charset, any other a base64 part of that type |
| Message.ContentOnlyAttachmentFailsAsWritten | flask_email/message.py:377-378 | as written, an attachment with neither file name nor mime type makes `guess_type(None)` raise |
| Message.AttachmentTypeFallback | flask_email/message.py:377-391 | an explicit mime type wins, then the type guessed from the file name; without either the corrected attachment is an application/octet-stream part, with a Content-Disposition only for a non-empty file name |
| Message.OctetStreamPart | flask_email/message.py:58 | the default attachment type is not a text type: it yields a base64 application/octet-stream part |
| Message.MimeShape | flask_email/message.py:331-355 | with no alternatives and no attachments the root is the text body; with alternatives, a multipart/alternative of the body (when non-empty) and each alternative's part in order; with attachments, a multipart/mixed of that (when the body is non-empty) and each attachment in order |
| Message.BodyTreeFails | flask_email/message.py:331-370 | building the tree succeeds exactly when every alternative and every file attachment has a mime type containing '/' |
| Message.NamedInSpec | flask_email/message.py:277 | the header-name test holds exactly when some extra header's lower-cased name is the name |
| Message.KeptSpec | flask_email/message.py:282-285 | the copied extra headers are exactly those not named from or to in any case, and no more than were given |
| Message.KeptSnoc | flask_email/message.py:282-285 | one more turn of the copy loop adds the header exactly when it is kept |
| Message.KeptAppend | flask_email/message.py:282-285 | the copy loop over two consecutive parts of the dict is the two loops' results joined |
| Message.FixedHeadersUnfold | flask_email/message.py:265-281 | the fixed assignments are the eight segments in order |
| Message.HeaderOrder | flask_email/message.py:265-285 | the names of the assigned headers are exactly Subject, From, To, then Cc if cc is non-empty, Bcc if bcc is non-empty, Reply-To if it is set and non-empty, Date if no extra header is named date in any case, Message-ID if none is named message-id, in that order; then the kept extra headers in dict order |
| Message.FixedNamesLower | flask_email/message.py:268-281 | the fixed header names lower-case to names other than from and to |
| Message.FromAndToOnce | flask_email/message.py:266-267 | From and To take the extra header of exactly that key when present, else the sender and the joined to-list; no later header is named from or to in any case |
| Message.ExtraHeaderPlanned | flask_email/message.py:282-285 | every extra header other than from and to is assigned |
| Message.DateAndMessageIdPresent | flask_email/message.py:276-285 | every rendered message carries a Date and a Message-ID header, its own or an extra one |
| Message.RenderRejectsInjection | flask_email/message.py:125-127 | `message()` succeeds exactly when the tree builds and no assigned value holds CR or LF; then each header is the guard's output for the planned one, in order, with no raw line break (addresses included, given a `getaddresses` that adds none); otherwise the first offending header's BadHeaderError is raised |
| Message.ExtraRaised | flask_email/message.py:282-285 | an extra header refused by the guard ends `message()` with its error |
| Message.PlanRaised | flask_email/message.py:265-281 | a fixed header refused by the guard ends `message()` with its error |
| Message.FixedRaised | flask_email/message.py:265-281 | once a fixed assignment is refused, the later ones change nothing |
| Message.ResolveSender | flask_email/message.py:177-179 | a tuple sender becomes "name <address>"; an empty or missing sender falls back to DEFAULT_FROM_EMAIL |
| Message.BaseKeywordsDroppedAsWritten | flask_email/message.py:170-175 | as written, `headers=` and `encoding=` given alone are discarded; the corrected constructor keeps them |
| Message.ConstructedMessage | flask_email/message.py:170-180 | after construction, to/cc/bcc are the given lists or empty, a tuple sender is formatted, the charset is non-empty when the configured default is, a non-empty html body is the last alternative, and either spelling of the extra headers is kept |
| Message.PositionalMimetypeRejectedAsWritten | flask_email/message.py:206-208 | as written, a mimetype passed as third positional argument is bound twice and raises, although the base method accepts it |
| Message.CompatMimetypeAgreesWithBase | flask_email/message.py:206-208 | the corrected binding equals the base method's binding when no content_type is given, reads content_type when mimetype is absent, and agrees with the code as written on every call without a positional mimetype |
| Message.NatText | flask_email/message.py:49 | `str(n)` of a natural number is a non-empty string of decimal digits |
| Message.MakeMsgid | flask_email/message.py:28-50 | the id is enclosed in angle brackets and ends with '@' and the host name; with no whitespace in its inputs it holds no whitespace |
| Message.EmailMessage.constructor | flask_email/message.py:170-180 | the new message's attributes are the corrected constructor's result |
| Message.EmailMessage.AddRecipient | flask_email/message.py:200-201 | appends the recipient to `to` and changes nothing else |
| Message.EmailMessage.Attach | flask_email/message.py:303-316 | a MIME part is stored as is only when content and mimetype are None; a triple only when content is given; otherwise AssertionError and nothing changes |
| Message.EmailMessage.AttachAlternative | flask_email/message.py:325-329 | both arguments are required; the pair is appended and nothing else changes |
| Message.EmailMessage.SetHtml | flask_email/message.py:186-191 | every non-empty html value appends one more text/html alternative |
| Message.EmailMessage.CreateMessage | flask_email/message.py:331-332 | the tree is the specification tree of the message's attributes |
| Message.EmailMessage.CreateAlternatives | flask_email/message.py:347-355 | the loop builds the specification's multipart/alternative, stopping at the first bad mime type |
| Message.EmailMessage.CreateAttachments | flask_email/message.py:334-345 | the loop builds the specification's multipart/mixed, stopping at the first failing attachment |
| Message.EmailMessage.SetExtraHeaders | flask_email/message.py:282-285 | the extra-header loop completes the guarded header list of the whole plan |
| Message.CopyExtraHeaders | flask_email/message.py:282-285 | after any guarded prefix, the loop yields exactly the guard's outputs for the extra headers not named from or to in any case, in dict order, or the first refusal's error |
| Message.EmailMessage.Message | flask_email/message.py:262-286 | `message()` returns exactly the specification rendering of the message's attributes |
| Message.Values | flask_email/backends/smtp.py:113 | the attributes of each message of a batch, position by position |
| Message.SetHeader | flask_email/message.py:125-127 | one `msg[name] = value` extends the guarded header list by the guard's output or raises its error |
| Message.SetOptional | flask_email/message.py:268-281 | a conditional fixed assignment extends the guarded list only when its condition holds |
| Message.SetSubjectFromTo | flask_email/message.py:265-267 | Subject, From and To are guarded in that order |
| Message.SetCc | flask_email/message.py:268-269 | Cc is guarded only when the cc list is not empty |
| Message.SetBcc | flask_email/message.py:270-271 | Bcc is guarded only when the bcc list is not empty |
| Message.SetReplyTo | flask_email/message.py:272-273 | Reply-To is guarded only when set and not empty |
| Message.SetDate | flask_email/message.py:278-279 | Date is guarded only when no extra header is named date in any case |
| Message.SetMessageId | flask_email/message.py:280-281 | Message-ID is guarded only when no extra header is named message-id in any case |
| BaseMail.SettingsPrecedence | flask_email/backends/base.py:35-39 | an explicit fail_silently wins over MAIL_FAIL_SILENTLY, which wins over False; debug is on exactly when both the app and the argument ask for it |
| BaseMail.Signal.constructor | flask_email/backends/base.py:175-183 | the signal starts with no dispatches and no receivers |
| BaseMail.Signal.Send | flask_email/backends/base.py:180-183 | a dispatch appends the message once and leaves the receivers connected; the outbox of every open `record_messages` block on the signal gains exactly that message at its end |
| BaseMail.Recording.constructor | flask_email/backends/base.py:178-186 | entering `record_messages` connects a receiver whose outbox starts empty |
| BaseMail.Recording.Stop | flask_email/backends/base.py:185-188 | leaving the block disconnects the receiver and the outbox keeps what it recorded |
| BaseMail.OutboxGrows | flask_email/backends/base.py:180-181 | appending to the dispatch log appends the same messages to every outbox slice of it |
| BaseMail.RecordOne | flask_email/backends/base.py:161-188 | a `record_messages` block around one dispatch yields an outbox holding exactly that message, and the receiver is disconnected afterwards |
| SmtpBackend.SettingsFromConfig | flask_email/backends/smtp.py:29-48 | with no arguments, host is MAIL_HOST when non-empty else MAIL_SERVER, port defaults to 25, TLS and SSL default to off, and the credentials come from the configuration |
| SmtpBackend.FailedHandshakeKeptAsWritten | flask_email/backends/smtp.py:56-81 | as written, with fail_silently off, a starttls or login failure raises but keeps the session, so the next open() returns False; the corrected open stores nothing |
| SmtpBackend.OpenOutcome | flask_email/backends/smtp.py:51-81 | an existing session returns False and is kept; otherwise True exactly when connecting and the handshake succeed, and the new session is stored only then; a failure raises unless fail_silently, which returns None |
| SmtpBackend.HalfOpenSessionAsWritten | flask_email/backends/smtp.py:63-81 | as written, a failed starttls under fail_silently returns None but leaves the session stored; the corrected open leaves none |
| SmtpBackend.CloseOutcome | flask_email/backends/smtp.py:83-97 | close never raises under fail_silently; otherwise it raises exactly when there is no session or quit fails other than with an SSL error |
| SmtpBackend.SendOne | flask_email/backends/smtp.py:121-140 | `_send` returns True exactly when to is non-empty, a sender exists, the message renders and the server accepts it; an empty to-list returns False; under fail_silently only a missing sender or a rendering error raises; a refused sendmail returns False under fail_silently and raises TransportError otherwise |
| SmtpBackend.Dispatched | flask_email/backends/smtp.py:112-116 | the loop never sends more messages than the batch holds |
| SmtpBackend.DispatchedStops | flask_email/backends/smtp.py:113-116 | after an exception the rest of the batch is not attempted |
| SmtpBackend.DispatchedSnoc | flask_email/backends/smtp.py:113-116 | one more turn of the loop counts the message when `_send` returns True, or ends the batch with its exception |
| SmtpBackend.DispatchedSingle | flask_email/backends/smtp.py:113-116 | a batch of one is sent exactly when `_send` returns True and stopped by its exception |
| SmtpBackend.DispatchedAccepted | flask_email/backends/smtp.py:113-116 | every message counted as sent is one of the batch for which `_send` returned True |
| SmtpBackend.DispatchedCounts | flask_email/backends/smtp.py:112-116 | the loop runs to the end exactly when no `_send` raises, and then counts exactly the messages for which `_send` returned True |
| SmtpBackend.DispatchedFirstError | flask_email/backends/smtp.py:112-116 | the first `_send` that raises ends the loop with its exception, after counting exactly the earlier messages for which `_send` returned True |
| SmtpBackend.SendBatchCounts | flask_email/backends/smtp.py:99-119 | the count returned is the number of messages sent, at most the batch, and each was accepted |
| SmtpBackend.ConnectionAccounting | flask_email/backends/smtp.py:104-119 | an empty batch changes nothing; a session that was already open stays open; one opened by this call is closed again when the call returns normally, but stays open when a `_send` raises; a silent open failure sends nothing |
| SmtpBackend.HalfOpenSessionSendsAsWritten | flask_email/backends/smtp.py:104-119 | as written, the half-open session sends the message and stays open; with the corrected open nothing is sent |
| SmtpBackend.Mail.constructor | flask_email/backends/smtp.py:18-49 | the settings are those init_app derives from the configuration alone, with no connection |
| SmtpBackend.Mail.InitApp | flask_email/backends/smtp.py:18-49 | the settings follow the arguments, then the configuration, and there is no connection |
| SmtpBackend.Mail.Open | flask_email/backends/smtp.py:51-81 | the result and the stored session are those of the corrected open |
| SmtpBackend.Mail.Close | flask_email/backends/smtp.py:83-97 | the result is the specification's and the connection is None afterwards in every case |
| SmtpBackend.Mail.Send | flask_email/backends/smtp.py:121-140 | the result is `_send`'s, and the signal fires exactly when it returns True |
| SmtpBackend.Mail.SendNext | flask_email/backends/smtp.py:114-116 | one turn of the loop matches the loop specification and fires the signal only for a message sent |
| SmtpBackend.Mail.SendAll | flask_email/backends/smtp.py:112-116 | the count and the dispatch log are those of the loop specification |
| SmtpBackend.Mail.SendMessages | flask_email/backends/smtp.py:99-119 | the result, the connection afterwards and the messages dispatched are those of the batch specification; the settings do not change |
| ConsoleBackend.Block | flask_email/backends/console.py:23-25 | one message writes its text, a line break, 79 dashes and a line break |
| ConsoleBackend.Blocks | flask_email/backends/console.py:22-26 | the blocks of a batch take the texts' lengths plus 81 characters per message |
| ConsoleBackend.OutputIsRenderedBlocks | flask_email/backends/console.py:22-31 | the loop writes every block in batch order exactly when every message renders; otherwise it reports the first rendering exception |
| ConsoleBackend.OutputSnoc | flask_email/backends/console.py:22-26 | one more turn writes that message's block or ends the loop with its exception |
| ConsoleBackend.OutputPrefix | flask_email/backends/console.py:22-26 | what a shorter batch wrote is a prefix of what the whole batch writes |
| ConsoleBackend.Returned | flask_email/backends/console.py:15-34 | an empty batch returns None; otherwise the batch's length, also after a swallowed exception; it raises exactly when fail_silently is off and a message fails to render |
| ConsoleBackend.Stream.constructor | flask_email/backends/console.py:11 | a stream starts empty |
| ConsoleBackend.Stream.Write | flask_email/backends/console.py:23-25 | writing appends the text |
| ConsoleBackend.Stream.Flush | flask_email/backends/console.py:26 | flushing covers everything written |
| ConsoleBackend.Mail.constructor | flask_email/backends/console.py:10-13 | the stream is the given one, and fail_silently and debug follow init_app |
| ConsoleBackend.Mail.Open | flask_email/backends/base.py:47-63 | the inherited open returns None |
| ConsoleBackend.Mail.WriteAll | flask_email/backends/console.py:22-26 | the stream receives the loop specification's text, flushed after each message |
| ConsoleBackend.Mail.SendMessages | flask_email/backends/console.py:15-34 | the result and the stream text are those of the specification; anything written is flushed; the lock is released on every path |
| LocmemBackend.Package.constructor | flask_email/backends/locmem.py:20-21 | the package has no outbox until some init_app creates one |
| LocmemBackend.DeliveredAllOrNothing | flask_email/backends/locmem.py:23-28 | the batch is appended whole, as the message objects in batch order, exactly when every message renders and the outbox exists, and the batch's length is returned; otherwise the outbox is unchanged and the first rendering exception is raised |
| LocmemBackend.DeliveredOne | flask_email/backends/locmem.py:23-28 | a message that renders is appended to an existing outbox and counted once |
| LocmemBackend.Mail.constructor | flask_email/backends/locmem.py:18-21 | init_app creates the shared outbox only when it does not exist and never empties one |
| LocmemBackend.Mail.InitApp | flask_email/backends/locmem.py:18-21 | a later init_app follows the same rules |
| LocmemBackend.Mail.SendMessages | flask_email/backends/locmem.py:23-28 | the result and the outbox afterwards are those of the all-or-nothing specification |
| LocmemBackend.SharedOutbox | tests/locmem.py:19-28 | two instances sending one message each leave two entries in the one outbox |
| DummyBackend.Mail.constructor | flask_email/backends/base.py:24-39 | fail_silently and debug follow the inherited init_app |
| DummyBackend.Mail.SendMessages | flask_email/backends/dummy.py:7-8 | the batch's length is returned, without rendering anything |
| Mailer.EmptyBatch | flask_email/backends/smtp.py:104-105 | an empty batch returns None on SMTP and the console and changes nothing; dummy returns 0; local memory returns 0 when the outbox exists |
| Mailer.WithBlock | flask_email/backends/base.py:69-79 | inside `with mail:` on SMTP, a session opened by `__enter__` is used and kept by every send and closed by `__exit__`; the other backends' enter and exit change nothing |
| Mailer.SendMessages | flask_email/backends/base.py:86-91 | `send_messages` of any backend follows that backend's specification |
| Mailer.Send | flask_email/backends/base.py:81-84 | `send(m)` is `send_messages` on the batch of that one message |
| Mailer.SingleMessage | flask_email/backends/base.py:81-82 | one message is counted on the dummy backend, and appended on local memory when it renders |
| Mailer.SingleMessageSmtp | flask_email/backends/smtp.py:112-119 | over an open session, one message is counted and logged exactly when `_send` returns True, and its exception propagates with the log unchanged |
| Mailer.SingleMessageConsole | flask_email/backends/console.py:22-34 | one message that renders writes its block and returns 1 |
| Mailer.Enter | flask_email/backends/base.py:69-76 | `__enter__` and `connect()` open the backend and return it; an exception from open propagates |
| Mailer.Exit | flask_email/backends/base.py:78-79 | `__exit__` closes the backend |
| Mailer.SendEmail | flask_email/message.py:295-301 | no recipients returns 0 and leaves the backend alone; otherwise the bound mail object's `send_messages` decides, and with no connection the call fails |
| Mailer.SendMail | flask_email/backends/base.py:93-106 | builds one message from the arguments and sends it through `send()` on this mail object |
| Mailer.MassValues | flask_email/backends/base.py:122-124 | one constructed message per tuple, in tuple order |
| Mailer.MassMessages | flask_email/backends/base.py:122-124 | one fresh message per tuple, whose attributes are those of the positional constructor |
| Mailer.SendMassMail | flask_email/backends/base.py:108-125 | the messages of the datatuple go out as one batch and its result is returned |
| Mailer.Addresses | flask_email/backends/base.py:138 | the second element of each configured pair, in order |
| Mailer.BroadcastShape | flask_email/backends/base.py:137-141 | the subject is the prefix ('[Flask] ' by default) and the subject, the sender SERVER_EMAIL; the message goes to the listed addresses only; a non-empty html body is its one text/html alternative |
| Mailer.Broadcast | flask_email/backends/base.py:128-159 | nothing is built or sent when the list is absent or empty; otherwise the broadcast message goes through send() and only its exception is passed on |
| Mailer.BroadcastAsWritten | flask_email/backends/base.py:133 | as written, the unbound name `app` raises NameError before anything is built or sent |
| Mailer.AppUnboundInBase | flask_email/backends/base.py:1-11 | `app` is not among the names base.py binds |
| Mailer.BroadcastInBase | flask_email/backends/base.py:128-159 | with base.py's own globals, every call of mail_admins or mail_managers raises NameError and changes nothing, whatever the configuration |

## Left out

- SMTP protocol details are modelled as a `Network` value that says whether each step succeeds. These are smtplib's `SMTP`/`SMTP_SSL`, `ehlo`, `starttls`, `login`, `sendmail` and `quit`, plus `set_debuglevel` and `DNS_NAME.get_fqdn()`. The bytes `force_bytes(message.as_string(), charset)` put on the wire are not modelled. The server's answer is a function of the envelope and the rendered document.
- MIME serialization is not modelled: `as_string()`, the `Generator` workaround for old Python versions, base64 and quoted-printable encoding, and the RFC 2231 form of a non-ASCII file name. A document is its tree and its header list.
- Standard-library encoders and parsers are not modelled; they are uninterpreted: `Header(...).encode()`, IDNA, `formataddr`, `parseaddr`, `getaddresses`, `mimetypes.guess_type` and `formatdate`.
- Lower: only ASCII letters are lower-cased. Python's `str.lower()` also folds other letters.
- The reentrant locks of the SMTP and console backends are not modelled. Concurrency is outside a sequential model. The console keeps only a counter of acquisitions.
- `make_msgid`'s clock, process id, random number and host name are arguments. So is the Jython fallback of the process id to 1.
- `attach_file` reads the file system, and `FlaskEmailMessageCompat.as_string`/`__str__` serialize, so neither is modelled. `flask_email/backends/rest.py`, `flask_email/exceptions.py`, `flask_email/signals.py`, `flask_email/utils.py` and `flask_email/encoding.py` are not part of this model.
- The registration `app.extensions['email'] = self` and `self.app` are not modelled. The `app` argument that `email_dispatched.send` receives is not modelled either.
- `Mail()` without an application skips init_app. That state is not modelled. Every constructor runs init_app.
- Aliasing is not modelled. `BaseEmailMessage.__init__` keeps the caller's own `attachments`, `alternatives` and `headers` objects, because `x or []` does not copy. So the html setter, `attach` and `attach_alternative` append into the caller's list. The model holds these collections as values, so a change through one message is not seen through the caller's list or through another message that shares it.
- Message.EmailMessage.constructor: follows the corrected constructor. As written, `headers=` or `encoding=` given alone is lost (`Message.ConstructAsWritten`).
- Message.EmailMessage.Message: follows the corrected `_create_attachment`. As written, an attachment with neither file name nor mime type raises (`Message.CreateAttachmentAsWritten`).
- SmtpBackend.Mail.Open: follows the corrected open. As written, a starttls or login failure keeps the session, with `fail_silently` on or off (`SmtpBackend.OpenOutcomeAsWritten`).
- SmtpBackend.Mail.SendMessages: follows the corrected open. As written, the half-open session is used and left open (`SmtpBackend.SendBatchAsWritten`).
- Mailer.Enter, Mailer.SendMessages, Mailer.Send, Mailer.SendEmail, Mailer.SendMail, Mailer.SendMassMail, Mailer.WithBlock and Mailer.Broadcast: they follow the same three corrected definitions through `Mailer.Transition` and `Mailer.Opened`.
- An `EmailMessage` keeps its `connection`. In the model, `Mailer.SendEmail` receives it as an argument.
- An exception raised inside a `with mail:` block and `record_messages` block is not modelled. Neither is `RuntimeError` without blinker.
- `to`, `cc`, `bcc` and the datatuple's recipient list are sequences by their type. The assertion against a bare string therefore always holds and is not modelled.
- Recipients: a Python set has no specified order, so `list(self.send_to)` is modelled with each address at its first appearance in to, bcc, cc.
- The extra headers are a dict, modelled as a list of pairs in its iteration order. Two entries with the same key are not excluded.
- SmtpBackend.Mail.Send requires an open connection. It is only called from `send_messages` after the connection check.
- ConsoleBackend.Mail.SendMessages: the stream's `open()`/`close()` pair is the inherited no-op, so close is never reached.
- Mailer.SendMassMail: it states the values sent, not the attributes of the message objects after the call.
- Mailer.Broadcast: it states only whether the `send()` it calls raised. `mail_admins` discards the count.
- The generic `Traversal` lemmas are helpers for every loop of the core and have no row of their own.

## Findings

| source | as written | input that shows it | evidently intended | confidence | as-written member | corrected member |
|---|---|---|---|---|---|---|
| flask_email/backends/base.py:133 | `mail_admins` and `mail_managers` read a global `app` that base.py never binds | any call, e.g. `mail.mail_admins('s', 'm')` with ADMINS set | read the application the mail object was initialised with | not executed | Mailer.BroadcastAsWritten | Mailer.Broadcast |
| flask_email/message.py:171-173 | the compatibility constructor overwrites `encoding` and `headers` with the popped `charset` and `extra_headers`, which are None when absent | `EmailMessage(headers={'From': 'a@b'}, encoding='latin-1')` keeps no extra header and the default charset | `charset`/`extra_headers` as aliases of the base keywords | not executed | Message.BaseKeywordsDroppedAsWritten | Message.ConstructedMessage |
| flask_email/message.py:207 | `setdefault('mimetype', ...)` always adds a `mimetype` keyword | `msg.attach('a.txt', 'data', 'text/plain')` binds mimetype twice and raises TypeError | `content_type` as an alias, positional calls bound as in the base method | not executed | Message.PositionalMimetypeRejectedAsWritten | Message.CompatMimetypeAgreesWithBase |
| flask_email/message.py:377-378 | `mimetypes.guess_type(filename)` is called with `None` when only content is given | `msg.attach(content='data')`, then `message()` | fall back to application/octet-stream | not executed | Message.ContentOnlyAttachmentFailsAsWritten | Message.AttachmentTypeFallback |
| flask_email/backends/smtp.py:63-81 | `self.connection` is assigned before starttls and login, so a failure there leaves a half-open session, with or without fail_silently | fail_silently and use_tls with a server refusing STARTTLS: `send_messages([m])` sends over the session and never closes it | a failed open leaves no connection, and nothing is sent | not executed | SmtpBackend.HalfOpenSessionSendsAsWritten | SmtpBackend.OpenOutcome |
