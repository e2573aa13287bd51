# Specroll contact-form relay — a Dafny model

The relay takes a contact-form submission (name, email, phone, topic,
message) and sends two mails through an SMTP transport: a notification to
the administrators and a confirmation to the submitter. The repository
holds two variants of it, and both are modelled:

- the Express server (`server.js`): checks that the five fields are truthy,
  sends the notification first and the confirmation second, and answers
  200, 400 or 500;
- the Nest application: `validateConfig` refuses to start without the six
  SMTP/recipient settings; `EmailService` checks the connection before each
  send and builds exactly one envelope per send; `EmailController` does no
  field checks, sends the confirmation first and the notification second,
  and turns any error into a 502 carrying the error's message.

The nodemailer transport is an oracle (`Mailer.Transporter`): its answer to
the n-th `sendMail` and the n-th `verify` is fixed in advance, and it records
every envelope handed to `sendMail`, including those whose delivery fails.
Each handler is an imperative method over that object, proved equal to a
pure run function (`Server.HandleRun`, `Controller.HandleRun`) that returns
the response and what the transport saw; the lemmas about the run functions
state the ordering, short-circuit and status properties for every oracle.

Files: `wrappers.dfy` (Option, Result, record lookup), `js_string.dfy`
(`split`/`join`/`includes` on strings), `settings.dfy` (the configuration
record and the sender setting both variants read), `template.dfy` (HTML template
literals), `mailer.dfy` (envelopes and the transport), `http.dfy`
(responses), `app_module.dfy`, `server.dfy`, `email_service.dfy`,
`email_controller.dfy`.

Behaviour worth knowing, as the code has it:

- The Nest handler is a `@Post` route without `@HttpCode`, so its success
  answer is 201, not 200; the model says 201.
- The Express 500 body is `{"error": "Failed to send message"}` and carries
  no cause; only the Nest 502 carries `details`.
- If `RECIPIENT_EMAILS` (Express) or `NOTIFICATION_EMAILS` (Nest) is unset,
  `.split` on `undefined` throws inside the `try`: 500, respectively 502 with
  the TypeError's message, and no mail is attempted. After a successful
  `validateConfig` the Nest setting is always present
  (`Controller.ValidatedConfigHasRecipients`).
- Recipient lists are split on `,` with no trimming, and the notification's
  `to` is the re-joined list, i.e. the setting verbatim.
- Fields are interpolated into the HTML bodies unescaped.
- `Controller.UndefinedSplitError` is the TypeError message of the V8 engine
  as Node.js 16.9 and later words it; the wording is the engine's, not the
  relay's, and other engines or older Node.js versions phrase it differently.
  Only the 502's `details` depends on it.
- The Express handler never runs a connection check, while every Nest send
  is preceded by one; the transport's log of calls records both, so the
  difference is stated on `Server.HandleRun` and
  `Controller.CheckBeforeEverySend`.

## Model

| member | source | states |
|---|---|---|
| `JsString.JoinSplit` | server.js:34-37 | joining the comma-split recipient setting with `,` gives back the setting character for character |
| `JsString.SplitCount` | src/email/email.controller.ts:29-31 | splitting yields exactly one more part than there are commas |
| `JsString.Join` | src/email/email.service.ts:149 | `join(',')` of at least one comma-free recipient splits back into exactly those recipients, so one `to` string addresses exactly them |
| `JsString.Split` | src/email/email.controller.ts:29-31 | `split(',')` returns at least one part and no part contains a comma |
| `Template.Render` | server.js:39-66 | every piece of a template literal, fixed text or substituted field, occurs in the rendered body |
| `Template.Prefixed` | server.js:38 | a notification subject is the fixed prefix followed by the topic |
| `Template.PrefixedNamesTopic` | src/email/email.service.ts:150 | behind the same prefix, different topics give different subjects, so the subject tells the topic |
| `Template.RenderShowsField` | server.js:39-47 | every field a body template refers to occurs in the rendered HTML verbatim, markup characters included (no escaping) |
| `Template.RenderUsesOnlySlots` | src/email/email.service.ts:55-121 | a rendered body depends on the fields its template refers to and on no others |
| `AppModule.FirstMissing` | src/app.module.ts:15-19 | finds the first required key that is absent or empty, every key before it being present; none exactly when all are present |
| `AppModule.Validate` | src/app.module.ts:5-21 | succeeds iff all six required keys are truthy, returns the config unchanged, and otherwise fails with the message naming the first missing key in list order |
| `AppModule.ValidateConfig` | src/app.module.ts:14-20 | the loop over the required keys, throwing at the first missing one, gives exactly `Validate`'s result |
| `AppModule.FirstMissingUnique` | src/app.module.ts:15-18 | the first missing key is unique, so the error reported is determined by the config |
| `AppModule.ValidateUsesTruthinessOnly` | src/app.module.ts:16 | two configs whose required keys are truthy alike validate alike, with the same error |
| `AppModule.OtherKeysIrrelevant` | src/app.module.ts:6-15 | setting or removing a key outside the required list never changes the outcome or the error |
| `AppModule.MissingMessageNamesKey` | src/app.module.ts:17 | different missing keys give different error messages |
| `Mailer.Transporter.constructor` | server.js:14-22 | a fresh transport has attempted nothing, run no check and logged nothing, so its record and log agree |
| `Mailer.SendStepAgrees` | server.js:35 | a `sendMail` call adds the same envelope to the record of attempts and, as a send, to the log |
| `Mailer.VerifyStepAgrees` | src/email/email.service.ts:32 | a `verify` call logs a check and leaves the record of attempts and the sends in the log alike |
| `Mailer.Transporter.SendMail` | server.js:35-48 | `sendMail` records the envelope, logs the send and settles as the relay answers that call |
| `Mailer.Transporter.Verify` | src/email/email.service.ts:32 | `verify` sends nothing, counts one check, logs it with its answer and settles as the relay answers it |
| `Server.AllFieldsPresent` | server.js:29 | validation passes exactly when each of the five fields is defined and non-empty |
| `Server.NotificationHtmlSlots` | server.js:39-47 | the notification body substitutes name, email, phone, topic and message |
| `Server.ConfirmationHtmlSlots` | server.js:55-66 | the confirmation body substitutes name, topic and message, and not email or phone |
| `Server.AdminNotification` | server.js:35-48 | the notification is from `SMTP_FROM`, to the recipient string, with the topic subject and all five fields verbatim in the body |
| `Server.ClientConfirmation` | server.js:51-67 | the confirmation is from `SMTP_FROM`, to the submitted email, with the fixed subject and name, topic and message verbatim in the body |
| `Server.HandleRun` | server.js:24-74 | the answer is the 200, 400 or 500 body; a request only appends to the transport's record, at most two envelopes, each logged as a send, and runs no connection check |
| `Server.HandleContact` | server.js:24-74 | the handler's response and the transport's new record are those of `HandleRun` |
| `Server.BadRequestIffFieldMissing` | server.js:29-31 | 400 `All fields are required` is answered exactly when a field is missing or empty, and then nothing is sent |
| `Server.NotificationThenConfirmation` | server.js:33-67 | a valid request first mails the administrators at the configured recipient string; if that succeeds, exactly the confirmation follows |
| `Server.FirstFailureStopsSecond` | server.js:33-73 | when the notification fails, the confirmation is never attempted and the answer is 500 `Failed to send message` |
| `Server.OkIffBothSent` | server.js:69-73 | 200 is answered exactly when both sends succeeded; the only answers are the 200, 400 and 500 bodies |
| `Server.RecordMatchesLog` | server.js:35-67 | after a request, the record of attempts is still exactly the sends in the transport's log, in order |
| `Server.NoRecipientsNoMail` | server.js:34 | an unset `RECIPIENT_EMAILS` gives 500 before any mail is attempted |
| `Server.SampleSubmission` | server.js:24-74 | the sample submission against an accepting relay gives 200 and two envelopes: topic in the first subject, "Specroll" in the second, to the submitter |
| `Server.SampleSubjects` | server.js:38-54 | the sample subjects contain "Pricing" and "Specroll" |
| `Service.ConfirmationHtmlSlots` | src/email/email.service.ts:55-121 | the confirmation body substitutes name, topic and message, and not email or phone |
| `Service.NotificationHtmlSlots` | src/email/email.service.ts:151-159 | the notification body substitutes all five fields |
| `Service.ConfirmationEnvelope` | src/email/email.service.ts:51-122 | from `SMTP_FROM`, to the given address, subject `Dziękujemy za kontakt ze Specroll`, name, topic and message verbatim in the body |
| `Service.NotificationEnvelope` | src/email/email.service.ts:147-160 | one envelope whose `to` splits back into the recipient list, the topic subject, and all five fields verbatim in the body |
| `Service.CheckedSend` | src/email/email.service.ts:41-131 | each send runs one connection check first; a failed check aborts with its own error and sends nothing; otherwise exactly one envelope is attempted, directly after the passed check in the log, and its failure is passed on unchanged; the log gains exactly the check with its answer and, after a passed check, the send of that envelope |
| `Service.CheckedSendAgrees` | src/email/email.service.ts:141-149 | a checked send adds to the log of calls exactly the envelope it adds to the record of attempts |
| `Service.EmailService.constructor` | src/email/email.service.ts:10-27 | the service holds the given configuration and transport |
| `Service.EmailService.VerifyConnection` | src/email/email.service.ts:30-39 | the check's result, failure rethrown unchanged, and one check recorded |
| `Service.EmailService.SendConfirmationEmail` | src/email/email.service.ts:41-131 | the result and the transport's new record are `CheckedSend` of the confirmation envelope |
| `Service.EmailService.SendNotificationEmail` | src/email/email.service.ts:133-171 | the result and the transport's new record are `CheckedSend` of the notification envelope |
| `Controller.BadGateway` | src/email/email.controller.ts:56-63 | any error becomes a 502 whose body repeats the status, says `Failed to send emails` and carries the error's message as `details`; it is never the success answer |
| `Controller.Confirmation` | src/email/email.controller.ts:35-40 | the confirmation goes from `SMTP_FROM` to the submitted email with the fixed subject, and its body holds the submitted name, topic and message |
| `Controller.Notification` | src/email/email.controller.ts:44-51 | the notification goes from `SMTP_FROM` to a `to` that splits back into the recipient list, with the topic subject and all five submitted fields in the body |
| `Controller.HandleRun` | src/email/email.controller.ts:26-65 | the answer is the 201 body or a 502 with some error's message; a run only appends to the transport's record, with at most two checks and no more envelopes than checks |
| `Controller.EmailController.constructor` | src/email/email.controller.ts:21-24 | the controller holds the given service and configuration |
| `Controller.EmailController.HandleContactForm` | src/email/email.controller.ts:26-65 | the handler's response and the transport's new record are those of `HandleRun` |
| `Controller.RecipientsFromSetting` | src/email/email.controller.ts:29-31 | the recipient list has one entry more than the setting has commas, and the notification's `to` is the setting itself |
| `Controller.SplitKeepsBlanks` | src/email/email.controller.ts:29-31 | `"a, b"` splits into `"a"` and `" b"`: no trimming |
| `Controller.ConfirmationBeforeNotification` | src/email/email.controller.ts:27-51 | for any form, empty fields included, the confirmation to the submitted email is attempted first; the notification to the configured recipients follows only after it succeeded |
| `Controller.ConfirmationFailureStops` | src/email/email.controller.ts:35-63 | a failed confirmation check or send stops the run before the notification; the answer is a 502 with that error's message |
| `Controller.NotificationFailureIs502` | src/email/email.controller.ts:44-63 | a failed notification check or send is a 502 with that error's message |
| `Controller.CreatedIffAllSucceeded` | src/email/email.controller.ts:53-63 | success is answered exactly when both checks and both sends succeeded; every other run is a 502 `Failed to send emails` |
| `Controller.CheckBeforeEverySend` | src/email/email.service.ts:141-149 | in the calls a run adds to the transport's log, every `sendMail` directly follows a `verify` that passed; a log that kept this rule before the run keeps it after |
| `Controller.RecordMatchesLog` | src/email/email.controller.ts:35-51 | after a run, the record of attempts is still exactly the sends in the transport's log, in order |
| `Controller.ValidatedConfigHasRecipients` | src/app.module.ts:12-18 | a configuration that passed start-up validation has a non-empty `NOTIFICATION_EMAILS` |
| `Controller.SampleSubmission` | src/email/email.controller.ts:26-65 | the sample submission against an accepting relay succeeds with two envelopes: to the submitter with "Specroll" in the subject, then to the recipients with the topic in the subject |
| `Controller.SampleSubjects` | src/email/email.service.ts:54 | the sample subjects contain "Specroll" and "Pricing" |

## Left out

- nodemailer itself (`createTransport`, the SMTP dialogue, TLS, authentication): the transport is an oracle answering each call with success or an error message.
- Transport construction options (`host`, `port`, `secure`, `auth`) in `server.js` and the `EmailService` constructor: configuration handed to a foreign library.
- Logging (`Logger`, `console.log`, `console.error`), dotenv loading, CORS, routing, JSON body parsing and `src/main.ts`: plumbing without decisions.
- `async`/`await`: the awaited calls are modelled as sequential calls; nothing runs concurrently within a request.
- The static HTML text: the templates keep their visible text and every interpolation, but not the inline styles, whitespace, contact block, opening-hours block ("Godziny otwarcia") and footer links of the Nest confirmation.
- Non-string JSON values in the Express request body (`0`, `false`, objects): fields are either absent or strings.
- Controller.ContactFormDto: fields are the strings the DTO declares; a field missing from the JSON body (rendered as `undefined` and passed to `sendMail` as an undefined `to`) is not modelled.
- `ConfigService.get` falling back to `process.env`: the configuration is one string-to-string map. Its type arguments (`get<number>('SMTP_PORT')`) convert nothing, so every value stays the environment's string.
- `AppModule.Validate` is a string-to-string record; `validateConfig` applied to non-string values (which dotenv never produces) is not modelled.
- Nest's exception filter: the 502 is modelled by the body the handler builds, not by how Nest serializes an `HttpException`.
