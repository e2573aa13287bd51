/**
 * The Nest variant's `EmailController.handleContactForm`: no field checks;
 * the confirmation to the submitter first, then the notification to the
 * configured recipients; any error becomes a 502 that carries its message.
 */
module Controller {
  import opened Wrappers
  import opened JsString
  import opened Mailer
  import opened Http
  import opened Service
  import opened Settings
  import AppModule

  /** The request body as the DTO declares it: five strings, passed on as received. */
  datatype ContactFormDto = ContactFormDto(name: string, email: string, phone: string, topic: string, message: string)

  const RecipientsVar := "NOTIFICATION_EMAILS"

  /** The message of the TypeError raised by calling `split` on `undefined`. */
  const UndefinedSplitError := "Cannot read properties of undefined (reading 'split')"

  /** The handler's return value; Nest answers a `@Post` handler with 201 unless told otherwise. */
  const Created := Response(201, map["message" := JStr("Emails sent successfully")])

  /**
   * The `HttpException` thrown for any error: status 502, repeated in the body,
   * with the error's message as `details`, so the cause reaches the client.
   */
  function BadGateway(details: string): (r: Response)
    ensures r.status == 502 && "status" in r.body && r.body["status"] == JNum(r.status)
    ensures "error" in r.body && r.body["error"] == JStr("Failed to send emails")
    ensures "details" in r.body && r.body["details"] == JStr(details)
    ensures r != Created
  {
    Response(502, map["status" := JNum(502), "error" := JStr("Failed to send emails"), "details" := JStr(details)])
  }

  /** The confirmation the handler asks for: to the submitter, with their name, topic and message in the body. */
  function Confirmation(serviceConfig: Config, form: ContactFormDto): (e: Envelope)
    ensures e.from == Lookup(serviceConfig, FromVar) && e.to == form.email
    ensures e.subject == ConfirmationSubject
    ensures Includes(e.html, form.name) && Includes(e.html, form.topic) && Includes(e.html, form.message)
  {
    ConfirmationEnvelope(serviceConfig, form.email, form.name, form.topic, form.message)
  }

  /** The notification the handler asks for: to the recipient list, with all five fields in the body. */
  function Notification(serviceConfig: Config, recipientEmails: seq<string>, form: ContactFormDto): (e: Envelope)
    ensures e.from == Lookup(serviceConfig, FromVar)
    ensures |recipientEmails| >= 1 && (forall i :: 0 <= i < |recipientEmails| ==> ',' !in recipientEmails[i])
      ==> Split(e.to, ',') == recipientEmails
    ensures e.subject == NotificationSubject(form.topic)
    ensures Includes(e.html, form.name) && Includes(e.html, form.email) && Includes(e.html, form.phone)
    ensures Includes(e.html, form.topic) && Includes(e.html, form.message)
  {
    NotificationEnvelope(serviceConfig, recipientEmails, form.name, form.email, form.phone, form.topic, form.message)
  }

  /**
   * One run of the handler: the response and what the transport saw. The
   * answer is the success body or a 502 carrying some error's message; the
   * run only appends to the transport's record, at most two checks and at
   * most as many envelopes as checks.
   */
  function HandleRun(config: Config, serviceConfig: Config, o: Oracle, s: Session, form: ContactFormDto)
    : (r: (Response, Session))
    ensures r.0 == Created || exists details :: r.0 == BadGateway(details)
    ensures s.attempts <= r.1.attempts && s.log <= r.1.log
    ensures |r.1.attempts| - |s.attempts| <= r.1.verifies - s.verifies <= 2
  {
    if RecipientsVar !in config then (BadGateway(UndefinedSplitError), s)
    else
      var recipientEmails := Split(config[RecipientsVar], ',');
      var (first, s1) := CheckedSend(o, s, Confirmation(serviceConfig, form));
      if first.Failed? then (BadGateway(first.message), s1)
      else
        var (second, s2) := CheckedSend(o, s1, Notification(serviceConfig, recipientEmails, form));
        if second.Failed? then (BadGateway(second.message), s2) else (Created, s2)
  }

  class EmailController {
    const emailService: EmailService
    const config: Config

    constructor (emailService: EmailService, config: Config)
      ensures this.emailService == emailService && this.config == config
    {
      this.emailService := emailService;
      this.config := config;
    }

    /** `handleContactForm`. */
    method HandleContactForm(form: ContactFormDto) returns (res: Response)
      modifies emailService.transporter
      ensures (res, emailService.transporter.State())
        == HandleRun(config, emailService.config, emailService.transporter.oracle,
                     old(emailService.transporter.State()), form)
    {
      if RecipientsVar !in config {
        return BadGateway(UndefinedSplitError);
      }
      var recipientEmails := Split(config[RecipientsVar], ',');
      var first := emailService.SendConfirmationEmail(form.email, form.name, form.topic, form.message);
      if first.Failed? {
        return BadGateway(first.message);
      }
      var second := emailService.SendNotificationEmail(
        recipientEmails, form.name, form.email, form.phone, form.topic, form.message);
      if second.Failed? {
        return BadGateway(second.message);
      }
      return Created;
    }
  }

  /**
   * The recipient setting is split on commas without trimming: one part more
   * than there are commas, and the notification's `to` is the setting itself.
   */
  lemma {:induction false} RecipientsFromSetting(serviceConfig: Config, setting: string, form: ContactFormDto)
    ensures |Split(setting, ',')| == Count(setting, ',') + 1
    ensures Notification(serviceConfig, Split(setting, ','), form).to == setting
  {
    SplitCount(setting, ',');
    JoinSplit(setting, ',');
  }

  /**
   * Two comma-free addresses split back into exactly those two, blanks and
   * all: `"a@x.com, b@x.com"` gives `"a@x.com"` and `" b@x.com"`.
   */
  lemma {:induction false} SplitKeepsBlanks(a: string, b: string)
    requires ',' !in a && ',' !in b
    ensures Split(a + "," + b, ',') == [a, b]
  {
    var tail := "," + b;
    assert a + "," + b == a + tail;
    SplitFree(b, ',');
    assert tail[1..] == b;
    assert Split(tail, ',') == [""] + Split(b, ',');
    SplitPrefix(a, tail, ',');
    assert a + "" == a;
  }

  /**
   * Whatever the form holds, empty strings included, the first envelope
   * attempted is the confirmation to the submitter; the notification follows
   * only once the confirmation was accepted, and then nothing else is sent.
   */
  lemma {:induction false} ConfirmationBeforeNotification(config: Config, serviceConfig: Config, o: Oracle,
                                                          s: Session, form: ContactFormDto)
    requires RecipientsVar in config && o.verify(s.verifies).Sent?
    ensures var r := HandleRun(config, serviceConfig, o, s, form);
      && |r.1.attempts| > |s.attempts|
      && r.1.attempts[|s.attempts|] == Confirmation(serviceConfig, form)
      && r.1.attempts[|s.attempts|].to == form.email
      && (o.send(|s.attempts|).Sent? && o.verify(s.verifies + 1).Sent? ==>
            && r.1.attempts == s.attempts + [Confirmation(serviceConfig, form),
                                             Notification(serviceConfig, Split(config[RecipientsVar], ','), form)]
            && r.1.attempts[|s.attempts| + 1].to == config[RecipientsVar])
  {
    var confirmation := Confirmation(serviceConfig, form);
    var notification := Notification(serviceConfig, Split(config[RecipientsVar], ','), form);
    var (first, s1) := CheckedSend(o, s, confirmation);
    assert s1.attempts == s.attempts + [confirmation];
    if first.Sent? {
      var (_, s2) := CheckedSend(o, s1, notification);
      assert HandleRun(config, serviceConfig, o, s, form).1 == s2;
      if o.verify(s1.verifies).Sent? {
        assert s2.attempts == s.attempts + [confirmation, notification];
        RecipientsFromSetting(serviceConfig, config[RecipientsVar], form);
      }
    } else {
      assert HandleRun(config, serviceConfig, o, s, form).1 == s1;
    }
  }

  /** If the confirmation's check or send fails, the notification is never attempted; the answer is a 502 with that error. */
  lemma ConfirmationFailureStops(config: Config, serviceConfig: Config, o: Oracle, s: Session, form: ContactFormDto)
    requires RecipientsVar in config
    requires o.verify(s.verifies).Failed? || o.send(|s.attempts|).Failed?
    ensures var r := HandleRun(config, serviceConfig, o, s, form);
      && r.1.verifies == s.verifies + 1
      && (o.verify(s.verifies).Failed? ==>
            r.0 == BadGateway(o.verify(s.verifies).message) && r.1.attempts == s.attempts)
      && (o.verify(s.verifies).Sent? ==>
            r.0 == BadGateway(o.send(|s.attempts|).message)
            && r.1.attempts == s.attempts + [Confirmation(serviceConfig, form)])
  {
  }

  /** A failure of the notification's check or send is a 502 carrying that error's message. */
  lemma NotificationFailureIs502(config: Config, serviceConfig: Config, o: Oracle, s: Session, form: ContactFormDto)
    requires RecipientsVar in config
    requires o.verify(s.verifies).Sent? && o.send(|s.attempts|).Sent?
    requires o.verify(s.verifies + 1).Failed? || o.send(|s.attempts| + 1).Failed?
    ensures var r := HandleRun(config, serviceConfig, o, s, form);
      && r.1.verifies == s.verifies + 2
      && (o.verify(s.verifies + 1).Failed? ==>
            r.0 == BadGateway(o.verify(s.verifies + 1).message) && |r.1.attempts| == |s.attempts| + 1)
      && (o.verify(s.verifies + 1).Sent? ==>
            r.0 == BadGateway(o.send(|s.attempts| + 1).message) && |r.1.attempts| == |s.attempts| + 2)
  {
  }

  /**
   * Success is answered exactly when both checks and both sends succeeded;
   * every other run ends in a 502.
   */
  lemma CreatedIffAllSucceeded(config: Config, serviceConfig: Config, o: Oracle, s: Session, form: ContactFormDto)
    ensures var r := HandleRun(config, serviceConfig, o, s, form);
      && (r.0 == Created <==>
            && RecipientsVar in config
            && o.verify(s.verifies).Sent? && o.send(|s.attempts|).Sent?
            && o.verify(s.verifies + 1).Sent? && o.send(|s.attempts| + 1).Sent?)
      && (r.0 != Created ==> r.0.status == 502 && r.0.body["error"] == JStr("Failed to send emails"))
  {
    var r := HandleRun(config, serviceConfig, o, s, form);
    if RecipientsVar in config {
      var confirmation := Confirmation(serviceConfig, form);
      var notification := Notification(serviceConfig, Split(config[RecipientsVar], ','), form);
      var (first, s1) := CheckedSend(o, s, confirmation);
      if first.Sent? {
        assert s1.verifies == s.verifies + 1 && |s1.attempts| == |s.attempts| + 1;
        var (second, s2) := CheckedSend(o, s1, notification);
        assert r.0 == if second.Failed? then BadGateway(second.message) else Created;
      } else {
        assert r.0 == BadGateway(first.message);
      }
    } else {
      assert r.0 == BadGateway(UndefinedSplitError);
    }
  }

  /**
   * In what a run adds to the transport's log, every envelope handed to
   * `sendMail` directly follows a connection check that passed; so a
   * transport whose whole log keeps that rule still keeps it afterwards.
   */
  lemma {:induction false} CheckBeforeEverySend(config: Config, serviceConfig: Config, o: Oracle,
                                                s: Session, form: ContactFormDto)
    ensures var r := HandleRun(config, serviceConfig, o, s, form);
      && ChecksPrecedeSends(r.1.log, |s.log|)
      && (ChecksPrecedeSends(s.log, 0) ==> ChecksPrecedeSends(r.1.log, 0))
  {
    var r := HandleRun(config, serviceConfig, o, s, form);
    if RecipientsVar in config {
      var (first, s1) := CheckedSend(o, s, Confirmation(serviceConfig, form));
      if first.Sent? {
        var (_, s2) := CheckedSend(o, s1, Notification(serviceConfig, Split(config[RecipientsVar], ','), form));
        assert r.1 == s2;
        assert s2.log[..|s1.log|] == s1.log;
        ChecksPrecedeSendsJoin(s2.log, |s.log|, |s1.log|);
      }
    }
    if ChecksPrecedeSends(s.log, 0) {
      assert r.1.log[..|s.log|] == s.log;
      ChecksPrecedeSendsJoin(r.1.log, 0, |s.log|);
    }
  }

  /** A run keeps the transport's record of attempts and its log of calls in agreement. */
  lemma RecordMatchesLog(config: Config, serviceConfig: Config, o: Oracle, s: Session, form: ContactFormDto)
    requires Agrees(s)
    ensures Agrees(HandleRun(config, serviceConfig, o, s, form).1)
  {
    if RecipientsVar in config {
      var confirmation := Confirmation(serviceConfig, form);
      CheckedSendAgrees(o, s, confirmation);
      var (first, s1) := CheckedSend(o, s, confirmation);
      if first.Sent? {
        CheckedSendAgrees(o, s1, Notification(serviceConfig, Split(config[RecipientsVar], ','), form));
      }
    }
  }

  /** Once start-up validation has accepted the configuration, the recipient setting is there to split. */
  lemma ValidatedConfigHasRecipients(config: Config)
    requires AppModule.Validate(config).Success?
    ensures RecipientsVar in config && config[RecipientsVar] != ""
  {
    assert AppModule.RequiredVars[5] == RecipientsVar;
  }

  /**
   * The sample submission against a relay that accepts everything: success
   * and two envelopes, the first to the submitter with "Specroll" in its
   * subject, the second to the recipients with the topic in its subject.
   */
  lemma SampleSubmission(config: Config, serviceConfig: Config, s: Session)
    requires RecipientsVar in config
    ensures
      var form := ContactFormDto("Jan Kowalski", "jan@example.com", "123456789", "Pricing", "Hello");
      var r := HandleRun(config, serviceConfig, Oracle(n => Sent, n => Sent), s, form);
      && r.0 == Created
      && |r.1.attempts| == |s.attempts| + 2
      && r.1.attempts[|s.attempts|].to == "jan@example.com"
      && Includes(r.1.attempts[|s.attempts|].subject, "Specroll")
      && r.1.attempts[|s.attempts| + 1].to == config[RecipientsVar]
      && Includes(r.1.attempts[|s.attempts| + 1].subject, "Pricing")
  {
    var form := ContactFormDto("Jan Kowalski", "jan@example.com", "123456789", "Pricing", "Hello");
    var o := Oracle(n => Sent, n => Sent);
    var confirmation := Confirmation(serviceConfig, form);
    var notification := Notification(serviceConfig, Split(config[RecipientsVar], ','), form);
    ConfirmationBeforeNotification(config, serviceConfig, o, s, form);
    CreatedIffAllSucceeded(config, serviceConfig, o, s, form);
    var r := HandleRun(config, serviceConfig, o, s, form);
    assert r.1.attempts == s.attempts + [confirmation, notification];
    assert r.1.attempts[|s.attempts|] == confirmation;
    assert r.1.attempts[|s.attempts| + 1] == notification;
    SampleSubjects();
  }

  lemma SampleSubjects()
    ensures Includes(ConfirmationSubject, "Specroll")
    ensures Includes(NotificationSubject("Pricing"), "Pricing")
  {
    assert "Specroll" <= ConfirmationSubject[25..];
    assert "Pricing" <= NotificationSubject("Pricing")[|NotificationSubjectPrefix|..];
  }
}
