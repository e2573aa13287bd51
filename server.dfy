/**
 * The Express variant of the relay: the `POST /api/contact` handler. It checks
 * that the five form fields are truthy, mails the administrators first and the
 * submitter second through one shared transport, and answers 200, 400 or 500.
 */
module Server {
  import opened Wrappers
  import opened JsString
  import opened Template
  import opened Mailer
  import opened Http
  import opened Settings

  /** The destructured `req.body`; `None` is a field absent from the JSON object. */
  datatype ContactRequest = ContactRequest(
    name: Option<string>,
    email: Option<string>,
    phone: Option<string>,
    topic: Option<string>,
    message: Option<string>)

  /** The request's value for one template slot. */
  function Field(req: ContactRequest, s: Slot): Option<string>
  {
    match s
    case Name => req.name
    case Email => req.email
    case Phone => req.phone
    case Topic => req.topic
    case Message => req.message
  }

  /** The handler's validation: `name && email && phone && topic && message`, i.e. every slot's value is truthy. */
  predicate AllFieldsPresent(req: ContactRequest): (ok: bool)
    ensures ok <==> forall s: Slot :: Truthy(Field(req, s))
  {
    assert (&& Truthy(Field(req, Name)) && Truthy(Field(req, Email)) && Truthy(Field(req, Phone))
            && Truthy(Field(req, Topic)) && Truthy(Field(req, Message)))
      ==> forall s: Slot :: Truthy(Field(req, s)) by {
      forall s: Slot ensures s.Name? || s.Email? || s.Phone? || s.Topic? || s.Message? {
      }
    }
    Truthy(req.name) && Truthy(req.email) && Truthy(req.phone) && Truthy(req.topic) && Truthy(req.message)
  }

  function FieldsOf(req: ContactRequest): Fields
    requires AllFieldsPresent(req)
  {
    Fields(req.name.value, req.email.value, req.phone.value, req.topic.value, req.message.value)
  }

  const RecipientsVar := "RECIPIENT_EMAILS"

  const BadRequest := Response(400, map["error" := JStr("All fields are required")])
  const ServerError := Response(500, map["error" := JStr("Failed to send message")])
  const Ok := Response(200, map["message" := JStr("Message sent successfully")])

  const NotificationSubjectPrefix := "New Contact Form Submission: "
  const ConfirmationSubject := "Thank you for contacting Specroll"

  /** The administrators' mail body. */
  const NotificationHtml: seq<Piece> := [
    Text("\n<h2>New Contact Form Submission</h2>\n<p><strong>Name:</strong> "), Hole(Name),
    Text("</p>\n<p><strong>Email:</strong> "), Hole(Email),
    Text("</p>\n<p><strong>Phone:</strong> "), Hole(Phone),
    Text("</p>\n<p><strong>Topic:</strong> "), Hole(Topic),
    Text("</p>\n<p><strong>Message:</strong></p>\n<p>"), Hole(Message),
    Text("</p>\n")]

  /** The submitter's mail body. */
  const ConfirmationHtml: seq<Piece> := [
    Text("\n<h2>Thank you for contacting Specroll</h2>\n<p>Dear "), Hole(Name),
    Text(",</p>\n<p>We have received your message and will get back to you as soon as possible.</p>\n"
      + "<p>Here's a summary of your inquiry:</p>\n<p><strong>Topic:</strong> "), Hole(Topic),
    Text("</p>\n<p><strong>Message:</strong></p>\n<p>"), Hole(Message),
    Text("</p>\n<br>\n<p>Best regards,</p>\n<p>Specroll Team</p>\n")]

  /** The administrators' subject line: a fixed prefix, then the topic. */
  function NotificationSubject(topic: string): string
  {
    Prefixed(NotificationSubjectPrefix, topic)
  }

  /** The notification body substitutes all five fields. */
  lemma NotificationHtmlSlots()
    ensures Slots(NotificationHtml) == {Name, Email, Phone, Topic, Message}
  {
    var t := NotificationHtml;
    assert t[1].slot == Name && t[3].slot == Email && t[5].slot == Phone;
    assert t[7].slot == Topic && t[9].slot == Message;
  }

  /** The confirmation body substitutes name, topic and message, and neither email nor phone. */
  lemma ConfirmationHtmlSlots()
    ensures Slots(ConfirmationHtml) == {Name, Topic, Message}
  {
    var t := ConfirmationHtml;
    assert t[1].slot == Name && t[3].slot == Topic && t[5].slot == Message;
  }

  /** The mail to the administrators. */
  function AdminNotification(env: Config, to: string, f: Fields): (e: Envelope)
    ensures e.from == Lookup(env, FromVar) && e.to == to
    ensures e.subject == NotificationSubject(f.topic)
    ensures forall s: Slot :: Includes(e.html, f.Get(s))
  {
    NotificationHtmlSlots();
    forall s: Slot ensures Includes(Render(NotificationHtml, f), f.Get(s)) {
      assert s.Name? || s.Email? || s.Phone? || s.Topic? || s.Message?;
      RenderShowsField(NotificationHtml, f, s);
    }
    Envelope(Lookup(env, FromVar), to, NotificationSubject(f.topic), Render(NotificationHtml, f))
  }

  /** The confirmation to the submitter. */
  function ClientConfirmation(env: Config, f: Fields): (e: Envelope)
    ensures e.from == Lookup(env, FromVar) && e.to == f.email
    ensures e.subject == ConfirmationSubject
    ensures Includes(e.html, f.name) && Includes(e.html, f.topic) && Includes(e.html, f.message)
  {
    ConfirmationHtmlSlots();
    RenderShowsField(ConfirmationHtml, f, Name);
    RenderShowsField(ConfirmationHtml, f, Topic);
    RenderShowsField(ConfirmationHtml, f, Message);
    Envelope(Lookup(env, FromVar), f.email, ConfirmationSubject, Render(ConfirmationHtml, f))
  }

  /**
   * One run of the handler against the transport: the response and what the
   * transport saw. The answer is one of the three bodies; the run only appends
   * to the transport's record, at most two envelopes, each logged as a send,
   * and never runs a connection check.
   */
  function HandleRun(env: Config, o: Oracle, s: Session, req: ContactRequest): (r: (Response, Session))
    ensures r.0 == Ok || r.0 == BadRequest || r.0 == ServerError
    ensures r.1.verifies == s.verifies
    ensures |s.attempts| <= |r.1.attempts| <= |s.attempts| + 2 && r.1.attempts[..|s.attempts|] == s.attempts
    ensures |r.1.log| == |s.log| + (|r.1.attempts| - |s.attempts|) && r.1.log[..|s.log|] == s.log
    ensures forall k :: |s.log| <= k < |r.1.log| ==> r.1.log[k] == Attempted(r.1.attempts[|s.attempts| + k - |s.log|])
  {
    if !AllFieldsPresent(req) then (BadRequest, s)
    else if RecipientsVar !in env then (ServerError, s)
    else
      var f := FieldsOf(req);
      var (first, s1) := SendStep(o, s, AdminNotification(env, Join(Split(env[RecipientsVar], ','), ','), f));
      if first.Failed? then (ServerError, s1)
      else
        var (second, s2) := SendStep(o, s1, ClientConfirmation(env, f));
        if second.Failed? then (ServerError, s2) else (Ok, s2)
  }

  /** The `POST /api/contact` handler. */
  method HandleContact(transporter: Transporter, env: Config, req: ContactRequest) returns (res: Response)
    modifies transporter
    ensures (res, transporter.State()) == HandleRun(env, transporter.oracle, old(transporter.State()), req)
  {
    if !AllFieldsPresent(req) {
      return BadRequest;
    }
    if RecipientsVar !in env {
      // `undefined.split(",")` throws a TypeError, which the catch turns into a 500.
      return ServerError;
    }
    var f := FieldsOf(req);
    var recipientEmails := Split(env[RecipientsVar], ',');
    var first := transporter.SendMail(AdminNotification(env, Join(recipientEmails, ','), f));
    if first.Failed? {
      return ServerError;
    }
    var second := transporter.SendMail(ClientConfirmation(env, f));
    if second.Failed? {
      return ServerError;
    }
    return Ok;
  }

  /** Validation rejects exactly the requests with a missing or empty field, and then nothing is sent. */
  lemma BadRequestIffFieldMissing(env: Config, o: Oracle, s: Session, req: ContactRequest)
    ensures HandleRun(env, o, s, req).0.status == 400 <==> !AllFieldsPresent(req)
    ensures !AllFieldsPresent(req) ==> HandleRun(env, o, s, req) == (BadRequest, s)
  {
  }

  /**
   * A valid request mails the administrators first, at exactly the configured
   * recipient string; when that succeeds, the confirmation to the submitter
   * follows, and nothing else is sent.
   */
  lemma {:induction false} NotificationThenConfirmation(env: Config, o: Oracle, s: Session, req: ContactRequest)
    requires AllFieldsPresent(req) && RecipientsVar in env
    ensures var (_, s') := HandleRun(env, o, s, req);
      && |s'.attempts| > |s.attempts|
      && s'.attempts[|s.attempts|] == AdminNotification(env, env[RecipientsVar], FieldsOf(req))
      && (o.send(|s.attempts|).Sent? ==>
            s'.attempts == s.attempts + [AdminNotification(env, env[RecipientsVar], FieldsOf(req)),
                                         ClientConfirmation(env, FieldsOf(req))])
  {
    JoinSplit(env[RecipientsVar], ',');
    var f := FieldsOf(req);
    var notification := AdminNotification(env, env[RecipientsVar], f);
    var (first, s1) := SendStep(o, s, notification);
    assert s1.attempts == s.attempts + [notification];
    if first.Sent? {
      var (_, s2) := SendStep(o, s1, ClientConfirmation(env, f));
      assert HandleRun(env, o, s, req).1 == s2;
    } else {
      assert HandleRun(env, o, s, req).1 == s1;
    }
  }

  /** When the administrators' mail fails, the confirmation is never attempted and the answer is 500. */
  lemma {:induction false} FirstFailureStopsSecond(env: Config, o: Oracle, s: Session, req: ContactRequest)
    requires AllFieldsPresent(req) && RecipientsVar in env
    requires o.send(|s.attempts|).Failed?
    ensures var e := AdminNotification(env, env[RecipientsVar], FieldsOf(req));
      HandleRun(env, o, s, req) == (ServerError, s.(attempts := s.attempts + [e], log := s.log + [Attempted(e)]))
  {
    JoinSplit(env[RecipientsVar], ',');
  }

  /** 200 is answered exactly when both mails were accepted; every other failure is the one 500 body. */
  lemma OkIffBothSent(env: Config, o: Oracle, s: Session, req: ContactRequest)
    ensures var (res, _) := HandleRun(env, o, s, req);
      && (res.status == 200 <==>
            AllFieldsPresent(req) && RecipientsVar in env
            && o.send(|s.attempts|).Sent? && o.send(|s.attempts| + 1).Sent?)
      && (res == Ok || res == BadRequest || res == ServerError)
  {
  }

  /** A request keeps the transport's record of attempts and its log of calls in agreement. */
  lemma RecordMatchesLog(env: Config, o: Oracle, s: Session, req: ContactRequest)
    requires Agrees(s)
    ensures Agrees(HandleRun(env, o, s, req).1)
  {
    if AllFieldsPresent(req) && RecipientsVar in env {
      var f := FieldsOf(req);
      var notification := AdminNotification(env, Join(Split(env[RecipientsVar], ','), ','), f);
      SendStepAgrees(o, s, notification);
      var (first, s1) := SendStep(o, s, notification);
      if first.Sent? {
        SendStepAgrees(o, s1, ClientConfirmation(env, f));
      }
    }
  }

  /** The missing recipient setting surfaces as a 500 before any mail is attempted. */
  lemma NoRecipientsNoMail(env: Config, o: Oracle, s: Session, req: ContactRequest)
    requires AllFieldsPresent(req) && RecipientsVar !in env
    ensures HandleRun(env, o, s, req) == (ServerError, s)
  {
  }

  /**
   * The sample submission against a relay that accepts everything: 200 and
   * two envelopes, the first to the administrators with the topic in its
   * subject, the second to the submitter with "Specroll" in its subject.
   */
  lemma SampleSubmission(env: Config, s: Session)
    requires RecipientsVar in env
    ensures
      var req := ContactRequest(Some("Jan Kowalski"), Some("jan@example.com"), Some("123456789"),
                                Some("Pricing"), Some("Hello"));
      var r := HandleRun(env, Oracle(n => Sent, n => Sent), s, req);
      && r.0.status == 200
      && |r.1.attempts| == |s.attempts| + 2
      && r.1.attempts[|s.attempts|].to == env[RecipientsVar]
      && Includes(r.1.attempts[|s.attempts|].subject, "Pricing")
      && r.1.attempts[|s.attempts| + 1].to == "jan@example.com"
      && Includes(r.1.attempts[|s.attempts| + 1].subject, "Specroll")
  {
    var req := ContactRequest(Some("Jan Kowalski"), Some("jan@example.com"), Some("123456789"),
                              Some("Pricing"), Some("Hello"));
    var o := Oracle(n => Sent, n => Sent);
    assert AllFieldsPresent(req);
    var f := FieldsOf(req);
    var notification := AdminNotification(env, env[RecipientsVar], f);
    var confirmation := ClientConfirmation(env, f);
    NotificationThenConfirmation(env, o, s, req);
    OkIffBothSent(env, o, s, req);
    var r := HandleRun(env, o, s, req);
    assert r.1.attempts == s.attempts + [notification, confirmation];
    SampleSubjects();
  }

  lemma SampleSubjects()
    ensures Includes(NotificationSubject("Pricing"), "Pricing")
    ensures Includes(ConfirmationSubject, "Specroll")
  {
    assert "Pricing" <= NotificationSubject("Pricing")[|NotificationSubjectPrefix|..];
    assert "Specroll" <= ConfirmationSubject[25..];
  }
}
