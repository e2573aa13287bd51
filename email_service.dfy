/**
 * The Nest variant's `EmailService`: each send first checks the SMTP
 * connection, aborts with the check's error if it fails, and otherwise hands
 * exactly one envelope to the transport, passing any failure on unchanged.
 */
module Service {
  import opened Wrappers
  import opened JsString
  import opened Template
  import opened Mailer
  import opened Settings

  const ConfirmationSubject := "Dziękujemy za kontakt ze Specroll"
  const NotificationSubjectPrefix := "Nowa wiadomość z formularza kontaktowego: "

  /** The submitter's mail body; styling, contact details and links are abbreviated to their visible text. */
  const ConfirmationHtml: seq<Piece> := [
    Text("\n<div>\n<h1>Dziękujemy za kontakt ze Specroll</h1>\n<p>Szanowny/a <strong>"), Hole(Name),
    Text("</strong>,</p>\n<p>Dziękujemy za przesłanie formularza kontaktowego. Potwierdzamy otrzymanie"
      + " Twojej wiadomości i zapewniamy, że skontaktujemy się z Tobą tak szybko, jak to możliwe.</p>\n"
      + "<h3>Podsumowanie Twojego zapytania:</h3>\n<p><strong>Temat:</strong> "), Hole(Topic),
    Text("</p>\n<p><strong>Wiadomość:</strong></p>\n<p>"), Hole(Message),
    Text("</p>\n<p>W przypadku jakichkolwiek dodatkowych pytań, prosimy o kontakt zwrotny na ten adres email.</p>\n"
      + "<p>Z poważaniem,</p>\n<p>Zespół Specroll</p>\n<a href=\"https://www.specroll.pl\">www.specroll.pl</a>\n</div>\n")]

  /** The administrators' mail body. */
  const NotificationHtml: seq<Piece> := [
    Text("\n<h2>Nowa wiadomość z formularza kontaktowego</h2>\n<p><strong>Imię i nazwisko:</strong> "), Hole(Name),
    Text("</p>\n<p><strong>Email:</strong> "), Hole(Email),
    Text("</p>\n<p><strong>Telefon:</strong> "), Hole(Phone),
    Text("</p>\n<p><strong>Temat:</strong> "), Hole(Topic),
    Text("</p>\n<p><strong>Wiadomość:</strong></p>\n<p>"), Hole(Message),
    Text("</p>\n")]

  /** The administrators' subject line: a fixed prefix, then the topic. */
  function NotificationSubject(topic: string): string
  {
    Prefixed(NotificationSubjectPrefix, topic)
  }

  /** The confirmation body substitutes name, topic and message, and neither email nor phone. */
  lemma ConfirmationHtmlSlots()
    ensures Slots(ConfirmationHtml) == {Name, Topic, Message}
  {
    var t := ConfirmationHtml;
    assert t[1].slot == Name && t[3].slot == Topic && t[5].slot == Message;
  }

  /** The notification body substitutes all five fields. */
  lemma NotificationHtmlSlots()
    ensures Slots(NotificationHtml) == {Name, Email, Phone, Topic, Message}
  {
    var t := NotificationHtml;
    assert t[1].slot == Name && t[3].slot == Email && t[5].slot == Phone;
    assert t[7].slot == Topic && t[9].slot == Message;
  }

  /**
   * The confirmation's options: from the configured sender, to the given
   * address, with the fixed thank-you subject and the name, topic and message
   * in the body as given. (The template has no phone hole, so the phone
   * value handed to `Render` is immaterial.)
   */
  function ConfirmationEnvelope(config: Config, email: string, name: string, topic: string, message: string)
    : (e: Envelope)
    ensures e.from == Lookup(config, FromVar) && e.to == email
    ensures e.subject == ConfirmationSubject
    ensures Includes(e.html, name) && Includes(e.html, topic) && Includes(e.html, message)
  {
    var f := Fields(name, email, "", topic, message);
    ConfirmationHtmlSlots();
    RenderShowsField(ConfirmationHtml, f, Name);
    RenderShowsField(ConfirmationHtml, f, Topic);
    RenderShowsField(ConfirmationHtml, f, Message);
    Envelope(Lookup(config, FromVar), email, ConfirmationSubject, Render(ConfirmationHtml, f))
  }

  /**
   * The notification's options: one envelope whose `to` names every recipient
   * (splitting it on commas gives the list back when no recipient contains a
   * comma), the topic in the subject, and all five fields in the body as given.
   */
  function NotificationEnvelope(config: Config, recipientEmails: seq<string>,
                                name: string, email: string, phone: string, topic: string, message: string)
    : (e: Envelope)
    ensures e.from == Lookup(config, FromVar)
    ensures |recipientEmails| >= 1 && (forall i :: 0 <= i < |recipientEmails| ==> ',' !in recipientEmails[i])
      ==> Split(e.to, ',') == recipientEmails
    ensures e.subject == NotificationSubject(topic)
    ensures Includes(e.html, name) && Includes(e.html, email) && Includes(e.html, phone)
    ensures Includes(e.html, topic) && Includes(e.html, message)
  {
    var f := Fields(name, email, phone, topic, message);
    NotificationHtmlSlots();
    RenderShowsField(NotificationHtml, f, Name);
    RenderShowsField(NotificationHtml, f, Email);
    RenderShowsField(NotificationHtml, f, Phone);
    RenderShowsField(NotificationHtml, f, Topic);
    RenderShowsField(NotificationHtml, f, Message);
    Envelope(Lookup(config, FromVar), Join(recipientEmails, ','), NotificationSubject(topic), Render(NotificationHtml, f))
  }

  /**
   * From position `from` of the transport's log on, every send directly
   * follows a connection check that passed and that is itself from `from` on.
   */
  predicate ChecksPrecedeSends(log: seq<Event>, from: nat)
  {
    forall k :: from <= k < |log| && log[k].Attempted? ==> from < k && log[k - 1] == Checked(Sent)
  }

  /** Two stretches of log that each keep the rule keep it together. */
  lemma ChecksPrecedeSendsJoin(log: seq<Event>, from: nat, mid: nat)
    requires from <= mid <= |log|
    requires ChecksPrecedeSends(log[..mid], from) && ChecksPrecedeSends(log, mid)
    ensures ChecksPrecedeSends(log, from)
  {
    forall k | from <= k < |log| && log[k].Attempted?
      ensures from < k && log[k - 1] == Checked(Sent)
    {
      if k < mid {
        assert log[..mid][k] == log[k];
        assert log[..mid][k - 1] == log[k - 1];
      }
    }
  }

  /**
   * A send as the service performs it: the connection check, then, only if
   * it passed, `sendMail`; whichever fails first is the result, unchanged.
   */
  function CheckedSend(o: Oracle, s: Session, e: Envelope): (r: (Outcome, Session))
    ensures r.1.verifies == s.verifies + 1
    ensures o.verify(s.verifies).Failed? ==> r.0 == o.verify(s.verifies) && r.1.attempts == s.attempts
    ensures o.verify(s.verifies).Sent? ==> r.0 == o.send(|s.attempts|) && r.1.attempts == s.attempts + [e]
    ensures r.0.Sent? <==> o.verify(s.verifies).Sent? && o.send(|s.attempts|).Sent?
    ensures r.1.log == s.log + [Checked(o.verify(s.verifies))] + (if o.verify(s.verifies).Sent? then [Attempted(e)] else [])
    ensures ChecksPrecedeSends(r.1.log, |s.log|)
  {
    var (check, s1) := VerifyStep(o, s);
    if check.Failed? then (check, s1) else SendStep(o, s1, e)
  }

  /** A checked send keeps the record of attempts and the log in agreement. */
  lemma CheckedSendAgrees(o: Oracle, s: Session, e: Envelope)
    requires Agrees(s)
    ensures Agrees(CheckedSend(o, s, e).1)
  {
    VerifyStepAgrees(o, s);
    var (check, s1) := VerifyStep(o, s);
    if check.Sent? {
      SendStepAgrees(o, s1, e);
    }
  }

  class EmailService {
    const config: Config
    const transporter: Transporter

    constructor (config: Config, transporter: Transporter)
      ensures this.config == config && this.transporter == transporter
    {
      this.config := config;
      this.transporter := transporter;
    }

    /** `verifyConnection`: the transport's check, its error passed on unchanged. */
    method VerifyConnection() returns (o: Outcome)
      modifies transporter
      ensures (o, transporter.State()) == VerifyStep(transporter.oracle, old(transporter.State()))
    {
      o := transporter.Verify();
    }

    /** `sendConfirmationEmail`. */
    method SendConfirmationEmail(email: string, name: string, topic: string, message: string)
      returns (o: Outcome)
      modifies transporter
      ensures (o, transporter.State())
        == CheckedSend(transporter.oracle, old(transporter.State()), ConfirmationEnvelope(config, email, name, topic, message))
    {
      var check := VerifyConnection();
      if check.Failed? {
        return check;
      }
      o := transporter.SendMail(ConfirmationEnvelope(config, email, name, topic, message));
    }

    /** `sendNotificationEmail`. */
    method SendNotificationEmail(recipientEmails: seq<string>,
                                 name: string, email: string, phone: string, topic: string, message: string)
      returns (o: Outcome)
      modifies transporter
      ensures (o, transporter.State())
        == CheckedSend(transporter.oracle, old(transporter.State()),
                       NotificationEnvelope(config, recipientEmails, name, email, phone, topic, message))
    {
      var check := VerifyConnection();
      if check.Failed? {
        return check;
      }
      o := transporter.SendMail(NotificationEnvelope(config, recipientEmails, name, email, phone, topic, message));
    }
  }
}
