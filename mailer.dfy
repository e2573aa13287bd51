/**
 * The nodemailer transport seen from the relay: an oracle that answers each
 * `verify()` and each `sendMail()` with success or an error, and that records
 * every envelope handed to `sendMail()`, including those whose delivery fails.
 */
module Mailer {
  import opened Wrappers

  /** The options object passed to `sendMail`. `from` is `None` when the configured value is undefined. */
  datatype Envelope = Envelope(from: Option<string>, to: string, subject: string, html: string)

  /** A settled promise: fulfilled, or rejected with an error whose `message` is given. */
  datatype Outcome = Sent | Failed(message: string)

  /** One call on the transport, in the order the calls were made: a connection check and its answer, or a send. */
  datatype Event = Checked(result: Outcome) | Attempted(envelope: Envelope)

  /**
   * What the transport has seen so far: the envelopes attempted, the number of
   * connection checks, and every call in order.
   */
  datatype Session = Session(attempts: seq<Envelope>, verifies: nat, log: seq<Event>)

  /** The remote relay's answers, by call number: the n-th `sendMail` and the n-th `verify` (from 0). */
  datatype Oracle = Oracle(send: nat -> Outcome, verify: nat -> Outcome)

  /** The envelopes of the sends in a log, in the order they were handed over. */
  function Sends(log: seq<Event>): (r: seq<Envelope>)
    ensures |r| <= |log|
  {
    if log == [] then []
    else
      var last := log[|log| - 1];
      Sends(log[..|log| - 1]) + (if last.Attempted? then [last.envelope] else [])
  }

  /** The record of attempts is exactly the sends in the log: the two never tell different stories. */
  predicate Agrees(s: Session)
  {
    Sends(s.log) == s.attempts
  }

  /** Appending one event to a log adds its envelope to the sends when it is a send, and nothing otherwise. */
  lemma SendsAppend(log: seq<Event>, ev: Event)
    ensures Sends(log + [ev]) == Sends(log) + (if ev.Attempted? then [ev.envelope] else [])
  {
    assert (log + [ev])[..|log|] == log;
  }

  /** One `sendMail` call: the answer for that call number, and the envelope recorded and logged as a send. */
  function SendStep(o: Oracle, s: Session, e: Envelope): (r: (Outcome, Session))
    ensures r.0 == o.send(|s.attempts|) && r.1.verifies == s.verifies
    ensures r.1.attempts == s.attempts + [e] && r.1.log == s.log + [Attempted(e)]
  {
    (o.send(|s.attempts|), s.(attempts := s.attempts + [e], log := s.log + [Attempted(e)]))
  }

  /** One `verify` call: the answer for that check number, counted and logged with its answer; nothing is sent. */
  function VerifyStep(o: Oracle, s: Session): (r: (Outcome, Session))
    ensures r.0 == o.verify(s.verifies) && r.1.verifies == s.verifies + 1
    ensures r.1.attempts == s.attempts && r.1.log == s.log + [Checked(r.0)]
  {
    var answer := o.verify(s.verifies);
    (answer, s.(verifies := s.verifies + 1, log := s.log + [Checked(answer)]))
  }

  /** A send keeps the record and the log in agreement. */
  lemma SendStepAgrees(o: Oracle, s: Session, e: Envelope)
    requires Agrees(s)
    ensures Agrees(SendStep(o, s, e).1)
  {
    SendsAppend(s.log, Attempted(e));
  }

  /** A connection check keeps the record and the log in agreement. */
  lemma VerifyStepAgrees(o: Oracle, s: Session)
    requires Agrees(s)
    ensures Agrees(VerifyStep(o, s).1)
  {
    SendsAppend(s.log, Checked(o.verify(s.verifies)));
  }

  /** A transport object; its answers come from `oracle`, its record is `attempts`, `verifies` and `log`. */
  class Transporter {
    const oracle: Oracle
    var attempts: seq<Envelope>
    var verifies: nat
    var log: seq<Event>

    function State(): Session
      reads this
    {
      Session(attempts, verifies, log)
    }

    constructor (oracle: Oracle)
      ensures this.oracle == oracle && State() == Session([], 0, []) && Agrees(State())
    {
      this.oracle := oracle;
      attempts := [];
      verifies := 0;
      log := [];
    }

    /** `transporter.sendMail(e)`: records `e`, then settles as the relay answers. */
    method SendMail(e: Envelope) returns (o: Outcome)
      modifies this
      ensures (o, State()) == SendStep(oracle, old(State()), e)
    {
      o := oracle.send(|attempts|);
      attempts := attempts + [e];
      log := log + [Attempted(e)];
    }

    /** `transporter.verify()`: a connection and authentication check that sends nothing. */
    method Verify() returns (o: Outcome)
      modifies this
      ensures (o, State()) == VerifyStep(oracle, old(State()))
    {
      o := oracle.verify(verifies);
      verifies := verifies + 1;
      log := log + [Checked(o)];
    }
  }
}
