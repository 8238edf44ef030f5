/**
 * `EmailService`: it holds a mail transport (or none, when creating one
 * failed), composes the owner notice and the sender's confirmation from a
 * submission, and sends them one after the other, owner first.  Any failure,
 * of either send, becomes one failed result: there is no partial success.
 */
module Email {
  import opened Wrappers
  import opened Env
  import opened Templates

  /** The letter a message carries: which template it renders, and with what. */
  datatype Letter =
    | OwnerNotice(data: ContactData)
    | Confirmation(name: string, subject: string, year: int)
  {
    /** The message's `html` member. */
    function Html(): string {
      match this
      case OwnerNotice(d) => OwnerHtml(d)
      case Confirmation(n, s, y) => ConfirmationHtml(n, s, y)
    }

    /** The message's `text` member. */
    function Text(): string {
      match this
      case OwnerNotice(d) => OwnerText(d)
      case Confirmation(n, s, y) => ConfirmationText(n, s, y)
    }
  }

  /** The `from` member: a display name and the EMAIL_USER address, which may be unset. */
  datatype Sender = Sender(name: string, address: Option<string>)

  /** The options object handed to `sendMail`; its `html` and `text` are `letter.Html()` and `letter.Text()`. */
  datatype EmailPayload = EmailPayload(
    from: Sender,
    to: string,
    subject: string,
    letter: Letter,
    replyTo: Option<string>)

  const OwnerSubjectPrefix: string := "\U{1F4E7} New Contact Form Submission: "
  const ConfirmationSubject: string := "\U{2705} Message Received - Thank You for Contacting Me"
  const DefaultOwnerFromName: string := "Portfolio Contact Form"
  const DefaultConfirmationFromName: string := "Kaiz Nitullano"
  const DefaultContactEmail: string := "kaiz.nitullano@example.com"
  const NotInitializedMessage: string := "Email service not initialized"

  /** The notice to the site owner. */
  function OwnerPayload(d: ContactData, env: Env): EmailPayload {
    EmailPayload(
      Sender(Or(env.fromName, DefaultOwnerFromName), env.emailUser),
      Or(env.contactEmail, DefaultContactEmail),
      OwnerSubjectPrefix + d.subject,
      OwnerNotice(d),
      Some(d.email))
  }

  /** The confirmation to the sender; `year` is the calendar year at rendering time. */
  function ConfirmationPayload(d: ContactData, env: Env, year: int): EmailPayload {
    EmailPayload(
      Sender(Or(env.fromName, DefaultConfirmationFromName), env.emailUser),
      d.email,
      ConfirmationSubject,
      Confirmation(d.name, d.subject, year),
      None)
  }

  /**
   * The owner's notice is addressed to CONTACT_EMAIL (or the fixed default)
   * and answers go back to the submitter, who is the confirmation's
   * recipient; both come from the same EMAIL_USER address, and the owner's
   * subject line is the fixed prefix followed by the submitted subject.
   */
  lemma PayloadAddressing(d: ContactData, env: Env, year: int)
    ensures var o := OwnerPayload(d, env); var c := ConfirmationPayload(d, env, year);
      && o.replyTo == Some(c.to) && c.to == d.email
      && c.replyTo.None?
      && o.from.address == c.from.address == env.emailUser
      && (env.contactEmail.Some? && env.contactEmail.value != [] ==> o.to == env.contactEmail.value)
      && (env.contactEmail.None? || env.contactEmail.value == [] ==> o.to == DefaultContactEmail)
      && o.subject == OwnerSubjectPrefix + d.subject
      && c.subject == ConfirmationSubject
  {
  }

  /**
   * With FROM_NAME unset or empty the two messages carry different sender
   * names; with FROM_NAME set both carry it.
   */
  lemma FromNames(d: ContactData, env: Env, year: int)
    ensures var o := OwnerPayload(d, env); var c := ConfirmationPayload(d, env, year);
      (o.from.name == c.from.name) <==> (env.fromName.Some? && env.fromName.value != [])
  {
    var o := OwnerPayload(d, env);
    var c := ConfirmationPayload(d, env, year);
    if env.fromName.None? || env.fromName.value == [] {
      assert |DefaultOwnerFromName| != |DefaultConfirmationFromName|;
    }
  }

  /**
   * The confirmation depends on the submission only through the name, the
   * email address and the subject: not on the message, the IP address, the
   * User-Agent or the timestamp.
   */
  lemma ConfirmationIgnoresMessage(d1: ContactData, d2: ContactData, env: Env, year: int)
    requires d1.name == d2.name && d1.email == d2.email && d1.subject == d2.subject
    ensures ConfirmationPayload(d1, env, year) == ConfirmationPayload(d2, env, year)
  {
  }

  /** What the transport does with one message: it delivers it under an id, or rejects it. */
  datatype SendReply = Delivered(messageId: string) | Rejected(message: string)

  /** The result object `sendContactEmail` resolves to. */
  datatype SendOutcome =
    | Sent(messageId: string, confirmationMessageId: string)
    | Failed(error: string)

  /** The messages handed to the transport, in order, and the resulting outcome. */
  datatype Dispatch = Dispatch(attempted: seq<EmailPayload>, outcome: SendOutcome)

  /**
   * The two awaited sends: the owner's notice as send number `n`, then, only
   * if it was delivered, the confirmation as send number `n + 1`.  A
   * rejection ends the sequence and becomes the failed outcome.
   */
  function SendBoth(reply: (nat, EmailPayload) -> SendReply, n: nat, owner: EmailPayload, confirmation: EmailPayload): (r: Dispatch)
    ensures 1 <= |r.attempted| <= 2 && r.attempted[0] == owner
    ensures |r.attempted| == 2 ==> r.attempted[1] == confirmation
  {
    match reply(n, owner)
    case Rejected(e) => Dispatch([owner], Failed(e))
    case Delivered(id) =>
      match reply(n + 1, confirmation)
      case Rejected(e) => Dispatch([owner, confirmation], Failed(e))
      case Delivered(cid) => Dispatch([owner, confirmation], Sent(id, cid))
  }

  /** The confirmation is attempted exactly when the owner's notice was delivered. */
  lemma ConfirmationOnlyAfterOwner(reply: (nat, EmailPayload) -> SendReply, n: nat, owner: EmailPayload, confirmation: EmailPayload)
    ensures var r := SendBoth(reply, n, owner, confirmation);
      |r.attempted| == 2 <==> reply(n, owner).Delivered?
  {
  }

  /**
   * Success requires both sends to succeed, and then reports both ids; a
   * rejected confirmation fails the whole result even though the owner's
   * notice went out.
   */
  lemma NoPartialSuccess(reply: (nat, EmailPayload) -> SendReply, n: nat, owner: EmailPayload, confirmation: EmailPayload)
    ensures var r := SendBoth(reply, n, owner, confirmation);
      && (r.outcome.Sent? <==> reply(n, owner).Delivered? && reply(n + 1, confirmation).Delivered?)
      && (r.outcome.Sent? ==>
            r.outcome.messageId == reply(n, owner).messageId
            && r.outcome.confirmationMessageId == reply(n + 1, confirmation).messageId)
      && (reply(n, owner).Rejected? ==> r.outcome == Failed(reply(n, owner).message))
      && (reply(n, owner).Delivered? && reply(n + 1, confirmation).Rejected? ==>
            r.outcome == Failed(reply(n + 1, confirmation).message))
  {
  }

  /**
   * A mail transport.  `sent` records every message handed to `sendMail`;
   * `reply` says how the server answers the k-th message.
   */
  class Mailer {
    var sent: seq<EmailPayload>
    const reply: (nat, EmailPayload) -> SendReply

    constructor(reply: (nat, EmailPayload) -> SendReply)
      ensures sent == [] && this.reply == reply
    {
      this.reply := reply;
      sent := [];
    }

    /** `transporter.sendMail(options)` */
    method SendMail(p: EmailPayload) returns (r: SendReply)
      modifies this
      ensures sent == old(sent) + [p]
      ensures r == reply(|old(sent)|, p)
    {
      r := reply(|sent|, p);
      sent := sent + [p];
    }
  }

  class EmailService {
    var transporter: Option<Mailer>

    /**
     * `new EmailService()`: the transporter starts out null and is then set
     * by `initializeTransporter`.  `created` is what `createTransport`
     * returns, or `None` when it throws.
     */
    constructor(created: Option<Mailer>)
      ensures transporter == created
    {
      transporter := None;
      new;
      InitializeTransporter(created);
    }

    /** A transport that could not be created leaves the previous one in place. */
    method InitializeTransporter(created: Option<Mailer>)
      modifies this
      ensures transporter == if created.Some? then created else old(transporter)
    {
      if created.Some? {
        transporter := created;
      }
    }

    function Transport(): set<object>
      reads this
    {
      if transporter.Some? then {transporter.value} else {}
    }

    /**
     * `sendContactEmail(data)`: without a transporter nothing is sent and the
     * result is the not-initialised failure; otherwise the two messages go
     * out as `SendBoth` describes.
     */
    method SendContactEmail(d: ContactData, env: Env, year: int) returns (r: SendOutcome)
      modifies Transport()
      ensures transporter.None? ==> r == Failed(NotInitializedMessage)
      ensures transporter.Some? ==>
        var x := SendBoth(transporter.value.reply, |old(transporter.value.sent)|,
                          OwnerPayload(d, env), ConfirmationPayload(d, env, year));
        transporter.value.sent == old(transporter.value.sent) + x.attempted && r == x.outcome
    {
      if transporter.None? {
        return Failed(NotInitializedMessage);
      }
      var m := transporter.value;
      var owner := OwnerPayload(d, env);
      var confirmation := ConfirmationPayload(d, env, year);
      var ownerResult := m.SendMail(owner);
      if ownerResult.Rejected? {
        return Failed(ownerResult.message);
      }
      var confirmationResult := m.SendMail(confirmation);
      if confirmationResult.Rejected? {
        return Failed(confirmationResult.message);
      }
      r := Sent(ownerResult.messageId, confirmationResult.messageId);
    }
  }
}
