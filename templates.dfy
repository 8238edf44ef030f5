/**
 * The four message bodies `EmailService` renders from a submission: the
 * HTML and plain-text notices to the site owner and the HTML and plain-text
 * confirmations to the sender.  The fixed text of every template is kept
 * character for character, cut into pieces at the interpolation holes.
 */
module Templates {
  import opened Wrappers
  import opened Strings

  /**
   * The object `sendContactEmail` receives.  `ip` and the User-Agent header
   * may be missing; `timestamp` is the ISO-8601 time the handler read from
   * the clock.
   */
  datatype ContactData = ContactData(
    name: string,
    email: string,
    subject: string,
    message: string,
    ip: Option<string>,
    userAgent: Option<string>,
    timestamp: string)

  /** A possibly missing string as a template literal prints it. */
  function Show(v: Option<string>): string {
    if v.Some? then v.value else "undefined"
  }

  /** `s.replace(/\n/g, '<br>')` */
  function NewlinesToBr(s: string): (r: string)
    ensures '\n' !in r
    ensures |r| >= |s|
    ensures '\n' in s ==> |r| > |s|
    ensures '\n' !in s ==> r == s
  {
    if s == [] then []
    else (if s[0] == '\n' then "<br>" else [s[0]]) + NewlinesToBr(s[1..])
  }

  /** The replacement works piece by piece: it distributes over concatenation. */
  lemma {:induction false} NewlinesToBrConcat(a: string, b: string)
    ensures NewlinesToBr(a + b) == NewlinesToBr(a) + NewlinesToBr(b)
  {
    if a != [] {
      assert (a + b)[1..] == a[1..] + b;
      NewlinesToBrConcat(a[1..], b);
    } else {
      assert a + b == b;
    }
  }

  /**
   * Each line break becomes `<br>` and nothing else changes: the text before
   * and after a line break is rendered separately.
   */
  lemma NewlinesToBrLine(a: string, b: string)
    ensures NewlinesToBr(a + "\n" + b) == NewlinesToBr(a) + "<br>" + NewlinesToBr(b)
  {
    NewlinesToBrConcat(a + "\n", b);
    NewlinesToBrConcat(a, "\n");
    assert NewlinesToBr("\n") == "<br>" by {
      assert "\n"[1..] == [];
    }
  }

  /** The replacement leaves nothing to replace. */
  lemma NewlinesToBrIdempotent(s: string)
    ensures NewlinesToBr(NewlinesToBr(s)) == NewlinesToBr(s)
  {
  }

  /** The replacement changes a string exactly when it holds a line break. */
  lemma NewlinesToBrUnchangedIff(s: string)
    ensures NewlinesToBr(s) == s <==> '\n' !in s
  {
  }

  const OwnerHtmlHead: string :=
    "\n"
    + "      <!DOCTYPE html>\n"
    + "      <html>\n"
    + "        <head>\n"
    + "          <meta charset=\"utf-8\">\n"
    + "          <title>New Contact Form Submission</title>\n"
    + "          <style>\n"
    + "            body { font-family: Arial, sans-serif; line-heig"
    + "ht: 1.6; color: #333; }\n"
    + "            .container { max-width: 600px; margin: 0 auto; p"
    + "adding: 20px; }\n"
    + "            .header { background: linear-gradient(135deg, #8"
    + "b4513, #d2691e); color: white; padding: 20px; border-radius:"
    + " 8px 8px 0 0; }\n"
    + "            .content { background: #f9f9f9; padding: 20px; b"
    + "order-radius: 0 0 8px 8px; }\n"
    + "            .field { margin-bottom: 15px; }\n"
    + "            .label { font-weight: bold; color: #8b4513; }\n"
    + "            .value { margin-top: 5px; }\n"
    + "            .message-box { background: white; padding: 15px;"
    + " border-radius: 5px; border-left: 4px solid #8b4513; }\n"
    + "            .footer { margin-top: 20px; padding-top: 15px; b"
    + "order-top: 1px solid #ddd; font-size: 12px; color: #666; }\n"
    + "          </style>\n"
    + "        </head>\n"
    + "        <body>\n"
    + "          <div class=\"container\">\n"
    + "            <div class=\"header\">\n"
    + "              <h2>\U{1F4E7} New Contact Form Submission</h2>\n"
    + "              <p>Someone has reached out through your portfo"
    + "lio website!</p>\n"
    + "            </div>\n"
    + "            <div class=\"content\">\n"
    + "              <div class=\"field\">\n"
    + "                <div class=\"label\">Name:</div>\n"
    + "                <div class=\"value\">"
  const OwnerHtmlAfterName: string :=
    "</div>\n"
    + "              </div>\n"
    + "              <div class=\"field\">\n"
    + "                <div class=\"label\">Email:</div>\n"
    + "                <div class=\"value\"><a href=\"mailto:"
  const OwnerHtmlAfterMailto: string :=
    "\">"
  const OwnerHtmlAfterEmail: string :=
    "</a></div>\n"
    + "              </div>\n"
    + "              <div class=\"field\">\n"
    + "                <div class=\"label\">Subject:</div>\n"
    + "                <div class=\"value\">"
  const OwnerHtmlAfterSubject: string :=
    "</div>\n"
    + "              </div>\n"
    + "              <div class=\"field\">\n"
    + "                <div class=\"label\">Message:</div>\n"
    + "                <div class=\"message-box\">"
  const OwnerHtmlAfterMessage: string :=
    "</div>\n"
    + "              </div>\n"
    + "              <div class=\"footer\">\n"
    + "                <p><strong>Submission Details:</strong></p>\n"
    + "                <p>Time: "
  const OwnerHtmlAfterTime: string :=
    "</p>\n"
    + "                <p>IP Address: "
  const OwnerHtmlAfterIp: string :=
    "</p>\n"
    + "                <p>User Agent: "
  const OwnerHtmlTail: string :=
    "</p>\n"
    + "              </div>\n"
    + "            </div>\n"
    + "          </div>\n"
    + "        </body>\n"
    + "      </html>\n"
    + "    "

  const OwnerTextHead: string :=
    "\n"
    + "New Contact Form Submission\n"
    + "============================\n"
    + "\n"
    + "Name: "
  const OwnerTextAfterName: string :=
    "\n"
    + "Email: "
  const OwnerTextAfterEmail: string :=
    "\n"
    + "Subject: "
  const OwnerTextAfterSubject: string :=
    "\n"
    + "\n"
    + "Message:\n"
    + "--------\n"
  const OwnerTextAfterMessage: string :=
    "\n"
    + "\n"
    + "Submission Details:\n"
    + "------------------\n"
    + "Time: "
  const OwnerTextAfterTime: string :=
    "\n"
    + "IP Address: "
  const OwnerTextAfterIp: string :=
    "\n"
    + "User Agent: "
  const OwnerTextAfterUserAgent: string :=
    "\n"
    + "\n"
    + "You can reply directly to this email to respond to "
  const OwnerTextTail: string :=
    ".\n"
    + "    "

  const ConfirmationHtmlHead: string :=
    "\n"
    + "      <!DOCTYPE html>\n"
    + "      <html>\n"
    + "        <head>\n"
    + "          <meta charset=\"utf-8\">\n"
    + "          <title>Message Received</title>\n"
    + "          <style>\n"
    + "            body { font-family: Arial, sans-serif; line-heig"
    + "ht: 1.6; color: #333; }\n"
    + "            .container { max-width: 600px; margin: 0 auto; p"
    + "adding: 20px; }\n"
    + "            .header { background: linear-gradient(135deg, #8"
    + "b4513, #d2691e); color: white; padding: 20px; border-radius:"
    + " 8px 8px 0 0; text-align: center; }\n"
    + "            .content { background: #f9f9f9; padding: 20px; b"
    + "order-radius: 0 0 8px 8px; }\n"
    + "            .message { background: white; padding: 20px; bor"
    + "der-radius: 5px; margin: 20px 0; }\n"
    + "            .footer { text-align: center; margin-top: 20px; "
    + "padding-top: 15px; border-top: 1px solid #ddd; font-size: 12"
    + "px; color: #666; }\n"
    + "          </style>\n"
    + "        </head>\n"
    + "        <body>\n"
    + "          <div class=\"container\">\n"
    + "            <div class=\"header\">\n"
    + "              <h2>\U{2705} Message Received</h2>\n"
    + "              <p>Thank you for reaching out!</p>\n"
    + "            </div>\n"
    + "            <div class=\"content\">\n"
    + "              <div class=\"message\">\n"
    + "                <p>Dear "
  const ConfirmationHtmlAfterName: string :=
    ",</p>\n"
    + "                <p>Thank you for your message regarding \"<st"
    + "rong>"
  const ConfirmationHtmlAfterSubject: string :=
    "</strong>\". I have received your correspondence and will rev"
    + "iew it carefully.</p>\n"
    + "                <p>I typically respond to inquiries within 2"
    + "4-48 hours during business days. If your matter is urgent, p"
    + "lease don\'t hesitate to reach out through other channels.</p"
    + ">\n"
    + "                <p>I look forward to the possibility of work"
    + "ing together!</p>\n"
    + "                <p>Best regards,<br><strong>Kaiz Nitullano</"
    + "strong><br>Full-Stack Developer & UI/UX Designer</p>\n"
    + "              </div>\n"
    + "            </div>\n"
    + "            <div class=\"footer\">\n"
    + "              <p>This is an automated confirmation message. "
    + "Please do not reply to this email.</p>\n"
    + "              <p>\U{A9} "
  const ConfirmationHtmlTail: string :=
    " Kaiz Nitullano. All rights reserved.</p>\n"
    + "            </div>\n"
    + "          </div>\n"
    + "        </body>\n"
    + "      </html>\n"
    + "    "

  const ConfirmationTextHead: string :=
    "\n"
    + "Message Received - Thank You for Contacting Me\n"
    + "===============================================\n"
    + "\n"
    + "Dear "
  const ConfirmationTextAfterName: string :=
    ",\n"
    + "\n"
    + "Thank you for your message regarding \""
  const ConfirmationTextAfterSubject: string :=
    "\". I have received your correspondence and will review it ca"
    + "refully.\n"
    + "\n"
    + "I typically respond to inquiries within 24-48 hours during b"
    + "usiness days. If your matter is urgent, please don\'t hesitat"
    + "e to reach out through other channels.\n"
    + "\n"
    + "I look forward to the possibility of working together!\n"
    + "\n"
    + "Best regards,\n"
    + "Kaiz Nitullano\n"
    + "Full-Stack Developer & UI/UX Designer\n"
    + "\n"
    + "---\n"
    + "This is an automated confirmation message. Please do not rep"
    + "ly to this email.\n"
    + "\U{A9} "
  const ConfirmationTextTail: string :=
    " Kaiz Nitullano. All rights reserved.\n"
    + "    "

  /** `generateOwnerEmailHTML(data)` */
  function OwnerHtml(d: ContactData): string {
    var before :=
      OwnerHtmlHead + d.name + OwnerHtmlAfterName + d.email + OwnerHtmlAfterMailto + d.email
      + OwnerHtmlAfterEmail + d.subject + OwnerHtmlAfterSubject;
    var after :=
      OwnerHtmlAfterMessage + d.timestamp + OwnerHtmlAfterTime + Show(d.ip) + OwnerHtmlAfterIp
      + Show(d.userAgent) + OwnerHtmlTail;
    before + NewlinesToBr(d.message) + after
  }

  /** `generateOwnerEmailText(data)` */
  function OwnerText(d: ContactData): string {
    var before :=
      OwnerTextHead + d.name + OwnerTextAfterName + d.email + OwnerTextAfterEmail + d.subject
      + OwnerTextAfterSubject;
    var after :=
      OwnerTextAfterMessage + d.timestamp + OwnerTextAfterTime + Show(d.ip) + OwnerTextAfterIp
      + Show(d.userAgent) + OwnerTextAfterUserAgent + d.name + OwnerTextTail;
    before + d.message + after
  }

  /** `generateConfirmationEmailHTML(name, subject)`, rendered in `year`. */
  function ConfirmationHtml(name: string, subject: string, year: int): string {
    ConfirmationHtmlHead + name + ConfirmationHtmlAfterName + subject + ConfirmationHtmlAfterSubject
    + IntToDecimal(year) + ConfirmationHtmlTail
  }

  /** `generateConfirmationEmailText(name, subject)`, rendered in `year`. */
  function ConfirmationText(name: string, subject: string, year: int): string {
    ConfirmationTextHead + name + ConfirmationTextAfterName + subject + ConfirmationTextAfterSubject
    + IntToDecimal(year) + ConfirmationTextTail
  }

  /**
   * The owner's HTML notice shows the message with every line break turned
   * into `<br>`, so the message's own text contributes no raw line break.
   */
  lemma OwnerHtmlShowsMessageWithBreaks(d: ContactData)
    ensures IsInfix(NewlinesToBr(d.message), OwnerHtml(d))
    ensures '\n' !in NewlinesToBr(d.message)
  {
    var before :=
      OwnerHtmlHead + d.name + OwnerHtmlAfterName + d.email + OwnerHtmlAfterMailto + d.email
      + OwnerHtmlAfterEmail + d.subject + OwnerHtmlAfterSubject;
    var after :=
      OwnerHtmlAfterMessage + d.timestamp + OwnerHtmlAfterTime + Show(d.ip) + OwnerHtmlAfterIp
      + Show(d.userAgent) + OwnerHtmlTail;
    InfixOfConcat(before, NewlinesToBr(d.message), after);
  }

  /** The owner's plain-text notice embeds the message verbatim. */
  lemma OwnerTextShowsMessageVerbatim(d: ContactData)
    ensures IsInfix(d.message, OwnerText(d))
  {
    var before :=
      OwnerTextHead + d.name + OwnerTextAfterName + d.email + OwnerTextAfterEmail + d.subject
      + OwnerTextAfterSubject;
    var after :=
      OwnerTextAfterMessage + d.timestamp + OwnerTextAfterTime + Show(d.ip) + OwnerTextAfterIp
      + Show(d.userAgent) + OwnerTextAfterUserAgent + d.name + OwnerTextTail;
    InfixOfConcat(before, d.message, after);
  }
}
