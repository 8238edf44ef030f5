/**
 * The contact route: the validation chains that run over the four body
 * fields (trimming, normalising and escaping values in place while
 * recording violations), and the POST handler that sends the email and
 * answers 200 or 500.
 */
module ContactRoute {
  import opened Wrappers
  import opened Strings
  import opened Http
  import opened Middleware
  import opened Env
  import opened Templates
  import opened Email

  /**
   * The validation library's own string functions, which the model does not
   * open: `isEmail`, `normalizeEmail` and `escape`.
   */
  datatype Library = Library(
    isEmail: string -> bool,
    normalizeEmail: string -> string,
    escape: string -> string)

  datatype Field = NameField | EmailField | SubjectField | MessageField

  /** The field's key in the body and in every violation about it. */
  function Path(f: Field): string {
    match f
    case NameField => "name"
    case EmailField => "email"
    case SubjectField => "subject"
    case MessageField => "message"
  }

  /** The four body fields the route reads; a missing field reads as the empty string. */
  datatype FormFields = FormFields(name: string, email: string, subject: string, message: string)

  function Get(b: FormFields, f: Field): string {
    match f
    case NameField => b.name
    case EmailField => b.email
    case SubjectField => b.subject
    case MessageField => b.message
  }

  function Put(b: FormFields, f: Field, v: string): (r: FormFields)
    ensures Get(r, f) == v
    ensures forall g :: g != f ==> Get(r, g) == Get(b, g)
  {
    match f
    case NameField => b.(name := v)
    case EmailField => b.(email := v)
    case SubjectField => b.(subject := v)
    case MessageField => b.(message := v)
  }

  /** One link of a validation chain; a validator carries the message `withMessage` gave it. */
  datatype Step =
    | TrimStep
    | NormalizeEmailStep
    | EscapeStep
    | IsLengthCheck(min: nat, max: nat, msg: string)
    | NamePatternCheck(msg: string)
    | IsEmailCheck(msg: string)

  /** `body(field)` followed by its links, run left to right. */
  datatype Chain = Chain(field: Field, steps: seq<Step>)

  const NameLengthMessage: string := "Name must be between 2 and 100 characters"
  const NamePatternMessage: string := "Name can only contain letters, spaces, hyphens, apostrophes, and periods"
  const EmailMessage: string := "Please provide a valid email address"
  const DefaultMessage: string := "Invalid value"
  const SubjectLengthMessage: string := "Subject must be between 3 and 200 characters"
  const MessageLengthMessage: string := "Message must be between 5 and 2000 characters"

  const NameChain: Chain :=
    Chain(NameField, [TrimStep, IsLengthCheck(2, 100, NameLengthMessage), NamePatternCheck(NamePatternMessage)])
  const EmailChain: Chain :=
    Chain(EmailField, [IsEmailCheck(EmailMessage), NormalizeEmailStep, IsLengthCheck(0, 255, DefaultMessage)])
  const SubjectChain: Chain :=
    Chain(SubjectField, [TrimStep, IsLengthCheck(3, 200, SubjectLengthMessage), EscapeStep])
  const MessageChain: Chain :=
    Chain(MessageField, [TrimStep, IsLengthCheck(5, 2000, MessageLengthMessage), EscapeStep])

  /** `contactValidation` */
  const ContactValidation: seq<Chain> := [NameChain, EmailChain, SubjectChain, MessageChain]

  /** A character the name pattern `^[a-zA-Z\s\-'\.]+$` admits. */
  predicate IsNameChar(c: char) {
    IsAsciiLetter(c) || IsJsSpace(c) || c == '-' || c == '\'' || c == '.'
  }

  /** The name pattern: one or more admitted characters and nothing else. */
  predicate MatchesNamePattern(s: string) {
    |s| > 0 && forall i :: 0 <= i < |s| ==> IsNameChar(s[i])
  }

  datatype StepResult = StepResult(value: string, violation: Option<Violation>)

  /**
   * One link applied to the field's current value: a sanitiser replaces the
   * value, a validator keeps it and records a violation (with the value it
   * saw) when it fails.
   */
  function RunStep(lib: Library, path: string, step: Step, v: string): (r: StepResult)
    ensures step.TrimStep? || step.NormalizeEmailStep? || step.EscapeStep? ==> r.violation.None?
    ensures r.violation.Some? ==> r.value == v && r.violation.value.path == path && r.violation.value.value == v
  {
    match step
    case TrimStep => StepResult(Trim(v), None)
    case NormalizeEmailStep => StepResult(lib.normalizeEmail(v), None)
    case EscapeStep => StepResult(lib.escape(v), None)
    case IsLengthCheck(min, max, msg) =>
      StepResult(v, if min <= |v| <= max then None else Some(Violation(path, msg, v)))
    case NamePatternCheck(msg) =>
      StepResult(v, if MatchesNamePattern(v) then None else Some(Violation(path, msg, v)))
    case IsEmailCheck(msg) =>
      StepResult(v, if lib.isEmail(v) then None else Some(Violation(path, msg, v)))
  }

  function Recorded(o: Option<Violation>): seq<Violation> {
    if o.Some? then [o.value] else []
  }

  datatype ChainResult = ChainResult(value: string, violations: seq<Violation>)

  /** The first `k` links of one chain, folded left to right over the field's value. */
  function RunPrefix(lib: Library, path: string, steps: seq<Step>, k: nat, v: string): ChainResult
    requires k <= |steps|
  {
    if k == 0 then ChainResult(v, [])
    else
      var prev := RunPrefix(lib, path, steps, k - 1, v);
      var s := RunStep(lib, path, steps[k - 1], prev.value);
      ChainResult(s.value, prev.violations + Recorded(s.violation))
  }

  /** The links of one chain, run left to right. */
  function RunSteps(lib: Library, path: string, steps: seq<Step>, v: string): ChainResult {
    RunPrefix(lib, path, steps, |steps|, v)
  }

  datatype Validation = Validation(fields: FormFields, violations: seq<Violation>)

  /** The first `k` chains run one after another, each on the body the previous ones left. */
  function RunChains(lib: Library, chains: seq<Chain>, k: nat, b: FormFields): Validation
    requires k <= |chains|
  {
    if k == 0 then Validation(b, [])
    else
      var prev := RunChains(lib, chains, k - 1, b);
      var c := chains[k - 1];
      var s := RunSteps(lib, Path(c.field), c.steps, Get(prev.fields, c.field));
      Validation(Put(prev.fields, c.field, s.value), prev.violations + s.violations)
  }

  /** What `contactValidation` does to a request body. */
  function Validate(lib: Library, b: FormFields): Validation {
    RunChains(lib, ContactValidation, |ContactValidation|, b)
  }

  // The rules each field is held to, read off the chains.

  /** `isLength({min, max})` with its message, on the value it sees. */
  function LengthRule(path: string, min: nat, max: nat, msg: string, v: string): seq<Violation> {
    if min <= |v| <= max then [] else [Violation(path, msg, v)]
  }

  /** The name is trimmed, then checked for length and then, separately, for the pattern. */
  function NameViolations(name: string): seq<Violation> {
    var t := Trim(name);
    LengthRule("name", 2, 100, NameLengthMessage, t)
    + (if MatchesNamePattern(t) then [] else [Violation("name", NamePatternMessage, t)])
  }

  /** The raw email is checked by `isEmail`; the 255 limit applies to the normalised address. */
  function EmailViolations(lib: Library, email: string): seq<Violation> {
    (if lib.isEmail(email) then [] else [Violation("email", EmailMessage, email)])
    + LengthRule("email", 0, 255, DefaultMessage, lib.normalizeEmail(email))
  }

  /** The subject's limits apply to the trimmed, not yet escaped, text. */
  function SubjectViolations(subject: string): seq<Violation> {
    LengthRule("subject", 3, 200, SubjectLengthMessage, Trim(subject))
  }

  /** The message's limits apply to the trimmed, not yet escaped, text. */
  function MessageViolations(message: string): seq<Violation> {
    LengthRule("message", 5, 2000, MessageLengthMessage, Trim(message))
  }

  lemma NameChainRuns(lib: Library, v: string)
    ensures RunSteps(lib, "name", NameChain.steps, v) == ChainResult(Trim(v), NameViolations(v))
  {
    var steps := NameChain.steps;
    assert RunPrefix(lib, "name", steps, 1, v) == ChainResult(Trim(v), []);
    assert RunPrefix(lib, "name", steps, 2, v) == ChainResult(Trim(v), LengthRule("name", 2, 100, NameLengthMessage, Trim(v)));
  }

  lemma EmailChainRuns(lib: Library, v: string)
    ensures RunSteps(lib, "email", EmailChain.steps, v) == ChainResult(lib.normalizeEmail(v), EmailViolations(lib, v))
  {
    var steps := EmailChain.steps;
    assert RunPrefix(lib, "email", steps, 1, v) == ChainResult(v, if lib.isEmail(v) then [] else [Violation("email", EmailMessage, v)]);
    assert RunPrefix(lib, "email", steps, 2, v) == ChainResult(lib.normalizeEmail(v), if lib.isEmail(v) then [] else [Violation("email", EmailMessage, v)]);
  }

  lemma SubjectChainRuns(lib: Library, v: string)
    ensures RunSteps(lib, "subject", SubjectChain.steps, v) == ChainResult(lib.escape(Trim(v)), SubjectViolations(v))
  {
    var steps := SubjectChain.steps;
    assert RunPrefix(lib, "subject", steps, 1, v) == ChainResult(Trim(v), []);
    assert RunPrefix(lib, "subject", steps, 2, v) == ChainResult(Trim(v), SubjectViolations(v));
  }

  lemma MessageChainRuns(lib: Library, v: string)
    ensures RunSteps(lib, "message", MessageChain.steps, v) == ChainResult(lib.escape(Trim(v)), MessageViolations(v))
  {
    var steps := MessageChain.steps;
    assert RunPrefix(lib, "message", steps, 1, v) == ChainResult(Trim(v), []);
    assert RunPrefix(lib, "message", steps, 2, v) == ChainResult(Trim(v), MessageViolations(v));
  }

  lemma AfterNameChain(lib: Library, b: FormFields)
    ensures RunChains(lib, ContactValidation, 1, b) == Validation(b.(name := Trim(b.name)), NameViolations(b.name))
  {
    NameChainRuns(lib, b.name);
  }

  lemma AfterEmailChain(lib: Library, b: FormFields)
    ensures RunChains(lib, ContactValidation, 2, b)
      == Validation(b.(name := Trim(b.name), email := lib.normalizeEmail(b.email)),
                    NameViolations(b.name) + EmailViolations(lib, b.email))
  {
    AfterNameChain(lib, b);
    EmailChainRuns(lib, b.email);
  }

  lemma AfterSubjectChain(lib: Library, b: FormFields)
    ensures RunChains(lib, ContactValidation, 3, b)
      == Validation(b.(name := Trim(b.name), email := lib.normalizeEmail(b.email), subject := lib.escape(Trim(b.subject))),
                    NameViolations(b.name) + EmailViolations(lib, b.email) + SubjectViolations(b.subject))
  {
    AfterEmailChain(lib, b);
    SubjectChainRuns(lib, b.subject);
  }

  /**
   * `contactValidation` leaves the trimmed name, the normalised email and
   * the trimmed-then-escaped subject and message in the body, and records
   * the name's, then the email's, then the subject's, then the message's
   * violations, each field's in the order of its validators.
   */
  lemma ValidateByRule(lib: Library, b: FormFields)
    ensures Validate(lib, b).fields
      == FormFields(Trim(b.name), lib.normalizeEmail(b.email), lib.escape(Trim(b.subject)), lib.escape(Trim(b.message)))
    ensures Validate(lib, b).violations
      == NameViolations(b.name) + EmailViolations(lib, b.email) + SubjectViolations(b.subject) + MessageViolations(b.message)
  {
    AfterSubjectChain(lib, b);
    MessageChainRuns(lib, b.message);
  }

  // What the rules accept, and how the bounds fall.

  /** Every rule of `contactValidation` holds for the body. */
  predicate Acceptable(lib: Library, b: FormFields) {
    && 2 <= |Trim(b.name)| <= 100 && MatchesNamePattern(Trim(b.name))
    && lib.isEmail(b.email) && |lib.normalizeEmail(b.email)| <= 255
    && 3 <= |Trim(b.subject)| <= 200
    && 5 <= |Trim(b.message)| <= 2000
  }

  /** The chains record no violation exactly when every rule holds. */
  lemma AcceptedIff(lib: Library, b: FormFields)
    ensures Validate(lib, b).violations == [] <==> Acceptable(lib, b)
  {
    ValidateByRule(lib, b);
    var n := NameViolations(b.name);
    var e := EmailViolations(lib, b.email);
    var s := SubjectViolations(b.subject);
    var m := MessageViolations(b.message);
    assert |n + e + s + m| == |n| + |e| + |s| + |m|;
  }

  /**
   * The trimmed name draws the length message, with the trimmed value,
   * exactly when its length is outside 2..100; a name of length 2 passes
   * that rule and one of length 1 does not.
   */
  lemma NameLengthRule(name: string)
    ensures Violation("name", NameLengthMessage, Trim(name)) in NameViolations(name)
      <==> !(2 <= |Trim(name)| <= 100)
  {
    assert Violation("name", NameLengthMessage, Trim(name)) != Violation("name", NamePatternMessage, Trim(name)) by {
      assert |NameLengthMessage| != |NamePatternMessage|;
    }
  }

  /** The trimmed name draws the pattern message exactly when the pattern fails on it. */
  lemma NamePatternRule(name: string)
    ensures Violation("name", NamePatternMessage, Trim(name)) in NameViolations(name)
      <==> !MatchesNamePattern(Trim(name))
  {
    assert Violation("name", NameLengthMessage, Trim(name)) != Violation("name", NamePatternMessage, Trim(name)) by {
      assert |NameLengthMessage| != |NamePatternMessage|;
    }
  }

  /** Without `.bail()`, a name that breaks both rules gets both messages, length first. */
  lemma NameCanFailTwice(name: string)
    requires !(2 <= |Trim(name)| <= 100) && !MatchesNamePattern(Trim(name))
    ensures NameViolations(name)
      == [Violation("name", NameLengthMessage, Trim(name)), Violation("name", NamePatternMessage, Trim(name))]
  {
  }

  /** The one-character name "7" is both too short and outside the pattern. */
  lemma DigitNameFailsTwice()
    ensures NameViolations("7") == [Violation("name", NameLengthMessage, "7"), Violation("name", NamePatternMessage, "7")]
  {
    assert Trim("7") == "7" by {
      assert SpaceRun("7", 0) == 0;
      assert SpaceRunBack("7", 1) == 0;
    }
    assert !MatchesNamePattern("7") by {
      assert !IsNameChar("7"[0]);
    }
  }

  /**
   * The email is checked by `isEmail` as submitted, while the 255 limit, with
   * the library's default message, applies to the normalised address.
   */
  lemma EmailRules(lib: Library, email: string)
    ensures (Violation("email", EmailMessage, email) in EmailViolations(lib, email)) <==> !lib.isEmail(email)
    ensures (Violation("email", DefaultMessage, lib.normalizeEmail(email)) in EmailViolations(lib, email))
      <==> |lib.normalizeEmail(email)| > 255
  {
    assert Violation("email", EmailMessage, email) != Violation("email", DefaultMessage, lib.normalizeEmail(email)) by {
      assert EmailMessage[0] == 'P' && DefaultMessage[0] == 'I';
    }
  }

  /**
   * With the other fields acceptable, a message whose trimmed text has 2000
   * characters passes, and one with 2001 is the only violation.
   */
  lemma MessageLengthBoundary(lib: Library, b: FormFields)
    requires 2 <= |Trim(b.name)| <= 100 && MatchesNamePattern(Trim(b.name))
    requires lib.isEmail(b.email) && |lib.normalizeEmail(b.email)| <= 255
    requires 3 <= |Trim(b.subject)| <= 200
    ensures |Trim(b.message)| == 2000 ==> Validate(lib, b).violations == []
    ensures |Trim(b.message)| == 2001 ==>
      Validate(lib, b).violations == [Violation("message", MessageLengthMessage, Trim(b.message))]
  {
    ValidateByRule(lib, b);
    assert NameViolations(b.name) == [];
    assert EmailViolations(lib, b.email) == [];
    assert SubjectViolations(b.subject) == [];
  }

  /**
   * The limits see the subject and message before `escape` runs: the
   * violations do not depend on what `escape` does.
   */
  lemma LimitsIgnoreEscape(lib1: Library, lib2: Library, b: FormFields)
    requires lib1.isEmail == lib2.isEmail && lib1.normalizeEmail == lib2.normalizeEmail
    ensures Validate(lib1, b).violations == Validate(lib2, b).violations
  {
    ValidateByRule(lib1, b);
    ValidateByRule(lib2, b);
    assert EmailViolations(lib1, b.email) == EmailViolations(lib2, b.email);
  }

  // The request as the chains see it: a body they rewrite and a list of
  // violations they append to.

  lemma RunPrefixNext(lib: Library, path: string, steps: seq<Step>, i: nat, v: string)
    requires i < |steps|
    ensures var prev := RunPrefix(lib, path, steps, i, v);
      var s := RunStep(lib, path, steps[i], prev.value);
      RunPrefix(lib, path, steps, i + 1, v) == ChainResult(s.value, prev.violations + Recorded(s.violation))
  {
  }

  lemma RunChainsNext(lib: Library, chains: seq<Chain>, i: nat, b: FormFields)
    requires i < |chains|
    ensures var prev := RunChains(lib, chains, i, b);
      var c := chains[i];
      var s := RunSteps(lib, Path(c.field), c.steps, Get(prev.fields, c.field));
      RunChains(lib, chains, i + 1, b) == Validation(Put(prev.fields, c.field, s.value), prev.violations + s.violations)
  {
  }

  lemma ConcatAssoc<T>(a: seq<T>, b: seq<T>, c: seq<T>)
    ensures a + b + c == a + (b + c)
  {
  }

  /** The links of one chain applied in turn to a value, collecting violations. */
  method RunLinks(lib: Library, path: string, steps: seq<Step>, v0: string) returns (r: ChainResult)
    ensures r == RunSteps(lib, path, steps, v0)
  {
    var v := v0;
    var found: seq<Violation> := [];
    var i := 0;
    while i < |steps|
      invariant 0 <= i <= |steps|
      invariant RunPrefix(lib, path, steps, i, v0) == ChainResult(v, found)
    {
      RunPrefixNext(lib, path, steps, i, v0);
      var s := RunStep(lib, path, steps[i], v);
      v := s.value;
      found := found + Recorded(s.violation);
      i := i + 1;
    }
    r := ChainResult(v, found);
  }

  class ContactRequest {
    var body: FormFields
    var errors: seq<Violation>
    const ip: Option<string>
    const userAgent: Option<string>

    constructor(body: FormFields, ip: Option<string>, userAgent: Option<string>)
      ensures this.body == body && errors == [] && this.ip == ip && this.userAgent == userAgent
    {
      this.body := body;
      errors := [];
      this.ip := ip;
      this.userAgent := userAgent;
    }

    /**
     * One chain as middleware: each link in turn reads the field, a
     * sanitiser writes it back, a failing validator appends its violation.
     */
    method RunChain(lib: Library, c: Chain)
      modifies this
      ensures var r := RunSteps(lib, Path(c.field), c.steps, Get(old(body), c.field));
        body == Put(old(body), c.field, r.value) && errors == old(errors) + r.violations
    {
      var r := RunLinks(lib, Path(c.field), c.steps, Get(body, c.field));
      body := Put(body, c.field, r.value);
      errors := errors + r.violations;
    }

    /** The chains of an array, run as consecutive middleware. */
    method RunValidation(lib: Library, chains: seq<Chain>)
      modifies this
      ensures var r := RunChains(lib, chains, |chains|, old(body));
        body == r.fields && errors == old(errors) + r.violations
    {
      var i := 0;
      while i < |chains|
        invariant 0 <= i <= |chains|
        invariant var r := RunChains(lib, chains, i, old(body));
          body == r.fields && errors == old(errors) + r.violations
      {
        ghost var prev := RunChains(lib, chains, i, old(body));
        RunChainsNext(lib, chains, i, old(body));
        RunChain(lib, chains[i]);
        ghost var c := chains[i];
        ConcatAssoc(old(errors), prev.violations,
                    RunSteps(lib, Path(c.field), c.steps, Get(prev.fields, c.field)).violations);
        i := i + 1;
      }
    }
  }

  const ThankYouMessage: string := "Message sent successfully! I'll get back to you soon."
  const ApologyMessage: string := "Sorry, there was an error sending your message. Please try again later."
  const FailedToSendMessage: string := "Failed to send email"

  /**
   * The handler's own check of `validationResult`: a 400 response carrying
   * the library's entries as they are.
   */
  function HandlerRecheck(errors: seq<Violation>): (o: Outcome)
    ensures o.Next? <==> errors == []
    ensures o.Respond? ==>
      && o.response.status == 400 && !o.response.body.success
      && o.response.body.message == errors[0].msg
      && o.response.body.errors == Some(Raw(errors))
  {
    if errors == [] then Next
    else Respond(Response(400, Body(false, errors[0].msg, Some(Raw(errors)), None, None)))
  }

  /** `validateContactForm` runs first, so the handler's own 400 branch is never taken. */
  lemma RecheckUnreachable(errors: seq<Violation>)
    ensures ValidateContactForm(errors).Next? ==> HandlerRecheck(errors).Next?
  {
  }

  /** The message of the error the handler throws on a failed send. */
  function FailureDetail(error: string): (d: string)
    ensures d != []
    ensures error != [] ==> d == error
    ensures error == [] ==> d == FailedToSendMessage
  {
    if error == [] then FailedToSendMessage else error
  }

  /**
   * The answer to a send outcome: 200 with the owner notice's id on
   * success; otherwise 500 with the apology, and the failure's detail only
   * in development.
   */
  function SendResponse(outcome: SendOutcome, env: Env): (r: Response)
    ensures r.status == 200 <==> outcome.Sent?
    ensures r.status == 500 <==> outcome.Failed?
    ensures r.body.success <==> outcome.Sent?
    ensures r.body.errors.None?
    ensures outcome.Sent? ==> r.body.message == ThankYouMessage && r.body.messageId == Some(outcome.messageId)
    ensures outcome.Failed? ==> r.body.message == ApologyMessage && r.body.messageId.None?
    ensures r.body.error.Some? <==> outcome.Failed? && IsDevelopment(env)
    ensures r.body.error.Some? ==> r.body.error.value == FailureDetail(outcome.error)
  {
    match outcome
    case Sent(id, _) => Response(200, Body(true, ThankYouMessage, None, Some(id), None))
    case Failed(e) =>
      Response(500, Body(false, ApologyMessage, None, None,
                         if IsDevelopment(env) then Some(FailureDetail(e)) else None))
  }

  /** What the handler hands to `sendContactEmail`: the fields as the chains left them. */
  function Submission(req: FormFields, ip: Option<string>, userAgent: Option<string>, timestamp: string): (d: ContactData)
    ensures d.name == req.name && d.email == req.email && d.subject == req.subject && d.message == req.message
    ensures d.ip == ip && d.userAgent == userAgent && d.timestamp == timestamp
  {
    ContactData(req.name, req.email, req.subject, req.message, ip, userAgent, timestamp)
  }

  /**
   * `POST /api/contact`: the four chains, then `validateContactForm`, then
   * the handler.  `timestamp` and `year` stand for the clock reads.
   */
  method PostContact(req: ContactRequest, lib: Library, service: EmailService, env: Env, timestamp: string, year: int)
    returns (resp: Response)
    modifies req, service.Transport()
    ensures var v := RunChains(lib, ContactValidation, |ContactValidation|, old(req.body));
      req.body == v.fields && req.errors == old(req.errors) + v.violations
    ensures req.errors != [] ==>
      ValidateContactForm(req.errors).Respond? && resp == ValidateContactForm(req.errors).response
    ensures req.errors != [] && service.transporter.Some? ==>
      service.transporter.value.sent == old(service.transporter.value.sent)
    ensures req.errors == [] && service.transporter.None? ==>
      resp == SendResponse(Failed(NotInitializedMessage), env)
    ensures req.errors == [] && service.transporter.Some? ==>
      var d := Submission(req.body, req.ip, req.userAgent, timestamp);
      var x := SendBoth(service.transporter.value.reply, |old(service.transporter.value.sent)|,
                        OwnerPayload(d, env), ConfirmationPayload(d, env, year));
      service.transporter.value.sent == old(service.transporter.value.sent) + x.attempted
      && resp == SendResponse(x.outcome, env)
  {
    req.RunValidation(lib, ContactValidation);
    var gate := ValidateContactForm(req.errors);
    if gate.Respond? {
      return gate.response;
    }
    var recheck := HandlerRecheck(req.errors);
    assert recheck.Next?;
    var d := Submission(req.body, req.ip, req.userAgent, timestamp);
    var outcome := service.SendContactEmail(d, env, year);
    resp := SendResponse(outcome, env);
  }
}
