# Contact-form pipeline of the portfolio backend, in Dafny

This project models the contact-form backend of a personal portfolio site: a
small Express application with one real endpoint, `POST /api/contact`.

- **Validation chains.** Four express-validator chains trim the `name`,
  `subject` and `message` fields, normalise the `email` field and escape the
  `subject` and `message` fields, all in place. Each chain appends a
  violation for every rule the field breaks.
- **`validateContactForm`.** This middleware turns a non-empty violation list
  into a 400 response.
- **POST handler.** The handler passes the rewritten fields, the client
  address, the User-Agent and a timestamp to `EmailService`, then answers 200
  or 500.
- **`EmailService`.** It holds a transporter. It builds the owner's notice and
  the sender's confirmation from four templates. It sends them strictly one
  after the other, and any failure becomes `{success: false, error}`.
- **`sanitizeInput`.** This middleware deletes script blocks, `javascript:`
  schemes and `on…=` handler heads from every string field of a body. Nothing
  in the route calls it.
- **Server set-up.** The CORS origin allow-list, and the rate limiter's window
  and cap, which are read from the environment as `parseInt(…) || default`.

Modules, one per source file or concept:

| module | file | models |
|---|---|---|
| `Wrappers` | wrappers.dfy | `Option` |
| `Strings` | strings.dfy | JavaScript's `\s` and `\w`; `trim()`; case-insensitive prefix; decimal rendering; infix and subsequence |
| `Http` | http.dfy | violations, JSON response bodies, and a middleware's two endings (`next()` or a response) |
| `Env` | env.dfy | the environment variables read, and `v \|\| fallback` |
| `Sanitizer` | sanitizer.dfy | the three regular-expression deletions of `sanitizeInput` |
| `Middleware` | validation.dfy | `validateContactForm`, `sanitizeInput` (a class with a loop method) and `contactRateLimit` |
| `Templates` | templates.dfy | the four `generate*` templates, as fixed text chunks around their holes |
| `Email` | email_service.dfy | payloads, the two-step dispatch, a transport class and the `EmailService` class |
| `ContactRoute` | contact.dfy | the rule chains, written as data with an interpreter; the request class the chains rewrite; the POST handler |
| `Server` | server.dfy | `parseInt`, the limiter defaults and the CORS decision |

How the model is stated:

- The validation library's own string functions (`isEmail`,
  `normalizeEmail`, `escape`) are fields of a `Library` value, so every
  statement holds for any behaviour of them.
- The transport is a `Mailer` object. It logs every message handed to it and
  replies according to a function of the send number and the message.
- Clock reads (the ISO timestamp, the current year) are parameters.

The model follows the code in these places:

- A failed confirmation send makes the whole result a failure: the owner's
  notice was already sent, yet `success` is `false`.
- No chain calls `.bail()`, so the name can draw both of its violations.
- The email length rule has no `withMessage` of its own, so it carries the
  library's default message `Invalid value`.
- The limits on `subject` and `message` are checked before `escape` runs.
- `sanitizeInput` is a single pass per pattern. It is not idempotent, and its
  output can still hold `javascript:`.
- The handler's own `validationResult` check repeats the middleware's check
  and can never fire. The route still models it.

## Model

| member | source | states |
|---|---|---|
| Middleware.Summarize | middleware/validation.js:12-16 | one entry per violation, same length, same order, each the violation's summary |
| Middleware.ValidateContactForm | middleware/validation.js:4-21 | `next()` exactly when there is no violation; otherwise 400 with `success` false, the first violation's message and every violation summarised, and no `messageId` or `error` |
| Middleware.RejectionListsEveryViolation | middleware/validation.js:7-17 | for a non-empty list, the response's i-th error entry has the i-th violation's path, message and value, and the entry list is as long as the violation list |
| Middleware.ContactRateLimit | middleware/validation.js:41-45 | never writes a response: it always calls `next()` |
| Middleware.SanitizeValue | middleware/validation.js:28-33 | a string stays a string and is only shortened by deleting characters; any other value is unchanged |
| Middleware.Request.constructor | middleware/validation.js:24 | the request holds the given body, or none |
| Middleware.Request.SanitizeInput | middleware/validation.js:24-38 | the loop over the keys leaves every value sanitised under its own key, leaves a missing body missing, and then calls `next()` |
| Middleware.SanitizeKeepsKeys | middleware/validation.js:25-27 | sanitising keeps the key set, and a missing body stays missing |
| Middleware.SanitizeKeepsNonStrings | middleware/validation.js:28 | a value that is not a string is unchanged |
| Middleware.SanitizeRewritesStrings | middleware/validation.js:28-33 | a string value becomes its sanitised text, which embeds in the original and equals it exactly when no pattern occurs |
| Sanitizer.DeleteAll | middleware/validation.js:30-32 | `t.replace(/p/gi, '')` as one left-to-right pass; specified by DeleteAllIsSubsequence, DeleteAllUnchangedIff, DeleteAllKeepsHead and DeleteAllSkipsMatch below |
| Sanitizer.Sanitize | middleware/validation.js:29-32 | the script-block, scheme and handler passes in that order; specified by SanitizeOnlyDeletes, SanitizeUnchangedIff and SanitizeNotIdempotent below |
| Sanitizer.MatchLengthIsRegexMatch | middleware/validation.js:30-32 | a match of positive length `n` is found at the front exactly when `t[..n]` is a whole match of the pattern: `<script` at a word boundary up to the first `</script>`; `javascript:`; or `on`, word characters, whitespace, `=` (all case-insensitive) |
| Sanitizer.DeleteAllIsSubsequence | middleware/validation.js:30-32 | a global deletion pass only deletes: its output embeds in its input |
| Sanitizer.DeleteAllShrinks | middleware/validation.js:30-32 | if a match starts anywhere, the pass makes the string strictly shorter |
| Sanitizer.DeleteAllKeepsClean | middleware/validation.js:30-32 | if no match starts anywhere, the pass returns the string unchanged |
| Sanitizer.DeleteAllUnchangedIff | middleware/validation.js:30-32 | the pass leaves a string unchanged exactly when no match of its pattern starts in it |
| Sanitizer.DeleteAllKeepsHead | middleware/validation.js:30-32 | a character at which no match starts is kept, and the pass goes on after it |
| Sanitizer.DeleteAllSkipsMatch | middleware/validation.js:30-32 | a match at the front is deleted, and the pass goes on after it |
| Sanitizer.SanitizeOnlyDeletes | middleware/validation.js:29-32 | the three passes in order only delete characters, so the output is never longer |
| Sanitizer.SanitizeUnchangedIff | middleware/validation.js:29-32 | a string is returned unchanged exactly when none of the three patterns occurs in it |
| Sanitizer.ScriptBlockNeedsClose | middleware/validation.js:30 | where no `</script>` starts, no script block matches |
| Sanitizer.UnclosedScriptKept | middleware/validation.js:30 | a string with no `</script>` passes the script-block deletion unchanged, so an unclosed `<script` is kept |
| Sanitizer.NoScriptWithoutAngle | middleware/validation.js:30 | no script block starts at a character other than `<` |
| Sanitizer.NoAngleBracketNoScript | middleware/validation.js:30 | a string without `<` passes the script-block deletion unchanged |
| Sanitizer.NoJavascriptInShort | middleware/validation.js:31 | fewer than eleven characters never start `javascript:` |
| Sanitizer.NoShortJavascript | middleware/validation.js:31 | a string shorter than eleven characters passes the scheme deletion unchanged |
| Sanitizer.SanitizeNotIdempotent | middleware/validation.js:29-32 | `javajavascript:script:` sanitises to `javascript:`, which starts with the scheme and sanitises again to the empty string |
| Sanitizer.NoHandlerWithoutO | middleware/validation.js:32 | no handler head starts at a character other than `o` or `O` |
| Sanitizer.NoLetterONoHandler | middleware/validation.js:32 | a string without `o` or `O` passes the handler deletion unchanged |
| Strings.TrimIsMaximalStrip | routes/contact.js:11 | `trim()` keeps one contiguous piece of the input, cuts only whitespace on either side, and the piece neither starts nor ends with whitespace |
| Strings.TrimIdempotent | routes/contact.js:11 | trimming twice is trimming once |
| Strings.NatToDecimal | services/emailService.js:218 | the rendering is non-empty, all digits, and starts with `0` only for zero |
| ContactRoute.Validate | routes/contact.js:9-34 | the four chains run in order over the body; specified by ValidateByRule and AcceptedIff below |
| ContactRoute.RunStep | routes/contact.js:10-33 | a sanitiser link records nothing; a failing validator keeps the value and records the field's path and the value it saw |
| ContactRoute.NameChainRuns | routes/contact.js:10-15 | the name chain leaves the trimmed name and records the reference name violations |
| ContactRoute.EmailChainRuns | routes/contact.js:17-21 | the email chain leaves the normalised address and records the reference email violations |
| ContactRoute.SubjectChainRuns | routes/contact.js:23-27 | the subject chain leaves the escaped trimmed subject and records the reference subject violations |
| ContactRoute.MessageChainRuns | routes/contact.js:29-33 | the message chain leaves the escaped trimmed message and records the reference message violations |
| ContactRoute.AfterNameChain | routes/contact.js:10-15 | after the first chain, only the name has changed and only its violations are recorded |
| ContactRoute.AfterEmailChain | routes/contact.js:10-21 | after two chains, the name and email fields are rewritten and their violations are recorded in that order |
| ContactRoute.AfterSubjectChain | routes/contact.js:10-27 | after three chains, the name, email and subject fields are rewritten and their violations are recorded in that order |
| ContactRoute.ValidateByRule | routes/contact.js:9-34 | the whole chain array leaves the trimmed name, the normalised email and the escaped trimmed subject and message; it records the name's, email's, subject's and message's violations in that order |
| ContactRoute.AcceptedIff | routes/contact.js:9-34 | no violation is recorded exactly when every rule holds |
| ContactRoute.NameLengthRule | routes/contact.js:10-13 | the length message, with the trimmed value, is recorded exactly when the trimmed name's length is outside 2..100 |
| ContactRoute.NamePatternRule | routes/contact.js:14-15 | the pattern message is recorded exactly when the trimmed name is empty or has a character outside ASCII letters, whitespace, `-`, `'` and `.` |
| ContactRoute.NameCanFailTwice | routes/contact.js:10-15 | without `.bail()`, a name breaking both rules gets both messages, length first |
| ContactRoute.DigitNameFailsTwice | routes/contact.js:10-15 | the name `7` gets both the length and the pattern message |
| ContactRoute.EmailRules | routes/contact.js:17-21 | `isEmail` judges the raw address; the 255 limit, with the default message, judges the normalised address |
| ContactRoute.MessageLengthBoundary | routes/contact.js:29-33 | with the other fields acceptable, a trimmed message of 2000 characters passes, and one of 2001 is the only violation |
| ContactRoute.LimitsIgnoreEscape | routes/contact.js:23-33 | the violations do not depend on what `escape` does, since the limits are checked before it runs |
| ContactRoute.RunLinks | routes/contact.js:9-34 | the loop over one chain's links computes the chain's fold over the field value |
| ContactRoute.ContactRequest.constructor | routes/contact.js:37 | a request starts with its body, no recorded violation, and its client address and User-Agent |
| ContactRoute.ContactRequest.RunChain | routes/contact.js:10-33 | one chain writes its field's final value into the body and appends its violations |
| ContactRoute.ContactRequest.RunValidation | routes/contact.js:9-34 | running the chains one after another leaves exactly the fields and violations of the whole fold |
| ContactRoute.HandlerRecheck | routes/contact.js:39-47 | the handler's own check continues exactly when there is no violation; otherwise 400 with the first message and the raw violation list |
| ContactRoute.RecheckUnreachable | routes/contact.js:37-47 | whenever `validateContactForm` lets a request through, the handler's own check does too |
| ContactRoute.FailureDetail | routes/contact.js:69 | the thrown error's message is the send error, or `Failed to send email` when that is empty |
| ContactRoute.SendResponse | routes/contact.js:62-79 | 200 with `success`, the thank-you text and the owner notice's id exactly on success; 500 with the apology otherwise; `error` present exactly on failure in development, holding the failure detail |
| ContactRoute.Submission | routes/contact.js:49-60 | the sender gets the rewritten name, email, subject and message, the client address, the User-Agent and the timestamp |
| ContactRoute.PostContact | routes/contact.js:37-81 | the chains rewrite the body and append the fold's violations; with violations the answer is the 400 of `validateContactForm` and nothing is sent; otherwise the two payloads built from the submission are dispatched and the answer is the response to that outcome, or the 500 of a missing transporter |
| Email.OwnerPayload | services/emailService.js:48-58 | the owner notice; specified by PayloadAddressing and FromNames below |
| Email.ConfirmationPayload | services/emailService.js:61-70 | the confirmation; specified by PayloadAddressing, FromNames and ConfirmationIgnoresMessage below |
| Email.PayloadAddressing | services/emailService.js:48-70 | the owner notice goes to CONTACT_EMAIL or the fixed default, answers to the submitter, and has the fixed prefix plus the subject; the confirmation goes to the submitter with the fixed subject and no reply-to; both come from EMAIL_USER |
| Email.FromNames | services/emailService.js:49-64 | the two sender names agree exactly when FROM_NAME is set and non-empty; the defaults differ |
| Email.ConfirmationIgnoresMessage | services/emailService.js:61-70 | the confirmation depends only on the name, the email address and the subject (and the year) |
| Email.SendBoth | services/emailService.js:72-74 | the owner's notice is sent first, and at most the confirmation follows it |
| Email.ConfirmationOnlyAfterOwner | services/emailService.js:73-74 | the confirmation is attempted exactly when the owner's notice was delivered |
| Email.NoPartialSuccess | services/emailService.js:73-99 | success exactly when both sends succeed, with both ids; otherwise the failure carries the first rejection's message |
| Email.Mailer.constructor | services/emailService.js:11 | a fresh transport has sent nothing |
| Email.Mailer.SendMail | services/emailService.js:73-74 | a send appends the message to the log and returns the transport's reply for that send number |
| Email.EmailService.constructor | services/emailService.js:4-7 | the transporter is what creation gave, and stays null when creation threw |
| Email.EmailService.InitializeTransporter | services/emailService.js:9-35 | the transporter is replaced by the created one, or kept when creation threw |
| Email.EmailService.SendContactEmail | services/emailService.js:37-101 | with no transporter the result is `Email service not initialized` and nothing is sent; otherwise the log grows by exactly the dispatched messages and the result is the dispatch outcome |
| Templates.OwnerHtml | services/emailService.js:103-158 | `generateOwnerEmailHTML`; specified by OwnerHtmlShowsMessageWithBreaks below |
| Templates.OwnerText | services/emailService.js:160-183 | `generateOwnerEmailText`; specified by OwnerTextShowsMessageVerbatim below |
| Templates.ConfirmationHtml | services/emailService.js:185-224 | `generateConfirmationEmailHTML`, a function of the name, the subject and the year only; the confirmation built from it is specified by Email.ConfirmationIgnoresMessage |
| Templates.ConfirmationText | services/emailService.js:226-247 | `generateConfirmationEmailText`, a function of the name, the subject and the year only; the confirmation built from it is specified by Email.ConfirmationIgnoresMessage |
| Templates.NewlinesToBr | services/emailService.js:145 | the result has no line break, is never shorter, is longer when there was a line break, and is the input when there was none |
| Templates.NewlinesToBrConcat | services/emailService.js:145 | the replacement distributes over concatenation |
| Templates.NewlinesToBrLine | services/emailService.js:145 | a line break between two pieces becomes `<br>` |
| Templates.NewlinesToBrIdempotent | services/emailService.js:145 | replacing twice is replacing once |
| Templates.NewlinesToBrUnchangedIff | services/emailService.js:145 | the text is unchanged exactly when it has no line break |
| Templates.OwnerHtmlShowsMessageWithBreaks | services/emailService.js:106-157 | the owner's HTML contains the message with line breaks as `<br>`, and that piece has no raw line break |
| Templates.OwnerTextShowsMessageVerbatim | services/emailService.js:163-182 | the owner's plain text contains the message verbatim |
| Env.Or | server.js:55 | a set, non-empty variable is taken; otherwise the fallback |
| Server.ParseInt | server.js:39-40 | `parseInt(s)` with no radix; specified by ParseIntOfDecimal and ParseIntStopsBeforeX below |
| Server.WindowMs | server.js:39 | the limiter's `windowMs`; specified by LimiterSettings below |
| Server.MaxRequests | server.js:40 | the limiter's `max`; specified by LimiterSettings below |
| Server.ParseOrDefault | server.js:39-40 | the parsed value when `parseInt` gives a non-zero number; the fallback for a missing variable, `NaN` or 0 |
| Server.ParseIntOfDecimal | server.js:39-40 | `parseInt` reads back the decimal rendering of any integer, also when followed by text that starts with no digit and, after `0`, with no `x` or `X` |
| Server.ParseIntStopsBeforeX | server.js:39-40 | `parseInt('5x')` is 5: the `x` after a numeral other than `0` only ends the digits |
| Server.ParseOrDefaultDecimal | server.js:39-40 | a positive decimal numeral is taken as its value |
| Server.ParseOrDefaultZero | server.js:39-40 | `0` falls back to the default |
| Server.LimiterSettings | server.js:39-40 | a positive decimal limit is taken as is; `0` or no value gives 60000 ms and 20 requests |
| Server.CorsOrigin | server.js:53-69 | the origin callback; specified by CorsAllowsExactly and CorsDefaultOrigins below |
| Server.IndexOf | server.js:64 | -1 exactly for absent origins; otherwise the first position holding the origin |
| Server.CorsAllowsExactly | server.js:52-69 | an origin is allowed exactly when it is missing or empty, or equals FRONTEND_URL (or its default) or one of the three local addresses; otherwise the error is `Not allowed by CORS` |
| Server.CorsDefaultOrigins | server.js:54-65 | without FRONTEND_URL, a non-empty origin is allowed exactly when it is one of the three local addresses |

## Left out

- Nodemailer, SMTP and the `verify` callback (services/emailService.js:11-31) are foreign code. The transport is a logging object whose replies are a parameter. Whether `createTransport` throws is an input to the constructor.
- `isEmail`, `normalizeEmail` and `escape` are library code and are left uninterpreted. `normalizeEmail` can also return `false`; that result is folded into a string.
- A missing body field is modelled as the empty string, which is how the validation library reads it. A field that is not a string is not modelled for the route.
- Text lengths count characters. The validation library's discount for Unicode variation selectors is not modelled.
- The HTML and text of a payload are held as a `Letter` value that renders through the templates. The fixed CSS and HTML text is kept as constant chunks around the holes.
- Logging (`console.*`) is not modelled.
- Server plumbing is not modelled: helmet, compression, morgan, body parsing, route mounting, the health and root endpoints, the `startServer` listen-and-retry loop and the signal handlers. An environment-supplied PORT is a string, so `port + 1` there concatenates.
- The `errorHandler`/`notFound` module is not part of this model. The static `GET /api/contact` endpoint returns a constant and is not modelled.
- `await` is modelled as plain sequence; nothing here runs concurrently.
- ContactRoute.ContactRequest.RunChain: it writes the field once, at the end of its chain, while the library writes after each sanitiser. No other code reads the field in between.
- ContactRoute.PostContact: `sanitizeInput` is not called, as in the route; any other exception thrown inside the handler is not modelled.
- Server.ParseInt: JavaScript numbers are doubles; the model's integers are unbounded, so very long numerals keep digits a double would round.
