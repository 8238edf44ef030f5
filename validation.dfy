/**
 * The three middleware functions of the contact endpoint: the validation
 * gate that turns the recorded violations into a 400 response, the input
 * sanitiser that rewrites every string field of the body in place, and the
 * rate-limit hook, which does nothing.
 */
module Middleware {
  import opened Wrappers
  import opened Strings
  import opened Http
  import opened Sanitizer

  /** One entry of the 400 response's `errors`: `{field: path, message: msg, value}` of one violation. */
  function Summary(v: Violation): (e: FieldError)
    ensures e.field == v.path && e.message == v.msg && e.value == v.value
  {
    FieldError(v.path, v.msg, v.value)
  }

  /** `errors.array().map(...)`: one summary per violation, in the same order. */
  function Summarize(vs: seq<Violation>): (es: seq<FieldError>)
    ensures |es| == |vs|
    ensures forall i :: 0 <= i < |vs| ==> es[i] == Summary(vs[i])
  {
    if vs == [] then [] else [Summary(vs[0])] + Summarize(vs[1..])
  }

  /**
   * `validateContactForm`: with no recorded violation the request goes on to
   * the handler; otherwise the answer is 400, `success: false`, the first
   * violation's message, and every violation summarised in order.
   */
  function ValidateContactForm(errors: seq<Violation>): (o: Outcome)
    ensures o.Next? <==> errors == []
    ensures o.Respond? ==>
      && o.response.status == 400
      && !o.response.body.success
      && o.response.body.message == errors[0].msg
      && o.response.body.errors == Some(Summaries(Summarize(errors)))
      && o.response.body.messageId.None?
      && o.response.body.error.None?
  {
    if errors == [] then Next
    else
      Respond(Response(400, Body(false, errors[0].msg, Some(Summaries(Summarize(errors))), None, None)))
  }

  /** The `errors` array of a 400 answer lists every violation once, in order, as `{field, message, value}`. */
  lemma RejectionListsEveryViolation(errors: seq<Violation>, i: nat)
    requires i < |errors|
    ensures ValidateContactForm(errors).Respond?
    ensures var es := ValidateContactForm(errors).response.body.errors.value.entries;
      && |es| == |errors|
      && es[i].field == errors[i].path
      && es[i].message == errors[i].msg
      && es[i].value == errors[i].value
  {
  }

  /** `contactRateLimit`: always calls `next()` and writes nothing. */
  function ContactRateLimit(): (o: Outcome)
    ensures !o.Respond?
  {
    Next
  }

  /**
   * A value of a parsed JSON body: a string, or anything else (number,
   * boolean, null, array, object), kept as its JSON text.
   */
  datatype Value = Str(s: string) | NonString(json: string)

  /** What `sanitizeInput` makes of one body value. */
  function SanitizeValue(v: Value): (r: Value)
    ensures r.Str? <==> v.Str?
    ensures v.NonString? ==> r == v
    ensures v.Str? ==> IsSubsequence(r.s, v.s) && |r.s| <= |v.s|
  {
    match v
    case Str(s) =>
      SanitizeOnlyDeletes(s);
      Str(Sanitize(s))
    case NonString(_) => v
  }

  /** The body after `sanitizeInput`: every value sanitised under its own key. */
  function SanitizedBody(b: Option<map<string, Value>>): Option<map<string, Value>> {
    match b
    case None => None
    case Some(m) => Some(map k | k in m :: SanitizeValue(m[k]))
  }

  /** An incoming request, as far as `sanitizeInput` sees it. */
  class Request {
    var body: Option<map<string, Value>>

    constructor(body: Option<map<string, Value>>)
      ensures this.body == body
    {
      this.body := body;
    }

    /**
     * `sanitizeInput`: every string field of the body is rewritten in place
     * by the three deletions; a request without a body is left alone; then
     * `next()`.
     */
    method SanitizeInput() returns (o: Outcome)
      modifies this
      ensures body == SanitizedBody(old(body))
      ensures o == Next
    {
      if body.Some? {
        ghost var b0 := body.value;
        var todo := body.value.Keys;
        while todo != {}
          invariant body.Some? && body.value.Keys == b0.Keys
          invariant todo <= b0.Keys
          invariant forall k :: k in b0 ==> body.value[k] == if k in todo then b0[k] else SanitizeValue(b0[k])
          decreases |todo|
        {
          var k :| k in todo;
          var v := body.value[k];
          if v.Str? {
            body := Some(body.value[k := Str(Sanitize(v.s))]);
          }
          todo := todo - {k};
        }
        assert body.value == map k | k in b0 :: SanitizeValue(b0[k]);
      }
      o := Next;
    }
  }

  /** Sanitising a body keeps its key set, and a missing body stays missing. */
  lemma SanitizeKeepsKeys(b: Option<map<string, Value>>)
    ensures SanitizedBody(b).Some? <==> b.Some?
    ensures b.Some? ==> SanitizedBody(b).value.Keys == b.value.Keys
  {
  }

  /** Every value that is not a string is left unchanged. */
  lemma SanitizeKeepsNonStrings(m: map<string, Value>, k: string)
    requires k in m && m[k].NonString?
    ensures SanitizedBody(Some(m)).value[k] == m[k]
  {
  }

  /**
   * Every string value is replaced by its sanitised form, which only deletes
   * characters, and which is the string itself exactly when none of the
   * three patterns occurs in it.
   */
  lemma SanitizeRewritesStrings(m: map<string, Value>, k: string)
    requires k in m && m[k].Str?
    ensures SanitizedBody(Some(m)).value[k] == Str(Sanitize(m[k].s))
    ensures IsSubsequence(Sanitize(m[k].s), m[k].s)
    ensures Sanitize(m[k].s) == m[k].s <==> Clean(m[k].s)
  {
    SanitizeOnlyDeletes(m[k].s);
    SanitizeUnchangedIff(m[k].s);
  }
}
