/**
 * The environment variables the modelled code reads.  An unset variable is
 * `None`; JavaScript's `process.env.X || fallback` falls back both when the
 * variable is unset and when it is the empty string.
 */
module Env {
  import opened Wrappers

  datatype Env = Env(
    fromName: Option<string>,              // FROM_NAME
    emailUser: Option<string>,             // EMAIL_USER
    contactEmail: Option<string>,          // CONTACT_EMAIL
    nodeEnv: Option<string>,               // NODE_ENV
    frontendUrl: Option<string>,           // FRONTEND_URL
    rateLimitWindowMs: Option<string>,     // RATE_LIMIT_WINDOW_MS
    rateLimitMaxRequests: Option<string>)  // RATE_LIMIT_MAX_REQUESTS

  /** `v || fallback` for a string-valued environment variable. */
  function Or(v: Option<string>, fallback: string): (r: string)
    ensures v.Some? && v.value != [] ==> r == v.value
    ensures v.None? || v.value == [] ==> r == fallback
  {
    if v.Some? && v.value != [] then v.value else fallback
  }

  /** `process.env.NODE_ENV === 'development'` */
  predicate IsDevelopment(env: Env) {
    env.nodeEnv == Some("development")
  }
}
