/**
 * The `origin` callbacks handed to the `cors` middleware by index.js and by
 * api/index.js. A callback either lets the request through or hands an error
 * to Express, which answers it through the application's error handler.
 */
module Cors {
  import opened Wrappers
  import opened Text
  import opened ErrorHandlers

  /**
   * What becomes of a request after the origin check: it goes on, it goes on
   * although its origin is not listed (api/index.js logs it as blocked and lets
   * it through), or an error reaches the error handler (passed to the
   * callback, or thrown by the callback itself, which Express catches the same
   * way).
   */
  datatype CorsOutcome = Allow | AllowUnlisted | Fail(err: JsError)

  /** The `Origin` header is absent or empty: `!origin`. */
  predicate NoOrigin(origin: Option<string>) {
    origin.None? || origin.value == ""
  }

  // ---------------------------------------------------------------- index.js

  /** The fixed part of index.js's allow-list. */
  const MainFixedOrigins: seq<string> := [
    "http://localhost:5173",
    "https://www.tagadplatforms.com",
    "https://tagadplatforms.com"
  ]

  /** index.js's allow-list: `FRONTEND_URL` (possibly unset) first, then the fixed origins. */
  function MainAllowList(frontendUrl: Option<string>): seq<Option<string>> {
    [frontendUrl, Some(MainFixedOrigins[0]), Some(MainFixedOrigins[1]), Some(MainFixedOrigins[2])]
  }

  const SubdomainSuffix := ".tagadplatforms.com"
  const CorsRejection := JsError(None, "Not allowed by CORS")

  /** index.js's callback: no origin, a listed origin or a subdomain passes; anything else is an error. */
  function MainCorsDecision(frontendUrl: Option<string>, origin: Option<string>): CorsOutcome {
    if NoOrigin(origin) then Allow
    else if Some(origin.value) in MainAllowList(frontendUrl) || EndsWith(origin.value, SubdomainSuffix) then Allow
    else Fail(CorsRejection)
  }

  /**
   * index.js lets a request through exactly when it has no origin, the origin
   * equals a set `FRONTEND_URL` or one of the fixed origins, or ends with
   * `.tagadplatforms.com`; an unset `FRONTEND_URL` matches nothing. A rejected
   * request is answered 500 by index.js's error handler.
   */
  lemma MainCorsMeaning(frontendUrl: Option<string>, origin: Option<string>, env: Env)
    ensures MainCorsDecision(frontendUrl, origin) == Allow <==>
      NoOrigin(origin) ||
      origin.value in MainFixedOrigins ||
      frontendUrl == Some(origin.value) ||
      EndsWith(origin.value, SubdomainSuffix)
    ensures MainCorsDecision(frontendUrl, origin).Fail? ==>
      MainCorsDecision(frontendUrl, origin).err == CorsRejection &&
      ServerErrorReply(CorsRejection, env).status == 500
  {
    if !NoOrigin(origin) {
      var o := origin.value;
      assert Some(o) in MainAllowList(frontendUrl) <==> o in MainFixedOrigins || frontendUrl == Some(o) by {
        if o in MainFixedOrigins {
          var i :| 0 <= i < 3 && MainFixedOrigins[i] == o;
          assert MainAllowList(frontendUrl)[i + 1] == Some(o);
        }
      }
    }
  }

  /** Any origin with the suffix passes, whatever its scheme or depth. */
  lemma SubdomainsAllowed(frontendUrl: Option<string>, host: string)
    ensures MainCorsDecision(frontendUrl, Some("https://" + host + SubdomainSuffix)) == Allow
    ensures MainCorsDecision(frontendUrl, Some("http://" + host + SubdomainSuffix)) == Allow
  {
    var a := "https://" + host + SubdomainSuffix;
    assert a[|a| - |SubdomainSuffix|..] == SubdomainSuffix;
    var b := "http://" + host + SubdomainSuffix;
    assert b[|b| - |SubdomainSuffix|..] == SubdomainSuffix;
  }

  /** The suffix includes its dot: a look-alike domain is not a subdomain. */
  lemma LookAlikeRejected(frontendUrl: Option<string>)
    requires frontendUrl != Some("https://eviltagadplatforms.com")
    ensures MainCorsDecision(frontendUrl, Some("https://eviltagadplatforms.com")) == Fail(CorsRejection)
  {
    var o := "https://eviltagadplatforms.com";
    assert o[|o| - |SubdomainSuffix|..][0] == 'l';
    assert o != MainFixedOrigins[0] by { assert |o| != |MainFixedOrigins[0]|; }
    assert o != MainFixedOrigins[1] by { assert o[8] != MainFixedOrigins[1][8]; }
    assert o != MainFixedOrigins[2] by { assert |o| != |MainFixedOrigins[2]|; }
  }

  // ------------------------------------------------------------ api/index.js

  /**
   * An entry of api/index.js's allow-list: a string compared with `===`, a
   * regular expression asked with `.test`, or `undefined` (an unset
   * environment variable), on which `.test` throws.
   */
  datatype AllowEntry = Literal(s: string) | Pattern(test: string -> bool) | Unset

  /** The fixed part of api/index.js's allow-list. */
  const ApiFixedOrigins: seq<string> := [
    "https://vercel-frontend-dusky-eight.vercel.app",
    "http://localhost:5173",
    "http://localhost:3000"
  ]

  const ApiFixedEntries: seq<AllowEntry> :=
    [Literal(ApiFixedOrigins[0]), Literal(ApiFixedOrigins[1]), Literal(ApiFixedOrigins[2])]

  /** api/index.js's allow-list, `FRONTEND_URL` first. */
  function ApiAllowList(frontendUrl: Option<string>): seq<AllowEntry> {
    [if frontendUrl.Some? then Literal(frontendUrl.value) else Unset] + ApiFixedEntries
  }

  /** The `TypeError` V8 raises for `undefined.test(origin)`. */
  const UndefinedTestError := JsError(None, "Cannot read properties of undefined (reading 'test')")

  /**
   * `entries.some(e => typeof e === 'string' ? e === origin : e.test(origin))`,
   * evaluated left to right as JavaScript does: it stops at the first match,
   * and an `undefined` entry reached before any match throws.
   */
  function SomeAllows(entries: seq<AllowEntry>, origin: string): Result<bool, JsError> {
    if entries == [] then Success(false)
    else match entries[0]
      case Literal(s) => if s == origin then Success(true) else SomeAllows(entries[1..], origin)
      case Pattern(test) => if test(origin) then Success(true) else SomeAllows(entries[1..], origin)
      case Unset => Failure(UndefinedTestError)
  }

  /**
   * api/index.js's callback as written: no origin passes, a listed origin
   * passes, an unlisted one is logged and passes too (the "allow for now"
   * branch), and a throw from `.some` reaches the error handler.
   */
  function ApiCorsAsWritten(frontendUrl: Option<string>, origin: Option<string>): CorsOutcome {
    if NoOrigin(origin) then Allow
    else match SomeAllows(ApiAllowList(frontendUrl), origin.value)
      case Failure(e) => Fail(e)
      case Success(listed) => if listed then Allow else AllowUnlisted
  }

  /**
   * With `FRONTEND_URL` unset, every request that carries an origin fails
   * with a `TypeError`, and api/index.js's error handler answers it 500.
   */
  lemma ApiCorsThrowsWhenUnset(origin: string, env: Env)
    requires origin != ""
    ensures ApiCorsAsWritten(None, Some(origin)) == Fail(UndefinedTestError)
    ensures ApiErrorReply(UndefinedTestError, env).status == 500
  {
  }

  /** The concrete case: the deployed front end itself is refused when `FRONTEND_URL` is unset. */
  lemma DeployedFrontendRefusedWhenUnset()
    ensures ApiCorsAsWritten(None, Some("https://vercel-frontend-dusky-eight.vercel.app")).Fail?
  {
    ApiCorsThrowsWhenUnset("https://vercel-frontend-dusky-eight.vercel.app", Env(None));
  }

  /** The membership test with `undefined` entries skipped: they match no origin. */
  function SomeAllowsSkippingUnset(entries: seq<AllowEntry>, origin: string): bool {
    if entries == [] then false
    else match entries[0]
      case Literal(s) => s == origin || SomeAllowsSkippingUnset(entries[1..], origin)
      case Pattern(test) => test(origin) || SomeAllowsSkippingUnset(entries[1..], origin)
      case Unset => SomeAllowsSkippingUnset(entries[1..], origin)
  }

  /** The callback as evidently intended: an unset entry matches nothing and never throws. */
  function ApiCorsDecision(frontendUrl: Option<string>, origin: Option<string>): CorsOutcome {
    if NoOrigin(origin) || SomeAllowsSkippingUnset(ApiAllowList(frontendUrl), origin.value) then Allow
    else AllowUnlisted
  }

  lemma FixedEntriesMatch(origin: string)
    ensures SomeAllowsSkippingUnset(ApiFixedEntries, origin) <==> origin in ApiFixedOrigins
  {
    var e := ApiFixedEntries;
    assert e[1..][1..][1..] == [];
    assert SomeAllowsSkippingUnset(e[1..][1..], origin) <==> origin == ApiFixedOrigins[2];
    assert SomeAllowsSkippingUnset(e[1..], origin) <==> origin == ApiFixedOrigins[1] || origin == ApiFixedOrigins[2];
  }

  /** The skipping test matches exactly a set `FRONTEND_URL` or one of the three fixed origins. */
  lemma ApiAllowListMeaning(frontendUrl: Option<string>, origin: string)
    ensures SomeAllowsSkippingUnset(ApiAllowList(frontendUrl), origin) <==>
      frontendUrl == Some(origin) || origin in ApiFixedOrigins
  {
    FixedEntriesMatch(origin);
    assert ApiAllowList(frontendUrl)[1..] == ApiFixedEntries;
  }

  /**
   * Corrected, api/index.js never fails a request: one without an origin or
   * with a listed origin passes, any other passes as unlisted.
   */
  lemma ApiCorsNeverFails(frontendUrl: Option<string>, origin: Option<string>)
    ensures !ApiCorsDecision(frontendUrl, origin).Fail?
    ensures ApiCorsDecision(frontendUrl, origin) == Allow <==>
      NoOrigin(origin) || frontendUrl == Some(origin.value) || origin.value in ApiFixedOrigins
  {
    if !NoOrigin(origin) {
      ApiAllowListMeaning(frontendUrl, origin.value);
    }
  }

  /** Over a list of literals `.some` cannot throw, and it agrees with the skipping test. */
  lemma {:induction false} LiteralsNeverThrow(entries: seq<AllowEntry>, origin: string)
    requires forall i :: 0 <= i < |entries| ==> entries[i].Literal?
    ensures SomeAllows(entries, origin) == Success(SomeAllowsSkippingUnset(entries, origin))
  {
    if entries != [] {
      LiteralsNeverThrow(entries[1..], origin);
    }
  }

  /** With `FRONTEND_URL` set, the code as written already behaves as intended. */
  lemma ApiCorsAgreesWhenSet(url: string, origin: Option<string>)
    ensures ApiCorsAsWritten(Some(url), origin) == ApiCorsDecision(Some(url), origin)
  {
    if !NoOrigin(origin) {
      LiteralsNeverThrow(ApiAllowList(Some(url)), origin.value);
    }
  }
}
