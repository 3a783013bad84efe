# Contact-form backend: a verified model

This project models the request-handling core of a small Express backend for a
company's contact form. A visitor submits name, email, company, WhatsApp number,
service and message. The backend:

- validates the submission;
- stores a record in the `contacts` table;
- lists the ten newest submissions;
- decides which browser origins may call it.

The model covers five parts of the repository:

- **`routes/contactRoutes.js`**: `POST /submit` and `GET /`.
  - `POST /submit` runs six express-validator chains. Sanitizers rewrite the
    request body in place. All violations are collected. A 400 gate follows,
    then the `contactData` record is assembled and the store is called.
  - `GET /` reads the table newest first, at most ten rows.
  - Modules: `ValidationChain`, `ContactStore`, `ContactRoutes`.
- **`contact/submit.js`**: a second, hand-written validator. It checks the method,
  tests the raw (untrimmed) fields in a fixed order and answers with the first
  failure only. Module `ManualSubmit`. Module `ValidatorComparison` relates the
  two validators.
- **`index.js` and `api/index.js`**:
  - their CORS `origin` callbacks (`Cors`);
  - their error handlers and the fallback router `api/index.js` installs when
    the contact routes fail to load (`ErrorHandlers`).
- **`models/contact.js`**: the Mongoose schema, read as a validator. It applies
  setters and defaults, then yields a document or one message per failing path.
  Module `ContactSchema`.

Shared pieces:

- `Text`:
  - JavaScript's `trim` over the ECMAScript whitespace set;
  - lengths counted as UTF-16 units (JavaScript's `.length`) and as validator.js
    counts them (code points, not counting the presentation selectors U+FE0E and
    U+FE0F);
  - ASCII lower-casing.
- `EmailPattern`: the two email regular expressions. submit.js's
  `^\S+@\S+\.\S+$` is a backtracking matcher, proved to accept exactly the
  strings of a closed-form shape. The schema's pattern is stated directly as a
  predicate over the string's pieces, with no matcher.
- `ContactForm`: the request body, the closed service list and the messages.
- `Wrappers`: `Option` and `Result`.

The express-validator middleware mutates `req.body` and the collected errors
step by step. It is the class `ValidationChain.ContactRequest`, whose methods
run a chain's steps in a loop. They are proved equal to the pure interpreter
`RunChain`, and the properties are proved about that interpreter. Everything
else in the core is a pure decision and is modelled as functions.

What the code does at the points where a reader might expect otherwise:

- **Stored email:** the stored email is whatever express-validator's
  `normalizeEmail` returns for the raw value. No trim runs on the email. The
  model keeps `normalizeEmail` as an uninterpreted function.
- **Validation error entries:** each entry carries `path` and `msg`.
- **Defaults:** the record written by `routes/contactRoutes.js` has no `status`,
  `priority` or `source`. Those defaults appear only in `models/contact.js`,
  which the routes do not use.
- **IP address and user agent:** when missing, they stay `undefined` (`None`)
  in the record.
- **Error detail:** a store's or error's message is included only when
  `NODE_ENV` is exactly `development`.
- **api/index.js CORS:** the "allow for now to debug" branch lets unlisted
  origins through. It is modelled as written.

## Model

| member | source | states |
|---|---|---|
| Text.TrimStartShape | routes/contactRoutes.js:16 | trimming the start removes exactly the leading whitespace: the result is a suffix of the input that does not start with whitespace, and everything dropped is whitespace |
| Text.TrimEndShape | routes/contactRoutes.js:16 | trimming the end removes exactly the trailing whitespace: the result is a prefix of the input that does not end with whitespace, and everything dropped is whitespace |
| Text.TrimResult | routes/contactRoutes.js:16 | `trim()` output has no whitespace at either end and is never longer than the input |
| Text.TrimIdempotent | routes/contactRoutes.js:48 | trimming twice equals trimming once |
| Text.TrimEmpty | models/contact.js:6-7 | a value trims to `''` exactly when it is all whitespace |
| Text.Utf16Length | contact/submit.js:16 | `.length` counts one or two UTF-16 units per character, so it lies between the character count and twice it |
| Text.Utf16LengthBmp | contact/submit.js:45 | without characters beyond U+FFFF, `.length` equals the character count |
| Text.ValidatorLength | routes/contactRoutes.js:17 | isLength's count is the code-point count minus the presentation selectors, never more than the code-point count |
| Text.ValidatorLengthPlain | routes/contactRoutes.js:30 | without presentation selectors, isLength's count is the code-point count |
| Text.AsciiLower | models/contact.js:13 | lower-casing keeps the length and maps each A-Z letter to its lower-case letter, leaving every other character |
| Text.AsciiLowerNormal | models/contact.js:13 | the lower-cased value has no upper-case letter, and lower-casing is idempotent |
| EmailPattern.MatchedLooseIsShape | contact/submit.js:20 | a string the `^\S+@\S+\.\S+$` matcher accepts has no whitespace, an `@` that is not first, and a later `.` with characters between the two and after it |
| EmailPattern.ShapeMatchesLoose | contact/submit.js:20 | every string of that shape is accepted by the matcher |
| EmailPattern.LoosePatternMeaning | contact/submit.js:20 | the matcher accepts exactly the strings of that shape |
| EmailPattern.SchemaEmailIsLoose | models/contact.js:14-17 | every address the schema pattern accepts also passes submit.js's pattern |
| EmailPattern.LooseEmailIsNotSchemaEmail | models/contact.js:15 | `a@b.c` passes submit.js's pattern but not the schema's: the converse fails |
| ContactForm.ServicesShape | routes/contactRoutes.js:34-45 | the service list has ten entries, includes `''` and `Other`, and is case-sensitive |
| ValidationChain.TrimmedLengthChain | routes/contactRoutes.js:15-18 | a `trim().isLength()` chain writes the trimmed value back and reports its message exactly when the trimmed length is out of range |
| ValidationChain.EmailChainEffect | routes/contactRoutes.js:19-22 | the email chain reports when `isEmail` rejects the raw value, and stores `normalizeEmail` of it either way |
| ValidationChain.CompanyChainEffect | routes/contactRoutes.js:23-27 | with `optional()`, an absent company is skipped entirely; a present one is trimmed and length-checked |
| ValidationChain.ServiceChainEffect | routes/contactRoutes.js:32-46 | an absent service is skipped; a present one is reported when it is not in the list, and is never rewritten |
| ValidationChain.RunSixChains | routes/contactRoutes.js:14-50 | running the six-chain array is running the chains one after another, in declaration order |
| ValidationChain.ValidateBodyMeaning | routes/contactRoutes.js:14-50 | the middleware array leaves the body sanitized (four fields trimmed, email normalised) and the errors equal to one report per violated rule, in chain order |
| ValidationChain.NameRule | routes/contactRoutes.js:15-18 | the name error is collected iff the trimmed name's length is outside [2,100] |
| ValidationChain.EmailRule | routes/contactRoutes.js:19-22 | the email error is collected iff `isEmail` rejects the raw email |
| ValidationChain.CompanyRule | routes/contactRoutes.js:23-27 | the company error is collected iff company is present and its trimmed length exceeds 100 |
| ValidationChain.WhatsappRule | routes/contactRoutes.js:28-31 | the whatsapp error is collected iff the trimmed number's length is outside [10,15]; a missing number is always an error |
| ValidationChain.ServiceRule | routes/contactRoutes.js:32-46 | the service error is collected iff service is present and not exactly one of the ten listed values |
| ValidationChain.MessageRule | routes/contactRoutes.js:47-50 | the message error is collected iff the trimmed message's length is outside [10,2000] |
| ValidationChain.RuleErrorsInOrder | routes/contactRoutes.js:14-50 | the collected errors follow the declaration order of the chains |
| ValidationChain.AllViolationsCollected | routes/contactRoutes.js:53-54 | at most six errors, in chain order, and none exactly when all six rules hold |
| ValidationChain.RequiredFieldsPresent | routes/contactRoutes.js:62 | after the chains, name, email, whatsapp and message are always set in the body; company and service only if they were sent |
| ValidationChain.ContactRequest.constructor | routes/contactRoutes.js:51-53 | a request starts with its parsed body and no validation errors |
| ValidationChain.ContactRequest.RunChainInPlace | routes/contactRoutes.js:15-18 | running one chain's steps in place on `req` leaves exactly the state the chain interpreter computes |
| ValidationChain.ContactRequest.RunChainsInPlace | routes/contactRoutes.js:14-50 | running the middleware array in place leaves exactly the state the interpreter computes for the chain sequence |
| ValidationChain.ContactRequest.ValidationResultIsEmpty | routes/contactRoutes.js:53-54 | `validationResult(req).isEmpty()` is true iff no error was recorded |
| ContactStore.InsertByDateKeepsRows | routes/contactRoutes.js:121 | inserting a row into the ordering adds exactly that row |
| ContactStore.InsertByDateOrdered | routes/contactRoutes.js:121 | inserting into a newest-first sequence keeps it newest first |
| ContactStore.OrderByNewestCorrect | routes/contactRoutes.js:121 | `order('created_at', { ascending: false })` returns the same rows (a permutation), newest first |
| ContactStore.RecentContactsAreNewest | routes/contactRoutes.js:118-122 | the listing returns min(limit, table size) rows of the table, newest first, and no omitted row is newer than a returned one |
| ContactStore.ListingAtMostTen | routes/contactRoutes.js:122 | the listing has at most ten rows, and exactly ten when the table has ten or more |
| ErrorHandlers.DevOnly | routes/contactRoutes.js:92 | the detail is present iff `NODE_ENV` is `development`, and is then the given text |
| ErrorHandlers.ServerErrorReplyMeaning | index.js:151-156 | index.js answers every error with 500 and the generic message; `error` is the error's message iff in development, absent otherwise |
| ErrorHandlers.ServerErrorReplyHidesDetail | index.js:151-156 | outside development, index.js's reply is the same for every error |
| ErrorHandlers.ApiErrorReplyMeaning | api/index.js:97-104 | api/index.js uses a set, non-zero `err.status`, else 500; `success` is false; `error` is the message in development, `Internal server error` otherwise |
| ErrorHandlers.ApiErrorReplyHidesDetail | api/index.js:97-104 | outside development, two errors with the same status get the same reply |
| ErrorHandlers.FallbackAnswersEverything | api/index.js:36-52 | if loading the contact routes fails, every method and path under `/api/contact` gets the same 500 `Contact routes not available` reply; otherwise the real routes serve |
| ContactRoutes.ClientAddress | routes/contactRoutes.js:65 | the address is the first present (set and non-empty) of `req.ip`, the connection's and the socket's address, and the socket's value when none is present; it is present iff one of them is |
| ContactRoutes.OrEmpty | routes/contactRoutes.js:72 | `value \|\| ''` on a string field is the field, or `''` when absent |
| ContactRoutes.PostSubmit | routes/contactRoutes.js:14-112 | the route mutates `req` to the validated state and answers as the handler function prescribes |
| ContactRoutes.InvalidBodyNeverInserted | routes/contactRoutes.js:53-60 | an insert is attempted iff all rules hold; otherwise the answer is 400 with every collected error |
| ContactRoutes.InsertedRecord | routes/contactRoutes.js:62-79 | the inserted record holds the trimmed fields, the normalised email, `''` for absent company and service, the client address, the user agent and the request time |
| ContactRoutes.SanitizedFields | routes/contactRoutes.js:15-50 | each field the handler destructures is the sanitized value of the submitted one |
| ContactRoutes.ServiceUntouchedBySanitizers | routes/contactRoutes.js:32-46 | no chain rewrites `service` |
| ContactRoutes.InsertedRecordObeysRules | routes/contactRoutes.js:69-79 | every inserted record's stored fields are trimmed and within their bounds, with an allowed service |
| ContactRoutes.StoredFieldsStable | routes/contactRoutes.js:69-79 | trimming a stored record's trimmed fields again changes nothing |
| ContactRoutes.StoreOutcomeSelectsReply | routes/contactRoutes.js:87-112 | after a valid body: a store error or exception gives 500 with the detail only in development; success gives 201 with the first row's id, or null when no row came back |
| ContactRoutes.SubmitStatusCodes | routes/contactRoutes.js:55-111 | the submit reply is 400, 201 or 500, and `success` is true exactly for 201 |
| ContactRoutes.ListReplyMeaning | routes/contactRoutes.js:116-146 | a readable table gives 200, `success: true` and the ten newest rows; a query error or an exception gives 500, `success: false`, "Failed to retrieve contact submissions", and the store's own message as `error` exactly in development |
| ManualSubmit.FirstFailure | contact/submit.js:16-47 | the result is absent iff no guard fails, else the message of the first failing guard |
| ManualSubmit.HandleIsFirstFailure | contact/submit.js:8-59 | a POST answers 201 with `demo12345` iff no check fails, else 400 with the first failing check's message in the order name, email, company, service, message |
| ManualSubmit.MethodGate | contact/submit.js:9-11 | any other method gets 405, whatever the body |
| ManualSubmit.MissingBodyThrows | contact/submit.js:9-13 | a POST without a parsed body throws while destructuring, before any rule is tested, and only then; every reply written is 405, 400 or 201, with `success` exactly for 201 |
| ManualSubmit.EmailGuardMeaning | contact/submit.js:20-22 | the email check fails iff the email is missing or empty, or does not have the `^\S+@\S+\.\S+$` shape |
| ManualSubmit.ServiceGuardMeaning | contact/submit.js:28-43 | an absent or empty service always passes; a non-empty one fails iff it is not in the list |
| ManualSubmit.WhatsappIgnored | contact/submit.js:13 | setting or removing `whatsapp` never changes the answer |
| ValidatorComparison.CleanLengths | contact/submit.js:16 | on a value with nothing to trim, no astral characters and no selectors, trimming is the identity and all length notions agree |
| ValidatorComparison.ServiceRulesAgree | contact/submit.js:41 | both validators judge the service alike on every body |
| ValidatorComparison.NameRulesAgree | contact/submit.js:16 | on a clean name, both validators judge it alike |
| ValidatorComparison.CompanyRulesAgree | contact/submit.js:24 | on a clean company, both validators judge it alike |
| ValidatorComparison.MessageRulesAgree | contact/submit.js:45 | on a clean message, both validators judge it alike |
| ValidatorComparison.EmailRulesAgree | contact/submit.js:20 | when `isEmail` agrees with the regular expression on the address, both validators judge it alike |
| ValidatorComparison.WithoutWhatsappMembers | contact/submit.js:13 | dropping the whatsapp errors keeps exactly the errors about other fields |
| ValidatorComparison.SharedErrors | contact/submit.js:16-47 | without the whatsapp error, the collected errors are the five shared rules' reports, in submit.js's order |
| ValidatorComparison.FirstFailureIsFirstCollected | contact/submit.js:16-59 | on comparable bodies, submit.js succeeds iff the chains collect no error besides whatsapp's, and otherwise answers with the first such collected error |
| ValidatorComparison.AcceptanceAgrees | contact/submit.js:16-59 | on comparable bodies, the chains accept exactly what submit.js accepts with a valid whatsapp number |
| ValidatorComparison.MissingWhatsappDiverges | contact/submit.js:13 | without whatsapp the chains always report it, while submit.js's answer does not depend on it |
| ValidatorComparison.UntrimmedNameDiverges | contact/submit.js:16 | the name `A ` passes submit.js's raw length check but fails the chains' trimmed one |
| ValidatorComparison.AstralNameDiverges | contact/submit.js:16 | a single character beyond U+FFFF passes submit.js (two UTF-16 units) but fails the chains (one code point) |
| Cors.MainCorsMeaning | index.js:92-112 | index.js allows iff the origin is missing or empty, equals a set `FRONTEND_URL` or a fixed listed origin, or ends with `.tagadplatforms.com`; otherwise it fails with `Not allowed by CORS`, which the error handler answers with 500 |
| Cors.SubdomainsAllowed | index.js:105 | any origin ending in `.tagadplatforms.com` is allowed, over http or https |
| Cors.LookAlikeRejected | index.js:105-111 | `https://eviltagadplatforms.com` is rejected unless it is `FRONTEND_URL` |
| Cors.ApiCorsThrowsWhenUnset | api/index.js:16-26 | as written, with `FRONTEND_URL` unset every request with an origin fails with a TypeError, answered 500 |
| Cors.DeployedFrontendRefusedWhenUnset | api/index.js:8-13 | the concrete case: the deployed front end's own origin fails when `FRONTEND_URL` is unset |
| Cors.ApiAllowListMeaning | api/index.js:8-20 | skipping unset entries, the membership test matches exactly a set `FRONTEND_URL` or one of the three fixed origins |
| Cors.ApiCorsNeverFails | api/index.js:16-26 | corrected, the callback never fails; an origin is allowed as listed iff it is missing or listed, and every other origin passes as unlisted |
| Cors.LiteralsNeverThrow | api/index.js:18-20 | over a list of string entries `.some` cannot throw and agrees with the test that skips unset entries |
| Cors.ApiCorsAgreesWhenSet | api/index.js:16-26 | with `FRONTEND_URL` set, the code as written behaves as corrected |
| ContactSchema.ValidatedDocWellFormed | models/contact.js:3-67 | a validated document has a trimmed non-empty name of at most 100 units, a lower-case email of the schema's shape, a trimmed company of at most 100, a listed service, a trimmed non-empty message of at most 2000, and listed status and priority |
| ContactSchema.SchemaErrorMessages | models/contact.js:3-55 | on failure, per path in terms of the submitted value: a missing or blank name or message gets its `required` message and a too-long trimmed one its `maxlength` message; a missing or empty email gets "Email is required" and one whose lower-cased form has the wrong shape "Please enter a valid email"; a company only when too long; service, status and priority only when given and unlisted, with the enum message naming the value |
| ContactSchema.SchemaAcceptsExactlyWellFormed | models/contact.js:3-67 | a submission is saved exactly when the document built from it satisfies every schema constraint |
| ContactSchema.DefaultsFilled | models/contact.js:45-58 | absent status, priority and source become `new`, `medium` and `website`; given ones are kept |
| ContactSchema.WhatsappNotStored | models/contact.js:3-67 | the schema has no whatsapp path, so it never affects validation or the document |
| ContactSchema.DocBodyValid | models/contact.js:3-67 | a well-formed document, written back as input, passes every path, and the setters leave its values unchanged |
| ContactSchema.RevalidationIsIdentity | models/contact.js:3-67 | a well-formed document, written back as input, validates to itself: setters and defaults are idempotent |
| ContactSchema.OneLetterNameAccepted | models/contact.js:4-9 | the schema sets no minimum name length: the name `A` is saved |
| ContactSchema.BlankNameIsMissing | models/contact.js:4-9 | a name of only whitespace is trimmed to `''` and fails `required` with `Name is required` |
| ContactSchema.EnumIsCaseSensitive | models/contact.js:24-38 | the service `other` is rejected with Mongoose's enum message |

## Left out

- `routes/chatbotRoutes.js`: it only forwards the request to an external HTTP
  API. `middleware/auth.js`: it only logs and calls `next()`.
- Supabase and Mongoose I/O. The insert is a function from the record to its
  outcome, and the listing query reads an abstract row sequence. Schema indexes
  (models/contact.js:70-73) and the `timestamps` option are not modelled.
- `isEmail` and `normalizeEmail`: express-validator's own behaviour is
  unknown here. They are the uninterpreted parameters of `EmailLib`.
  `normalizeEmail` is not assumed to lower-case.
- Express bootstrap: `app.listen`, body parsers and their size limits, the
  health, info, test and 404 endpoints, and the commented-out server in
  index.js:1-80.
- How `'*'` route patterns are parsed: this depends on the Express version,
  which is not pinned in the modelled files. The fallback router is modelled as
  answering every method and path.
- The CORS options other than `origin` (credentials, methods, allowed headers),
  and the response headers the `cors` package writes.
- Clocks, `process.uptime` and ISO date strings. `created_at` is an integer
  clock reading, which orders rows as ISO strings of one format do. The
  `timestamp` field of api/index.js's error reply is left out.
- Console logging, including the "Blocked by CORS" log line. Concurrency
  between requests is not modelled either.
- ContactRoutes.InsertedRecord: validator.js's `normalizeEmail` can return
  `false` instead of a string, for example for `+x@gmail.com`: removing the
  Gmail sub-address leaves an empty local part. The route would then store
  `email: false`. The model types `normalizeEmail` as string to string, so
  this record, and `InsertedRecordObeysRules` on it, are not captured.
- Text: strings are sequences of Unicode scalar values. A JSON body can carry a
  lone surrogate such as `"\ud800"`, which JavaScript's `.length`, `trim` and
  `isLength` accept. The model cannot represent such strings.
- Request bodies hold only string values. Numbers, arrays and objects sent as
  JSON are not modelled.
- The `value`, `type` and `location` fields of express-validator's error
  entries. Only `path` and `msg` are kept.
- `GET /` listing order for rows with equal `created_at`: the database leaves it
  unspecified. The model's sort keeps the stored order.
- Text.AsciiLower: Mongoose's `lowercase` setter uses `toLowerCase`, which also
  lower-cases non-ASCII letters. The model lower-cases only A-Z, so
  `ContactSchema` states lower-case only for ASCII.
- ContactSchema.ValidateContact: Mongoose casting of non-string values, and
  `ipAddress`/`userAgent` values other than strings, are not modelled.
- ValidatorComparison.FirstFailureIsFirstCollected: the two validators are
  compared only on bodies where both count lengths alike and `isEmail` agrees
  with the regular expression. The lemmas `UntrimmedNameDiverges`,
  `AstralNameDiverges` and `MissingWhatsappDiverges` show where the two differ
  outside those bodies.

## Findings

| source | as written | input that shows it | evidently intended | confidence | as-written member | corrected member |
|---|---|---|---|---|---|---|
| api/index.js:8-20 | `FRONTEND_URL` is put in the allow-list even when unset. `.some` then calls `.test(origin)` on that `undefined` entry, which throws a TypeError, and the error handler answers 500. | `FRONTEND_URL` unset; a request with `Origin: https://vercel-frontend-dusky-eight.vercel.app` (any non-empty origin) | An unset entry should match nothing. The callback then lets every origin through, logging unlisted ones, as its "allow for now" branch says. | medium; not executed | Cors.ApiCorsThrowsWhenUnset | Cors.ApiCorsNeverFails |
