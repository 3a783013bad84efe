/**
 * The two handlers of routes/contactRoutes.js: `POST /submit`, which runs the
 * validation middleware, assembles the `contactData` record and inserts it,
 * and `GET /`, which lists the newest submissions. The store is abstract: an
 * insert is a function from the record to its outcome, a listing reads a table
 * of stored rows. `created_at`, the client's address and `User-Agent` are
 * inputs.
 */
module ContactRoutes {
  import opened Wrappers
  import opened Text
  import opened ContactForm
  import opened ValidationChain
  import opened ContactStore
  import opened ErrorHandlers

  /** What the handler reads from the request besides its body. */
  datatype RequestMeta = RequestMeta(
    ip: Option<string>,
    connectionAddress: Option<string>,
    socketAddress: Option<string>,
    userAgent: Option<string>)

  /** A truthy string: set and not empty. */
  predicate Present(v: Option<string>) {
    v.Some? && v.value != ""
  }

  /** `req.ip || req.connection.remoteAddress || req.socket?.remoteAddress`. */
  function ClientAddress(meta: RequestMeta): (a: Option<string>)
    ensures a == meta.ip || a == meta.connectionAddress || a == meta.socketAddress
    ensures Present(meta.ip) ==> a == meta.ip
    ensures !Present(meta.ip) && Present(meta.connectionAddress) ==> a == meta.connectionAddress
    ensures !Present(meta.ip) && !Present(meta.connectionAddress) ==> a == meta.socketAddress
    ensures Present(a) <==> Present(meta.ip) || Present(meta.connectionAddress) || Present(meta.socketAddress)
  {
    if Present(meta.ip) then meta.ip
    else if Present(meta.connectionAddress) then meta.connectionAddress
    else meta.socketAddress
  }

  /** `value || ''` for a destructured body field. */
  function OrEmpty(body: Body, field: string): (r: string)
    ensures r == Get(body, field)
  {
    if Truthy(body, field) then body[field] else ""
  }

  /** The `contactData` literal, built from the sanitized body. */
  function Assemble(sanitized: Body, meta: RequestMeta, now: int): ContactData {
    ContactData(
      Get(sanitized, "name"),
      Get(sanitized, "email"),
      OrEmpty(sanitized, "company"),
      Get(sanitized, "whatsapp"),
      OrEmpty(sanitized, "service"),
      Get(sanitized, "message"),
      ClientAddress(meta),
      meta.userAgent,
      now)
  }

  /**
   * What `insert([contactData]).select()` gives back: `{ data, error }` with no
   * error (`data` may be null), an `error` object, or a thrown exception.
   */
  datatype InsertOutcome =
    | Inserted(data: Option<seq<StoredRow>>)
    | InsertError(message: string)
    | InsertThrew(message: string)

  /** `data && data[0] ? data[0].id : null`. */
  function SubmissionId(data: Option<seq<StoredRow>>): Option<string> {
    if data.Some? && data.value != [] then Some(data.value[0].id) else None
  }

  const ValidationMessage := "Validation errors"
  const SubmittedMessage := "Contact form submitted successfully! We will get back to you soon."
  const SubmitFailedMessage := "Failed to submit contact form. Please try again later."

  /** The three JSON replies of `POST /submit`. */
  datatype SubmitReply =
    | ValidationFailed(errors: seq<FieldError>)
    | Submitted(submissionId: Option<string>)
    | SubmitFailed(error: Option<string>)
  {
    function Status(): int {
      match this
      case ValidationFailed(_) => 400
      case Submitted(_) => 201
      case SubmitFailed(_) => 500
    }

    function Success(): bool {
      Submitted?
    }

    function Message(): string {
      match this
      case ValidationFailed(_) => ValidationMessage
      case Submitted(_) => SubmittedMessage
      case SubmitFailed(_) => SubmitFailedMessage
    }
  }

  /** The reply once the insert has been attempted. */
  function StoreReply(outcome: InsertOutcome, env: Env): SubmitReply {
    match outcome
    case Inserted(data) => Submitted(SubmissionId(data))
    case InsertError(message) => SubmitFailed(DevOnly(env, message))
    case InsertThrew(message) => SubmitFailed(DevOnly(env, message))
  }

  /** The reply, and the record handed to the store if an insert was attempted. */
  datatype SubmitOutcome = SubmitOutcome(reply: SubmitReply, inserted: Option<ContactData>)

  /** `POST /submit`: the middleware array, then the handler. */
  function HandleSubmit(body: Body, lib: EmailLib, meta: RequestMeta, now: int, env: Env,
                        store: ContactData -> InsertOutcome): SubmitOutcome
  {
    var validated := ValidateBody(body, lib);
    if validated.errors != [] then SubmitOutcome(ValidationFailed(validated.errors), None)
    else
      var record := Assemble(validated.body, meta, now);
      SubmitOutcome(StoreReply(store(record), env), Some(record))
  }

  /**
   * The route as Express runs it: the chains rewrite the request in place, then
   * the handler reads `validationResult(req)` and the sanitized body.
   */
  method PostSubmit(req: ContactRequest, lib: EmailLib, meta: RequestMeta, now: int, env: Env,
                    store: ContactData -> InsertOutcome) returns (outcome: SubmitOutcome)
    requires req.errors == []
    modifies req
    ensures req.State() == ValidateBody(old(req.body), lib)
    ensures outcome == HandleSubmit(old(req.body), lib, meta, now, env, store)
  {
    req.RunChainsInPlace(ContactChains, lib);
    var valid := req.ValidationResultIsEmpty();
    if !valid {
      return SubmitOutcome(ValidationFailed(req.errors), None);
    }
    var record := Assemble(req.body, meta, now);
    outcome := SubmitOutcome(StoreReply(store(record), env), Some(record));
  }

  /**
   * Any violated rule yields 400 with every violation and no insert; an insert
   * is attempted exactly when all six rules hold.
   */
  lemma InvalidBodyNeverInserted(body: Body, lib: EmailLib, meta: RequestMeta, now: int, env: Env,
                                 store: ContactData -> InsertOutcome)
    ensures var o := HandleSubmit(body, lib, meta, now, env, store);
      (o.inserted.Some? <==> AllRulesHold(body, lib)) &&
      (!AllRulesHold(body, lib) ==>
        o.reply == ValidationFailed(RuleErrors(body, lib)) && o.reply.Status() == 400 && !o.reply.Success())
  {
    ValidateBodyMeaning(body, lib);
    AllViolationsCollected(body, lib);
  }

  /**
   * The record inserted for a valid body: the trimmed fields, the normalised
   * email, `company` and `service` as `''` when absent, and the request's
   * address, agent and time.
   */
  lemma InsertedRecord(body: Body, lib: EmailLib, meta: RequestMeta, now: int, env: Env,
                       store: ContactData -> InsertOutcome)
    requires AllRulesHold(body, lib)
    ensures HandleSubmit(body, lib, meta, now, env, store).inserted == Some(ContactData(
      Trim(Get(body, "name")),
      lib.normalizeEmail(Get(body, "email")),
      if "company" in body then Trim(body["company"]) else "",
      Trim(Get(body, "whatsapp")),
      Get(body, "service"),
      Trim(Get(body, "message")),
      ClientAddress(meta),
      meta.userAgent,
      now))
  {
    ValidateBodyMeaning(body, lib);
    AllViolationsCollected(body, lib);
    SanitizedFields(body, lib);
  }

  /** The fields of the sanitized body, one by one. */
  lemma SanitizedFields(body: Body, lib: EmailLib)
    ensures var b := SanitizedBody(body, lib);
      Get(b, "name") == Trim(Get(body, "name")) &&
      Get(b, "email") == lib.normalizeEmail(Get(body, "email")) &&
      Get(b, "company") == (if "company" in body then Trim(body["company"]) else "") &&
      Get(b, "whatsapp") == Trim(Get(body, "whatsapp")) &&
      Get(b, "service") == Get(body, "service") &&
      Get(b, "message") == Trim(Get(body, "message"))
  {
    var b1 := body["name" := Trim(Get(body, "name"))];
    var b2 := b1["email" := lib.normalizeEmail(Get(body, "email"))];
    var b3 := if "company" in body then b2["company" := Trim(body["company"])] else b2;
    var b4 := b3["whatsapp" := Trim(Get(body, "whatsapp"))];
    GetOther(body, "name", Trim(Get(body, "name")), "email");
    GetOther(body, "name", Trim(Get(body, "name")), "company");
    GetOther(b1, "email", lib.normalizeEmail(Get(body, "email")), "company");
    ServiceUntouchedBySanitizers(body, lib);
  }

  /** No sanitizer writes `service`. */
  lemma ServiceUntouchedBySanitizers(body: Body, lib: EmailLib)
    ensures Get(SanitizedBody(body, lib), "service") == Get(body, "service")
  {
    var b1 := body["name" := Trim(Get(body, "name"))];
    var b2 := b1["email" := lib.normalizeEmail(Get(body, "email"))];
    var b3 := if "company" in body then b2["company" := Trim(body["company"])] else b2;
    var b4 := b3["whatsapp" := Trim(Get(body, "whatsapp"))];
    GetOther(body, "name", Trim(Get(body, "name")), "service");
    GetOther(b1, "email", lib.normalizeEmail(Get(body, "email")), "service");
    if "company" in body {
      GetOther(b2, "company", Trim(body["company"]), "service");
    }
    GetOther(b3, "whatsapp", Trim(Get(body, "whatsapp")), "service");
    GetOther(b4, "message", Trim(Get(body, "message")), "service");
  }

  /**
   * Every inserted record satisfies the rules on its own stored values:
   * trimmed strings within their bounds, an allowed service, and an email whose
   * raw form passed `isEmail`.
   */
  lemma InsertedRecordObeysRules(body: Body, lib: EmailLib, meta: RequestMeta, now: int, env: Env,
                                 store: ContactData -> InsertOutcome)
    ensures var o := HandleSubmit(body, lib, meta, now, env, store);
      o.inserted.Some? ==>
        var r := o.inserted.value;
        Trimmed(r.name) && 2 <= ValidatorLength(r.name) <= 100 &&
        lib.isEmail(Get(body, "email")) &&
        Trimmed(r.company) && ValidatorLength(r.company) <= 100 &&
        Trimmed(r.whatsapp) && 10 <= ValidatorLength(r.whatsapp) <= 15 &&
        r.service in Services &&
        Trimmed(r.message) && 10 <= ValidatorLength(r.message) <= 2000
  {
    InvalidBodyNeverInserted(body, lib, meta, now, env, store);
    if AllRulesHold(body, lib) {
      InsertedRecord(body, lib, meta, now, env, store);
      TrimResult(Get(body, "name"));
      TrimResult(Get(body, "whatsapp"));
      TrimResult(Get(body, "message"));
      if "company" in body {
        TrimResult(body["company"]);
      }
    }
  }

  /** Re-validating a stored record's trimmed fields changes nothing: trimming is idempotent. */
  lemma StoredFieldsStable(body: Body, lib: EmailLib, meta: RequestMeta, now: int, env: Env,
                           store: ContactData -> InsertOutcome)
    ensures var o := HandleSubmit(body, lib, meta, now, env, store);
      o.inserted.Some? ==>
        var r := o.inserted.value;
        Trim(r.name) == r.name && Trim(r.company) == r.company &&
        Trim(r.whatsapp) == r.whatsapp && Trim(r.message) == r.message
  {
    InvalidBodyNeverInserted(body, lib, meta, now, env, store);
    if AllRulesHold(body, lib) {
      InsertedRecord(body, lib, meta, now, env, store);
      TrimIdempotent(Get(body, "name"));
      TrimIdempotent(Get(body, "whatsapp"));
      TrimIdempotent(Get(body, "message"));
      if "company" in body {
        TrimIdempotent(body["company"]);
      }
    }
  }

  /**
   * After a valid body: a store error or an exception gives 500 with the
   * failure message and the store's text only in development; success gives
   * 201 with the first returned row's id, or null when no row came back.
   */
  lemma StoreOutcomeSelectsReply(body: Body, lib: EmailLib, meta: RequestMeta, now: int, env: Env,
                                 store: ContactData -> InsertOutcome)
    requires AllRulesHold(body, lib)
    ensures var o := HandleSubmit(body, lib, meta, now, env, store);
      o.inserted.Some? &&
      match store(o.inserted.value)
      case Inserted(data) =>
        o.reply.Status() == 201 && o.reply.Success() &&
        (data.Some? && |data.value| > 0 ==> o.reply.submissionId == Some(data.value[0].id)) &&
        (data.None? || data.value == [] ==> o.reply.submissionId.None?)
      case InsertError(message) =>
        o.reply.Status() == 500 && !o.reply.Success() && o.reply.Message() == SubmitFailedMessage &&
        (IsDevelopment(env) <==> o.reply.error == Some(message)) &&
        (!IsDevelopment(env) ==> o.reply.error.None?)
      case InsertThrew(message) =>
        o.reply.Status() == 500 && !o.reply.Success() && o.reply.Message() == SubmitFailedMessage &&
        (IsDevelopment(env) <==> o.reply.error == Some(message)) &&
        (!IsDevelopment(env) ==> o.reply.error.None?)
  {
    InvalidBodyNeverInserted(body, lib, meta, now, env, store);
  }

  /** The reply's status is one of 400, 201 and 500, and `success` is true exactly for 201. */
  lemma SubmitStatusCodes(body: Body, lib: EmailLib, meta: RequestMeta, now: int, env: Env,
                          store: ContactData -> InsertOutcome)
    ensures var r := HandleSubmit(body, lib, meta, now, env, store).reply;
      (r.Status() == 400 || r.Status() == 201 || r.Status() == 500) &&
      (r.Success() <==> r.Status() == 201)
  {
  }

  // ---------------------------------------------------------------------------
  // GET /

  /** What `select('*').order(...).limit(10)` meets: the table, an `error` object, or an exception. */
  datatype ListQuery = Table(rows: seq<StoredRow>) | ListError(message: string) | ListThrew(message: string)

  const ListFailedMessage := "Failed to retrieve contact submissions"

  /** The two JSON replies of `GET /`; only the failure carries a `message`. */
  datatype ListReply = Listed(data: seq<StoredRow>) | ListFailed(error: Option<string>) {
    function Status(): int {
      if Listed? then 200 else 500
    }

    function Success(): bool {
      Listed?
    }

    function Message(): Option<string> {
      if Listed? then None else Some(ListFailedMessage)
    }
  }

  /** `GET /`. */
  function HandleList(query: ListQuery, env: Env): ListReply {
    match query
    case Table(rows) => Listed(RecentContacts(rows, ListLimit))
    case ListError(message) => ListFailed(DevOnly(env, message))
    case ListThrew(message) => ListFailed(DevOnly(env, message))
  }

  /**
   * The listing answers 200 with at most ten rows of the table, newest first,
   * none older than a row it leaves out, and `success: true`; a failure of
   * either kind answers 500, `success: false`, the retrieval message, and the
   * store's message as `error` exactly in development.
   */
  lemma ListReplyMeaning(query: ListQuery, env: Env)
    ensures var r := HandleList(query, env);
      (query.Table? ==>
        r.Listed? && r.Status() == 200 && r.Success() && r.Message().None? &&
        |r.data| == (if |query.rows| <= 10 then |query.rows| else 10) &&
        NewestFirst(r.data) && multiset(r.data) <= multiset(query.rows) &&
        forall x, y :: x in multiset(query.rows) - multiset(r.data) && y in r.data ==> CreatedAt(x) <= CreatedAt(y)) &&
      (!query.Table? ==>
        r.Status() == 500 && !r.Success() && r.Message() == Some(ListFailedMessage) &&
        (IsDevelopment(env) ==> r.error == Some(query.message)) &&
        (!IsDevelopment(env) ==> r.error.None?))
  {
    if query.Table? {
      RecentContactsAreNewest(query.rows, ListLimit);
    }
  }
}
