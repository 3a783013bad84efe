/**
 * The express-validator middleware of `POST /submit` in routes/contactRoutes.js.
 *
 * Each `body(field)...` chain is one middleware. Run in declaration order, a
 * chain's sanitizers rewrite `req.body[field]` in place and each validator that
 * fails records an error for the request; `validationResult(req)` later reads
 * every recorded error. A chain marked `optional()` does nothing when the field
 * is `undefined`. `isEmail` and `normalizeEmail` come from validator.js and are
 * parameters of the model.
 */
module ValidationChain {
  import opened Wrappers
  import opened Text
  import opened ContactForm

  /** validator.js's `isEmail` and `normalizeEmail`, left uninterpreted. */
  datatype EmailLib = EmailLib(isEmail: string -> bool, normalizeEmail: string -> string)

  datatype Sanitizer = TrimSpaces | NormalizeEmail

  /** `isLength({min, max})`, `isIn(list)` and `isEmail()`. */
  datatype Check = IsLength(min: nat, max: Option<nat>) | IsIn(allowed: seq<string>) | IsEmail

  /** One link of a chain; `message` is the one `withMessage` attaches to the validator. */
  datatype Step = Sanitize(sanitizer: Sanitizer) | Validate(check: Check, message: string)

  datatype Chain = Chain(field: string, optional: bool, steps: seq<Step>)

  /** One entry of `errors.array()`: the field's path and the message. */
  datatype FieldError = FieldError(path: string, msg: string)

  /** The request as the chains see it: its body and the errors recorded so far. */
  datatype ChainState = ChainState(body: Body, errors: seq<FieldError>)

  function ApplySanitizer(s: Sanitizer, v: string, lib: EmailLib): string {
    match s
    case TrimSpaces => Trim(v)
    case NormalizeEmail => lib.normalizeEmail(v)
  }

  predicate Holds(c: Check, v: string, lib: EmailLib) {
    match c
    case IsLength(min, max) =>
      min <= ValidatorLength(v) && (max.None? || ValidatorLength(v) <= max.value)
    case IsIn(allowed) => v in allowed
    case IsEmail => lib.isEmail(v)
  }

  /**
   * One step on `field`. The value a step sees is the field's current value in
   * the body (`''` while the field is undefined); a sanitizer writes its result
   * back, a failed validator appends its error.
   */
  function ApplyStep(field: string, step: Step, st: ChainState, lib: EmailLib): ChainState {
    match step
    case Sanitize(s) =>
      st.(body := st.body[field := ApplySanitizer(s, Get(st.body, field), lib)])
    case Validate(check, message) =>
      if Holds(check, Get(st.body, field), lib) then st
      else st.(errors := st.errors + [FieldError(field, message)])
  }

  /** The steps run in order; written from the last step so that a loop can follow it. */
  function RunSteps(field: string, steps: seq<Step>, st: ChainState, lib: EmailLib): ChainState
    decreases |steps|
  {
    if steps == [] then st
    else ApplyStep(field, steps[|steps| - 1], RunSteps(field, steps[..|steps| - 1], st, lib), lib)
  }

  function RunChain(c: Chain, st: ChainState, lib: EmailLib): ChainState {
    if c.optional && c.field !in st.body then st
    else RunSteps(c.field, c.steps, st, lib)
  }

  /** The chains run in order, each on the body the previous ones left. */
  function RunChains(cs: seq<Chain>, st: ChainState, lib: EmailLib): ChainState
    decreases |cs|
  {
    if cs == [] then st
    else RunChain(cs[|cs| - 1], RunChains(cs[..|cs| - 1], st, lib), lib)
  }

  const NameChain := Chain("name", false,
    [Sanitize(TrimSpaces), Validate(IsLength(2, Some(100)), NameMessage)])
  const EmailChain := Chain("email", false,
    [Validate(IsEmail, EmailMessage), Sanitize(NormalizeEmail)])
  const CompanyChain := Chain("company", true,
    [Sanitize(TrimSpaces), Validate(IsLength(0, Some(100)), CompanyMessage)])
  const WhatsappChain := Chain("whatsapp", false,
    [Sanitize(TrimSpaces), Validate(IsLength(10, Some(15)), WhatsappMessage)])
  const ServiceChain := Chain("service", true,
    [Validate(IsIn(Services), ServiceMessage)])
  const MessageChain := Chain("message", false,
    [Sanitize(TrimSpaces), Validate(IsLength(10, Some(2000)), MessageMessage)])

  /** The middleware array of `router.post('/submit', [...])`. */
  const ContactChains: seq<Chain> :=
    [NameChain, EmailChain, CompanyChain, WhatsappChain, ServiceChain, MessageChain]

  /** The chains run on a fresh request. */
  function ValidateBody(body: Body, lib: EmailLib): ChainState {
    RunChains(ContactChains, ChainState(body, []), lib)
  }

  // ---------------------------------------------------------------------------
  // The six rules read directly, field by field, as a reference for the chains.

  predicate NameOk(body: Body) {
    2 <= ValidatorLength(Trim(Get(body, "name"))) <= 100
  }

  predicate EmailOk(body: Body, lib: EmailLib) {
    lib.isEmail(Get(body, "email"))
  }

  predicate CompanyOk(body: Body) {
    "company" in body ==> ValidatorLength(Trim(body["company"])) <= 100
  }

  predicate WhatsappOk(body: Body) {
    10 <= ValidatorLength(Trim(Get(body, "whatsapp"))) <= 15
  }

  predicate ServiceOk(body: Body) {
    "service" in body ==> body["service"] in Services
  }

  predicate MessageOk(body: Body) {
    10 <= ValidatorLength(Trim(Get(body, "message"))) <= 2000
  }

  /** Every one of the six rules holds. */
  predicate AllRulesHold(body: Body, lib: EmailLib) {
    NameOk(body) && EmailOk(body, lib) && CompanyOk(body) &&
    WhatsappOk(body) && ServiceOk(body) && MessageOk(body)
  }

  function Report(ok: bool, field: string, message: string): seq<FieldError> {
    if ok then [] else [FieldError(field, message)]
  }

  /** Every violated rule, in the order the chains are declared. */
  function RuleErrors(body: Body, lib: EmailLib): seq<FieldError> {
    Report(NameOk(body), "name", NameMessage) +
    Report(EmailOk(body, lib), "email", EmailMessage) +
    Report(CompanyOk(body), "company", CompanyMessage) +
    Report(WhatsappOk(body), "whatsapp", WhatsappMessage) +
    Report(ServiceOk(body), "service", ServiceMessage) +
    Report(MessageOk(body), "message", MessageMessage)
  }

  /** The body after the sanitizers: four fields trimmed, the email normalised. */
  function SanitizedBody(body: Body, lib: EmailLib): Body {
    var b1 := body["name" := Trim(Get(body, "name"))];
    var b2 := b1["email" := lib.normalizeEmail(Get(body, "email"))];
    var b3 := if "company" in body then b2["company" := Trim(body["company"])] else b2;
    var b4 := b3["whatsapp" := Trim(Get(body, "whatsapp"))];
    b4["message" := Trim(Get(body, "message"))]
  }

  // ---------------------------------------------------------------------------
  // Each chain, run on any state, against the rule it implements.

  lemma TwoSteps(field: string, a: Step, b: Step, st: ChainState, lib: EmailLib)
    ensures RunSteps(field, [a, b], st, lib) == ApplyStep(field, b, ApplyStep(field, a, st, lib), lib)
  {
    assert [a][..0] == [];
    assert RunSteps(field, [a], st, lib) == ApplyStep(field, a, st, lib);
    assert [a, b][..1] == [a];
  }

  /** A chain that trims `v`, the field's value, then bounds its length. */
  lemma TrimmedLengthChain(c: Chain, min: nat, max: nat, message: string, st: ChainState, v: string, lib: EmailLib)
    requires c.steps == [Sanitize(TrimSpaces), Validate(IsLength(min, Some(max)), message)]
    requires !c.optional || c.field in st.body
    requires Get(st.body, c.field) == v
    ensures RunChain(c, st, lib) == ChainState(
      st.body[c.field := Trim(v)],
      st.errors + Report(min <= ValidatorLength(Trim(v)) <= max, c.field, message))
  {
    TwoSteps(c.field, c.steps[0], c.steps[1], st, lib);
  }

  /** The email chain validates the raw value, then normalises it. */
  lemma EmailChainEffect(st: ChainState, v: string, lib: EmailLib)
    requires Get(st.body, "email") == v
    ensures RunChain(EmailChain, st, lib) == ChainState(
      st.body["email" := lib.normalizeEmail(v)],
      st.errors + Report(lib.isEmail(v), "email", EmailMessage))
  {
    TwoSteps("email", EmailChain.steps[0], EmailChain.steps[1], st, lib);
  }

  /** The service chain only validates, and only a present value. */
  lemma ServiceChainEffect(st: ChainState, present: bool, v: string, lib: EmailLib)
    requires ("service" in st.body <==> present) && Get(st.body, "service") == v
    ensures RunChain(ServiceChain, st, lib) ==
      st.(errors := st.errors + Report(present ==> v in Services, "service", ServiceMessage))
  {
    var steps := ServiceChain.steps;
    assert steps == [steps[0]] && steps[..0] == [];
    assert RunSteps("service", steps, st, lib) == ApplyStep("service", steps[0], st, lib);
  }

  /** The company chain does nothing to an absent field, and trims and bounds a present one. */
  lemma CompanyChainEffect(st: ChainState, present: bool, v: string, lib: EmailLib)
    requires ("company" in st.body <==> present) && Get(st.body, "company") == v
    ensures !present ==> RunChain(CompanyChain, st, lib) == st
    ensures present ==> RunChain(CompanyChain, st, lib) == ChainState(
      st.body["company" := Trim(v)],
      st.errors + Report(ValidatorLength(Trim(v)) <= 100, "company", CompanyMessage))
  {
    if present {
      TrimmedLengthChain(CompanyChain, 0, 100, CompanyMessage, st, v, lib);
    }
  }

  /** Running one more chain after a list of chains. */
  lemma RunChainsSnoc(cs: seq<Chain>, c: Chain, st: ChainState, lib: EmailLib)
    ensures RunChains(cs + [c], st, lib) == RunChain(c, RunChains(cs, st, lib), lib)
  {
    assert (cs + [c])[..|cs|] == cs;
  }

  /** Six chains run as the six nested applications of `RunChain`. */
  lemma RunSixChains(c1: Chain, c2: Chain, c3: Chain, c4: Chain, c5: Chain, c6: Chain, st: ChainState, lib: EmailLib)
    ensures RunChains([c1, c2, c3, c4, c5, c6], st, lib) ==
      RunChain(c6, RunChain(c5, RunChain(c4, RunChain(c3, RunChain(c2, RunChain(c1, st, lib), lib), lib), lib), lib), lib)
  {
    RunChainsSnoc([], c1, st, lib);
    RunChainsSnoc([c1], c2, st, lib);
    RunChainsSnoc([c1, c2], c3, st, lib);
    RunChainsSnoc([c1, c2, c3], c4, st, lib);
    RunChainsSnoc([c1, c2, c3, c4], c5, st, lib);
    RunChainsSnoc([c1, c2, c3, c4, c5], c6, st, lib);
    assert [c1] == [] + [c1];
    assert [c1, c2] == [c1] + [c2];
    assert [c1, c2, c3] == [c1, c2] + [c3];
    assert [c1, c2, c3, c4] == [c1, c2, c3] + [c4];
    assert [c1, c2, c3, c4, c5] == [c1, c2, c3, c4] + [c5];
    assert [c1, c2, c3, c4, c5, c6] == [c1, c2, c3, c4, c5] + [c6];
  }

  /** The body and errors after the first two chains. */
  function ThroughEmail(body: Body, lib: EmailLib): ChainState {
    ChainState(
      body["name" := Trim(Get(body, "name"))]["email" := lib.normalizeEmail(Get(body, "email"))],
      Report(NameOk(body), "name", NameMessage) + Report(EmailOk(body, lib), "email", EmailMessage))
  }

  /** The body and errors after the first three chains. */
  function ThroughCompany(body: Body, lib: EmailLib): ChainState {
    var t := ThroughEmail(body, lib);
    ChainState(
      if "company" in body then t.body["company" := Trim(body["company"])] else t.body,
      t.errors + Report(CompanyOk(body), "company", CompanyMessage))
  }

  /** The body and errors after the first four chains. */
  function ThroughWhatsapp(body: Body, lib: EmailLib): ChainState {
    var t := ThroughCompany(body, lib);
    ChainState(
      t.body["whatsapp" := Trim(Get(body, "whatsapp"))],
      t.errors + Report(WhatsappOk(body), "whatsapp", WhatsappMessage))
  }

  /** The body and errors after the first five chains. */
  function ThroughService(body: Body, lib: EmailLib): ChainState {
    var t := ThroughWhatsapp(body, lib);
    t.(errors := t.errors + Report(ServiceOk(body), "service", ServiceMessage))
  }

  /** The first two chains leave the later fields alone. */
  lemma ThroughEmailOthers(body: Body, lib: EmailLib, f: string)
    requires f != "name" && f != "email"
    ensures Get(ThroughEmail(body, lib).body, f) == Get(body, f)
    ensures f in ThroughEmail(body, lib).body <==> f in body
  {
    var b1 := body["name" := Trim(Get(body, "name"))];
    GetOther(body, "name", Trim(Get(body, "name")), f);
    GetOther(b1, "email", lib.normalizeEmail(Get(body, "email")), f);
  }

  /** The first three chains leave the later fields alone. */
  lemma ThroughCompanyOthers(body: Body, lib: EmailLib, f: string)
    requires f != "name" && f != "email" && f != "company"
    ensures Get(ThroughCompany(body, lib).body, f) == Get(body, f)
    ensures f in ThroughCompany(body, lib).body <==> f in body
  {
    ThroughEmailOthers(body, lib, f);
    if "company" in body {
      GetOther(ThroughEmail(body, lib).body, "company", Trim(body["company"]), f);
    }
  }

  /** The first four chains leave `service` and `message` alone. */
  lemma ThroughWhatsappOthers(body: Body, lib: EmailLib, f: string)
    requires f == "service" || f == "message"
    ensures Get(ThroughWhatsapp(body, lib).body, f) == Get(body, f)
    ensures f in ThroughWhatsapp(body, lib).body <==> f in body
  {
    ThroughCompanyOthers(body, lib, f);
    GetOther(ThroughCompany(body, lib).body, "whatsapp", Trim(Get(body, "whatsapp")), f);
  }

  lemma NameStage(body: Body, lib: EmailLib)
    ensures RunChain(NameChain, ChainState(body, []), lib) ==
      ChainState(body["name" := Trim(Get(body, "name"))], Report(NameOk(body), "name", NameMessage))
  {
    TrimmedLengthChain(NameChain, 2, 100, NameMessage, ChainState(body, []), Get(body, "name"), lib);
  }

  lemma EmailStage(body: Body, st: ChainState, lib: EmailLib)
    requires st == ChainState(body["name" := Trim(Get(body, "name"))], Report(NameOk(body), "name", NameMessage))
    ensures RunChain(EmailChain, st, lib) == ThroughEmail(body, lib)
  {
    GetOther(body, "name", Trim(Get(body, "name")), "email");
    EmailChainEffect(st, Get(body, "email"), lib);
  }

  lemma CompanyStage(body: Body, st: ChainState, lib: EmailLib)
    requires st == ThroughEmail(body, lib)
    ensures RunChain(CompanyChain, st, lib) == ThroughCompany(body, lib)
  {
    ThroughEmailOthers(body, lib, "company");
    CompanyChainEffect(st, "company" in body, Get(body, "company"), lib);
  }

  lemma WhatsappStage(body: Body, st: ChainState, lib: EmailLib)
    requires st == ThroughCompany(body, lib)
    ensures RunChain(WhatsappChain, st, lib) == ThroughWhatsapp(body, lib)
  {
    ThroughCompanyOthers(body, lib, "whatsapp");
    TrimmedLengthChain(WhatsappChain, 10, 15, WhatsappMessage, st, Get(body, "whatsapp"), lib);
  }

  lemma ServiceStage(body: Body, st: ChainState, lib: EmailLib)
    requires st == ThroughWhatsapp(body, lib)
    ensures RunChain(ServiceChain, st, lib) == ThroughService(body, lib)
  {
    ThroughWhatsappOthers(body, lib, "service");
    ServiceChainEffect(st, "service" in body, Get(body, "service"), lib);
  }

  lemma MessageStage(body: Body, st: ChainState, lib: EmailLib)
    requires st == ThroughService(body, lib)
    ensures RunChain(MessageChain, st, lib) == ChainState(SanitizedBody(body, lib), RuleErrors(body, lib))
  {
    ThroughWhatsappOthers(body, lib, "message");
    TrimmedLengthChain(MessageChain, 10, 2000, MessageMessage, st, Get(body, "message"), lib);
  }

  /** The middleware array computes exactly the reference: sanitized body and every violated rule, in order. */
  lemma ValidateBodyMeaning(body: Body, lib: EmailLib)
    ensures ValidateBody(body, lib) == ChainState(SanitizedBody(body, lib), RuleErrors(body, lib))
  {
    var s0 := ChainState(body, []);
    RunSixChains(NameChain, EmailChain, CompanyChain, WhatsappChain, ServiceChain, MessageChain, s0, lib);
    var s1 := RunChain(NameChain, s0, lib);
    NameStage(body, lib);
    var s2 := RunChain(EmailChain, s1, lib);
    EmailStage(body, s1, lib);
    var s3 := RunChain(CompanyChain, s2, lib);
    CompanyStage(body, s2, lib);
    var s4 := RunChain(WhatsappChain, s3, lib);
    WhatsappStage(body, s3, lib);
    var s5 := RunChain(ServiceChain, s4, lib);
    ServiceStage(body, s4, lib);
    MessageStage(body, s5, lib);
  }

  // ---------------------------------------------------------------------------
  // The rules as the route promises them.

  lemma InReport(e: FieldError, ok: bool, field: string, message: string)
    ensures e in Report(ok, field, message) <==> !ok && e == FieldError(field, message)
  {
  }

  /** An error is recorded exactly for a violated rule, with that rule's field and message. */
  lemma InRuleErrors(body: Body, lib: EmailLib, e: FieldError)
    ensures e in RuleErrors(body, lib) <==>
      (!NameOk(body) && e == FieldError("name", NameMessage)) ||
      (!EmailOk(body, lib) && e == FieldError("email", EmailMessage)) ||
      (!CompanyOk(body) && e == FieldError("company", CompanyMessage)) ||
      (!WhatsappOk(body) && e == FieldError("whatsapp", WhatsappMessage)) ||
      (!ServiceOk(body) && e == FieldError("service", ServiceMessage)) ||
      (!MessageOk(body) && e == FieldError("message", MessageMessage))
  {
    InReport(e, NameOk(body), "name", NameMessage);
    InReport(e, EmailOk(body, lib), "email", EmailMessage);
    InReport(e, CompanyOk(body), "company", CompanyMessage);
    InReport(e, WhatsappOk(body), "whatsapp", WhatsappMessage);
    InReport(e, ServiceOk(body), "service", ServiceMessage);
    InReport(e, MessageOk(body), "message", MessageMessage);
  }

  /** `name` is rejected exactly when its trimmed length is outside [2,100]; a missing name counts as `''`. */
  lemma NameRule(body: Body, lib: EmailLib)
    ensures FieldError("name", NameMessage) in ValidateBody(body, lib).errors <==>
      !(2 <= ValidatorLength(Trim(Get(body, "name"))) <= 100)
  {
    ValidateBodyMeaning(body, lib);
    InRuleErrors(body, lib, FieldError("name", NameMessage));
  }

  /** `email` is rejected exactly when `isEmail` rejects the raw value: no trim comes before it. */
  lemma EmailRule(body: Body, lib: EmailLib)
    ensures FieldError("email", EmailMessage) in ValidateBody(body, lib).errors <==>
      !lib.isEmail(Get(body, "email"))
  {
    ValidateBodyMeaning(body, lib);
    InRuleErrors(body, lib, FieldError("email", EmailMessage));
  }

  /** `company` may be absent; when present its trimmed length must be at most 100. */
  lemma CompanyRule(body: Body, lib: EmailLib)
    ensures FieldError("company", CompanyMessage) in ValidateBody(body, lib).errors <==>
      "company" in body && ValidatorLength(Trim(body["company"])) > 100
  {
    ValidateBodyMeaning(body, lib);
    InRuleErrors(body, lib, FieldError("company", CompanyMessage));
  }

  /** `whatsapp` is required: a missing number is `''`, which is too short. */
  lemma WhatsappRule(body: Body, lib: EmailLib)
    ensures FieldError("whatsapp", WhatsappMessage) in ValidateBody(body, lib).errors <==>
      !(10 <= ValidatorLength(Trim(Get(body, "whatsapp"))) <= 15)
    ensures "whatsapp" !in body ==>
      FieldError("whatsapp", WhatsappMessage) in ValidateBody(body, lib).errors
  {
    ValidateBodyMeaning(body, lib);
    InRuleErrors(body, lib, FieldError("whatsapp", WhatsappMessage));
    if "whatsapp" !in body {
      assert Trim(Get(body, "whatsapp")) == [];
    }
  }

  /** `service` may be absent; when present it must equal one of the ten entries exactly, untrimmed. */
  lemma ServiceRule(body: Body, lib: EmailLib)
    ensures FieldError("service", ServiceMessage) in ValidateBody(body, lib).errors <==>
      "service" in body && body["service"] !in Services
  {
    ValidateBodyMeaning(body, lib);
    InRuleErrors(body, lib, FieldError("service", ServiceMessage));
  }

  /** `message` is rejected exactly when its trimmed length is outside [10,2000]. */
  lemma MessageRule(body: Body, lib: EmailLib)
    ensures FieldError("message", MessageMessage) in ValidateBody(body, lib).errors <==>
      !(10 <= ValidatorLength(Trim(Get(body, "message"))) <= 2000)
  {
    ValidateBodyMeaning(body, lib);
    InRuleErrors(body, lib, FieldError("message", MessageMessage));
  }

  /** The position of a field in the middleware array. */
  function FieldRank(path: string): nat {
    if path == "name" then 0
    else if path == "email" then 1
    else if path == "company" then 2
    else if path == "whatsapp" then 3
    else if path == "service" then 4
    else 5
  }

  /** Errors listed in strictly increasing middleware position: at most one per field, in chain order. */
  predicate InChainOrder(errs: seq<FieldError>) {
    forall i, j :: 0 <= i < j < |errs| ==> FieldRank(errs[i].path) < FieldRank(errs[j].path)
  }

  predicate RankedBelow(errs: seq<FieldError>, rank: nat) {
    forall i :: 0 <= i < |errs| ==> FieldRank(errs[i].path) < rank
  }

  /** Appending the report of a later chain keeps the errors in chain order. */
  lemma AppendReport(errs: seq<FieldError>, ok: bool, field: string, message: string)
    requires InChainOrder(errs) && RankedBelow(errs, FieldRank(field))
    ensures InChainOrder(errs + Report(ok, field, message))
    ensures RankedBelow(errs + Report(ok, field, message), FieldRank(field) + 1)
  {
  }

  /** Six reports, one per chain in declaration order, are in chain order whatever their outcomes. */
  lemma SixReportsInOrder(o1: bool, o2: bool, o3: bool, o4: bool, o5: bool, o6: bool)
    ensures var errs :=
      Report(o1, "name", NameMessage) + Report(o2, "email", EmailMessage) +
      Report(o3, "company", CompanyMessage) + Report(o4, "whatsapp", WhatsappMessage) +
      Report(o5, "service", ServiceMessage) + Report(o6, "message", MessageMessage);
      InChainOrder(errs) && RankedBelow(errs, 6)
  {
    assert FieldRank("name") == 0 && FieldRank("email") == 1 && FieldRank("company") == 2;
    assert FieldRank("whatsapp") == 3 && FieldRank("service") == 4 && FieldRank("message") == 5;
    var e0: seq<FieldError> := [];
    var e1 := Report(o1, "name", NameMessage);
    AppendReport(e0, o1, "name", NameMessage);
    assert e0 + e1 == e1;
    var e2 := e1 + Report(o2, "email", EmailMessage);
    AppendReport(e1, o2, "email", EmailMessage);
    var e3 := e2 + Report(o3, "company", CompanyMessage);
    AppendReport(e2, o3, "company", CompanyMessage);
    var e4 := e3 + Report(o4, "whatsapp", WhatsappMessage);
    AppendReport(e3, o4, "whatsapp", WhatsappMessage);
    var e5 := e4 + Report(o5, "service", ServiceMessage);
    AppendReport(e4, o5, "service", ServiceMessage);
    AppendReport(e5, o6, "message", MessageMessage);
  }

  /** The reference errors are in chain order. */
  lemma RuleErrorsInOrder(body: Body, lib: EmailLib)
    ensures InChainOrder(RuleErrors(body, lib)) && RankedBelow(RuleErrors(body, lib), 6)
  {
    SixReportsInOrder(NameOk(body), EmailOk(body, lib), CompanyOk(body), WhatsappOk(body), ServiceOk(body), MessageOk(body));
  }

  /**
   * Validation does not stop at the first failure: every rule is checked, each
   * field is reported at most once, and the errors follow the chains' order.
   * There are no errors exactly when all six rules hold.
   */
  lemma AllViolationsCollected(body: Body, lib: EmailLib)
    ensures var errs := ValidateBody(body, lib).errors;
      |errs| <= 6 && InChainOrder(errs) &&
      (errs == [] <==> AllRulesHold(body, lib))
  {
    ValidateBodyMeaning(body, lib);
    RuleErrorsInOrder(body, lib);
  }

  /** After the chains, the four required fields are present, so the handler's destructuring finds them. */
  lemma RequiredFieldsPresent(body: Body, lib: EmailLib)
    ensures var b := ValidateBody(body, lib).body;
      "name" in b && "email" in b && "whatsapp" in b && "message" in b &&
      ("company" in b <==> "company" in body) && ("service" in b <==> "service" in body)
  {
    ValidateBodyMeaning(body, lib);
  }

  /**
   * The request as express-validator holds it while the middleware runs: the
   * body, rewritten in place by sanitizers, and the errors recorded so far.
   */
  class ContactRequest {
    var body: Body
    var errors: seq<FieldError>

    constructor (body: Body)
      ensures this.body == body && errors == []
    {
      this.body := body;
      errors := [];
    }

    function State(): ChainState
      reads this
    {
      ChainState(body, errors)
    }

    /** One `body(field)...` middleware, step by step. */
    method RunChainInPlace(c: Chain, lib: EmailLib)
      modifies this
      ensures State() == RunChain(c, old(State()), lib)
    {
      if c.optional && c.field !in body {
        return;
      }
      for k := 0 to |c.steps|
        invariant State() == RunSteps(c.field, c.steps[..k], old(State()), lib)
      {
        assert c.steps[..k + 1][..k] == c.steps[..k];
        match c.steps[k]
        case Sanitize(s) =>
          body := body[c.field := ApplySanitizer(s, Get(body, c.field), lib)];
        case Validate(check, message) =>
          if !Holds(check, Get(body, c.field), lib) {
            errors := errors + [FieldError(c.field, message)];
          }
      }
      assert c.steps[..|c.steps|] == c.steps;
    }

    /** The middleware array, one chain after another. */
    method RunChainsInPlace(cs: seq<Chain>, lib: EmailLib)
      modifies this
      ensures State() == RunChains(cs, old(State()), lib)
    {
      for i := 0 to |cs|
        invariant State() == RunChains(cs[..i], old(State()), lib)
      {
        assert cs[..i + 1][..i] == cs[..i];
        RunChainInPlace(cs[i], lib);
      }
      assert cs[..|cs|] == cs;
    }

    /**
     * `validationResult(req).isEmpty()`: a query that reads the recorded
     * errors and means exactly "no chain recorded an error"; the proofs about
     * which errors are recorded are `ValidateBodyMeaning` and
     * `AllViolationsCollected`.
     */
    method ValidationResultIsEmpty() returns (empty: bool)
      ensures empty <==> errors == []
    {
      empty := errors == [];
    }
  }
}
