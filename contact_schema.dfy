/**
 * models/contact.js: the Mongoose `contactSchema` read as a validator that
 * casts a submitted object, applies the schema's setters (`trim`,
 * `lowercase`) and defaults, and either yields the document to be saved or a
 * `ValidationError` holding one message per failing path.
 */
module ContactSchema {
  import opened Wrappers
  import opened Text
  import opened ContactForm
  import opened EmailPattern

  const Statuses: seq<string> := ["new", "in-progress", "completed", "closed"]
  const Priorities: seq<string> := ["low", "medium", "high"]

  const DefaultStatus := "new"
  const DefaultPriority := "medium"
  const DefaultSource := "website"

  const NameRequired := "Name is required"
  const NameTooLong := "Name cannot be more than 100 characters"
  const EmailRequired := "Email is required"
  const EmailInvalid := "Please enter a valid email"
  const CompanyTooLong := "Company name cannot be more than 100 characters"
  const MessageRequired := "Message is required"
  const MessageTooLong := "Message cannot be more than 2000 characters"

  /** Mongoose's default enum message, with `{VALUE}` and `{PATH}` filled in. */
  function EnumMessage(value: string, path: string): string {
    "`" + value + "` is not a valid enum value for path `" + path + "`."
  }

  /** A saved contact document (the `createdAt`/`updatedAt` timestamps aside). */
  datatype ContactDoc = ContactDoc(
    name: string,
    email: string,
    company: Option<string>,
    service: Option<string>,
    message: string,
    status: string,
    priority: string,
    source: string,
    ipAddress: Option<string>,
    userAgent: Option<string>)

  /** The field as given, `None` when the key is absent (`undefined`). */
  function Given(input: Body, key: string): Option<string> {
    if key in input then Some(input[key]) else None
  }

  /** The `trim` setter, applied when the path is assigned. */
  function TrimSet(v: Option<string>): Option<string> {
    if v.Some? then Some(Trim(v.value)) else None
  }

  /** The `lowercase` setter on `email`. */
  function LowerSet(v: Option<string>): Option<string> {
    if v.Some? then Some(AsciiLower(v.value)) else None
  }

  /** The `required` validator then `maxlength`: a missing or empty value fails first. */
  function RequiredMax(v: Option<string>, max: nat, required: string, tooLong: string): Option<string> {
    if v.None? || v.value == "" then Some(required)
    else if Utf16Length(v.value) > max then Some(tooLong)
    else None
  }

  /** `maxlength` on an optional path: validators other than `required` skip `undefined`. */
  function OptionalMax(v: Option<string>, max: nat, tooLong: string): Option<string> {
    if v.Some? && Utf16Length(v.value) > max then Some(tooLong) else None
  }

  /** `enum` on a path: `undefined` passes, anything else must be listed. */
  function EnumCheck(v: Option<string>, values: seq<string>, path: string): Option<string> {
    if v.Some? && v.value !in values then Some(EnumMessage(v.value, path)) else None
  }

  /** `required`, then `match` against the schema's pattern. */
  function RequiredMatch(v: Option<string>): Option<string> {
    if v.None? || v.value == "" then Some(EmailRequired)
    else if !SchemaEmailShape(v.value) then Some(EmailInvalid)
    else None
  }

  /** The schema paths that carry validators. */
  datatype Path = Name | Email | Company | Service | Message | Status | Priority

  /**
   * The message of the first failing validator of each path, on the value
   * after setters and defaults (defaults are applied before validation, so
   * the enum sees `'new'` when `status` is absent).
   */
  function PathError(input: Body, p: Path): Option<string> {
    match p
    case Name => RequiredMax(TrimSet(Given(input, "name")), 100, NameRequired, NameTooLong)
    case Email => RequiredMatch(LowerSet(Given(input, "email")))
    case Company => OptionalMax(TrimSet(Given(input, "company")), 100, CompanyTooLong)
    case Service => EnumCheck(Given(input, "service"), Services, "service")
    case Message => RequiredMax(TrimSet(Given(input, "message")), 2000, MessageRequired, MessageTooLong)
    case Status => EnumCheck(Some(Given(input, "status").GetOr(DefaultStatus)), Statuses, "status")
    case Priority => EnumCheck(Some(Given(input, "priority").GetOr(DefaultPriority)), Priorities, "priority")
  }

  /** No validator of any path fails. */
  predicate AllPathsValid(input: Body) {
    forall p: Path :: PathError(input, p).None?
  }

  /** `ValidationError.errors`, reduced to the message per path. */
  function SchemaErrors(input: Body): map<Path, string> {
    map p: Path | PathError(input, p).Some? :: PathError(input, p).value
  }

  /** The document built from the assigned and defaulted values; keys outside the schema are dropped. */
  function BuildDoc(input: Body): ContactDoc {
    ContactDoc(
      TrimSet(Given(input, "name")).GetOr(""),
      LowerSet(Given(input, "email")).GetOr(""),
      TrimSet(Given(input, "company")),
      Given(input, "service"),
      TrimSet(Given(input, "message")).GetOr(""),
      Given(input, "status").GetOr(DefaultStatus),
      Given(input, "priority").GetOr(DefaultPriority),
      Given(input, "source").GetOr(DefaultSource),
      Given(input, "ipAddress"),
      Given(input, "userAgent"))
  }

  /** `new Contact(input).validate()`: the document, or every failing path's message. */
  function ValidateContact(input: Body): Result<ContactDoc, map<Path, string>> {
    if AllPathsValid(input) then Success(BuildDoc(input)) else Failure(SchemaErrors(input))
  }

  /** What every saved document satisfies. */
  predicate WellFormed(doc: ContactDoc) {
    Trimmed(doc.name) && doc.name != "" && Utf16Length(doc.name) <= 100 &&
    NoAsciiUpper(doc.email) && SchemaEmailShape(doc.email) &&
    (doc.company.Some? ==> Trimmed(doc.company.value) && Utf16Length(doc.company.value) <= 100) &&
    (doc.service.Some? ==> doc.service.value in Services) &&
    Trimmed(doc.message) && doc.message != "" && Utf16Length(doc.message) <= 2000 &&
    doc.status in Statuses && doc.priority in Priorities
  }

  /** A document that validates satisfies every constraint of the schema, in the stored (set) form. */
  lemma ValidatedDocWellFormed(input: Body)
    requires ValidateContact(input).Success?
    ensures WellFormed(ValidateContact(input).value)
  {
    assert PathError(input, Name).None? && PathError(input, Email).None?;
    assert PathError(input, Company).None? && PathError(input, Message).None?;
    assert PathError(input, Status).None? && PathError(input, Priority).None?;
    assert PathError(input, Service).None?;
    TrimResult(input["name"]);
    TrimResult(input["message"]);
    if "company" in input {
      TrimResult(input["company"]);
    }
    AsciiLowerNormal(input["email"]);
  }

  /**
   * Unfolds `ValidateContact`: success is `AllPathsValid`, and a failure's
   * error is non-empty with exactly the failing paths as keys. A helper for
   * `SchemaErrorMessages`, which states the messages in terms of the input.
   */
  lemma SchemaErrorsMeaning(input: Body)
    ensures ValidateContact(input).Success? <==> forall p: Path :: PathError(input, p).None?
    ensures ValidateContact(input).Failure? ==>
      ValidateContact(input).error != map[] &&
      forall p: Path :: (p in ValidateContact(input).error <==> PathError(input, p).Some?) &&
        (p in ValidateContact(input).error ==> ValidateContact(input).error[p] == PathError(input, p).value)
  {
    if !AllPathsValid(input) {
      var p: Path :| PathError(input, p).Some?;
      assert p in SchemaErrors(input);
    }
  }

  /** A trimmed, required, length-limited path in terms of the submitted value. */
  lemma TrimmedRequiredRaw(input: Body, key: string, max: nat, required: string, tooLong: string)
    ensures RequiredMax(TrimSet(Given(input, key)), max, required, tooLong) ==
      if key !in input || Trim(input[key]) == "" then Some(required)
      else if Utf16Length(Trim(input[key])) > max then Some(tooLong)
      else None
  {
  }

  /** The email path in terms of the submitted value: lower-casing keeps emptiness. */
  lemma EmailErrorRaw(input: Body)
    ensures PathError(input, Email) ==
      if "email" !in input || input["email"] == "" then Some(EmailRequired)
      else if !SchemaEmailShape(AsciiLower(input["email"])) then Some(EmailInvalid)
      else None
  {
    if "email" in input {
      assert |AsciiLower(input["email"])| == |input["email"]|;
    }
  }

  /** An enum path with a listed default fails only on a given, unlisted value. */
  lemma DefaultedEnumRaw(input: Body, key: string, default: string, values: seq<string>)
    requires default in values
    ensures EnumCheck(Some(Given(input, key).GetOr(default)), values, key) ==
      if key in input && input[key] !in values then Some(EnumMessage(input[key], key)) else None
  {
  }

  /**
   * The error in terms of the submitted values: a missing or blank name or
   * message fails `required` and a longer one `maxlength`; a missing or empty
   * email fails `required` and one whose lower-cased form does not match
   * fails `match`; a company fails only when given and too long after
   * trimming; `service`, `status` and `priority` fail only when given and
   * unlisted (the defaults are listed), with Mongoose's enum message for the
   * value given.
   */
  lemma SchemaErrorMessages(input: Body)
    ensures var r := ValidateContact(input);
      r.Failure? ==>
        (Name in r.error <==> "name" !in input || Trim(input["name"]) == "" || Utf16Length(Trim(input["name"])) > 100) &&
        (Name in r.error ==>
          r.error[Name] == if "name" !in input || Trim(input["name"]) == "" then NameRequired else NameTooLong)
    ensures var r := ValidateContact(input);
      r.Failure? ==>
        (Email in r.error <==> "email" !in input || input["email"] == "" || !SchemaEmailShape(AsciiLower(input["email"]))) &&
        (Email in r.error ==>
          r.error[Email] == if "email" !in input || input["email"] == "" then EmailRequired else EmailInvalid)
    ensures var r := ValidateContact(input);
      r.Failure? ==>
        (Company in r.error <==> "company" in input && Utf16Length(Trim(input["company"])) > 100) &&
        (Company in r.error ==> r.error[Company] == CompanyTooLong)
    ensures var r := ValidateContact(input);
      r.Failure? ==>
        (Service in r.error <==> "service" in input && input["service"] !in Services) &&
        (Service in r.error ==> r.error[Service] == EnumMessage(input["service"], "service"))
    ensures var r := ValidateContact(input);
      r.Failure? ==>
        (Message in r.error <==>
          "message" !in input || Trim(input["message"]) == "" || Utf16Length(Trim(input["message"])) > 2000) &&
        (Message in r.error ==>
          r.error[Message] == if "message" !in input || Trim(input["message"]) == "" then MessageRequired else MessageTooLong)
    ensures var r := ValidateContact(input);
      r.Failure? ==>
        (Status in r.error <==> "status" in input && input["status"] !in Statuses) &&
        (Status in r.error ==> r.error[Status] == EnumMessage(input["status"], "status"))
    ensures var r := ValidateContact(input);
      r.Failure? ==>
        (Priority in r.error <==> "priority" in input && input["priority"] !in Priorities) &&
        (Priority in r.error ==> r.error[Priority] == EnumMessage(input["priority"], "priority"))
  {
    SchemaErrorsMeaning(input);
    TrimmedRequiredRaw(input, "name", 100, NameRequired, NameTooLong);
    TrimmedRequiredRaw(input, "message", 2000, MessageRequired, MessageTooLong);
    EmailErrorRaw(input);
    DefaultedEnumRaw(input, "status", DefaultStatus, Statuses);
    DefaultedEnumRaw(input, "priority", DefaultPriority, Priorities);
  }

  /** A path of the built document that satisfies the schema's constraints passes that path's validators. */
  lemma WellFormedPathValid(input: Body, p: Path)
    requires WellFormed(BuildDoc(input))
    ensures PathError(input, p).None?
  {
  }

  /** A submission is saved exactly when the document built from it satisfies every schema constraint. */
  lemma SchemaAcceptsExactlyWellFormed(input: Body)
    ensures ValidateContact(input).Success? <==> WellFormed(BuildDoc(input))
  {
    if ValidateContact(input).Success? {
      ValidatedDocWellFormed(input);
    }
    if WellFormed(BuildDoc(input)) {
      forall p: Path ensures PathError(input, p).None? {
        WellFormedPathValid(input, p);
      }
    }
  }

  /** Absent `status`, `priority` and `source` take their defaults; given ones are kept. */
  lemma DefaultsFilled(input: Body)
    requires ValidateContact(input).Success?
    ensures var doc := ValidateContact(input).value;
      doc.status == (if "status" in input then input["status"] else "new") &&
      doc.priority == (if "priority" in input then input["priority"] else "medium") &&
      doc.source == (if "source" in input then input["source"] else "website")
  {
  }

  /** The schema has no `whatsapp` path: the field never influences validation or the document. */
  lemma WhatsappNotStored(input: Body, w: string)
    ensures ValidateContact(input["whatsapp" := w]) == ValidateContact(input)
  {
    var b := input["whatsapp" := w];
    assert Given(b, "name") == Given(input, "name");
    assert Given(b, "email") == Given(input, "email");
    assert Given(b, "company") == Given(input, "company");
    assert Given(b, "service") == Given(input, "service");
    assert Given(b, "message") == Given(input, "message");
    assert Given(b, "status") == Given(input, "status");
    assert Given(b, "priority") == Given(input, "priority");
    assert Given(b, "source") == Given(input, "source");
    assert Given(b, "ipAddress") == Given(input, "ipAddress");
    assert Given(b, "userAgent") == Given(input, "userAgent");
    assert forall p: Path :: PathError(b, p) == PathError(input, p);
    assert SchemaErrors(b) == SchemaErrors(input);
  }

  /** The document written back as a request body: the optional paths only when set. */
  function DocBody(doc: ContactDoc): Body {
    var b := map["name" := doc.name, "email" := doc.email, "message" := doc.message,
                 "status" := doc.status, "priority" := doc.priority, "source" := doc.source];
    var b1 := if doc.company.Some? then b["company" := doc.company.value] else b;
    var b2 := if doc.service.Some? then b1["service" := doc.service.value] else b1;
    var b3 := if doc.ipAddress.Some? then b2["ipAddress" := doc.ipAddress.value] else b2;
    if doc.userAgent.Some? then b3["userAgent" := doc.userAgent.value] else b3
  }

  /** Lower-casing a string without upper-case letters changes nothing. */
  lemma AsciiLowerOfLower(s: string)
    requires NoAsciiUpper(s)
    ensures AsciiLower(s) == s
  {
  }

  /** Reading the written-back body gives back each field of the document. */
  lemma DocBodyFields(doc: ContactDoc)
    ensures var b := DocBody(doc);
      Given(b, "name") == Some(doc.name) && Given(b, "email") == Some(doc.email) &&
      Given(b, "message") == Some(doc.message) && Given(b, "company") == doc.company &&
      Given(b, "service") == doc.service && Given(b, "status") == Some(doc.status) &&
      Given(b, "priority") == Some(doc.priority) && Given(b, "source") == Some(doc.source) &&
      Given(b, "ipAddress") == doc.ipAddress && Given(b, "userAgent") == doc.userAgent
  {
    assert "company" != "message" && "service" != "message" && "company" != "service" by {
      assert "company"[0] != "message"[0] && "service"[0] != "message"[0] && "company"[0] != "service"[0];
    }
    assert "status" != "source" by { assert "status"[1] != "source"[1]; }
    assert "ipAddress" != "userAgent" by { assert "ipAddress"[0] != "userAgent"[0]; }
  }

  /** Every path of a well-formed document, written back, passes its validators unchanged by the setters. */
  lemma DocBodyValid(doc: ContactDoc)
    requires WellFormed(doc)
    ensures AllPathsValid(DocBody(doc))
    ensures TrimSet(Given(DocBody(doc), "name")) == Some(doc.name)
    ensures TrimSet(Given(DocBody(doc), "message")) == Some(doc.message)
    ensures TrimSet(Given(DocBody(doc), "company")) == doc.company
    ensures LowerSet(Given(DocBody(doc), "email")) == Some(doc.email)
  {
    DocBodyFields(doc);
    TrimFixedPoint(doc.name);
    TrimFixedPoint(doc.message);
    if doc.company.Some? {
      TrimFixedPoint(doc.company.value);
    }
    AsciiLowerOfLower(doc.email);
    forall p: Path ensures PathError(DocBody(doc), p).None? {
      DocBodyPathValid(doc, p);
    }
  }

  lemma DocBodyPathValid(doc: ContactDoc, p: Path)
    requires WellFormed(doc)
    ensures PathError(DocBody(doc), p).None?
  {
    DocBodyFields(doc);
    match p {
      case Name => TrimFixedPoint(doc.name);
      case Email => AsciiLowerOfLower(doc.email);
      case Company =>
        if doc.company.Some? {
          TrimFixedPoint(doc.company.value);
        }
      case Service =>
      case Message => TrimFixedPoint(doc.message);
      case Status =>
      case Priority =>
    }
  }

  /** Setters and defaults are idempotent: a well-formed document validates to itself. */
  lemma RevalidationIsIdentity(doc: ContactDoc)
    requires WellFormed(doc)
    ensures ValidateContact(DocBody(doc)) == Success(doc)
  {
    DocBodyFields(doc);
    DocBodyValid(doc);
  }

  /** `a@b.co` has the schema's shape. */
  lemma SampleSchemaEmail()
    ensures SchemaEmailShape("a@b.co")
  {
    var e := "a@b.co";
    assert e[..1] == "a" && e[1 + 1..3] == "b" && e[3 + 1..] == "co";
    assert IsDottedWord(e[..1]) && IsDottedWord(e[1 + 1..3]) && AllWordChars(e[3 + 1..]);
    assert 0 <= 1 < 3 < |e| && e[1] == '@' && e[3] == '.' && 2 <= |e| - 3 - 1 <= 3;
  }

  lemma SampleEmailLower()
    ensures AsciiLower("a@b.co") == "a@b.co"
  {
    var e := "a@b.co";
    assert NoAsciiUpper(e) by {
      forall i | 0 <= i < |e| ensures !('A' <= e[i] <= 'Z') {
        assert e[i] in {'a', '@', 'b', '.', 'c', 'o'};
      }
    }
    AsciiLowerOfLower(e);
  }

  const OneLetterInput: Body := map["name" := "A", "email" := "a@b.co", "message" := "x"]

  lemma OneLetterInputValid()
    ensures AllPathsValid(OneLetterInput)
  {
    var input := OneLetterInput;
    forall p: Path ensures PathError(input, p).None? {
      OneLetterPathValid(p);
    }
  }

  lemma OneLetterName()
    ensures PathError(OneLetterInput, Name).None?
  {
    assert Given(OneLetterInput, "name") == Some("A");
    TrimFixedPoint("A");
  }

  lemma OneLetterEmail()
    ensures PathError(OneLetterInput, Email).None?
  {
    assert Given(OneLetterInput, "email") == Some("a@b.co");
    SampleSchemaEmail();
    SampleEmailLower();
  }

  lemma OneLetterMessage()
    ensures PathError(OneLetterInput, Message).None?
  {
    assert Given(OneLetterInput, "message") == Some("x");
    TrimFixedPoint("x");
  }

  lemma OneLetterPathValid(p: Path)
    ensures PathError(OneLetterInput, p).None?
  {
    match p {
      case Name => OneLetterName();
      case Email => OneLetterEmail();
      case Company =>
      case Service =>
      case Message => OneLetterMessage();
      case Status =>
      case Priority =>
    }
  }

  /** The schema has no minimum name length: a one-letter name is saved. */
  lemma OneLetterNameAccepted()
    ensures var r := ValidateContact(OneLetterInput);
      r.Success? && r.value.name == "A"
  {
    OneLetterInputValid();
    TrimFixedPoint("A");
  }

  /** A name of spaces is trimmed to `''` and then fails `required`, not `maxlength`. */
  lemma BlankNameIsMissing(input: Body)
    requires "name" in input && Trim(input["name"]) == ""
    ensures ValidateContact(input).Failure?
    ensures Name in ValidateContact(input).error && ValidateContact(input).error[Name] == NameRequired
  {
    assert PathError(input, Name) == Some(NameRequired);
    assert Name in SchemaErrors(input);
  }

  /** An enum value is matched exactly: a lower-case service is rejected with Mongoose's enum message. */
  lemma EnumIsCaseSensitive(input: Body)
    requires "service" in input && input["service"] == "other"
    ensures ValidateContact(input).Failure?
    ensures Service in ValidateContact(input).error && ValidateContact(input).error[Service] == EnumMessage("other", "service")
  {
    ServicesShape();
    assert PathError(input, Service) == Some(EnumMessage("other", "service"));
    assert Service in SchemaErrors(input);
  }
}
