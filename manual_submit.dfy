/**
 * contact/submit.js: the serverless `handler` that validates by hand. It
 * rejects any method but POST, then tests name, email, company, service and
 * message in that order on the raw (untrimmed) values, answering with the first
 * rule that fails; `whatsapp` is never read. Lengths are JavaScript `length`s.
 */
module ManualSubmit {
  import opened Wrappers
  import opened Text
  import opened ContactForm
  import opened EmailPattern

  /** A JSON reply of the handler. */
  datatype ManualReply = ManualReply(status: int, success: bool, message: string, submissionId: Option<string>)

  const MethodNotAllowed := ManualReply(405, false, "Method Not Allowed", None)
  const DemoSubmissionId := "demo12345"
  const ManualSuccess :=
    ManualReply(201, true, "Contact form submitted successfully! We will get back to you soon.", Some(DemoSubmissionId))

  function Rejected(message: string): ManualReply {
    ManualReply(400, false, message, None)
  }

  /** `!name || name.length < 2 || name.length > 100`. */
  predicate NameFails(body: Body) {
    !Truthy(body, "name") || Utf16Length(body["name"]) < 2 || Utf16Length(body["name"]) > 100
  }

  /** `!email || !/^\S+@\S+\.\S+$/.test(email)`. */
  predicate EmailFails(body: Body) {
    !Truthy(body, "email") || !Matches(LoosePattern, body["email"])
  }

  /** `company.length > 100`, with `company = ''` when absent. */
  predicate CompanyFails(body: Body) {
    Utf16Length(Get(body, "company")) > 100
  }

  /** `service && !allowedServices.includes(service)`, with `service = ''` when absent. */
  predicate ServiceFails(body: Body) {
    Get(body, "service") != "" && Get(body, "service") !in Services
  }

  /** `!message || message.length < 10 || message.length > 2000`. */
  predicate MessageFails(body: Body) {
    !Truthy(body, "message") || Utf16Length(body["message"]) < 10 || Utf16Length(body["message"]) > 2000
  }

  /** The handler, guard after guard with early returns. */
  function HandleManual(httpMethod: string, body: Body): ManualReply {
    if httpMethod != "POST" then MethodNotAllowed
    else if NameFails(body) then Rejected(NameMessage)
    else if EmailFails(body) then Rejected(EmailMessage)
    else if CompanyFails(body) then Rejected(CompanyMessage)
    else if ServiceFails(body) then Rejected(ServiceMessage)
    else if MessageFails(body) then Rejected(MessageMessage)
    else ManualSuccess
  }

  /** What the handler does with a request: a JSON reply, or an error thrown before any reply. */
  datatype ManualOutcome = Replied(reply: ManualReply) | Threw

  /**
   * The handler on the body as it arrives: `None` is a request without a
   * parsed body (`req.body` is `undefined` or `null`), where destructuring
   * the body throws a TypeError before any rule is tested.
   */
  function HandleRequest(httpMethod: string, body: Option<Body>): ManualOutcome {
    if httpMethod != "POST" then Replied(MethodNotAllowed)
    else if body.None? then Threw
    else Replied(HandleManual(httpMethod, body.value))
  }

  /**
   * The handler throws exactly for a POST without a body; every reply it does
   * write is 405, 400 or 201, so a 500 can only come from that thrown error.
   */
  lemma MissingBodyThrows(httpMethod: string, body: Option<Body>)
    ensures HandleRequest(httpMethod, body).Threw? <==> httpMethod == "POST" && body.None?
    ensures HandleRequest(httpMethod, body).Replied? ==>
      HandleRequest(httpMethod, body).reply.status in {405, 400, 201}
    ensures HandleRequest(httpMethod, body).Replied? ==>
      (HandleRequest(httpMethod, body).reply.success <==> HandleRequest(httpMethod, body).reply.status == 201)
  {
  }

  // ---------------------------------------------------------------------------
  // The same handler read as "the first failing rule of an ordered list".

  /** One rule: whether it fails, and the message it answers with. */
  datatype Guard = Guard(fails: bool, message: string)

  /** The five rules in the order the handler tests them. */
  function Guards(body: Body): seq<Guard> {
    [Guard(NameFails(body), NameMessage),
     Guard(EmailFails(body), EmailMessage),
     Guard(CompanyFails(body), CompanyMessage),
     Guard(ServiceFails(body), ServiceMessage),
     Guard(MessageFails(body), MessageMessage)]
  }

  /** The message of the first failing guard, if any. */
  function FirstFailure(gs: seq<Guard>): (r: Option<string>)
    ensures r.None? <==> forall i :: 0 <= i < |gs| ==> !gs[i].fails
    ensures r.Some? ==> exists i :: 0 <= i < |gs| && gs[i].fails && gs[i].message == r.value &&
                                    forall j :: 0 <= j < i ==> !gs[j].fails
  {
    if gs == [] then None
    else if gs[0].fails then Some(gs[0].message)
    else
      var rest := FirstFailure(gs[1..]);
      if rest.Some? then
        var i :| 0 <= i < |gs| - 1 && gs[1..][i].fails && gs[1..][i].message == rest.value &&
                 forall j :: 0 <= j < i ==> !gs[1..][j].fails;
        assert gs[i + 1] == gs[1..][i];
        assert forall j :: 0 <= j < i + 1 ==> !gs[j].fails by {
          forall j | 0 <= j < i + 1 ensures !gs[j].fails {
            if j > 0 { assert gs[j] == gs[1..][j - 1]; }
          }
        }
        rest
      else
        assert forall i :: 0 <= i < |gs| ==> !gs[i].fails by {
          forall i | 0 <= i < |gs| ensures !gs[i].fails {
            if i > 0 { assert gs[i] == gs[1..][i - 1]; }
          }
        }
        rest
  }

  /**
   * A POST is answered with the first failing rule's message and 400, or with
   * 201 and the demo id when every rule passes: exactly one error, never more.
   */
  lemma HandleIsFirstFailure(body: Body)
    ensures var r := HandleManual("POST", body);
      match FirstFailure(Guards(body))
      case Some(m) => r == Rejected(m)
      case None => r == ManualSuccess
  {
    var gs := Guards(body);
    assert gs[0].fails == NameFails(body);
    if !NameFails(body) {
      assert gs[1..][0].fails == EmailFails(body);
      if !EmailFails(body) {
        assert gs[2..][0].fails == CompanyFails(body);
        if !CompanyFails(body) {
          assert gs[3..][0].fails == ServiceFails(body);
          if !ServiceFails(body) {
            assert gs[4..][0].fails == MessageFails(body);
            if !MessageFails(body) {
              assert gs[1..][1..][1..][1..][1..] == [];
            }
          }
        }
      }
    }
  }

  /** Any method but POST is refused with 405 before the body is read. */
  lemma MethodGate(httpMethod: string, b1: Body, b2: Body)
    requires httpMethod != "POST"
    ensures HandleManual(httpMethod, b1) == HandleManual(httpMethod, b2) == MethodNotAllowed
    ensures HandleManual(httpMethod, b1).status == 405
  {
  }

  /** The email guard in closed form: present, no whitespace, an `@` not first, then a `.` not last. */
  lemma EmailGuardMeaning(body: Body)
    ensures EmailFails(body) <==> !Truthy(body, "email") || !LooseEmailShape(body["email"])
  {
    if Truthy(body, "email") {
      LoosePatternMeaning(body["email"]);
    }
  }

  /** An empty or absent `service` always passes; a non-empty one must be listed exactly. */
  lemma ServiceGuardMeaning(body: Body)
    ensures ("service" !in body || body["service"] == "") ==> !ServiceFails(body)
    ensures "service" in body && body["service"] != "" ==>
      (ServiceFails(body) <==> body["service"] !in Services)
  {
  }

  /** Setting, changing or removing `whatsapp` never changes the reply. */
  lemma WhatsappIgnored(httpMethod: string, body: Body, w: string)
    ensures HandleManual(httpMethod, body["whatsapp" := w]) == HandleManual(httpMethod, body)
    ensures HandleManual(httpMethod, body - {"whatsapp"}) == HandleManual(httpMethod, body)
  {
    var b1 := body["whatsapp" := w];
    var b2 := body - {"whatsapp"};
    forall f | f in ["name", "email", "company", "service", "message"]
      ensures (f in b1 <==> f in body) && (f in b2 <==> f in body)
      ensures f in body ==> b1[f] == body[f] && b2[f] == body[f]
    {
    }
    assert Guards(b1) == Guards(body);
    assert Guards(b2) == Guards(body);
  }
}
