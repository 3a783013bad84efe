/**
 * How the two validators of the repository relate: the express-validator
 * chains of routes/contactRoutes.js collect every violation on trimmed values
 * and require `whatsapp`; the handler of contact/submit.js stops at the first
 * failure, reads raw values, counts UTF-16 units and never reads `whatsapp`.
 */
module ValidatorComparison {
  import opened Text
  import opened ContactForm
  import opened EmailPattern
  import opened ValidationChain
  import opened ManualSubmit

  /**
   * A value both validators measure alike: no whitespace at its ends, nothing
   * outside the Basic Multilingual Plane, no presentation selector.
   */
  predicate Clean(s: string) {
    Trimmed(s) && Bmp(s) && NoSelectors(s)
  }

  /** On a clean value trimming is the identity and all three length notions agree. */
  lemma CleanLengths(s: string)
    requires Clean(s)
    ensures Trim(s) == s && Utf16Length(s) == |s| && ValidatorLength(s) == |s|
  {
    TrimFixedPoint(s);
    Utf16LengthBmp(s);
    ValidatorLengthPlain(s);
  }

  /** The service rules agree on every body: `''` is listed, so "absent", "empty" and "listed" all pass both. */
  lemma ServiceRulesAgree(body: Body)
    ensures ServiceOk(body) <==> !ServiceFails(body)
  {
    assert "" in Services;
  }

  lemma NameRulesAgree(body: Body)
    requires Clean(Get(body, "name"))
    ensures NameOk(body) <==> !NameFails(body)
  {
    CleanLengths(Get(body, "name"));
  }

  lemma CompanyRulesAgree(body: Body)
    requires Clean(Get(body, "company"))
    ensures CompanyOk(body) <==> !CompanyFails(body)
  {
    CleanLengths(Get(body, "company"));
  }

  lemma MessageRulesAgree(body: Body)
    requires Clean(Get(body, "message"))
    ensures MessageOk(body) <==> !MessageFails(body)
  {
    CleanLengths(Get(body, "message"));
  }

  /** The chain's email rule agrees with the regular expression when `isEmail` does on this address. */
  lemma EmailRulesAgree(body: Body, lib: EmailLib)
    requires lib.isEmail(Get(body, "email")) <==> Get(body, "email") != "" && LooseEmailShape(Get(body, "email"))
    ensures EmailOk(body, lib) <==> !EmailFails(body)
  {
    EmailGuardMeaning(body);
  }

  /** The bodies on which the two validators judge every shared rule alike. */
  predicate Comparable(body: Body, lib: EmailLib) {
    Clean(Get(body, "name")) && Clean(Get(body, "company")) && Clean(Get(body, "message")) &&
    (lib.isEmail(Get(body, "email")) <==> Get(body, "email") != "" && LooseEmailShape(Get(body, "email")))
  }

  /** The collected errors minus those about `whatsapp`, which contact/submit.js never checks. */
  function WithoutWhatsapp(errs: seq<FieldError>): seq<FieldError> {
    if errs == [] then []
    else if errs[0].path == "whatsapp" then WithoutWhatsapp(errs[1..])
    else [errs[0]] + WithoutWhatsapp(errs[1..])
  }

  /** The filter keeps exactly the errors about other fields. */
  lemma {:induction false} WithoutWhatsappMembers(errs: seq<FieldError>)
    ensures forall e :: e in WithoutWhatsapp(errs) <==> e in errs && e.path != "whatsapp"
  {
    if errs != [] {
      WithoutWhatsappMembers(errs[1..]);
      assert errs == [errs[0]] + errs[1..];
    }
  }

  lemma {:induction false} WithoutWhatsappAppend(a: seq<FieldError>, b: seq<FieldError>)
    ensures WithoutWhatsapp(a + b) == WithoutWhatsapp(a) + WithoutWhatsapp(b)
  {
    if a == [] {
      assert a + b == b;
    } else {
      assert (a + b)[0] == a[0] && (a + b)[1..] == a[1..] + b;
      WithoutWhatsappAppend(a[1..], b);
    }
  }

  /** A report about another field survives the filter whole; one about `whatsapp` vanishes. */
  lemma ReportFiltered(ok: bool, field: string, message: string)
    ensures WithoutWhatsapp(Report(ok, field, message)) ==
      if field == "whatsapp" then [] else Report(ok, field, message)
  {
  }

  lemma DropFourth(r1: seq<FieldError>, r2: seq<FieldError>, r3: seq<FieldError>,
                   r4: seq<FieldError>, r5: seq<FieldError>, r6: seq<FieldError>)
    requires WithoutWhatsapp(r1) == r1 && WithoutWhatsapp(r2) == r2 && WithoutWhatsapp(r3) == r3
    requires WithoutWhatsapp(r4) == [] && WithoutWhatsapp(r5) == r5 && WithoutWhatsapp(r6) == r6
    ensures WithoutWhatsapp(r1 + r2 + r3 + r4 + r5 + r6) == r1 + r2 + r3 + r5 + r6
  {
    WithoutWhatsappAppend(r1 + r2 + r3 + r4 + r5, r6);
    WithoutWhatsappAppend(r1 + r2 + r3 + r4, r5);
    WithoutWhatsappAppend(r1 + r2 + r3, r4);
    WithoutWhatsappAppend(r1 + r2, r3);
    WithoutWhatsappAppend(r1, r2);
  }

  /** Dropping the `whatsapp` error leaves the five shared rules' reports, in the handler's order. */
  lemma SharedErrors(body: Body, lib: EmailLib)
    ensures WithoutWhatsapp(RuleErrors(body, lib)) ==
      Report(NameOk(body), "name", NameMessage) +
      Report(EmailOk(body, lib), "email", EmailMessage) +
      Report(CompanyOk(body), "company", CompanyMessage) +
      Report(ServiceOk(body), "service", ServiceMessage) +
      Report(MessageOk(body), "message", MessageMessage)
  {
    ReportFiltered(NameOk(body), "name", NameMessage);
    ReportFiltered(EmailOk(body, lib), "email", EmailMessage);
    ReportFiltered(CompanyOk(body), "company", CompanyMessage);
    ReportFiltered(WhatsappOk(body), "whatsapp", WhatsappMessage);
    ReportFiltered(ServiceOk(body), "service", ServiceMessage);
    ReportFiltered(MessageOk(body), "message", MessageMessage);
    DropFourth(
      Report(NameOk(body), "name", NameMessage),
      Report(EmailOk(body, lib), "email", EmailMessage),
      Report(CompanyOk(body), "company", CompanyMessage),
      Report(WhatsappOk(body), "whatsapp", WhatsappMessage),
      Report(ServiceOk(body), "service", ServiceMessage),
      Report(MessageOk(body), "message", MessageMessage));
  }

  /**
   * Collect-all against first-failure: on comparable bodies, contact/submit.js
   * answers with exactly the first error the chains collect once the
   * `whatsapp` error is set aside, and succeeds exactly when no other error is
   * collected.
   */
  lemma FirstFailureIsFirstCollected(body: Body, lib: EmailLib)
    requires Comparable(body, lib)
    ensures var shared := WithoutWhatsapp(ValidateBody(body, lib).errors);
      (HandleManual("POST", body) == ManualSuccess <==> shared == []) &&
      (shared != [] ==> HandleManual("POST", body) == Rejected(shared[0].msg))
  {
    ValidateBodyMeaning(body, lib);
    SharedErrors(body, lib);
    NameRulesAgree(body);
    EmailRulesAgree(body, lib);
    CompanyRulesAgree(body);
    ServiceRulesAgree(body);
    MessageRulesAgree(body);
  }

  /** On comparable bodies the chains accept exactly what contact/submit.js accepts with a valid `whatsapp`. */
  lemma AcceptanceAgrees(body: Body, lib: EmailLib)
    requires Comparable(body, lib)
    ensures AllRulesHold(body, lib) <==> HandleManual("POST", body) == ManualSuccess && WhatsappOk(body)
  {
    NameRulesAgree(body);
    EmailRulesAgree(body, lib);
    CompanyRulesAgree(body);
    ServiceRulesAgree(body);
    MessageRulesAgree(body);
  }

  /** Without `whatsapp` the chains always reject, while contact/submit.js judges the rest alone. */
  lemma MissingWhatsappDiverges(body: Body, lib: EmailLib, w: string)
    requires "whatsapp" !in body
    ensures FieldError("whatsapp", WhatsappMessage) in ValidateBody(body, lib).errors
    ensures HandleManual("POST", body) == HandleManual("POST", body["whatsapp" := w])
  {
    WhatsappRule(body, lib);
    WhatsappIgnored("POST", body, w);
  }

  /** A name of one letter and a trailing space: contact/submit.js counts 2 and accepts it, the chains trim to 1. */
  lemma UntrimmedNameDiverges()
    ensures var body := map["name" := "A "];
      !NameFails(body) && !NameOk(body)
  {
    var s := "A ";
    assert IsSpace(s[1]) && !IsSpace(s[0]);
    assert TrimStart(s) == s;
    assert TrimEnd(s[..1]) == s[..1];
    assert Trim(s) == "A";
    assert ValidatorLength("A") == 1 by {
      assert PresentationSelectors("A"[1..]) == 0;
    }
    assert Utf16Length(s) == 2 by {
      assert Utf16Length(s[1..][1..]) == 0;
    }
  }

  /** One character outside the BMP is two UTF-16 units: contact/submit.js accepts it as a name, the chains count 1. */
  lemma AstralNameDiverges()
    ensures var body := map["name" := [0x1F600 as char]];
      !NameFails(body) && !NameOk(body)
  {
    var s := [0x1F600 as char];
    assert !IsSpace(s[0]);
    assert TrimStart(s) == s;
    assert TrimEnd(s) == s;
    assert ValidatorLength(s) == 1 by {
      assert PresentationSelectors(s[1..]) == 0;
    }
    assert Utf16Length(s) == 2 by {
      assert Utf16Length(s[1..]) == 0;
    }
  }
}
