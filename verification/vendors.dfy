/** The `Vendor` record of Vendor.cs and its welcome e-mail. The two
    `PlaceOrder` overloads live in module Orders, which needs `Product`. */
module Vendors {
  import opened Common
  import opened Strings

  /** A vendor: three auto-properties, the strings nullable. The class does
      not override equality, so structural equality of this datatype is not
      a claim about the source. */
  datatype Vendor = Vendor(vendorId: Int32, companyName: Option<string>, email: Option<string>)

  /** What `new Vendor()` holds: every property at its default. */
  const DefaultVendor := Vendor(0, None, None)

  /** The option enums of the second `PlaceOrder` overload. */
  datatype IncludeAddress = Yes | No
  datatype SendCopy = Yes | No

  /** The subject of the welcome e-mail, `("Hello " + CompanyName).Trim()`:
      "Hello" alone when the name is null, empty or white space, otherwise
      "Hello ", the name with its leading white space kept and its trailing
      white space dropped. */
  function WelcomeSubject(companyName: Option<string>): (r: string)
    ensures AllWhiteSpace(Str(companyName)) ==> r == "Hello"
    ensures !AllWhiteSpace(Str(companyName)) ==> r == "Hello " + TrimEnd(Str(companyName))
  {
    HelloTrim(Str(companyName));
    Trim("Hello " + Str(companyName))
  }

  lemma HelloTrim(name: string)
    ensures AllWhiteSpace(name) ==> Trim("Hello " + name) == "Hello"
    ensures !AllWhiteSpace(name) ==> Trim("Hello " + name) == "Hello " + TrimEnd(name)
  {
    HelloTrimStart(name);
    if AllWhiteSpace(name) {
      HelloTrimBlank(name);
    } else {
      TrimEndAppend("Hello ", name);
    }
  }

  lemma HelloTrimStart(name: string)
    ensures TrimStart("Hello " + name) == "Hello " + name
  {
    var s := "Hello " + name;
    assert s[0] == 'H';
    assert !IsWhiteSpace('H');
  }

  lemma HelloTrimBlank(name: string)
    requires AllWhiteSpace(name)
    ensures TrimEnd("Hello " + name) == "Hello"
  {
    var b := " " + name;
    assert AllWhiteSpace(b) by {
      forall i | 0 <= i < |b| ensures IsWhiteSpace(b[i]) {
        if i > 0 { assert b[i] == name[i - 1]; }
      }
    }
    TrimEndAppend("Hello", b);
    assert "Hello" + b == "Hello " + name;
    assert TrimEnd("Hello") == "Hello" by { assert !IsWhiteSpace('o'); }
  }

  /** `SendWelcomeEmail(message)`: the request handed to the e-mail
      service, and the service's reply (possibly null), which the method
      returns unchanged.
      The message goes out as given, to the vendor's address, under the
      welcome subject. */
  function SendWelcomeEmail(vendor: Vendor, message: Option<string>, send: EmailRequest -> Option<string>)
    : (r: (EmailRequest, Option<string>))
    ensures r.1 == send(r.0)
    ensures r.0.message == message && r.0.recipient == vendor.email
    ensures AllWhiteSpace(Str(vendor.companyName)) ==> r.0.subject == "Hello"
    ensures !AllWhiteSpace(Str(vendor.companyName)) ==> r.0.subject == "Hello " + TrimEnd(Str(vendor.companyName))
  {
    var subject := WelcomeSubject(vendor.companyName);
    var request := EmailRequest(subject, message, vendor.email);
    var confirmation := send(request);
    (request, confirmation)
  }

  /** The three welcome-email cases the tests exercise. */
  lemma WelcomeSubjectExamples()
    ensures WelcomeSubject(Some("ABC Corp")) == "Hello ABC Corp"
    ensures WelcomeSubject(Some("")) == "Hello"
    ensures WelcomeSubject(None) == "Hello"
  {
    AbcCorpNeedsNoTrim();
  }

  lemma AbcCorpNeedsNoTrim()
    ensures !AllWhiteSpace("ABC Corp") && TrimEnd("ABC Corp") == "ABC Corp"
  {
    var abc := "ABC Corp";
    assert !IsWhiteSpace(abc[0]);
    assert !IsWhiteSpace(abc[|abc| - 1]);
  }
}
