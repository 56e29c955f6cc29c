/** The two `PlaceOrder` overloads of Vendor.cs. They sit in their own module
    because they take a `Product`, and `Product` in turn holds a `Vendor`.
    The e-mail service, the clock, the newline string, the date format and
    the `ProductCode` property (which Product.cs does not define) are
    parameters. */
module Orders {
  import opened Common
  import opened Strings
  import opened Vendors
  import opened Products

  const OrderHeading := "Order from Acme, Inc."
  const ProductLabel := "Product: "
  const QuantityLabel := "Quantity: "
  const DeliverByLabel := "Deliver by: "
  const InstructionsLabel := "Instructions: "
  const OrderSubject := "New Order"
  const SentPrefix := "Message sent:"

  /** The default value of the `instructions` parameter. */
  const DefaultInstructions: Option<string> := Some("standard delivery")

  // ---- the order text as a list of lines ----

  /** The lines of an order, in order: heading, product, quantity, then the
      delivery date when one is given, then the instructions unless they are
      null or white space. */
  function OrderLines(productCode: string, quantity: int, deliverByText: Option<string>,
                      instructions: Option<string>): seq<string>
  {
    [OrderHeading, ProductLabel + productCode, QuantityLabel + IntText(quantity)]
    + (if deliverByText.Some? then [DeliverByLabel + deliverByText.value] else [])
    + (if !IsNullOrWhiteSpace(instructions) then [InstructionsLabel + instructions.value] else [])
  }

  /** Lines separated by `nl`, with no separator before the first or after
      the last. */
  function JoinLines(lines: seq<string>, nl: string): string
  {
    if |lines| == 0 then ""
    else if |lines| == 1 then lines[0]
    else JoinLines(lines[..|lines| - 1], nl) + nl + lines[|lines| - 1]
  }

  lemma JoinSnoc(lines: seq<string>, line: string, nl: string)
    requires |lines| >= 1
    ensures JoinLines(lines + [line], nl) == JoinLines(lines, nl) + nl + line
  {
    assert (lines + [line])[..|lines|] == lines;
  }

  /** Joining a longer list extends the text of any shorter prefix of it. */
  lemma {:induction false} JoinPrefix(lines: seq<string>, k: nat, nl: string)
    requires 1 <= k <= |lines|
    ensures StartsWith(JoinLines(lines, nl), JoinLines(lines[..k], nl))
    decreases |lines|
  {
    if k < |lines| {
      var init := lines[..|lines| - 1];
      assert init[..k] == lines[..k];
      JoinPrefix(init, k, nl);
      assert JoinLines(lines, nl) == JoinLines(init, nl) + nl + lines[|lines| - 1];
    } else {
      assert lines[..k] == lines;
    }
  }

  /** The formatted delivery date, `deliverBy.Value.ToString("d")`. */
  function DeliverByText(deliverBy: Option<DateTimeOffset>, formatDate: DateTimeOffset -> string)
    : (r: Option<string>)
    ensures r.Some? <==> deliverBy.Some?
  {
    if deliverBy.Some? then Some(formatDate(deliverBy.value)) else None
  }

  /** The order text assembled as the source does it: three joined lines,
      then each optional line appended with its own leading newline. */
  function BuildOrderText(productCode: string, quantity: int, deliverBy: Option<DateTimeOffset>,
                          instructions: Option<string>, nl: string,
                          formatDate: DateTimeOffset -> string): (t: string)
    ensures t == JoinLines(OrderLines(productCode, quantity, DeliverByText(deliverBy, formatDate), instructions), nl)
  {
    var text := OrderHeading + nl + ProductLabel + productCode + nl + QuantityLabel + IntText(quantity);
    var text := if deliverBy.Some? then text + nl + DeliverByLabel + formatDate(deliverBy.value) else text;
    var text := if !IsNullOrWhiteSpace(instructions) then text + nl + InstructionsLabel + instructions.value else text;
    OrderTextIsJoinedLines(productCode, quantity, deliverBy, instructions, nl, formatDate);
    text
  }

  lemma OrderTextIsJoinedLines(productCode: string, quantity: int, deliverBy: Option<DateTimeOffset>,
                               instructions: Option<string>, nl: string,
                               formatDate: DateTimeOffset -> string)
    ensures
      var text := OrderHeading + nl + ProductLabel + productCode + nl + QuantityLabel + IntText(quantity);
      var text := if deliverBy.Some? then text + nl + DeliverByLabel + formatDate(deliverBy.value) else text;
      var text := if !IsNullOrWhiteSpace(instructions) then text + nl + InstructionsLabel + instructions.value else text;
      text == JoinLines(OrderLines(productCode, quantity, DeliverByText(deliverBy, formatDate), instructions), nl)
  {
    var header := [OrderHeading, ProductLabel + productCode, QuantityLabel + IntText(quantity)];
    HeaderJoin(productCode, quantity, nl);
    var withDate := header + (if deliverBy.Some? then [DeliverByLabel + formatDate(deliverBy.value)] else []);
    if deliverBy.Some? {
      AppendLine(header, DeliverByLabel, formatDate(deliverBy.value), nl);
    } else {
      assert withDate == header;
    }
    if !IsNullOrWhiteSpace(instructions) {
      AppendLine(withDate, InstructionsLabel, instructions.value, nl);
    } else {
      assert withDate + [] == withDate;
    }
  }

  lemma HeaderJoin(productCode: string, quantity: int, nl: string)
    ensures JoinLines([OrderHeading, ProductLabel + productCode, QuantityLabel + IntText(quantity)], nl)
            == OrderHeading + nl + ProductLabel + productCode + nl + QuantityLabel + IntText(quantity)
  {
    var header := [OrderHeading, ProductLabel + productCode, QuantityLabel + IntText(quantity)];
    assert header[..2] == [OrderHeading, ProductLabel + productCode];
    assert header[..2][..1] == [OrderHeading];
    var two := OrderHeading + nl + (ProductLabel + productCode);
    assert JoinLines(header[..2], nl) == two;
    assert two == OrderHeading + nl + ProductLabel + productCode;
    assert two + nl + (QuantityLabel + IntText(quantity)) == two + nl + QuantityLabel + IntText(quantity);
  }

  /** `text += nl + labelled line` is joining one more line. */
  lemma AppendLine(lines: seq<string>, prefix: string, value: string, nl: string)
    requires |lines| >= 1
    ensures JoinLines(lines + [prefix + value], nl) == JoinLines(lines, nl) + nl + prefix + value
  {
    JoinSnoc(lines, prefix + value, nl);
  }

  // ---- PlaceOrder(product, quantity, deliverBy, instructions) ----

  /** `vendor.PlaceOrder(product, quantity, deliverBy, instructions)`.
      The arguments are checked in order (null product, non-positive
      quantity, a delivery date not after now); an absent delivery date
      passes the date check. The order text then goes to the e-mail
      service; a null reply makes the `StartsWith` call throw. Otherwise the
      message is the order text and the flag says whether the reply starts
      with "Message sent:". */
  function PlaceOrder(vendor: Vendor, product: Option<Product>, quantity: Int32,
                      deliverBy: Option<DateTimeOffset>, instructions: Option<string>,
                      productCode: Product -> Option<string>, now: DateTimeOffset, nl: string,
                      formatDate: DateTimeOffset -> string, send: EmailRequest -> Option<string>)
    : (r: Result<OperationResult, Exception>)
    ensures product.None? ==> r == Failure(ArgumentNull("product"))
    ensures product.Some? && quantity <= 0 ==> r == Failure(ArgumentOutOfRange("quantity"))
    ensures product.Some? && quantity > 0 && NotAfter(deliverBy, now)
            ==> r == Failure(ArgumentOutOfRange("deliverBy"))
    ensures r.Success? ==> product.Some? && quantity > 0 && !NotAfter(deliverBy, now)
    ensures product.Some? && quantity > 0 && !NotAfter(deliverBy, now) ==>
              var text := JoinLines(OrderLines(Str(productCode(product.value)), quantity,
                                               DeliverByText(deliverBy, formatDate), instructions), nl);
              var reply := send(EmailRequest(OrderSubject, Some(text), vendor.email));
              && (reply.None? ==> r == Failure(NullReference))
              && (reply.Some? ==> r.Success? && r.value.message == text
                                  && (r.value.success <==> StartsWith(reply.value, SentPrefix)))
  {
    if product.None? then Failure(ArgumentNull("product"))
    else if quantity <= 0 then Failure(ArgumentOutOfRange("quantity"))
    else if NotAfter(deliverBy, now) then Failure(ArgumentOutOfRange("deliverBy"))
    else
      var orderText := BuildOrderText(Str(productCode(product.value)), quantity, deliverBy, instructions, nl, formatDate);
      var confirmation := send(EmailRequest(OrderSubject, Some(orderText), vendor.email));
      if confirmation.None? then Failure(NullReference)
      else
        var success := StartsWith(confirmation.value, SentPrefix);
        Success(OperationResult(success, orderText))
  }

  /** Some line of `lines` starts with `prefix`. */
  predicate HasLine(lines: seq<string>, prefix: string)
  {
    exists i :: 0 <= i < |lines| && StartsWith(lines[i], prefix)
  }

  /** The shape of the order: the three fixed lines first, the delivery line
      next, the instructions last, and nothing else. */
  lemma OrderLinesShape(productCode: string, quantity: int, deliverByText: Option<string>,
                        instructions: Option<string>)
    ensures var lines := OrderLines(productCode, quantity, deliverByText, instructions);
      && |lines| == 3 + (if deliverByText.Some? then 1 else 0) + (if IsNullOrWhiteSpace(instructions) then 0 else 1)
      && lines[0] == OrderHeading
      && lines[1] == ProductLabel + productCode
      && lines[2] == QuantityLabel + IntText(quantity)
      && (deliverByText.Some? ==> lines[3] == DeliverByLabel + deliverByText.value)
      && (!IsNullOrWhiteSpace(instructions) ==> lines[|lines| - 1] == InstructionsLabel + instructions.value)
  {
  }

  /** Only the delivery line starts with 'D' and only the instructions line
      starts with 'I'. */
  lemma OnlyOptionalLinesStartWith(productCode: string, quantity: int, deliverByText: Option<string>,
                                   instructions: Option<string>, i: int)
    requires 0 <= i < |OrderLines(productCode, quantity, deliverByText, instructions)|
    ensures var lines := OrderLines(productCode, quantity, deliverByText, instructions);
      && (StartsWith(lines[i], DeliverByLabel) ==> deliverByText.Some? && i == 3)
      && (StartsWith(lines[i], InstructionsLabel) ==> !IsNullOrWhiteSpace(instructions) && i == |lines| - 1)
  {
    var lines := OrderLines(productCode, quantity, deliverByText, instructions);
    OrderLinesShape(productCode, quantity, deliverByText, instructions);
    if i == 0 {
      assert lines[i][0] == 'O';
    } else if i == 1 {
      assert lines[i][0] == 'P';
    } else if i == 2 {
      assert lines[i][0] == 'Q';
    } else if deliverByText.Some? && i == 3 {
      assert lines[i][0] == 'D';
    } else {
      assert lines[i][0] == 'I';
    }
  }

  /** A "Deliver by" line appears exactly when a delivery date is given, an
      "Instructions" line exactly when the instructions are not null or
      white space, and the first comes before the second. */
  lemma OptionalLines(productCode: string, quantity: int, deliverByText: Option<string>,
                      instructions: Option<string>)
    ensures var lines := OrderLines(productCode, quantity, deliverByText, instructions);
      && (HasLine(lines, DeliverByLabel) <==> deliverByText.Some?)
      && (HasLine(lines, InstructionsLabel) <==> !IsNullOrWhiteSpace(instructions))
      && (forall i, j :: (0 <= i < |lines| && 0 <= j < |lines| && StartsWith(lines[i], DeliverByLabel)
                          && StartsWith(lines[j], InstructionsLabel)) ==> i < j)
  {
    var lines := OrderLines(productCode, quantity, deliverByText, instructions);
    OrderLinesShape(productCode, quantity, deliverByText, instructions);
    if deliverByText.Some? {
      assert StartsWith(lines[3], DeliverByLabel);
    }
    if !IsNullOrWhiteSpace(instructions) {
      assert StartsWith(lines[|lines| - 1], InstructionsLabel);
    }
    forall i | 0 <= i < |lines|
      ensures && (StartsWith(lines[i], DeliverByLabel) ==> deliverByText.Some? && i == 3)
              && (StartsWith(lines[i], InstructionsLabel) ==> !IsNullOrWhiteSpace(instructions) && i == |lines| - 1)
    {
      OnlyOptionalLinesStartWith(productCode, quantity, deliverByText, instructions, i);
    }
  }

  /** Every order text begins with the heading, product and quantity lines. */
  lemma OrderTextHeader(productCode: string, quantity: int, deliverByText: Option<string>,
                        instructions: Option<string>, nl: string)
    ensures StartsWith(JoinLines(OrderLines(productCode, quantity, deliverByText, instructions), nl),
                       OrderHeading + nl + ProductLabel + productCode + nl + QuantityLabel + IntText(quantity))
  {
    var lines := OrderLines(productCode, quantity, deliverByText, instructions);
    assert lines[..3] == [OrderHeading, ProductLabel + productCode, QuantityLabel + IntText(quantity)];
    JoinPrefix(lines, 3, nl);
    HeaderJoin(productCode, quantity, nl);
  }

  /** The quantity can be read back from its line. */
  lemma QuantityReadBack(productCode: string, quantity: int, deliverByText: Option<string>,
                         instructions: Option<string>)
    ensures var line := OrderLines(productCode, quantity, deliverByText, instructions)[2];
      StartsWith(line, QuantityLabel) && ParseInt(line[|QuantityLabel|..]) == Some(quantity)
  {
    var line := QuantityLabel + IntText(quantity);
    assert line[|QuantityLabel|..] == IntText(quantity);
    IntTextRoundTrip(quantity);
  }

  // ---- PlaceOrder(product, quantity, includeAddress, sendCopy) ----

  const TestText := "Test"
  const AddressSuffix := " with address"
  const CopySuffix := " with copy"

  /** The options overload: no argument checks and no e-mail; always
      succeeds with "Test", then " with address", then " with copy". */
  function PlaceOrderWithOptions(product: Option<Product>, quantity: Int32,
                                 includeAddress: IncludeAddress, sendCopy: SendCopy): (r: OperationResult)
    ensures r.success
    ensures StartsWith(r.message, TestText)
    ensures |r.message| == 4 + (if includeAddress == IncludeAddress.Yes then 13 else 0)
                             + (if sendCopy == SendCopy.Yes then 10 else 0)
    ensures ParseOptions(r.message) == Some((includeAddress, sendCopy))
  {
    var text := TestText;
    var text := if includeAddress == IncludeAddress.Yes then text + AddressSuffix else text;
    var text := if sendCopy == SendCopy.Yes then text + CopySuffix else text;
    OptionsRoundTrip(includeAddress, sendCopy);
    OperationResult(true, text)
  }

  /** Reads the two options back from an options-overload message; None when
      the text is not one. */
  function ParseOptions(text: string): Option<(IncludeAddress, SendCopy)>
  {
    if !StartsWith(text, TestText) then None
    else
      var rest := text[|TestText|..];
      var address := if StartsWith(rest, AddressSuffix) then IncludeAddress.Yes else IncludeAddress.No;
      var rest := if address == IncludeAddress.Yes then rest[|AddressSuffix|..] else rest;
      var copy := if StartsWith(rest, CopySuffix) then SendCopy.Yes else SendCopy.No;
      var rest := if copy == SendCopy.Yes then rest[|CopySuffix|..] else rest;
      if rest == [] then Some((address, copy)) else None
  }

  lemma OptionsRoundTrip(includeAddress: IncludeAddress, sendCopy: SendCopy)
    ensures
      var text := TestText;
      var text := if includeAddress == IncludeAddress.Yes then text + AddressSuffix else text;
      var text := if sendCopy == SendCopy.Yes then text + CopySuffix else text;
      ParseOptions(text) == Some((includeAddress, sendCopy))
  {
    var t0 := TestText;
    var t1 := if includeAddress == IncludeAddress.Yes then t0 + AddressSuffix else t0;
    var t := if sendCopy == SendCopy.Yes then t1 + CopySuffix else t1;
    var rest := t[|TestText|..];
    assert rest == (if includeAddress == IncludeAddress.Yes then AddressSuffix else "")
                   + (if sendCopy == SendCopy.Yes then CopySuffix else "");
    assert !StartsWith(CopySuffix, AddressSuffix) by { assert CopySuffix[6] != AddressSuffix[6]; }
  }

  /** Different options give different messages. */
  lemma OptionsMessageInjective(a1: IncludeAddress, c1: SendCopy, a2: IncludeAddress, c2: SendCopy,
                                p: Option<Product>, q: Int32)
    requires PlaceOrderWithOptions(p, q, a1, c1).message == PlaceOrderWithOptions(p, q, a2, c2).message
    ensures a1 == a2 && c1 == c2
  {
  }

  // ---- the orders the tests place ----

  const CrLf := "\r\n"
  const DefaultOrderText := "Order from Acme, Inc.\r\nProduct: Tools-1\r\nQuantity: 12\r\nInstructions: standard delivery"

  lemma DefaultOrderTextPieces()
    ensures JoinLines([OrderHeading, ProductLabel + "Tools-1", QuantityLabel + "12",
                       InstructionsLabel + "standard delivery"], CrLf) == DefaultOrderText
  {
    var lines := [OrderHeading, ProductLabel + "Tools-1", QuantityLabel + "12", InstructionsLabel + "standard delivery"];
    assert lines == [OrderHeading, ProductLabel + "Tools-1", QuantityLabel + "12"] + [InstructionsLabel + "standard delivery"];
    TwelveText();
    HeaderJoin("Tools-1", 12, CrLf);
    AppendLine([OrderHeading, ProductLabel + "Tools-1", QuantityLabel + "12"], InstructionsLabel, "standard delivery", CrLf);
    DefaultOrderTextLiteral();
  }

  lemma TwelveText()
    ensures IntText(12) == "12"
  {
    assert NatText(12) == NatText(1) + [DigitChar(2)];
  }

  lemma DefaultOrderTextLiteral()
    ensures OrderHeading + CrLf + ProductLabel + "Tools-1" + CrLf + QuantityLabel + "12"
            + CrLf + InstructionsLabel + "standard delivery" == DefaultOrderText
  {
    LiteralProductLine();
    LiteralQuantityLine();
    LiteralInstructionsLine();
  }

  lemma LiteralProductLine()
    ensures OrderHeading + CrLf + ProductLabel + "Tools-1" == "Order from Acme, Inc.\r\nProduct: Tools-1"
  {
  }

  lemma LiteralQuantityLine()
    ensures "Order from Acme, Inc.\r\nProduct: Tools-1" + CrLf + QuantityLabel + "12"
            == "Order from Acme, Inc.\r\nProduct: Tools-1\r\nQuantity: 12"
  {
  }

  lemma LiteralInstructionsLine()
    ensures "Order from Acme, Inc.\r\nProduct: Tools-1\r\nQuantity: 12" + CrLf + InstructionsLabel + "standard delivery"
            == DefaultOrderText
  {
  }

  /** A twelve-item order with no date and the default instructions, sent by
      a service that confirms, succeeds with the expected text; a null
      product is rejected. */
  lemma PlaceOrderExamples(vendor: Vendor, saw: Product, productCode: Product -> Option<string>,
                           now: DateTimeOffset, formatDate: DateTimeOffset -> string,
                           send: EmailRequest -> Option<string>)
    requires productCode(saw) == Some("Tools-1")
    requires send(EmailRequest(OrderSubject, Some(DefaultOrderText), vendor.email)).Some?
    requires StartsWith(send(EmailRequest(OrderSubject, Some(DefaultOrderText), vendor.email)).value, SentPrefix)
    ensures PlaceOrder(vendor, Some(saw), 12, None, DefaultInstructions, productCode, now, CrLf, formatDate, send)
            == Success(OperationResult(true, DefaultOrderText))
    ensures PlaceOrder(vendor, None, 12, None, DefaultInstructions, productCode, now, CrLf, formatDate, send)
            == Failure(ArgumentNull("product"))
  {
    TwelveText();
    assert !IsNullOrWhiteSpace(DefaultInstructions) by {
      assert !IsWhiteSpace(DefaultInstructions.value[0]);
    }
    var lines := OrderLines("Tools-1", 12, None, DefaultInstructions);
    assert lines == [OrderHeading, ProductLabel + "Tools-1", QuantityLabel + "12",
                     InstructionsLabel + "standard delivery"];
    DefaultOrderTextPieces();
  }

  /** The options overload with an address and no copy. */
  lemma PlaceOrderWithOptionsExample(p: Option<Product>)
    ensures PlaceOrderWithOptions(p, 12, IncludeAddress.Yes, SendCopy.No) == OperationResult(true, "Test with address")
  {
  }
}
