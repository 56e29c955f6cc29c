# Acme.Biz ordering rules in Dafny

This project models the business layer of the Acme sample (`Acme.Biz`):
placing an order with a `Vendor`, constructing and editing a `Product`, and
the hard-coded `VendorRepository`. Everything is pure functions over
immutable datatypes. Where the C# code mutates an object, the model returns
the new state.

| file | module | models |
|---|---|---|
| `common.dfy` | `Common` | null references (`Option`), thrown exceptions (`Result`, `Exception`), `int` as `Int32`, `DateTime`, `DateTimeOffset`, Acme.Common's `OperationResult` and the arguments of `EmailService.SendMessage` |
| `strings.dfy` | `Strings` | the .NET string behaviour the core relies on: `+` with null, `Char.IsWhiteSpace`, `Trim`/`TrimStart`/`TrimEnd`, `IsNullOrWhiteSpace`, `StartsWith`, and `int.ToString()` with a parser that reads it back |
| `vendors.dfy` | `Vendors` | `Vendor` with its two option enums, and the welcome e-mail subject |
| `products.dfy` | `Products` | `Product`: both constructors, the read-only `MinimumPrice`, the property setters, the lazy `ProductVendor` getter, `SayHello` |
| `orders.dfy` | `Orders` | both `Vendor.PlaceOrder` overloads. They live in their own module because `Product` holds a `Vendor`, so `Vendors` cannot import `Products` |
| `repository.dfy` | `Repository` | `VendorRepository`: `Retrieve(id)`, the cached `Retrieve()`, `RetrieveWithKeys()`, `Save`, `RetrieveValue<T>` |

Some inputs come from outside the core. Each one is a parameter:

- The e-mail service is a function `EmailRequest -> Option<string>` that returns the confirmation text, which may be null.
- `DateTimeOffset.Now` is a `now` value.
- `Environment.NewLine` is an `nl` string.
- Culture-dependent date formatting (`ToString("d")`, `ToShortDateString()`) is a formatting function.
- `Product.ProductCode` is a function `Product -> Option<string>`. `PlaceOrder` reads this property, but Product.cs does not define it.

Decimal prices are counted in hundredths: 0.96m is 96 and 9.99m is 999.

Some behaviour of the code is easy to misread; the model follows the code:

- Product.cs has no name trimming, no length check, no validation message and no `Category`, `SequenceNumber`, `ProductCode`, `Cost` or `CalculateSuggestedPrice`. Its setters store values verbatim.
- Vendor.cs does not override `Equals`, so no contract here states vendor equality as source behaviour.
- The comparison `deliverBy <= DateTimeOffset.Now` is false for a null date, so an order without a date always passes this check (`Common.NotAfter`).
- The three-argument constructor calls `StartsWith` on the name. A null name therefore throws `NullReferenceException`, which `Products.NewNamedProduct` models as `Failure(NullReference)`.

## Model

| member | source | states |
|---|---|---|
| `Strings.Trim` | AcmeApp/Acme.Biz/Vendor.cs:35 | the trimmed text is a slice of the input with only white space before and after it; it is empty exactly when the input is all white space, and otherwise it starts and ends with a non-white-space character |
| `Strings.TrimEndAppend` | AcmeApp/Acme.Biz/Vendor.cs:35 | trailing white space is removed only from the end: appending text that holds a non-white-space character protects the left part, and appending only white space is trimmed away |
| `Strings.NullOrWhiteSpaceIsEmptyTrim` | AcmeApp/Acme.Biz/Vendor.cs:69 | a non-null string is "null or white space" exactly when trimming leaves nothing |
| `Strings.IntTextRoundTrip` | AcmeApp/Acme.Biz/Vendor.cs:62 | the decimal text an `int` is rendered with reads back as the same integer |
| `Strings.IntTextInjective` | AcmeApp/Acme.Biz/Product.cs:108 | distinct integers render as distinct texts |
| `Vendors.WelcomeSubject` | AcmeApp/Acme.Biz/Vendor.cs:35 | the welcome subject is "Hello" when the company name is null, empty or white space. Otherwise it is "Hello " plus the name with its trailing white space dropped and its leading white space kept |
| `Vendors.SendWelcomeEmail` | AcmeApp/Acme.Biz/Vendor.cs:32-40 | the e-mail goes to the vendor's address with the message as given and the welcome subject ("Hello" for a null or blank name, otherwise "Hello " plus the name without trailing white space); the method returns the service's reply to exactly that request |
| `Vendors.WelcomeSubjectExamples` | AcmeApp/Tests/Acme.BizTests/VendorTests.cs:16-59 | "ABC Corp" gives "Hello ABC Corp"; an empty or null name gives "Hello" |
| `Products.NewProduct` | AcmeApp/Acme.Biz/Product.cs:20-25 | the default constructor leaves every property at its default and sets the minimum price to 0.96 |
| `Products.NewNamedProduct` | AcmeApp/Acme.Biz/Product.cs:27-40 | fails with a null reference exactly when the name is null. Otherwise it stores id, name and description as given, and the minimum price is 9.99 when the name starts with "Bulk" and 0.96 when it does not |
| `Products.SetProductName` | AcmeApp/Acme.Biz/Product.cs:44-50 | the name is stored verbatim; every other field, the minimum price included, is unchanged |
| `Products.SetDescription` | AcmeApp/Acme.Biz/Product.cs:52-58 | the description is stored verbatim; every other field is unchanged |
| `Products.SetProductId` | AcmeApp/Acme.Biz/Product.cs:60-66 | the id is stored verbatim; every other field is unchanged |
| `Products.SetProductVendor` | AcmeApp/Acme.Biz/Product.cs:80 | the vendor (possibly null) is stored verbatim; every other field is unchanged |
| `Products.SetAvailabilityDate` | AcmeApp/Acme.Biz/Product.cs:83-89 | the date (possibly null) is stored verbatim; every other field is unchanged |
| `Products.GetProductVendor` | AcmeApp/Acme.Biz/Product.cs:72-79 | the getter returns the stored vendor, creating a default one only when the field is null. The product changes exactly when the field was null, and then only in that field |
| `Products.ProductVendorStable` | AcmeApp/Acme.Biz/Product.cs:72-79 | once read, later reads return the same vendor and leave the product unchanged |
| `Products.PropertyRoundTrips` | AcmeApp/Acme.Biz/Product.cs:44-89 | writing back a value the getter returned changes nothing (the vendor through its lazy getter), and for every property a second write of any value overrides a first write of any value |
| `Products.MinimumPriceReadOnly` | AcmeApp/Acme.Biz/Product.cs:17 | no sequence of property reads and writes after construction changes the minimum price |
| `Products.SayHello` | AcmeApp/Acme.Biz/Product.cs:107-111 | the greeting is exactly "Hello name (id): " followed by the description, " Available on: " and the short date (empty when there is no date), with nothing in between. Null strings read as empty |
| `Products.SayHelloReadsOnlyItsFields` | AcmeApp/Acme.Biz/Product.cs:94-111 | the greeting depends only on id, name, description and date, not on the vendor or the minimum price |
| `Products.SayHelloExamples` | AcmeApp/Tests/Acme.BizTests/ProductTests.cs:16-71 | the "Saw" product gives "Hello Saw (1): 15-inch steel blade hand saw Available on: ", whether built through the setters or through the constructor |
| `Products.MinimumPriceExamples` | AcmeApp/Tests/Acme.BizTests/ProductTests.cs:108-134 | the default product has minimum price 0.96; "Bulk Tools" has minimum price 9.99 |
| `Orders.BuildOrderText` | AcmeApp/Acme.Biz/Vendor.cs:60-73 | the text built by appending is exactly the order's lines joined by the newline string |
| `Orders.PlaceOrder` | AcmeApp/Acme.Biz/Vendor.cs:50-84 | the checks run in order: a null product gives an argument-null error, then a quantity ≤ 0 gives an out-of-range error, then a delivery date that is given and is not later than now gives an out-of-range error. When all three pass, the joined order lines are sent as the "New Order" e-mail to the vendor's address. A null reply from the service gives a null-reference error. Otherwise the order succeeds with the joined lines as its message, and the flag is true exactly when the reply starts with "Message sent:" |
| `Orders.OrderLinesShape` | AcmeApp/Acme.Biz/Vendor.cs:60-73 | the order has three fixed lines (heading, product, quantity), then the delivery line if a date is given, then the instructions line last if the instructions are not blank |
| `Orders.OptionalLines` | AcmeApp/Acme.Biz/Vendor.cs:63-73 | a "Deliver by: " line exists exactly when a date is given. An "Instructions: " line exists exactly when the instructions are not null or white space. The first always precedes the second |
| `Orders.OrderTextHeader` | AcmeApp/Acme.Biz/Vendor.cs:60-62 | every order text starts with "Order from Acme, Inc.", NL, "Product: " + code, NL, "Quantity: " + quantity |
| `Orders.QuantityReadBack` | AcmeApp/Acme.Biz/Vendor.cs:62 | the quantity line parses back to the ordered quantity |
| `Orders.PlaceOrderExamples` | AcmeApp/Tests/Acme.BizTests/VendorTests.cs:63-93 | 12 "Tools-1" items with no date and the default instructions, confirmed by the service, succeed with the expected four-line text; a null product is rejected with an argument-null error |
| `Orders.PlaceOrderWithOptions` | AcmeApp/Acme.Biz/Vendor.cs:94-102 | the options overload always succeeds, does not check its arguments, and its text starts with "Test". The length grows by the address and copy suffixes, and both options can be read back from the text |
| `Orders.OptionsMessageInjective` | AcmeApp/Acme.Biz/Vendor.cs:97-99 | different option pairs give different texts |
| `Orders.PlaceOrderWithOptionsExample` | AcmeApp/Tests/Acme.BizTests/VendorTests.cs:136-152 | address yes and copy no give "Test with address" |
| `Repository.RetrieveById` | AcmeApp/Acme.Biz/VendorRepository.cs:17-32 | id 1 gives (1, "ABC Corp", "abc@abc.com"); any other id gives a default vendor with id 0 and null name and e-mail |
| `Repository.RetrieveByIdEchoesId` | AcmeApp/Acme.Biz/VendorRepository.cs:20-31 | the vendor returned carries the requested id exactly when the id is 0 or 1 |
| `Repository.RetrieveByIdAgreesWithList` | AcmeApp/Acme.Biz/VendorRepository.cs:25-42 | the single lookup for id 1 has the same id, company name and e-mail as the first vendor of the cached list |
| `Repository.Retrieve` | AcmeApp/Acme.Biz/VendorRepository.cs:34-47 | the list is built only when the cache is null. A cached list is returned unchanged and the state is untouched. From any reachable state the result is the approved list and the state stays reachable |
| `Repository.ApprovedVendorsContents` | AcmeApp/Acme.Biz/VendorRepository.cs:38-42 | the list is exactly (1, "ABC Corp", "abc@abc.com") then (2, "XYZ Corp", "xyz@xyz.com") |
| `Repository.RetrieveIsStable` | AcmeApp/Acme.Biz/VendorRepository.cs:36-46 | any number of successive calls each return the approved list, and after the first call the cache holds it for good |
| `Repository.RetrieveWithKeys` | AcmeApp/Acme.Biz/VendorRepository.cs:55-61 | the keys are exactly "ABC Corp" and "XYZ Corp". Each key equals its vendor's company name, with ids 5 and 8 and the matching e-mails |
| `Repository.KeyedVendorsMatchList` | AcmeApp/Acme.Biz/VendorRepository.cs:38-61 | every listed vendor's company name is a key of the keyed map, with the same e-mail and a different id |
| `Repository.Save` | AcmeApp/Acme.Biz/VendorRepository.cs:73-80 | saving any vendor, a null one included, reports success and changes no repository state |
| `Repository.RetrieveValue` | AcmeApp/Acme.Biz/VendorRepository.cs:82-88 | the default value is returned for every query, a null one included |
| `Repository.RetrieveValueIgnoresQuery` | AcmeApp/Acme.Biz/VendorRepository.cs:82-88 | any two queries, null or not, with the same default give the same value |

## Left out

- E-mail and logging services: `EmailService` and `LoggingService` belong to Acme.Common, which is not part of this model. The order and welcome requests are modelled; the service's reply, possibly null, is a parameter.
- `SayHello` side calls: its `SendMessage` and `LogAction` calls (Product.cs:100-105) are not modelled, because their results are unused.
- Console output: `Console.WriteLine` is I/O.
- `InchesPerMeter`: it is a `double` constant, i.e. floating point.
- Clock and culture: the clock, `Environment.NewLine` and culture-dependent date formatting are parameters. The test at VendorTests.cs:96-113 depends on the real clock and culture and is not mirrored.
- `Strings.StartsWith`: the comparison is ordinal. .NET's `StartsWith(string)` compares by the current culture; for the fixed ASCII prefixes "Bulk" and "Message sent:" the model assumes the ordinal answer.
- `Strings.IntText`: renders a negative number with '-'. The culture's negative sign is not modelled.
- Object identity: references are not modelled. "The same instance" is modelled as the same value with the state unchanged.
- Aliasing: a caller that changes the `List<Vendor>` returned by `Retrieve()`, or the `Vendor` returned by `ProductVendor` (as ProductTests.cs:23 does), also changes the cached object. Values here cannot express that.
- Members only the tests use: name trimming and length checks, `ValidationMessage`, `Category`, `SequenceNumber`, `ProductCode`, `Cost`, `CalculateSuggestedPrice` (ProductTests.cs:139-300). Product.cs does not contain them.
- `RetrieveWithKeys` order: the enumeration order of the dictionary only affects console output.
- `Vendor` equality: Vendor.cs does not override `Equals`. The collection comparisons in VendorRepositoryTests.cs:76,97 therefore compare references, which this value model cannot express.
- Orders.PlaceOrderWithOptions: undeclared enum values are not modelled. C# enums are `int`-backed, so a cast integer such as `(IncludeAddress)2` is a legal argument, and Vendor.cs:98-99 treats it like `No`. `IncludeAddress` and `SendCopy` here have only their two declared members.
- Orders.OptionsMessageInjective: holds for the declared enum members only. An undeclared value (a cast integer) gives the same text as `No` in the source.
- UTF-16 code units: a Dafny `char` is a Unicode scalar value, while a C# `char` is a UTF-16 code unit. Strings holding lone surrogates cannot be represented, and text with characters outside the Basic Multilingual Plane has a different length. No modelled behaviour depends on this: every white-space character and every fixed prefix is in the Basic Multilingual Plane.
