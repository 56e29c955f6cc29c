/** The `Product` class of Product.cs: two constructors, a read-only minimum
    price, plain read/write properties, a lazily created vendor and the
    `SayHello` greeting. */
module Products {
  import opened Common
  import opened Strings
  import opened Vendors

  /** A product's state. `minimumPrice` is the C# `decimal` counted in
      hundredths (0.96m is 96); it is set only by the constructors. */
  datatype Product = Product(
    productId: Int32,
    productName: Option<string>,
    description: Option<string>,
    productVendor: Option<Vendor>,
    availabilityDate: Option<DateTime>,
    minimumPrice: int)

  const DefaultMinimumPrice: int := 96
  const BulkMinimumPrice: int := 999

  /** The writable properties. */
  datatype Field = ProductIdField | ProductNameField | DescriptionField | ProductVendorField | AvailabilityDateField

  /** `p` and `q` agree on every field except possibly `f`; the minimum
      price is never exempt. */
  predicate AgreeExcept(p: Product, q: Product, f: Field)
  {
    && (f != ProductIdField ==> p.productId == q.productId)
    && (f != ProductNameField ==> p.productName == q.productName)
    && (f != DescriptionField ==> p.description == q.description)
    && (f != ProductVendorField ==> p.productVendor == q.productVendor)
    && (f != AvailabilityDateField ==> p.availabilityDate == q.availabilityDate)
    && p.minimumPrice == q.minimumPrice
  }

  // ---- constructors ----

  /** `new Product()`: every field at its default, minimum price 0.96. */
  function NewProduct(): (p: Product)
    ensures p.minimumPrice == DefaultMinimumPrice
    ensures p.productId == 0 && p.productName.None? && p.description.None?
    ensures p.productVendor.None? && p.availabilityDate.None?
  {
    Product(0, None, None, None, None, DefaultMinimumPrice)
  }

  /** `new Product(productId, productName, description)`: runs `this()`,
      stores the three arguments through their setters and raises the
      minimum price to 9.99 when the name starts with "Bulk". A null name
      makes the `StartsWith` call throw. */
  function NewNamedProduct(productId: Int32, productName: Option<string>, description: Option<string>)
    : (r: Result<Product, Exception>)
    ensures r.Failure? <==> productName.None?
    ensures r.Failure? ==> r.error == NullReference
    ensures r.Success? ==> && r.value.productId == productId
                           && r.value.productName == productName
                           && r.value.description == description
                           && r.value.productVendor.None?
                           && r.value.availabilityDate.None?
    ensures r.Success? ==> (r.value.minimumPrice == BulkMinimumPrice <==> StartsWith(productName.value, "Bulk"))
    ensures r.Success? ==> (r.value.minimumPrice == DefaultMinimumPrice <==> !StartsWith(productName.value, "Bulk"))
  {
    var p := SetDescription(SetProductName(SetProductId(NewProduct(), productId), productName), description);
    if productName.None? then Failure(NullReference)
    else if StartsWith(productName.value, "Bulk") then Success(p.(minimumPrice := BulkMinimumPrice))
    else Success(p)
  }

  // ---- properties ----

  function SetProductId(p: Product, value: Int32): (r: Product)
    ensures r.productId == value && AgreeExcept(p, r, ProductIdField)
  {
    p.(productId := value)
  }

  function SetProductName(p: Product, value: Option<string>): (r: Product)
    ensures r.productName == value && AgreeExcept(p, r, ProductNameField)
  {
    p.(productName := value)
  }

  function SetDescription(p: Product, value: Option<string>): (r: Product)
    ensures r.description == value && AgreeExcept(p, r, DescriptionField)
  {
    p.(description := value)
  }

  function SetProductVendor(p: Product, value: Option<Vendor>): (r: Product)
    ensures r.productVendor == value && AgreeExcept(p, r, ProductVendorField)
  {
    p.(productVendor := value)
  }

  function SetAvailabilityDate(p: Product, value: Option<DateTime>): (r: Product)
    ensures r.availabilityDate == value && AgreeExcept(p, r, AvailabilityDateField)
  {
    p.(availabilityDate := value)
  }

  /** The `ProductVendor` getter: creates a default vendor only when the
      field is null, and returns the vendor now stored together with the
      product state after the read. */
  function GetProductVendor(p: Product): (r: (Vendor, Product))
    ensures r.1.productVendor == Some(r.0)
    ensures AgreeExcept(p, r.1, ProductVendorField)
    ensures p.productVendor.Some? ==> r.0 == p.productVendor.value
    ensures p.productVendor.None? ==> r.0 == DefaultVendor
    ensures r.1 == p <==> p.productVendor.Some?
  {
    var q := if p.productVendor.None? then SetProductVendor(p, Some(DefaultVendor)) else p;
    (q.productVendor.value, q)
  }

  /** The setters store verbatim: writing back what the getter returned
      changes nothing, and a second write overrides the first. The vendor is
      read through its lazy getter, which never returns null. */
  lemma PropertyRoundTrips(p: Product,
                           id0: Int32, name0: Option<string>, description0: Option<string>,
                           vendor0: Option<Vendor>, date0: Option<DateTime>,
                           id: Int32, name: Option<string>, description: Option<string>,
                           vendor: Option<Vendor>, date: Option<DateTime>)
    ensures SetProductId(p, p.productId) == p
    ensures SetProductName(p, p.productName) == p
    ensures SetDescription(p, p.description) == p
    ensures var (v, q) := GetProductVendor(p); SetProductVendor(q, Some(v)) == q
    ensures SetAvailabilityDate(p, p.availabilityDate) == p
    ensures SetProductId(SetProductId(p, id0), id) == SetProductId(p, id)
    ensures SetProductName(SetProductName(p, name0), name) == SetProductName(p, name)
    ensures SetDescription(SetDescription(p, description0), description) == SetDescription(p, description)
    ensures SetProductVendor(SetProductVendor(p, vendor0), vendor) == SetProductVendor(p, vendor)
    ensures SetAvailabilityDate(SetAvailabilityDate(p, date0), date) == SetAvailabilityDate(p, date)
  {
  }

  /** Once the vendor has been read, every later read returns the same
      vendor and leaves the product as it is. */
  lemma ProductVendorStable(p: Product)
    ensures GetProductVendor(GetProductVendor(p).1) == GetProductVendor(p)
  {
  }

  // ---- the read-only minimum price ----

  /** Everything a caller can do to a product after construction. */
  datatype PropertyAccess =
    | WriteProductId(id: Int32)
    | WriteProductName(name: Option<string>)
    | WriteDescription(description: Option<string>)
    | WriteProductVendor(vendor: Option<Vendor>)
    | WriteAvailabilityDate(date: Option<DateTime>)
    | ReadProductVendor

  function Apply(p: Product, a: PropertyAccess): Product
  {
    match a
    case WriteProductId(id) => SetProductId(p, id)
    case WriteProductName(name) => SetProductName(p, name)
    case WriteDescription(d) => SetDescription(p, d)
    case WriteProductVendor(v) => SetProductVendor(p, v)
    case WriteAvailabilityDate(d) => SetAvailabilityDate(p, d)
    case ReadProductVendor => GetProductVendor(p).1
  }

  function ApplyAll(p: Product, accesses: seq<PropertyAccess>): Product
    decreases |accesses|
  {
    if |accesses| == 0 then p else ApplyAll(Apply(p, accesses[0]), accesses[1..])
  }

  /** `MinimumPrice` is read-only: no sequence of property reads and writes
      changes it. */
  lemma {:induction false} MinimumPriceReadOnly(p: Product, accesses: seq<PropertyAccess>)
    ensures ApplyAll(p, accesses).minimumPrice == p.minimumPrice
    decreases |accesses|
  {
    if |accesses| > 0 {
      MinimumPriceReadOnly(Apply(p, accesses[0]), accesses[1..]);
    }
  }

  // ---- SayHello ----

  /** The text `AvailabilityDate?.ToShortDateString()` contributes: the
      culture's short date, or nothing when there is no date. */
  function AvailabilityText(p: Product, shortDate: DateTime -> string): string
  {
    if p.availabilityDate.Some? then shortDate(p.availabilityDate.value) else ""
  }

  /** The greeting `SayHello` returns: name and id first, then the
      description, then the availability date (null strings read as empty),
      with nothing in between. */
  function SayHello(p: Product, shortDate: DateTime -> string): (r: string)
    ensures StartsWith(r, "Hello " + Str(p.productName) + " (" + IntText(p.productId) + "): ")
    ensures EndsWith(r, Str(p.description) + " Available on: " + AvailabilityText(p, shortDate))
    ensures |r| == |"Hello " + Str(p.productName) + " (" + IntText(p.productId) + "): "|
                   + |Str(p.description) + " Available on: " + AvailabilityText(p, shortDate)|
  {
    var head := "Hello " + Str(p.productName) + " (" + IntText(p.productId) + "): ";
    var tail := Str(p.description) + " Available on: " + AvailabilityText(p, shortDate);
    var r := "Hello " + Str(p.productName) + " (" + IntText(p.productId) + "): "
             + Str(p.description) + " Available on: " + AvailabilityText(p, shortDate);
    assert r == head + tail;
    r
  }

  /** The greeting reads only the id, the name, the description and the
      date: the vendor and the minimum price do not affect it. */
  lemma SayHelloReadsOnlyItsFields(p: Product, q: Product, shortDate: DateTime -> string)
    requires p.productId == q.productId && p.productName == q.productName
    requires p.description == q.description && p.availabilityDate == q.availabilityDate
    ensures SayHello(p, shortDate) == SayHello(q, shortDate)
  {
  }

  const SawDescription := "15-inch steel blade hand saw"
  const SawGreeting := "Hello Saw (1): 15-inch steel blade hand saw Available on: "

  lemma SawGreetingPieces()
    ensures "Hello " + "Saw" + " (" + "1" + "): " + SawDescription + " Available on: " + "" == SawGreeting
  {
    var head := "Hello " + "Saw" + " (" + "1" + "): ";
    assert head == "Hello Saw (1): ";
    assert head + SawDescription == "Hello Saw (1): 15-inch steel blade hand saw";
  }

  /** The greeting for the "Saw" product built through the property setters
      and through the three-argument constructor. */
  lemma SayHelloExamples(shortDate: DateTime -> string)
    ensures SayHello(SetDescription(SetProductId(SetProductName(NewProduct(), Some("Saw")), 1),
                                    Some(SawDescription)), shortDate) == SawGreeting
    ensures NewNamedProduct(1, Some("Saw"), Some(SawDescription)).Success?
    ensures SayHello(NewNamedProduct(1, Some("Saw"), Some(SawDescription)).value, shortDate) == SawGreeting
  {
    var p := SetDescription(SetProductId(SetProductName(NewProduct(), Some("Saw")), 1), Some(SawDescription));
    assert p == Product(1, Some("Saw"), Some(SawDescription), None, None, DefaultMinimumPrice);
    SawGreetingPieces();
    assert IntText(1) == "1";
    assert SayHello(p, shortDate) == SawGreeting;
    assert !StartsWith("Saw", "Bulk");
    assert NewNamedProduct(1, Some("Saw"), Some(SawDescription)) == Success(p);
  }

  /** The minimum prices the tests expect. */
  lemma MinimumPriceExamples()
    ensures NewProduct().minimumPrice == 96
    ensures NewNamedProduct(1, Some("Bulk Tools"), Some("")).Success?
    ensures NewNamedProduct(1, Some("Bulk Tools"), Some("")).value.minimumPrice == 999
  {
    assert StartsWith("Bulk Tools", "Bulk");
  }
}
