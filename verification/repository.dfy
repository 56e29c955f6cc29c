/** `VendorRepository` of VendorRepository.cs: hard-coded lookups standing in
    for a database, a list cached on first use, and two stubs. */
module Repository {
  import opened Common
  import opened Vendors

  /** The repository's only state: the cached vendor list, null until the
      first `Retrieve()`. */
  datatype Repository = Repository(vendors: Option<seq<Vendor>>)

  /** `new VendorRepository()`. */
  const NewRepository := Repository(None)

  const AbcCorp := Vendor(1, Some("ABC Corp"), Some("abc@abc.com"))
  const XyzCorp := Vendor(2, Some("XYZ Corp"), Some("xyz@xyz.com"))

  /** The list `Retrieve()` builds on its first call. */
  const ApprovedVendors: seq<Vendor> := [AbcCorp, XyzCorp]

  /** The states a repository can reach: the cache is either not yet built
      or holds the approved list. */
  predicate Valid(repo: Repository)
  {
    repo.vendors.None? || repo.vendors.value == ApprovedVendors
  }

  /** `Retrieve(vendorId)`: the ABC Corp record for id 1, otherwise a
      default vendor. */
  function RetrieveById(vendorId: Int32): (v: Vendor)
    ensures vendorId == 1 ==> v.vendorId == 1 && v.companyName == Some("ABC Corp") && v.email == Some("abc@abc.com")
    ensures vendorId != 1 ==> v.vendorId == 0 && v.companyName.None? && v.email.None?
  {
    var vendor := DefaultVendor;
    if vendorId == 1 then vendor.(vendorId := 1, companyName := Some("ABC Corp"), email := Some("abc@abc.com"))
    else vendor
  }

  /** The vendor found carries the requested id only for ids 0 and 1. */
  lemma RetrieveByIdEchoesId(vendorId: Int32)
    ensures RetrieveById(vendorId).vendorId == vendorId <==> vendorId == 0 || vendorId == 1
  {
  }

  /** The single lookup for id 1 agrees with the first entry of the list. */
  lemma RetrieveByIdAgreesWithList()
    ensures RetrieveById(1) == ApprovedVendors[0]
  {
  }

  /** `Retrieve()`: builds the list only when the cache is null and returns
      the cached list, together with the repository after the call. */
  function Retrieve(repo: Repository): (r: (seq<Vendor>, Repository))
    ensures r.1.vendors == Some(r.0)
    ensures repo.vendors.Some? ==> r.0 == repo.vendors.value && r.1 == repo
    ensures repo.vendors.None? ==> r.0 == ApprovedVendors
    ensures Valid(repo) ==> Valid(r.1) && r.0 == ApprovedVendors
  {
    var repo := if repo.vendors.None? then Repository(Some(ApprovedVendors)) else repo;
    (repo.vendors.value, repo)
  }

  /** The two approved vendors, in order. */
  lemma ApprovedVendorsContents()
    ensures |ApprovedVendors| == 2
    ensures ApprovedVendors[0].vendorId == 1 && ApprovedVendors[0].companyName == Some("ABC Corp")
    ensures ApprovedVendors[0].email == Some("abc@abc.com")
    ensures ApprovedVendors[1].vendorId == 2 && ApprovedVendors[1].companyName == Some("XYZ Corp")
    ensures ApprovedVendors[1].email == Some("xyz@xyz.com")
  {
  }

  /** The lists returned by `n` successive `Retrieve()` calls, and the
      repository after them. */
  function RetrieveTimes(repo: Repository, n: nat): (seq<seq<Vendor>>, Repository)
    decreases n
  {
    if n == 0 then ([], repo)
    else
      var (first, repo') := Retrieve(repo);
      var (rest, final) := RetrieveTimes(repo', n - 1);
      ([first] + rest, final)
  }

  /** However many times `Retrieve()` is called on a fresh repository, every
      call returns the approved list, and after the first call the cache is
      never rebuilt. */
  lemma {:induction false} RetrieveIsStable(repo: Repository, n: nat)
    requires Valid(repo)
    ensures |RetrieveTimes(repo, n).0| == n
    ensures forall k :: 0 <= k < n ==> RetrieveTimes(repo, n).0[k] == ApprovedVendors
    ensures n > 0 ==> RetrieveTimes(repo, n).1 == Repository(Some(ApprovedVendors))
    ensures n == 0 ==> RetrieveTimes(repo, n).1 == repo
    decreases n
  {
    if n > 0 {
      var (first, repo') := Retrieve(repo);
      RetrieveIsStable(repo', n - 1);
      var (rest, final) := RetrieveTimes(repo', n - 1);
      assert RetrieveTimes(repo, n).0 == [first] + rest;
    }
  }

  /** `RetrieveWithKeys()`: a fresh map from company name to vendor. */
  function RetrieveWithKeys(): (m: map<string, Vendor>)
    ensures m.Keys == {"ABC Corp", "XYZ Corp"}
    ensures forall k :: k in m ==> m[k].companyName == Some(k)
    ensures m["ABC Corp"].vendorId == 5 && m["ABC Corp"].email == Some("abc@abc.com")
    ensures m["XYZ Corp"].vendorId == 8 && m["XYZ Corp"].email == Some("xyz@xyz.com")
  {
    map["ABC Corp" := Vendor(5, Some("ABC Corp"), Some("abc@abc.com")),
        "XYZ Corp" := Vendor(8, Some("XYZ Corp"), Some("xyz@xyz.com"))]
  }

  /** The keyed vendors are the listed ones under other ids: same company
      names and e-mail addresses, ids 5 and 8 instead of 1 and 2. */
  lemma KeyedVendorsMatchList()
    ensures forall i :: 0 <= i < |ApprovedVendors| ==>
      var v := ApprovedVendors[i];
      && v.companyName.Some? && v.companyName.value in RetrieveWithKeys()
      && RetrieveWithKeys()[v.companyName.value].email == v.email
      && RetrieveWithKeys()[v.companyName.value].vendorId != v.vendorId
  {
  }

  /** `Save(vendor)`: reports success and changes nothing, even for a null
      vendor. */
  function Save(repo: Repository, vendor: Option<Vendor>): (r: (bool, Repository))
    ensures r.0 && r.1 == repo
  {
    var success := true;
    (success, repo)
  }

  /** `RetrieveValue<T>(sql, defaultValue)`: returns the default whatever
      the query, a null one included. */
  function RetrieveValue<T>(sql: Option<string>, defaultValue: T): (r: T)
    ensures r == defaultValue
  {
    var value := defaultValue;
    value
  }

  /** The query text has no effect on `RetrieveValue`. */
  lemma RetrieveValueIgnoresQuery<T>(sql1: Option<string>, sql2: Option<string>, defaultValue: T)
    ensures RetrieveValue(sql1, defaultValue) == RetrieveValue(sql2, defaultValue)
  {
  }
}
