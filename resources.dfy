/** The four object types the server stores, the path segment that names each
    (`contacts`, `companies`, `deals`, `tickets`, the keys of `data` and of
    `newIds`) and the singular display name used in property-change events. */
module Resources {
  import opened Wrappers

  datatype ResourceType = Contacts | Companies | Deals | Tickets

  /** The `:resource` path segment, which is also the key of the type's store. */
  function PathName(r: ResourceType): string
  {
    match r
    case Contacts => "contacts"
    case Companies => "companies"
    case Deals => "deals"
    case Tickets => "tickets"
  }

  /** `data[req.params.resource]`: the store a path segment selects, or `None`
      for any other segment (the lookup yields `undefined`). */
  function ParseResource(s: string): (r: Option<ResourceType>)
    ensures r.Some? ==> PathName(r.value) == s
    ensures (exists t :: PathName(t) == s) ==> r.Some?
  {
    if s == "contacts" then Some(Contacts)
    else if s == "companies" then Some(Companies)
    else if s == "deals" then Some(Deals)
    else if s == "tickets" then Some(Tickets)
    else None
  }

  /** `getResourceName`: the singular name of a store, or the `NotImplemented` error. */
  function GetResourceName(resources: string): (r: Result<string, string>)
    ensures r.Failure? <==> ParseResource(resources).None?
    ensures r.Failure? ==> r.error == "NotImplemented"
    ensures r.Success? ==> 0 < |r.value| < |resources| && r.value[..|r.value| - 1] == resources[..|r.value| - 1]
  {
    match resources
    case "companies" => Success("company")
    case "contacts" => Success("contact")
    case "deals" => Success("deal")
    case "tickets" => Success("ticket")
    case _ => Failure("NotImplemented")
  }

  /** Distinct types have distinct path names and distinct singular names, and
      the singular name of every valid segment is defined. */
  lemma {:induction false} NamesAreDistinct(r: ResourceType, s: ResourceType)
    ensures GetResourceName(PathName(r)).Success?
    ensures r != s ==> PathName(r) != PathName(s)
    ensures r != s ==> GetResourceName(PathName(r)).value != GetResourceName(PathName(s)).value
  {
    match r
    case Contacts => assert PathName(r) == "contacts";
    case Companies => assert PathName(r) == "companies";
    case Deals => assert PathName(r) == "deals";
    case Tickets => assert PathName(r) == "tickets";
  }
}
