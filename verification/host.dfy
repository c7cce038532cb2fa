/** `Host`: the listing actions of a host user, on top of the property
    service. The host's email serves as its `host_id`. */
module Host {
  import opened Common
  import opened Documents
  import opened Auth
  import PS = PropertyService
  import PF = PropertyFactory

  const NoPermission := "You don't have permission to delete this property."
  const NoProperties := "No properties found."

  const CreatedListingSuffix := " created a new listing."
  const ManagingSuffix := " is managing bookings."
  const EarningsSuffix := " is viewing earnings."

  /** The message of a button click without listing data: the host's name
      followed by the fixed announcement, so the name can be read back. */
  function DefaultListingMessage(h: User): (m: string)
    ensures |m| == |h.name| + |CreatedListingSuffix|
    ensures m[..|h.name|] == h.name && m[|h.name|..] == CreatedListingSuffix
  {
    h.name + CreatedListingSuffix
  }

  /** `create_listing`: with a falsy type or empty details only the default
      message comes back and nothing is stored; otherwise the property
      service creates the listing with the host's email as `host_id`, and
      success is reported exactly when the service returned a (non-empty)
      id. Exceptions of the service propagate. */
  function CreateListing(coll: seq<Doc>, h: User, propertyType: Value, details: Doc, freshId: string)
    : (r: (Outcome<string>, seq<Doc>))
    ensures !Truthy(propertyType) || details == map[] ==> r == (Returned(DefaultListingMessage(h)), coll)
    ensures Truthy(propertyType) && details != map[] ==>
      var s := PS.CreateProperty(coll, h.email, propertyType, details, freshId);
      && r.1 == s.1
      && (s.0.Raised? <==> r.0.Raised?)
      && (s.0.Returned? && s.0.value.0.Some? && s.0.value.0.value != "" ==>
            r.0 == Returned("Property listing '" + Show(Get(details, "title", Null)) + "' created successfully."))
      && (s.0.Returned? && !(s.0.value.0.Some? && s.0.value.0.value != "") ==>
            r.0 == Returned("Failed to create property: " + s.0.value.1))
    ensures r.1 != coll ==> r.1[|coll|]["host_id"] == Str(h.email)
    ensures Truthy(propertyType) && details != map[] && PF.KnownType(propertyType) ==>
      var data := PS.ListingDoc(h.email, propertyType, details, freshId);
      FindOne(coll, Field("_id", data["_id"])).None? ==>
        && r.1 == coll + [data]
        && (Truthy(data["_id"]) && "title" in details ==>
              r.0 == Returned("Property listing '" + Show(details["title"]) + "' created successfully."))
  {
    if !Truthy(propertyType) || details == map[] then (Returned(DefaultListingMessage(h)), coll)
    else
      var s := PS.CreateProperty(coll, h.email, propertyType, details, freshId);
      match s.0
      case Raised(e) => (Raised(e), s.1)
      case Returned((pid, msg)) =>
        if pid.Some? && pid.value != "" then
          (Returned("Property listing '" + Show(Get(details, "title", Null)) + "' created successfully."), s.1)
        else (Returned("Failed to create property: " + msg), s.1)
  }

  /** The ownership scan `any(prop["property_id"] == pid for prop in props)`:
      true at the first listing with that id, and a listing without a
      `"property_id"` key raises `KeyError` when it is reached. */
  function AnyOwned(props: seq<Doc>, pid: string): (r: Outcome<bool>)
    ensures r == Returned(true) <==>
              exists i :: 0 <= i < |props| && Get(props[i], "property_id", Null) == Str(pid)
                          && forall j :: 0 <= j < i ==> "property_id" in props[j]
    ensures (forall j :: 0 <= j < |props| ==> "property_id" in props[j]) ==> r.Returned?
    ensures |props| > 0 && "property_id" !in props[0] ==> r == Raised("KeyError")
  {
    if |props| == 0 then Returned(false)
    else if "property_id" !in props[0] then Raised("KeyError")
    else if props[0]["property_id"] == Str(pid) then Returned(true)
    else
      var rest := AnyOwned(props[1..], pid);
      assert forall i :: 1 <= i < |props| ==> props[i] == props[1..][i - 1];
      rest
  }

  /** `delete_listing`: the host's listings are scanned for the id; a
      property not among them is refused and nothing is deleted, an owned
      one is deleted through the property service, whose message is
      returned. */
  function DeleteListing(coll: seq<Doc>, h: User, pid: string, freshIds: nat -> string): (r: (Outcome<string>, seq<Doc>))
    ensures var listed := PS.GetHostProperties(coll, h.email, freshIds);
      && (listed.Raised? ==> r == (Raised(listed.error), coll))
      && (listed.Returned? && AnyOwned(listed.value, pid) == Returned(false) ==> r == (Returned(NoPermission), coll))
      && (listed.Returned? && AnyOwned(listed.value, pid).Raised? ==> r == (Raised("KeyError"), coll))
      && (listed.Returned? && AnyOwned(listed.value, pid) == Returned(true) ==>
            r == (Returned(PS.DeleteProperty(coll, pid).0.1), PS.DeleteProperty(coll, pid).1))
    ensures r.1 != coll ==> PS.DeleteProperty(coll, pid).0.0
  {
    match PS.GetHostProperties(coll, h.email, freshIds)
    case Raised(e) => (Raised(e), coll)
    case Returned(props) =>
      match AnyOwned(props, pid)
      case Raised(e) => (Raised(e), coll)
      case Returned(owned) =>
        if !owned then (Returned(NoPermission), coll)
        else
          var d := PS.DeleteProperty(coll, pid);
          (Returned(d.0.1), d.1)
  }

  /** As written, a host with at least one listing can never delete any:
      the rendered listings carry no `"property_id"`, so the ownership scan
      raises `KeyError` on the first one. A host without listings is always
      refused. Either way the collection is unchanged. */
  lemma DeleteListingNeverDeletes(coll: seq<Doc>, h: User, pid: string, freshIds: nat -> string)
    requires PS.GetHostProperties(coll, h.email, freshIds).Returned?
    ensures var ps := PS.GetHostProperties(coll, h.email, freshIds).value;
      && (|ps| > 0 ==> DeleteListing(coll, h, pid, freshIds) == (Raised("KeyError"), coll))
      && (|ps| == 0 ==> DeleteListing(coll, h, pid, freshIds) == (Returned(NoPermission), coll))
  {
    PS.HostPropertiesBelongToHost(coll, h.email, freshIds);
  }

  /** `manage_bookings`: the host's name followed by the fixed
      announcement. */
  function ManageBookings(h: User): (m: string)
    ensures |m| == |h.name| + |ManagingSuffix|
    ensures m[..|h.name|] == h.name && m[|h.name|..] == ManagingSuffix
  {
    h.name + ManagingSuffix
  }

  /** `view_earnings`: the host's name followed by the fixed announcement. */
  function ViewEarnings(h: User): (m: string)
    ensures |m| == |h.name| + |EarningsSuffix|
    ensures m[..|h.name|] == h.name && m[|h.name|..] == EarningsSuffix
  {
    h.name + EarningsSuffix
  }

  /** The host's name is what precedes a message's fixed announcement. */
  function NameIn(m: string, suffix: string): string
  {
    if |suffix| <= |m| then m[..|m| - |suffix|] else ""
  }

  /** Each message names its host, and distinct hosts get distinct
      messages: the name is read back from the message. */
  lemma HostNamedInMessages(h: User)
    ensures NameIn(DefaultListingMessage(h), CreatedListingSuffix) == h.name
    ensures NameIn(ManageBookings(h), ManagingSuffix) == h.name
    ensures NameIn(ViewEarnings(h), EarningsSuffix) == h.name
  {
  }

  /** `browse_listings`: the number of listings matching the filters (no
      filters matches everything). */
  function BrowseListings(coll: seq<Doc>, filters: Doc, freshIds: nat -> string): (r: Outcome<string>)
    ensures var l := PS.ListProperties(coll, filters, freshIds);
      && (l.Raised? <==> r.Raised?)
      && (l.Returned? && |FindAll(coll, filters)| == 0 ==> r == Returned(NoProperties))
      && (l.Returned? && |FindAll(coll, filters)| > 0 ==> r == Returned("Found " + IntToString(|FindAll(coll, filters)|) + " properties."))
  {
    match PS.ListProperties(coll, filters, freshIds)
    case Raised(e) => Raised(e)
    case Returned(ps) => if |ps| == 0 then Returned(NoProperties) else Returned("Found " + IntToString(|ps|) + " properties.")
  }
}
