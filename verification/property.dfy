/** The property domain: a listing with its base fields and the two extra
    fields of its subtype (apartment, house or villa), rendered to and
    updated from documents, and checked for availability. Field values stay
    dynamically typed, as in the Python code. */
module Properties {
  import opened Common
  import opened Documents

  datatype Kind =
    | Apartment(floorNumber: Value, hasElevator: Value)
    | House(floors: Value, hasGarden: Value)
    | Villa(hasPool: Value, hasPrivateAccess: Value)

  datatype Property = Property(
    id: Value,
    hostId: Value,
    title: Value,
    location: Value,
    price: Value,
    amenities: Value,
    images: Value,
    availability: Value,
    kind: Kind)

  /** `x if x else []`. */
  function OrEmpty(v: Value): (r: Value)
    ensures Truthy(v) ==> r == v
    ensures !Truthy(v) ==> r == List([])
  {
    if Truthy(v) then v else List([])
  }

  /** `Property.__init__` (with the subtype constructor's two fields): a
      falsy id is replaced by a fresh one, falsy amenities, images or
      availability by an empty list; everything else is kept. */
  function NewProperty(propertyId: Value, hostId: Value, title: Value, location: Value, price: Value,
                       amenities: Value, images: Value, availability: Value, kind: Kind, freshId: string): (p: Property)
    ensures Truthy(propertyId) ==> p.id == propertyId
    ensures !Truthy(propertyId) ==> p.id == Str(freshId)
    ensures freshId != "" ==> Truthy(p.id)
    ensures p.hostId == hostId && p.title == title && p.location == location && p.price == price && p.kind == kind
    ensures p.amenities == OrEmpty(amenities) && p.images == OrEmpty(images) && p.availability == OrEmpty(availability)
  {
    Property(if Truthy(propertyId) then propertyId else Str(freshId), hostId, title, location, price,
             OrEmpty(amenities), OrEmpty(images), OrEmpty(availability), kind)
  }

  /** `get_type` of each subclass. */
  function GetType(k: Kind): (t: string)
    ensures k.Apartment? <==> t == "apartment"
    ensures k.House? <==> t == "house"
    ensures k.Villa? <==> t == "villa"
  {
    match k
    case Apartment(_, _) => "apartment"
    case House(_, _) => "house"
    case Villa(_, _) => "villa"
  }

  const BaseKeys: set<string> := {"_id", "host_id", "title", "location", "price", "amenities", "images", "availability", "type"}

  function SubtypeKeys(k: Kind): set<string>
  {
    match k
    case Apartment(_, _) => {"floor_number", "has_elevator"}
    case House(_, _) => {"floors", "has_garden"}
    case Villa(_, _) => {"has_pool", "has_private_access"}
  }

  /** The base fields of `get_details`, the id under `"_id"`. */
  function BaseDetails(p: Property): (d: Doc)
    ensures d.Keys == BaseKeys
    ensures d["_id"] == p.id && d["host_id"] == p.hostId && d["title"] == p.title && d["location"] == p.location
    ensures d["price"] == p.price && d["amenities"] == p.amenities && d["images"] == p.images
    ensures d["availability"] == p.availability && d["type"] == Str(GetType(p.kind))
  {
    map[
      "_id" := p.id, "host_id" := p.hostId, "title" := p.title, "location" := p.location,
      "price" := p.price, "amenities" := p.amenities, "images" := p.images,
      "availability" := p.availability, "type" := Str(GetType(p.kind))]
  }

  /** The two extra fields of each subtype. */
  function SubtypeDetails(k: Kind): (d: Doc)
    ensures d.Keys == SubtypeKeys(k)
    ensures k.Apartment? ==> d["floor_number"] == k.floorNumber && d["has_elevator"] == k.hasElevator
    ensures k.House? ==> d["floors"] == k.floors && d["has_garden"] == k.hasGarden
    ensures k.Villa? ==> d["has_pool"] == k.hasPool && d["has_private_access"] == k.hasPrivateAccess
  {
    match k
    case Apartment(f, e) => map["floor_number" := f, "has_elevator" := e]
    case House(f, g) => map["floors" := f, "has_garden" := g]
    case Villa(pool, access) => map["has_pool" := pool, "has_private_access" := access]
  }

  /** No subtype field shadows a base field. */
  lemma SubtypeKeysDisjoint(k: Kind)
    ensures BaseKeys !! SubtypeKeys(k)
    ensures "property_id" !in BaseKeys + SubtypeKeys(k)
  {
  }

  /** `get_details`: the base fields, the type name, and exactly the
      subtype's two extra fields. */
  function GetDetails(p: Property): (d: Doc)
    ensures d.Keys == BaseKeys + SubtypeKeys(p.kind)
    ensures "property_id" !in d
    ensures d["_id"] == p.id && d["host_id"] == p.hostId && d["title"] == p.title && d["location"] == p.location
    ensures d["price"] == p.price && d["amenities"] == p.amenities && d["images"] == p.images
    ensures d["availability"] == p.availability && d["type"] == Str(GetType(p.kind))
    ensures p.kind.Apartment? ==> d["floor_number"] == p.kind.floorNumber && d["has_elevator"] == p.kind.hasElevator
    ensures p.kind.House? ==> d["floors"] == p.kind.floors && d["has_garden"] == p.kind.hasGarden
    ensures p.kind.Villa? ==> d["has_pool"] == p.kind.hasPool && d["has_private_access"] == p.kind.hasPrivateAccess
  {
    SubtypeKeysDisjoint(p.kind);
    BaseDetails(p) + SubtypeDetails(p.kind)
  }

  /** The six fields `update_details` may change. */
  const EditableKeys: set<string> := {"title", "location", "price", "amenities", "images", "availability"}

  /** `update_details`: each of the six editable keys present in `details`
      overwrites its field; nothing else changes, and it always reports true. */
  function UpdateDetails(p: Property, details: Doc): (r: (bool, Property))
    ensures r.0
    ensures r.1.id == p.id && r.1.hostId == p.hostId && r.1.kind == p.kind
    ensures r.1.title == Get(details, "title", p.title)
    ensures r.1.location == Get(details, "location", p.location)
    ensures r.1.price == Get(details, "price", p.price)
    ensures r.1.amenities == Get(details, "amenities", p.amenities)
    ensures r.1.images == Get(details, "images", p.images)
    ensures r.1.availability == Get(details, "availability", p.availability)
  {
    (true, p.(
      title := if "title" in details then details["title"] else p.title,
      location := if "location" in details then details["location"] else p.location,
      price := if "price" in details then details["price"] else p.price,
      amenities := if "amenities" in details then details["amenities"] else p.amenities,
      images := if "images" in details then details["images"] else p.images,
      availability := if "availability" in details then details["availability"] else p.availability))
  }

  /** Seen through `get_details`, an update overwrites exactly the editable
      keys it carries and leaves every other key of the document alone. */
  lemma UpdateDetailsOnlyListedKeys(p: Property, details: Doc)
    ensures var d := GetDetails(p);
      var d' := GetDetails(UpdateDetails(p, details).1);
      && d'.Keys == d.Keys
      && (forall k :: k in EditableKeys && k in details ==> d'[k] == details[k])
      && (forall k :: k in d && !(k in EditableKeys && k in details) ==> d'[k] == d[k])
  {
    UpdateWritesListedKeys(p, details);
    UpdateKeepsOtherKeys(p, details);
  }

  lemma UpdateWritesListedKeys(p: Property, details: Doc)
    ensures var d' := GetDetails(UpdateDetails(p, details).1);
      forall k :: k in EditableKeys && k in details ==> k in d' && d'[k] == details[k]
  {
    var q := UpdateDetails(p, details).1;
    var b := BaseDetails(q);
    assert b.Keys >= EditableKeys;
    forall k | k in EditableKeys && k in details
      ensures b[k] == details[k]
    {
      assert k == "title" || k == "location" || k == "price" || k == "amenities" || k == "images" || k == "availability";
    }
    SubtypeKeysDisjoint(q.kind);
  }

  lemma UpdateKeepsOtherBaseKeys(p: Property, details: Doc)
    ensures var b := BaseDetails(p);
      var b' := BaseDetails(UpdateDetails(p, details).1);
      forall k :: k in b && !(k in EditableKeys && k in details) ==> b'[k] == b[k]
  {
    var b := BaseDetails(p);
    var b' := BaseDetails(UpdateDetails(p, details).1);
    forall k | k in b && !(k in EditableKeys && k in details)
      ensures b'[k] == b[k]
    {
      assert k == "title" || k == "location" || k == "price" || k == "amenities" || k == "images" || k == "availability"
          || k == "_id" || k == "host_id" || k == "type";
    }
  }

  lemma UpdateKeepsOtherKeys(p: Property, details: Doc)
    ensures var d := GetDetails(p);
      var d' := GetDetails(UpdateDetails(p, details).1);
      forall k :: k in d && !(k in EditableKeys && k in details) ==> k in d' && d'[k] == d[k]
  {
    var q := UpdateDetails(p, details).1;
    var d := GetDetails(p);
    var d' := GetDetails(q);
    UpdateKeepsOtherBaseKeys(p, details);
    assert SubtypeDetails(q.kind) == SubtypeDetails(p.kind);
    SubtypeKeysDisjoint(p.kind);
  }

  /** Applying the same update twice is the same as applying it once. */
  lemma UpdateDetailsIdempotent(p: Property, details: Doc)
    ensures var q := UpdateDetails(p, details).1; UpdateDetails(q, details).1 == q
  {
  }

  /** The scan of `check_availability` over the availability entries: true
      at the first range holding the request, false when none does; an
      entry that is not a range raises when it is reached. */
  function ScanRanges(items: seq<Value>, start: int, end: int): (r: Outcome<bool>)
    ensures r == Returned(true) <==> exists i :: 0 <= i < |items| && Holds(items[i], start, end)
                                        && forall j :: 0 <= j < i ==> items[j].Span?
    ensures (forall j :: 0 <= j < |items| ==> items[j].Span?) ==> r.Returned?
  {
    if |items| == 0 then Returned(false)
    else match items[0]
      case Span(a, b) =>
        if start >= a && end <= b then Returned(true)
        else
          var rest := ScanRanges(items[1..], start, end);
          assert forall i :: 1 <= i < |items| ==> items[i] == items[1..][i - 1];
          rest
      case _ => Raised("TypeError")
  }

  /** A range entry holds the requested stay. */
  predicate Holds(v: Value, start: int, end: int)
  {
    v.Span? && v.start <= start && end <= v.end
  }

  /** `check_availability({"start_date": start, "end_date": end})`. Iterating
      a non-list raises, except an empty string, which yields nothing. */
  function CheckAvailability(p: Property, start: int, end: int): (r: Outcome<bool>)
    ensures p.availability == List([]) ==> r == Returned(false)
    ensures p.availability.List? ==> r == ScanRanges(p.availability.items, start, end)
    ensures !p.availability.List? && p.availability != Str("") ==> r.Raised?
  {
    match p.availability
    case List(items) => ScanRanges(items, start, end)
    case Str(s) => if s == "" then Returned(false) else Raised("TypeError")
    case _ => Raised("TypeError")
  }

  /** For a well-formed availability list, the check is exactly "some range
      contains the requested stay". */
  lemma {:induction false} AvailabilityIffSomeRangeHolds(p: Property, start: int, end: int)
    requires p.availability.List?
    requires forall j :: 0 <= j < |p.availability.items| ==> p.availability.items[j].Span?
    ensures CheckAvailability(p, start, end) == Returned(true) <==>
            exists i :: 0 <= i < |p.availability.items| && Holds(p.availability.items[i], start, end)
    ensures CheckAvailability(p, start, end).Returned?
  {
    var r := ScanRanges(p.availability.items, start, end);
    assert r.Returned?;
  }
}
