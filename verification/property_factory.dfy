/** `PropertyFactory.create_property`: builds the subtype named by the type
    string from a details document, filling in the per-type defaults. */
module PropertyFactory {
  import opened Common
  import opened Documents
  import opened Properties

  predicate KnownType(t: Value)
  {
    t == Str("apartment") || t == Str("house") || t == Str("villa")
  }

  /** The subtype fields read from `details`, with their defaults. */
  function KindFor(t: Value, details: Doc): (k: Kind)
    requires KnownType(t)
    ensures Str(GetType(k)) == t
  {
    if t == Str("apartment") then
      Apartment(Get(details, "floor_number", Num(1)), Get(details, "has_elevator", Bool(false)))
    else if t == Str("house") then
      House(Get(details, "floors", Num(1)), Get(details, "has_garden", Bool(false)))
    else
      Villa(Get(details, "has_pool", Bool(false)), Get(details, "has_private_access", Bool(false)))
  }

  /** An unknown type raises `ValueError`; a known one yields a property of
      that type whose base fields come from `details` (missing ones as
      `None`, missing lists as `[]`) and whose subtype fields default to
      floor 1 without elevator, 1 floor without garden, or no pool and no
      private access. */
  function CreateProperty(propertyType: Value, details: Doc, freshId: string): (r: Outcome<Property>)
    ensures !KnownType(propertyType) ==> r == Raised("ValueError")
    ensures KnownType(propertyType) ==> r.Returned? && Str(GetType(r.value.kind)) == propertyType
    ensures r.Returned? ==> var p := r.value;
      && (Truthy(Get(details, "property_id", Null)) ==> p.id == details["property_id"])
      && (!Truthy(Get(details, "property_id", Null)) ==> p.id == Str(freshId))
      && p.hostId == Get(details, "host_id", Null)
      && p.title == Get(details, "title", Null)
      && p.location == Get(details, "location", Null)
      && p.price == Get(details, "price", Null)
      && p.amenities == OrEmpty(Get(details, "amenities", List([])))
      && p.images == OrEmpty(Get(details, "images", List([])))
      && p.availability == OrEmpty(Get(details, "availability", List([])))
    ensures r.Returned? && r.value.kind.Apartment? ==>
      && r.value.kind.floorNumber == Get(details, "floor_number", Num(1))
      && r.value.kind.hasElevator == Get(details, "has_elevator", Bool(false))
    ensures r.Returned? && r.value.kind.House? ==>
      && r.value.kind.floors == Get(details, "floors", Num(1))
      && r.value.kind.hasGarden == Get(details, "has_garden", Bool(false))
    ensures r.Returned? && r.value.kind.Villa? ==>
      && r.value.kind.hasPool == Get(details, "has_pool", Bool(false))
      && r.value.kind.hasPrivateAccess == Get(details, "has_private_access", Bool(false))
  {
    if !KnownType(propertyType) then Raised("ValueError")
    else
      Returned(NewProperty(
        Get(details, "property_id", Null), Get(details, "host_id", Null), Get(details, "title", Null),
        Get(details, "location", Null), Get(details, "price", Null), Get(details, "amenities", List([])),
        Get(details, "images", List([])), Get(details, "availability", List([])),
        KindFor(propertyType, details), freshId))
  }

  /** The list normalisation of `NewProperty` applied to an existing
      property: falsy list fields become `[]`. */
  function Normalized(p: Property): Property
  {
    p.(amenities := OrEmpty(p.amenities), images := OrEmpty(p.images), availability := OrEmpty(p.availability))
  }

  /** Rebuilding a property from its own `get_details` document gives back
      the same property, except that the document carries no
      `"property_id"`, so the rebuilt one gets a fresh id. */
  lemma RebuildFromDetails(p: Property, freshId: string)
    ensures CreateProperty(Str(GetType(p.kind)), GetDetails(p), freshId) == Returned(Normalized(p).(id := Str(freshId)))
  {
    var d := GetDetails(p);
    var r := CreateProperty(Str(GetType(p.kind)), d, freshId);
    assert r.value.kind == p.kind;
  }
}
