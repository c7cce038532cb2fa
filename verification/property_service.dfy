/** `PropertyService`: create, read, update, delete and list properties over
    the `properties` collection. Documents are stored as `get_details`
    renders them, with the id under `"_id"`, while every lookup by id
    filters on `"property_id"`; the model keeps both names as the Python code
    has them. Each read rebuilds a property through the factory, which needs
    a fresh id for every document that carries no `"property_id"`. */
module PropertyService {
  import opened Common
  import opened Documents
  import opened Properties
  import PF = PropertyFactory

  const NotFound := "Property not found."
  const CreateFailed := "Failed to create property."
  const Updated := "Property updated successfully."
  const NoChanges := "No changes made to property."
  const Deleted := "Property deleted successfully."
  const NotDeleted := "Property not found or could not be deleted."

  /** The filter `{"property_id": pid}` every by-id operation uses. */
  function IdFilter(pid: string): Doc
  {
    Field("property_id", Str(pid))
  }

  /** Rebuilds a stored document through the factory, keyed by its own
      `"type"` field (`KeyError` when absent). */
  function Load(d: Doc, freshId: string): (r: Outcome<Property>)
    ensures "type" !in d ==> r == Raised("KeyError")
    ensures "type" in d && !PF.KnownType(d["type"]) ==> r == Raised("ValueError")
    ensures r.Returned? ==> Str(GetType(r.value.kind)) == d["type"]
    ensures r.Returned? ==> r.value.hostId == Get(d, "host_id", Null)
    ensures "type" in d && PF.KnownType(d["type"]) ==> r == PF.CreateProperty(d["type"], d, freshId) && r.Returned?
  {
    if "type" !in d then Raised("KeyError") else PF.CreateProperty(d["type"], d, freshId)
  }

  /** The document `create_property` inserts for a known type: the
      `get_details` rendering of the property built from `details` with the
      caller's host id. */
  function ListingDoc(hostId: string, propertyType: Value, details: Doc, freshId: string): (d: Doc)
    requires PF.KnownType(propertyType)
    ensures d.Keys >= BaseKeys && "property_id" !in d
    ensures d["host_id"] == Str(hostId) && d["type"] == propertyType && d["title"] == Get(details, "title", Null)
    ensures d["_id"] == if Truthy(Get(details, "property_id", Null)) then details["property_id"] else Str(freshId)
  {
    GetDetails(PF.CreateProperty(propertyType, details["host_id" := Str(hostId)], freshId).value)
  }

  /** `create_property`: overwrites `details["host_id"]` with the caller's
      host id, builds the property, inserts its `get_details` document
      (`DuplicateKeyError` when its `"_id"` is taken) and reports the
      inserted id. Reading `details['title']` for the message happens after
      the insert, so a missing title raises with the document stored. */
  function CreateProperty(coll: seq<Doc>, hostId: string, propertyType: Value, details: Doc, freshId: string)
    : (r: (Outcome<(Option<string>, string)>, seq<Doc>))
    ensures !PF.KnownType(propertyType) ==> r == (Raised("ValueError"), coll)
    ensures r.1 != coll ==>
      && PF.KnownType(propertyType)
      && |r.1| == |coll| + 1 && r.1[..|coll|] == coll
      && r.1[|coll|].Keys >= BaseKeys
      && "property_id" !in r.1[|coll|]
      && r.1[|coll|]["host_id"] == Str(hostId)
      && r.1[|coll|]["type"] == propertyType
      && r.1[|coll|]["title"] == Get(details, "title", Null)
    ensures r.0.Returned? && r.0.value.0.Some? ==> r.1 != coll && "title" in details
    ensures r.0.Returned? && r.0.value.0.Some? && !Truthy(Get(details, "property_id", Null)) ==>
              r.0.value.0 == Some(freshId)
    ensures PF.KnownType(propertyType) ==> var data := ListingDoc(hostId, propertyType, details, freshId);
      && (FindOne(coll, Field("_id", data["_id"])).Some? ==> r == (Raised("DuplicateKeyError"), coll))
      && (FindOne(coll, Field("_id", data["_id"])).None? ==> r.1 == coll + [data])
      && (FindOne(coll, Field("_id", data["_id"])).None? && !Truthy(data["_id"]) ==> r.0 == Returned((None, CreateFailed)))
      && (FindOne(coll, Field("_id", data["_id"])).None? && Truthy(data["_id"]) && "title" !in details ==> r.0 == Raised("KeyError"))
      && (FindOne(coll, Field("_id", data["_id"])).None? && Truthy(data["_id"]) && "title" in details ==>
            r.0 == Returned((Some(Show(data["_id"])), "Property '" + Show(details["title"]) + "' created successfully.")))
  {
    var d := details["host_id" := Str(hostId)];
    match PF.CreateProperty(propertyType, d, freshId)
    case Raised(e) => (Raised(e), coll)
    case Returned(p) =>
      var data := GetDetails(p);
      assert data == ListingDoc(hostId, propertyType, details, freshId);
      if FindOne(coll, Field("_id", data["_id"])).Some? then (Raised("DuplicateKeyError"), coll)
      else
        var stored := coll + [data];
        assert stored[..|coll|] == coll;
        if !Truthy(data["_id"]) then (Returned((None, CreateFailed)), stored)
        else if "title" !in d then (Raised("KeyError"), stored)
        else (Returned((Some(Show(data["_id"])), "Property '" + Show(d["title"]) + "' created successfully.")), stored)
  }

  /** `get_property`: the first document whose `"property_id"` is `pid`,
      rebuilt; `(None, "Property not found.")` when there is none. */
  function GetProperty(coll: seq<Doc>, pid: string, freshId: string): (r: Outcome<(Option<Property>, string)>)
    ensures FindOne(coll, IdFilter(pid)).None? ==> r == Returned((None, NotFound))
    ensures FindOne(coll, IdFilter(pid)).Some? ==>
      var i := FindOne(coll, IdFilter(pid)).value;
      && (r.Raised? <==> Load(coll[i], freshId).Raised?)
      && (r.Returned? ==> r.value == (Some(Load(coll[i], freshId).value), "Property found."))
  {
    match FindOne(coll, IdFilter(pid))
    case None => Returned((None, NotFound))
    case Some(i) =>
      match Load(coll[i], freshId)
      case Raised(e) => Raised(e)
      case Returned(p) => Returned((Some(p), "Property found."))
  }

  /** `update_one(filter, {"$set": newDoc})` on the document at `i`: a
      `"_id"` that differs from the stored one raises `WriteError`;
      otherwise the fields are merged in, and the write counts as a
      modification only if the document changed. */
  function SetFields(coll: seq<Doc>, i: nat, newDoc: Doc): (r: (Outcome<(bool, string)>, seq<Doc>))
    requires i < |coll|
    ensures r.0 == Returned((true, Updated)) <==> r.1 != coll
    ensures r.0.Returned? && !r.0.value.0 ==> r.1 == coll && r.0.value.1 == NoChanges
    ensures r.0.Raised? ==> r.1 == coll && r.0.error == "WriteError"
    ensures r.0.Raised? <==> "_id" in coll[i] && "_id" in newDoc && coll[i]["_id"] != newDoc["_id"]
    ensures r.0.Returned? ==> r.1 == coll[i := coll[i] + newDoc]
    ensures r.1 != coll ==>
      && |r.1| == |coll|
      && (forall j :: 0 <= j < |coll| && j != i ==> r.1[j] == coll[j])
      && r.1[i].Keys == coll[i].Keys + newDoc.Keys
      && (forall k :: k in newDoc ==> r.1[i][k] == newDoc[k])
  {
    var d := coll[i];
    if "_id" in d && "_id" in newDoc && d["_id"] != newDoc["_id"] then (Raised("WriteError"), coll)
    else
      var d' := d + newDoc;
      if d' == d then (Returned((false, NoChanges)), coll)
      else
        assert coll[i := d'] != coll by { assert coll[i := d'][i] != coll[i]; }
        (Returned((true, Updated)), coll[i := d'])
  }

  /** `update_property`: on a missing id reports false and writes nothing;
      otherwise `$set`s the updated `get_details` document on the same
      first match and reports true only if the stored document actually
      changed. */
  function UpdateProperty(coll: seq<Doc>, pid: string, details: Doc, freshId: string)
    : (r: (Outcome<(bool, string)>, seq<Doc>))
    ensures FindOne(coll, IdFilter(pid)).None? ==> r == (Returned((false, NotFound)), coll)
    ensures r.0 == Returned((true, Updated)) <==> r.1 != coll
    ensures r.1 != coll ==> var i := FindOne(coll, IdFilter(pid)).value;
      && |r.1| == |coll|
      && (forall j :: 0 <= j < |coll| && j != i ==> r.1[j] == coll[j])
      && r.1[i].Keys >= coll[i].Keys
      && r.1[i].Keys >= BaseKeys
      && (forall k :: k in EditableKeys && k in details ==> k in r.1[i] && r.1[i][k] == details[k])
    ensures r.0.Returned? && !r.0.value.0 ==> r.1 == coll
    ensures FindOne(coll, IdFilter(pid)).Some? ==> var i := FindOne(coll, IdFilter(pid)).value;
      && (Load(coll[i], freshId).Raised? ==> r == (Raised(Load(coll[i], freshId).error), coll))
      && (Load(coll[i], freshId).Returned? ==> var p := Load(coll[i], freshId).value;
            && (r.0.Raised? <==> "_id" in coll[i] && coll[i]["_id"] != p.id)
            && (r.0.Returned? ==> r.1 == coll[i := coll[i] + GetDetails(UpdateDetails(p, details).1)]))
  {
    match FindOne(coll, IdFilter(pid))
    case None => (Returned((false, NotFound)), coll)
    case Some(i) =>
      match Load(coll[i], freshId)
      case Raised(e) => (Raised(e), coll)
      case Returned(p) =>
        UpdateDetailsOnlyListedKeys(p, details);
        SetFields(coll, i, GetDetails(UpdateDetails(p, details).1))
  }

  /** An update that does not raise is read back: `get_property` on the
      written collection returns the updated property, with the list
      normalisation every rebuild applies. */
  lemma UpdateThenGet(coll: seq<Doc>, pid: string, details: Doc, freshId: string)
    requires FindOne(coll, IdFilter(pid)).Some?
    requires Load(coll[FindOne(coll, IdFilter(pid)).value], freshId).Returned?
    requires var i := FindOne(coll, IdFilter(pid)).value;
      "_id" !in coll[i] || coll[i]["_id"] == Load(coll[i], freshId).value.id
    ensures UpdateProperty(coll, pid, details, freshId).0.Returned?
    ensures var i := FindOne(coll, IdFilter(pid)).value;
      GetProperty(UpdateProperty(coll, pid, details, freshId).1, pid, freshId)
        == Returned((Some(PF.Normalized(UpdateDetails(Load(coll[i], freshId).value, details).1)), "Property found."))
  {
    var i := FindOne(coll, IdFilter(pid)).value;
    var p := Load(coll[i], freshId).value;
    var q := UpdateDetails(p, details).1;
    var m := coll[i] + GetDetails(q);
    var c := UpdateProperty(coll, pid, details, freshId).1;
    assert c == coll[i := m];
    assert Get(m, "property_id", Null) == Get(coll[i], "property_id", Null) == Str(pid);
    assert Matches(m, IdFilter(pid));
    var k := FindOne(c, IdFilter(pid)).value;
    assert k == i by {
      assert forall j :: 0 <= j < i ==> c[j] == coll[j];
    }
    assert m["type"] == coll[i]["type"];
    var r := PF.CreateProperty(m["type"], m, freshId).value;
    assert r.id == p.id;
    assert r.kind == q.kind;
  }

  /** `delete_property`: removes the first document whose `"property_id"`
      is `pid`; true iff one was removed. */
  function DeleteProperty(coll: seq<Doc>, pid: string): (r: ((bool, string), seq<Doc>))
    ensures r.0.0 <==> FindOne(coll, IdFilter(pid)).Some?
    ensures r.0 == (if r.0.0 then (true, Deleted) else (false, NotDeleted))
    ensures r.0.0 ==> var i := FindOne(coll, IdFilter(pid)).value; r.1 == coll[..i] + coll[i + 1..]
    ensures !r.0.0 ==> r.1 == coll
    ensures |r.1| == if r.0.0 then |coll| - 1 else |coll|
  {
    match FindOne(coll, IdFilter(pid))
    case None => ((false, NotDeleted), coll)
    case Some(i) => ((true, Deleted), coll[..i] + coll[i + 1..])
  }

  /** The rebuilding step for the document at position `i`, which uses the
      fresh id `freshIds(i)`. */
  function Loader(freshIds: nat -> string): (Doc, nat) -> Outcome<Property>
  {
    (d: Doc, i: nat) => Load(d, freshIds(i))
  }

  /** Rebuilds each document in turn; the first failure raises. */
  function LoadAll(docs: seq<Doc>, freshIds: nat -> string): (r: Outcome<seq<Property>>)
    ensures r.Returned? ==> |r.value| == |docs|
  {
    TraverseFrom(docs, Loader(freshIds), 0)
  }

  /** Loading succeeds exactly when every document can be rebuilt, and then
      holds each document's rebuilt property, in order. */
  lemma LoadAllElements(docs: seq<Doc>, freshIds: nat -> string)
    ensures LoadAll(docs, freshIds).Returned? <==>
              forall i :: 0 <= i < |docs| ==> Load(docs[i], freshIds(i)).Returned?
    ensures LoadAll(docs, freshIds).Returned? ==>
              forall i :: 0 <= i < |docs| ==> Load(docs[i], freshIds(i)) == Returned(LoadAll(docs, freshIds).value[i])
  {
    var f := Loader(freshIds);
    assert LoadAll(docs, freshIds) == TraverseFrom(docs, f, 0);
    TraverseFromElements(docs, f, 0);
    forall i | 0 <= i < |docs|
      ensures f(docs[i], 0 + i) == Load(docs[i], freshIds(i))
    {
    }
  }

  /** `get_details` of each property, in order. */
  function RenderAll(ps: seq<Property>): (r: seq<Doc>)
    ensures |r| == |ps|
    ensures forall i :: 0 <= i < |ps| ==> r[i] == GetDetails(ps[i])
  {
    seq(|ps|, i requires 0 <= i < |ps| => GetDetails(ps[i]))
  }

  /** `list_properties(filters)`: the matching documents, rebuilt and
      rendered; no filter (or an empty one) matches everything. */
  function ListProperties(coll: seq<Doc>, filters: Doc, freshIds: nat -> string): (r: Outcome<seq<Doc>>)
    ensures r.Returned? ==> |r.value| == |FindAll(coll, filters)|
  {
    match LoadAll(FindAll(coll, filters), freshIds)
    case Raised(e) => Raised(e)
    case Returned(ps) => Returned(RenderAll(ps))
  }

  /** Listing raises exactly when some matching document cannot be
      rebuilt; otherwise it holds, for each matching document in order,
      the `get_details` of the property rebuilt from it. */
  lemma ListPropertiesElements(coll: seq<Doc>, filters: Doc, freshIds: nat -> string)
    ensures var docs := FindAll(coll, filters);
      && (ListProperties(coll, filters, freshIds).Returned? <==>
            forall i :: 0 <= i < |docs| ==> Load(docs[i], freshIds(i)).Returned?)
      && (ListProperties(coll, filters, freshIds).Returned? ==>
            forall i :: 0 <= i < |docs| ==>
              Load(docs[i], freshIds(i)).Returned?
              && ListProperties(coll, filters, freshIds).value[i] == GetDetails(Load(docs[i], freshIds(i)).value))
  {
    LoadAllElements(FindAll(coll, filters), freshIds);
  }

  /** With no filter every stored document is listed: the listing raises
      exactly when some stored document cannot be rebuilt, and otherwise
      holds the rendering of each stored document, in order. */
  lemma ListAllProperties(coll: seq<Doc>, freshIds: nat -> string)
    ensures ListProperties(coll, map[], freshIds).Returned? <==>
              forall i :: 0 <= i < |coll| ==> Load(coll[i], freshIds(i)).Returned?
    ensures ListProperties(coll, map[], freshIds).Returned? ==>
              && |ListProperties(coll, map[], freshIds).value| == |coll|
              && forall i :: 0 <= i < |coll| ==>
                   Load(coll[i], freshIds(i)).Returned?
                   && ListProperties(coll, map[], freshIds).value[i] == GetDetails(Load(coll[i], freshIds(i)).value)
  {
    FilterAll(coll, (d: Doc) => Matches(d, map[]));
    assert FindAll(coll, map[]) == coll;
    ListPropertiesElements(coll, map[], freshIds);
  }

  /** `get_host_properties(h)`: `list_properties({"host_id": h})`, so it
      raises exactly when one of the host's documents cannot be rebuilt,
      and otherwise renders each of them in order. */
  function GetHostProperties(coll: seq<Doc>, hostId: string, freshIds: nat -> string): (r: Outcome<seq<Doc>>)
    ensures var docs := FindAll(coll, Field("host_id", Str(hostId)));
      && (r.Returned? <==> forall i :: 0 <= i < |docs| ==> Load(docs[i], freshIds(i)).Returned?)
      && (r.Returned? ==> |r.value| == |docs|)
      && (r.Returned? ==> forall i :: 0 <= i < |docs| ==>
            Load(docs[i], freshIds(i)).Returned? && r.value[i] == GetDetails(Load(docs[i], freshIds(i)).value))
  {
    ListPropertiesElements(coll, Field("host_id", Str(hostId)), freshIds);
    ListProperties(coll, Field("host_id", Str(hostId)), freshIds)
  }

  /** Every listing `get_host_properties(h)` returns belongs to `h`, and
      none of them carries a `"property_id"` key. */
  lemma {:induction false} HostPropertiesBelongToHost(coll: seq<Doc>, hostId: string, freshIds: nat -> string)
    requires GetHostProperties(coll, hostId, freshIds).Returned?
    ensures var ps := GetHostProperties(coll, hostId, freshIds).value;
      forall i :: 0 <= i < |ps| ==> "host_id" in ps[i] && ps[i]["host_id"] == Str(hostId) && "property_id" !in ps[i]
  {
    var f := Field("host_id", Str(hostId));
    var docs := FindAll(coll, f);
    LoadAllElements(docs, freshIds);
    var qs := LoadAll(docs, freshIds).value;
    var ps := GetHostProperties(coll, hostId, freshIds).value;
    assert ps == RenderAll(qs);
    forall i | 0 <= i < |ps|
      ensures "host_id" in ps[i] && ps[i]["host_id"] == Str(hostId) && "property_id" !in ps[i]
    {
      assert Matches(docs[i], f);
      assert Load(docs[i], freshIds(i)) == Returned(qs[i]);
      assert ps[i] == GetDetails(qs[i]);
    }
  }

  /** A document without a `"property_id"` key is never matched by an id
      filter, so appending one leaves every by-id lookup as it was. */
  lemma {:induction false} AppendUnfindable(coll: seq<Doc>, data: Doc, pid: string)
    requires "property_id" !in data
    ensures FindOne(coll + [data], IdFilter(pid)) == FindOne(coll, IdFilter(pid))
  {
    var c' := coll + [data];
    var f := IdFilter(pid);
    assert !Matches(data, f) by { assert Get(data, "property_id", Null) == Null; }
    assert forall j :: 0 <= j < |coll| ==> c'[j] == coll[j];
    match FindOne(coll, f)
    case None =>
      assert forall j :: 0 <= j < |c'| ==> !Matches(c'[j], f);
    case Some(i) =>
      var k := FindOne(c', f);
      assert Matches(c'[i], f);
      assert k.Some? && k.value <= i;
  }

  /** As written, a property created through the service can never be read,
      updated or deleted by id: its document has no `"property_id"`, and
      every by-id operation filters on that key. */
  lemma CreatedPropertyNotFoundById(coll: seq<Doc>, hostId: string, propertyType: Value, details: Doc,
                                    freshId: string, pid: string, freshId2: string)
    ensures var coll' := CreateProperty(coll, hostId, propertyType, details, freshId).1;
      && FindOne(coll', IdFilter(pid)) == FindOne(coll, IdFilter(pid))
      && GetProperty(coll', pid, freshId2) == GetProperty(coll, pid, freshId2)
      && DeleteProperty(coll', pid).0 == DeleteProperty(coll, pid).0
  {
    var coll' := CreateProperty(coll, hostId, propertyType, details, freshId).1;
    if coll' != coll {
      var data := coll'[|coll|];
      assert coll' == coll + [data];
      AppendUnfindableLookups(coll, data, pid, freshId2);
    }
  }

  /** By-id reads and deletes see through an appended unfindable document. */
  lemma AppendUnfindableLookups(coll: seq<Doc>, data: Doc, pid: string, freshId: string)
    requires "property_id" !in data
    ensures FindOne(coll + [data], IdFilter(pid)) == FindOne(coll, IdFilter(pid))
    ensures GetProperty(coll + [data], pid, freshId) == GetProperty(coll, pid, freshId)
    ensures DeleteProperty(coll + [data], pid).0 == DeleteProperty(coll, pid).0
  {
    AppendUnfindable(coll, data, pid);
    if FindOne(coll, IdFilter(pid)).Some? {
      var i := FindOne(coll, IdFilter(pid)).value;
      assert (coll + [data])[i] == coll[i];
    }
  }
}
