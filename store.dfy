/** The in-memory object store of the mock CRM server and its request handlers:
    `data` (per type, the id list and the `Map` from numeric id to object),
    `newIds` (per type, the next id to hand out) and the list, create, read,
    update, archive, v4 association, search and reset handlers. HTTP status
    codes become result variants; a handler that dereferences `undefined` and
    throws becomes a `Crash` result that leaves the state as it was. */
module Crm {
  import opened Wrappers
  import Seqs
  import OrderedMaps
  import Text
  import opened Resources
  import Webhook
  import opened Entities
  import Properties
  import Query
  import Requests

  /** The value every id counter starts from. */
  const FirstId := 10000000

  /** One entry of `data`: `list`, the ids in creation order, and `set`, the
      `Map` from id to object. */
  datatype Table = Table(list: seq<int>, objects: OrderedMaps.OMap<int, Entity>)

  function EmptyTable(): Table
  {
    Table([], OrderedMaps.Empty())
  }

  /** Each element below the next one: the order ids were handed out in. */
  ghost predicate Ascending(s: seq<int>)
  {
    |s| < 2 || (s[0] < s[1] && Ascending(s[1..]))
  }

  /** Appending an element above the last keeps a sequence ascending. */
  lemma {:induction false} AscendingSnoc(s: seq<int>, x: int)
    requires Ascending(s) && (s == [] || s[|s| - 1] < x)
    ensures Ascending(s + [x])
  {
    if |s| >= 2 {
      assert (s + [x])[1..] == s[1..] + [x];
      AscendingSnoc(s[1..], x);
    }
  }

  /** An ascending sequence is strictly increasing at every pair of positions. */
  lemma {:induction false} AscendingPairs(s: seq<int>)
    requires Ascending(s)
    ensures forall i, j :: 0 <= i < j < |s| ==> s[i] < s[j]
  {
    if |s| >= 2 {
      AscendingPairs(s[1..]);
      forall j | 1 < j < |s| ensures s[0] < s[j] {
        assert s[1..][0] < s[1..][j - 1];
      }
    }
  }

  /** What every table keeps: the id list mirrors the Map's insertion order and
      is ascending; every id is at least `FirstId` and below the type's counter;
      every object's property bag is well formed. */
  ghost predicate TableValid(t: Table, next: int)
  {
    && OrderedMaps.Valid(t.objects)
    && t.list == t.objects.keys
    && Ascending(t.list)
    && FirstId <= next
    && (forall id :: id in t.objects.vals ==> FirstId <= id < next && OrderedMaps.Valid(t.objects.vals[id].properties))
  }

  /** Adding an object under the counter's value keeps a table valid with the counter moved on. */
  lemma AppendKeepsTableValid(t: Table, next: int, e: Entity)
    requires TableValid(t, next) && OrderedMaps.Valid(e.properties)
    ensures next !in t.objects.vals
    ensures TableValid(Table(t.list + [next], OrderedMaps.Put(t.objects, next, e)), next + 1)
  {
    if t.list != [] {
      assert t.list[|t.list| - 1] in t.objects.keys;
    }
    AscendingSnoc(t.list, next);
  }

  /** Replacing a stored object by one with a well-formed bag keeps a table valid. */
  lemma ReplaceKeepsTableValid(t: Table, next: int, id: int, e: Entity)
    requires TableValid(t, next) && id in t.objects.vals && OrderedMaps.Valid(e.properties)
    ensures TableValid(t.(objects := OrderedMaps.Put(t.objects, id, e)), next)
  {
  }

  lemma FourTypes(r: ResourceType)
    ensures r in {Contacts, Companies, Deals, Tickets}
  {
  }

  /** A map giving every type the same value. */
  function Uniform<V>(v: V): (m: map<ResourceType, V>)
    ensures forall r: ResourceType :: r in m && m[r] == v
  {
    var m := map[Contacts := v, Companies := v, Deals := v, Tickets := v];
    assert forall r: ResourceType :: r in m by {
      forall r: ResourceType ensures r in m {
        FourTypes(r);
      }
    }
    m
  }

  /** The invariant of the whole store: a valid table and a counter for every type. */
  ghost predicate StateValid(data: map<ResourceType, Table>, newIds: map<ResourceType, int>)
  {
    forall r: ResourceType :: r in data && r in newIds && TableValid(data[r], newIds[r])
  }

  /** `data` after a create: the object stored under `id` and `id` appended to the list. */
  function Appended(data: map<ResourceType, Table>, r: ResourceType, id: int, e: Entity): map<ResourceType, Table>
    requires r in data && OrderedMaps.Valid(data[r].objects)
  {
    data[r := Table(data[r].list + [id], OrderedMaps.Put(data[r].objects, id, e))]
  }

  /** `data` after an in-place change of a stored object: the Map entry replaced, the list untouched. */
  function Replaced(data: map<ResourceType, Table>, r: ResourceType, id: int, e: Entity): map<ResourceType, Table>
    requires r in data && OrderedMaps.Valid(data[r].objects)
  {
    data[r := data[r].(objects := OrderedMaps.Put(data[r].objects, id, e))]
  }

  /** `data` after archiving `id` of type `r`: the stored object with its flag
      set. The object stays in the Map and the id list; every other object,
      every other type and every other field are as they were. */
  function ArchiveIn(data: map<ResourceType, Table>, r: ResourceType, id: int): (d: map<ResourceType, Table>)
    requires r in data && OrderedMaps.Valid(data[r].objects) && id in data[r].objects.vals
    ensures d.Keys == data.Keys && forall s :: s in data && s != r ==> d[s] == data[s]
    ensures d[r].list == data[r].list && d[r].objects.keys == data[r].objects.keys
    ensures d[r].objects.vals.Keys == data[r].objects.vals.Keys
    ensures d[r].objects.vals[id] == data[r].objects.vals[id].(archived := true)
    ensures forall k :: k in data[r].objects.vals && k != id ==> d[r].objects.vals[k] == data[r].objects.vals[k]
  {
    Replaced(data, r, id, data[r].objects.vals[id].(archived := true))
  }

  /** Archiving twice is archiving once. */
  lemma ArchiveIdempotent(data: map<ResourceType, Table>, r: ResourceType, id: int)
    requires r in data && OrderedMaps.Valid(data[r].objects) && id in data[r].objects.vals
    ensures ArchiveIn(ArchiveIn(data, r, id), r, id) == ArchiveIn(data, r, id)
  {
    var once := ArchiveIn(data, r, id);
    assert once[r].objects.vals[id := once[r].objects.vals[id]] == once[r].objects.vals;
  }

  /** A create keeps the store valid: the counter's value is a fresh id, larger
      than every id listed, and the counter moves past it. */
  lemma AppendKeepsStateValid(data: map<ResourceType, Table>, newIds: map<ResourceType, int>, r: ResourceType, e: Entity)
    requires StateValid(data, newIds) && OrderedMaps.Valid(e.properties)
    ensures newIds[r] !in data[r].objects.vals
    ensures forall id :: id in data[r].objects.vals ==> id < newIds[r]
    ensures StateValid(Appended(data, r, newIds[r], e), newIds[r := newIds[r] + 1])
  {
    AppendKeepsTableValid(data[r], newIds[r], e);
  }

  /** Moving a counter on keeps the store valid: every stored id stays below it. */
  lemma BumpKeepsStateValid(data: map<ResourceType, Table>, newIds: map<ResourceType, int>, r: ResourceType)
    requires StateValid(data, newIds)
    ensures StateValid(data, newIds[r := newIds[r] + 1])
  {
  }

  /** Changing a stored object in place keeps the store valid. */
  lemma ReplaceKeepsStateValid(data: map<ResourceType, Table>, newIds: map<ResourceType, int>, r: ResourceType, id: int, e: Entity)
    requires StateValid(data, newIds) && id in data[r].objects.vals && OrderedMaps.Valid(e.properties)
    ensures StateValid(Replaced(data, r, id, e), newIds)
  {
    ReplaceKeepsTableValid(data[r], newIds[r], id, e);
  }

  function ArchivedIs(archived: bool): Entity -> bool
  {
    (e: Entity) => e.archived == archived
  }

  /** `data[r]`'s listing for one archived flag: the objects carrying that flag, in the Map's order. */
  function Listing(data: map<ResourceType, Table>, r: ResourceType, archived: bool): seq<Entity>
    requires r in data && OrderedMaps.Valid(data[r].objects)
  {
    Seqs.Filter(ArchivedIs(archived), OrderedMaps.Values(data[r].objects))
  }

  /** A create appends the new object to the listing for its own flag and leaves
      the other listing as it was. */
  lemma CreateExtendsListing(data: map<ResourceType, Table>, r: ResourceType, id: int, e: Entity, archived: bool)
    requires r in data && OrderedMaps.Valid(data[r].objects) && id !in data[r].objects.vals
    ensures Listing(Appended(data, r, id, e), r, archived) ==
      Listing(data, r, archived) + (if e.archived == archived then [e] else [])
  {
    OrderedMaps.PutNewValues(data[r].objects, id, e);
    Seqs.FilterSnoc(ArchivedIs(archived), OrderedMaps.Values(data[r].objects), e);
  }

  /** `parseInt(resource_id)`, when it parses and names a stored object of type `r`. */
  function StoredId(data: map<ResourceType, Table>, r: ResourceType, resourceId: string): (id: Option<int>)
    requires r in data
    ensures id.Some? <==> Text.ParseInt(resourceId).Some? && Text.ParseInt(resourceId).value in data[r].objects.vals
    ensures id.Some? ==> id == Text.ParseInt(resourceId)
  {
    match Text.ParseInt(resourceId)
    case None => None
    case Some(n) => if n in data[r].objects.vals then Some(n) else None
  }

  datatype ReadResult = NotFound | Found(entity: Entity) | Crash

  /** The body of an association PUT's 201 response. */
  datatype AssociationCreated = AssociationCreated(
    fromObjectTypeId: string,
    fromObjectId: int,
    toObjectTypeId: string,
    toObjectId: int,
    labels: seq<string>)

  /** The body of a search response: `{total, results, paging: []}`. */
  datatype SearchResponse = SearchResponse(total: int, results: seq<Entity>)

  class Store {
    /** `config.custom.customer_id`, the `portalId` of every event. */
    const customerId: int
    var data: map<ResourceType, Table>
    var newIds: map<ResourceType, int>

    ghost predicate Valid()
      reads this
    {
      StateValid(data, newIds)
    }

    /** The state at process start: empty stores, every counter at `FirstId`. */
    constructor (customerId: int)
      ensures Valid() && this.customerId == customerId
      ensures forall r: ResourceType :: data[r] == EmptyTable() && newIds[r] == FirstId
    {
      this.customerId := customerId;
      data := Uniform(EmptyTable());
      newIds := Uniform(FirstId);
    }

    /** `newId`: hands out the type's counter and moves it on by one. */
    method NewId(r: ResourceType) returns (id: int)
      requires Valid()
      modifies this`newIds
      ensures Valid()
      ensures id == old(newIds[r]) && newIds == old(newIds)[r := id + 1]
    {
      id := newIds[r];
      BumpKeepsStateValid(data, newIds, r);
      newIds := newIds[r := id + 1];
    }

    /** `POST /crm/v3/objects/:resource`: a fresh id from `newId`, the object
        built from the defaults and the body, stored under that id and appended
        to the id list, and one creation event. Nothing else changes. */
    method Create(r: ResourceType, ts: string, body: CreateBody) returns (id: int, entity: Entity, events: seq<Webhook.Event>)
      requires Valid() && OrderedMaps.Valid(body.properties)
      modifies this
      ensures Valid()
      ensures id == old(newIds[r]) && newIds == old(newIds)[r := id + 1]
      ensures id !in old(data[r].objects.vals)
      ensures forall k :: k in old(data[r].objects.vals) ==> k < id
      ensures entity == MakeEntity(id, ts, body)
      ensures data == Appended(old(data), r, id, entity)
      ensures events == [Webhook.Creation(customerId, PathName(r), id)]
    {
      var stored := data;
      ghost var counters := newIds;
      id := NewId(r);
      entity := MakeEntity(id, ts, body);
      AppendKeepsStateValid(stored, counters, r, entity);
      data := Appended(stored, r, id, entity);
      events := [Webhook.Creation(customerId, PathName(r), id)];
    }

    /** `GET /crm/v3/objects/:resource`: the stored objects whose archived flag is
        the one the `archived` query parameter asks for (live objects when it is
        absent), in the Map's insertion order. */
    function List(r: ResourceType, archived: Option<string>): (results: seq<Entity>)
      reads this
      requires Valid()
      ensures forall e :: e in results <==>
        e in OrderedMaps.Values(data[r].objects) && e.archived == Requests.ArchivedFlag(archived)
      ensures Seqs.IsSubsequence(results, OrderedMaps.Values(data[r].objects))
    {
      var flag := Requests.ArchivedFlag(archived);
      Seqs.FilterMembers(ArchivedIs(flag), OrderedMaps.Values(data[r].objects));
      Seqs.FilterIsSubsequence(ArchivedIs(flag), OrderedMaps.Values(data[r].objects));
      Listing(data, r, flag)
    }

    /** Every stored object is in exactly one of the two listings: the default
        one and the one for `archived=true`. */
    lemma ListPartition(r: ResourceType)
      requires Valid()
      ensures multiset(List(r, None)) + multiset(List(r, Some("true"))) == multiset(OrderedMaps.Values(data[r].objects))
      ensures |List(r, None)| + |List(r, Some("true"))| == |data[r].list|
    {
      Seqs.FilterPartition(ArchivedIs(false), ArchivedIs(true), OrderedMaps.Values(data[r].objects));
    }

    /** A stored object shows up in the listing for its own flag and not in the other. */
    lemma ListedByFlag(r: ResourceType, id: int)
      requires Valid() && id in data[r].objects.vals
      ensures data[r].objects.vals[id] in Listing(data, r, data[r].objects.vals[id].archived)
      ensures data[r].objects.vals[id] !in Listing(data, r, !data[r].objects.vals[id].archived)
    {
      var t := data[r];
      var i :| 0 <= i < |t.objects.keys| && t.objects.keys[i] == id;
      assert OrderedMaps.Values(t.objects)[i] == t.objects.vals[id];
      Seqs.FilterMembers(ArchivedIs(true), OrderedMaps.Values(t.objects));
      Seqs.FilterMembers(ArchivedIs(false), OrderedMaps.Values(t.objects));
    }

    /** The ids of a type are listed in the order `newId` handed them out:
        strictly increasing, hence distinct, from `FirstId` up to the counter. */
    lemma IdsIncreasing(r: ResourceType)
      requires Valid()
      ensures forall i, j :: 0 <= i < j < |data[r].list| ==> data[r].list[i] < data[r].list[j]
      ensures forall i :: 0 <= i < |data[r].list| ==> FirstId <= data[r].list[i] < newIds[r]
    {
      AscendingPairs(data[r].list);
      forall i | 0 <= i < |data[r].list| ensures FirstId <= data[r].list[i] < newIds[r] {
        assert data[r].list[i] in data[r].objects.keys;
      }
    }

    /** `GET /crm/v3/objects/:resource/:resource_id`: not found when the id is
        absent or the archived flag differs from the requested one; otherwise
        the stored object, after the `associations` expansion (if requested)
        has been written into it. The expansion throws on a record without
        descriptors, after the writes made so far. */
    method Read(r: ResourceType, resourceId: string, archived: Option<string>, associations: Option<string>, pluralize: string -> string)
      returns (res: ReadResult)
      requires Valid()
      modifies this`data
      ensures Valid()
      ensures StoredId(old(data), r, resourceId).None? ==> res == NotFound && data == old(data)
      ensures StoredId(old(data), r, resourceId).Some? ==>
        var id := StoredId(old(data), r, resourceId).value;
        var e := old(data[r].objects.vals[id]);
        var flag := Requests.ArchivedFlag(archived);
        && (e.archived != flag ==> res == NotFound && data == old(data))
        && (e.archived == flag && associations.None? ==> res == Found(e) && data == old(data))
        && (e.archived == flag && associations.Some? ==>
              var x := Expand(e, Text.Split(associations.value), pluralize);
              data == Replaced(old(data), r, id, x.0) && res == (if x.1 then Found(x.0) else Crash))
    {
      var found := StoredId(data, r, resourceId);
      if found.None? {
        return NotFound;
      }
      var id := found.value;
      var entity := data[r].objects.vals[id];
      if entity.archived != Requests.ArchivedFlag(archived) {
        return NotFound;
      }
      if associations.None? {
        return Found(entity);
      }
      var current, ok := ExpandLoop(entity, Text.Split(associations.value), pluralize);
      ReplaceKeepsStateValid(data, newIds, r, id, current);
      data := Replaced(data, r, id, current);
      res := if ok then Found(current) else Crash;
    }

    /** `PATCH /crm/v3/objects/:resource/:resource_id`: merges the payload into
        the object's properties and emits one `"<singular>.propertyChange"` event
        per key whose value changed. A missing id throws before any change. */
    method Update(r: ResourceType, id: int, payload: Props) returns (updated: Option<Entity>, events: seq<Webhook.Event>)
      requires Valid() && OrderedMaps.Valid(payload)
      modifies this`data
      ensures Valid()
      ensures id !in old(data[r].objects.vals) ==> updated.None? && events == [] && data == old(data)
      ensures id in old(data[r].objects.vals) ==>
        var e := old(data[r].objects.vals[id]);
        var after := Properties.Merged(e.properties, payload);
        updated == Some(e.(properties := after)) &&
        data == Replaced(old(data), r, id, e.(properties := after)) &&
        events == Properties.ChangeEvents(customerId, GetResourceName(PathName(r)).value, id, Properties.ChangedKeys(e.properties, after))
    {
      NamesAreDistinct(r, r);
      var resourceName := GetResourceName(PathName(r)).value;
      if id !in data[r].objects.vals {
        return None, [];
      }
      var entity := data[r].objects.vals[id];
      var after := Properties.Merge(entity.properties, payload);
      var changed := entity.(properties := after);
      ReplaceKeepsStateValid(data, newIds, r, id, changed);
      data := Replaced(data, r, id, changed);
      events := Properties.PropertyChangeEvents(customerId, resourceName, id, entity.properties, after);
      updated := Some(changed);
    }

    /** `DELETE /crm/v3/objects/:resource/:resource_id`: sets `archived` and
        nothing else; the object stays in the Map and the id list. A missing id
        throws before any change. */
    method Archive(r: ResourceType, id: int) returns (ok: bool)
      requires Valid()
      modifies this`data
      ensures Valid()
      ensures ok <==> id in old(data[r].objects.vals)
      ensures !ok ==> data == old(data)
      ensures ok ==> data == ArchiveIn(old(data), r, id)
    {
      if id !in data[r].objects.vals {
        return false;
      }
      ReplaceKeepsStateValid(data, newIds, r, id, data[r].objects.vals[id].(archived := true));
      data := ArchiveIn(data, r, id);
      ok := true;
    }

    /** `GET /crm/v4/objects/:resource/:resource_id/associations/:to_object_type`:
        the compact view of every record stored under the pluralised type, in
        the order they were added, or `[]`; `None` when the id is absent (the
        handler throws). Archived objects are not masked here. */
    function Associations(r: ResourceType, id: int, toObjectType: string, pluralize: string -> string)
      : (results: Option<seq<LinkView>>)
      reads this
      requires Valid()
      ensures results.None? <==> id !in data[r].objects.vals
      ensures results.Some? ==>
        var related := Related(data[r].objects.vals[id], pluralize(toObjectType));
        |results.value| == |related| &&
        forall i :: 0 <= i < |related| ==> FromCompact(results.value[i]) == related[i]
    {
      if id !in data[r].objects.vals then None
      else
        var related := Related(data[r].objects.vals[id], pluralize(toObjectType));
        assert forall i :: 0 <= i < |related| ==> FromCompact(Compact(related[i])) == related[i] by {
          forall i | 0 <= i < |related| ensures FromCompact(Compact(related[i])) == related[i] {
            CompactRoundTrip(related[i]);
          }
        }
        Some(CompactAll(related))
    }

    /** `PUT /crm/v4/objects/:resource/:resource_id/associations/:to_object_type/:object_id`:
        appends one record to the object's list for the pluralised target type,
        with no deduplication, and echoes the raw target type. A missing id
        throws before any change. */
    method Associate(r: ResourceType, id: int, toObjectType: string, toObjectId: int,
                     specs: seq<AssociationSpec>, pluralize: string -> string)
      returns (created: Option<AssociationCreated>)
      requires Valid()
      modifies this`data
      ensures Valid()
      ensures id !in old(data[r].objects.vals) ==> created.None? && unchanged(this)
      ensures id in old(data[r].objects.vals) ==>
        data == Replaced(old(data), r, id, Link(old(data[r].objects.vals[id]), pluralize(toObjectType), Association(toObjectId, specs))) &&
        created == Some(AssociationCreated(PathName(r), id, toObjectType, toObjectId, []))
      ensures id in old(data[r].objects.vals) ==>
        Associations(r, id, toObjectType, pluralize) ==
          Some(old(Associations(r, id, toObjectType, pluralize)).value + [Compact(Association(toObjectId, specs))])
    {
      if id !in data[r].objects.vals {
        return None;
      }
      var entity := data[r].objects.vals[id];
      var linked := Link(entity, pluralize(toObjectType), Association(toObjectId, specs));
      LinkThenList(entity, pluralize(toObjectType), Association(toObjectId, specs));
      ReplaceKeepsStateValid(data, newIds, r, id, linked);
      data := Replaced(data, r, id, linked);
      created := Some(AssociationCreated(PathName(r), id, toObjectType, toObjectId, []));
    }

    /** `POST /crm/v3/objects/:resource/search`: the objects of the type that
        match the filters, archived or not, in the Map's order, and their count. */
    method Search(r: ResourceType, filters: Query.Filters) returns (response: SearchResponse)
      requires Valid()
      ensures response.total == |response.results|
      ensures response.results == Query.Matching(OrderedMaps.Values(data[r].objects), filters)
    {
      var results := Query.Search(OrderedMaps.Values(data[r].objects), filters);
      response := SearchResponse(|results|, results);
    }

    /** `GET /reset`: empties every id list and Map; the counters are not rewound. */
    method Reset()
      requires Valid()
      modifies this`data
      ensures Valid() && newIds == old(newIds)
      ensures forall r: ResourceType :: data[r] == EmptyTable()
    {
      data := Uniform(EmptyTable());
    }
  }
}
