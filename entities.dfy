/** The stored objects: the record a create builds, the association records an
    association PUT appends to it, and the two projections of those records (the
    compact view of the v4 association listing and the `{id, type}` view that a
    read with `?associations=` writes into the object). */
module Entities {
  import opened Wrappers
  import OrderedMaps
  import Text

  /** A property bag (`properties`): property names to values, in key order. */
  type Props = OrderedMaps.OMap<string, string>

  /** One element of an association PUT body. */
  datatype AssociationSpec = AssociationSpec(associationCategory: string, associationTypeId: int)

  /** `new Association(toObjectId, associationTypes)`. */
  datatype Association = Association(toObjectId: int, associationTypes: seq<AssociationSpec>)

  /** An entry of the expanded view: `{id, type}`. */
  datatype Expanded = Expanded(id: int, category: string)

  /** An entry of the compact view: `{toObjectId, associationTypes: [{category, typeId}]}`. */
  datatype TypeView = TypeView(category: string, typeId: int)
  datatype LinkView = LinkView(toObjectId: int, associationTypes: seq<TypeView>)

  /** A stored object. `links` holds the fields an association PUT adds, keyed
      by the pluralised target type; `associations` is the summary a read with
      expansion leaves behind in the object. */
  datatype Entity = Entity(
    id: string,
    createdAt: string,
    updatedAt: string,
    archived: bool,
    properties: Props,
    links: map<string, seq<Association>>,
    associations: Option<map<string, seq<Expanded>>>)

  /** A create request body: its `properties`, and the fields of the defaults it may override. */
  datatype CreateBody = CreateBody(
    properties: Props,
    id: Option<string>,
    createdAt: Option<string>,
    updatedAt: Option<string>,
    archived: Option<bool>)

  /** `{id: id.toString(), createdAt: ts, updatedAt: ts, archived: false, ...body}`. */
  function MakeEntity(id: nat, ts: string, body: CreateBody): (e: Entity)
    ensures e.properties == body.properties
    ensures e.archived <==> body.archived == Some(true)
    ensures body.createdAt.None? && body.updatedAt.None? ==> e.createdAt == e.updatedAt == ts
    ensures body.id.None? ==> Text.ParseInt(e.id) == Some(id)
    ensures body.id.Some? ==> e.id == body.id.value
    ensures e.links == map[] && e.associations.None?
  {
    Text.ParseIntOfNatToString(id);
    Entity(
      body.id.GetOr(Text.NatToString(id)),
      body.createdAt.GetOr(ts),
      body.updatedAt.GetOr(ts),
      body.archived.GetOr(false),
      body.properties,
      map[],
      None)
  }

  /** `entity[key] ?? []`. */
  function Related(e: Entity, key: string): seq<Association>
  {
    if key in e.links then e.links[key] else []
  }

  /** The record's view in the v4 association listing: the same target and
      descriptors, with the descriptor fields renamed. */
  function Compact(a: Association): (v: LinkView)
    ensures v.toObjectId == a.toObjectId && |v.associationTypes| == |a.associationTypes|
    ensures forall i :: 0 <= i < |a.associationTypes| ==>
      v.associationTypes[i].category == a.associationTypes[i].associationCategory &&
      v.associationTypes[i].typeId == a.associationTypes[i].associationTypeId
  {
    LinkView(a.toObjectId,
      seq(|a.associationTypes|, i requires 0 <= i < |a.associationTypes| =>
        TypeView(a.associationTypes[i].associationCategory, a.associationTypes[i].associationTypeId)))
  }

  function CompactAll(related: seq<Association>): (vs: seq<LinkView>)
    ensures |vs| == |related|
    ensures forall i :: 0 <= i < |related| ==> vs[i] == Compact(related[i])
  {
    seq(|related|, i requires 0 <= i < |related| => Compact(related[i]))
  }

  /** The association PUT's write: `entity[key] = [...(entity[key] ?? []), record]`.
      The record goes last, with no deduplication; every other key keeps its
      records and nothing else in the object changes. */
  function Link(e: Entity, key: string, a: Association): (r: Entity)
    ensures Related(r, key) == Related(e, key) + [a]
    ensures forall k :: k != key ==> Related(r, k) == Related(e, k)
    ensures r == e.(links := r.links)
  {
    e.(links := e.links[key := Related(e, key) + [a]])
  }

  /** The listing after an association PUT is the listing before it with the
      new record's compact view at the end. */
  lemma LinkThenList(e: Entity, key: string, a: Association)
    ensures CompactAll(Related(Link(e, key, a), key)) == CompactAll(Related(e, key)) + [Compact(a)]
  {
  }

  /** The record a compact view was made from. */
  function FromCompact(v: LinkView): Association
  {
    Association(v.toObjectId,
      seq(|v.associationTypes|, i requires 0 <= i < |v.associationTypes| =>
        AssociationSpec(v.associationTypes[i].category, v.associationTypes[i].typeId)))
  }

  /** The compact view loses nothing: every record can be recovered from it. */
  lemma CompactRoundTrip(a: Association)
    ensures FromCompact(Compact(a)) == a
  {
    assert FromCompact(Compact(a)).associationTypes == a.associationTypes;
  }

  /** `{id: toObjectId, type: associationTypes[0].associationCategory}` for each
      record; `None` when some record has no descriptor (indexing an empty
      array gives `undefined`, and reading a field of it throws). */
  function ExpandedView(related: seq<Association>): (r: Option<seq<Expanded>>)
    ensures r.Some? <==> forall a :: a in related ==> |a.associationTypes| > 0
    ensures r.Some? ==> |r.value| == |related| && forall i :: 0 <= i < |related| ==>
      r.value[i].id == related[i].toObjectId && r.value[i].category == related[i].associationTypes[0].associationCategory
  {
    if related == [] then Some([])
    else if |related[0].associationTypes| == 0 then None
    else
      match ExpandedView(related[1..])
      case None => None
      case Some(rest) =>
        Some([Expanded(related[0].toObjectId, related[0].associationTypes[0].associationCategory)] + rest)
  }

  /** The summary already written into an object, or `{}`. */
  function Summary(e: Entity): map<string, seq<Expanded>>
  {
    if e.associations.Some? then e.associations.value else map[]
  }

  /** One iteration of the expansion loop for the pluralised name `key`: nothing
      when no record is stored there; otherwise create the summary if missing,
      then store the expanded view under `key`, or fail (the throw) after the
      summary was created. */
  function ExpandOne(e: Entity, key: string): (r: (Entity, bool))
  {
    var related := Related(e, key);
    if |related| == 0 then (e, true)
    else
      match ExpandedView(related)
      case None => (e.(associations := Some(Summary(e))), false)
      case Some(view) => (e.(associations := Some(Summary(e)[key := view])), true)
  }

  /** The whole expansion loop over the requested names: the object it leaves
      behind, and whether it ran to the end without throwing. Only the summary
      can change. */
  function Expand(e: Entity, names: seq<string>, pluralize: string -> string): (r: (Entity, bool))
    ensures r.0 == e.(associations := r.0.associations)
    decreases |names|
  {
    if names == [] then (e, true)
    else
      var step := ExpandOne(e, pluralize(names[0]));
      if !step.1 then step else Expand(step.0, names[1..], pluralize)
  }

  /** The expansion loop of the read handler, run over a copy of the object:
      it stops at the first record list that throws. */
  method ExpandLoop(e: Entity, names: seq<string>, pluralize: string -> string)
    returns (current: Entity, ok: bool)
    ensures (current, ok) == Expand(e, names, pluralize)
  {
    current := e;
    ok := true;
    var i := 0;
    while i < |names| && ok
      invariant 0 <= i <= |names|
      invariant Expand(e, names, pluralize) == (if ok then Expand(current, names[i..], pluralize) else (current, false))
    {
      var key := pluralize(names[i]);
      var related := Related(current, key);
      ghost var was := current;
      if |related| > 0 {
        if current.associations.None? {
          current := current.(associations := Some(map[]));
        }
        var view := ExpandedView(related);
        if view.None? {
          ok := false;
        } else {
          current := current.(associations := Some(current.associations.value[key := view.value]));
        }
      }
      assert ExpandOne(was, key) == (current, ok);
      assert names[i..][1..] == names[i + 1..];
      i := i + 1;
    }
  }

  predicate Faulty(related: seq<Association>)
  {
    exists a :: a in related && |a.associationTypes| == 0
  }

  /** The expansion throws exactly when one of the requested names leads to a
      record that carries no descriptor. */
  lemma {:induction false} ExpandFails(e: Entity, names: seq<string>, pluralize: string -> string)
    ensures !Expand(e, names, pluralize).1 <==>
      exists i :: 0 <= i < |names| && Faulty(Related(e, pluralize(names[i])))
    decreases |names|
  {
    if names != [] {
      var step := ExpandOne(e, pluralize(names[0]));
      if step.1 {
        ExpandFails(step.0, names[1..], pluralize);
        assert forall i :: 0 < i < |names| ==> names[1..][i - 1] == names[i];
        assert forall k :: Related(step.0, k) == Related(e, k);
      }
    }
  }

  /** The summary is present afterwards exactly when it was before or some
      requested name has stored records: an expansion adds a key only for a
      non-empty association list. */
  lemma {:induction false} ExpandCreatesSummary(e: Entity, names: seq<string>, pluralize: string -> string)
    ensures Expand(e, names, pluralize).0.associations.Some? <==>
      e.associations.Some? || exists i :: 0 <= i < |names| && |Related(e, pluralize(names[i]))| > 0
    decreases |names|
  {
    if names != [] {
      var step := ExpandOne(e, pluralize(names[0]));
      if step.1 {
        ExpandCreatesSummary(step.0, names[1..], pluralize);
        assert forall i :: 0 < i < |names| ==> names[1..][i - 1] == names[i];
        assert forall k :: Related(step.0, k) == Related(e, k);
      }
    }
  }

  /** After an expansion that did not throw, every requested name with stored
      records maps, under its pluralised key, to the expanded view of those
      records; every other key of the summary is as it was. */
  lemma {:induction false} ExpandWrites(e: Entity, names: seq<string>, pluralize: string -> string)
    requires Expand(e, names, pluralize).1
    ensures forall n :: n in names && |Related(e, pluralize(n))| > 0 ==>
      pluralize(n) in Summary(Expand(e, names, pluralize).0) &&
      Some(Summary(Expand(e, names, pluralize).0)[pluralize(n)]) == ExpandedView(Related(e, pluralize(n)))
    ensures forall k :: k in Summary(Expand(e, names, pluralize).0) ==>
      (k in Summary(e) && Summary(Expand(e, names, pluralize).0)[k] == Summary(e)[k]) ||
      (exists n :: n in names && pluralize(n) == k && |Related(e, k)| > 0)
    decreases |names|
  {
    if names != [] {
      var step := ExpandOne(e, pluralize(names[0]));
      assert forall k :: Related(step.0, k) == Related(e, k);
      ExpandWrites(step.0, names[1..], pluralize);
      var final := Summary(Expand(e, names, pluralize).0);
      assert Expand(e, names, pluralize) == Expand(step.0, names[1..], pluralize);
      forall n | n in names && |Related(e, pluralize(n))| > 0
        ensures pluralize(n) in final && Some(final[pluralize(n)]) == ExpandedView(Related(e, pluralize(n)))
      {
        if n !in names[1..] {
          assert n == names[0];
          ExpandKeepsKey(step.0, names[1..], pluralize, pluralize(n));
        }
      }
      forall k | k in final
        ensures (k in Summary(e) && final[k] == Summary(e)[k]) ||
                (exists n :: n in names && pluralize(n) == k && |Related(e, k)| > 0)
      {
        if !(exists n :: n in names[1..] && pluralize(n) == k && |Related(e, k)| > 0) {
          if k == pluralize(names[0]) && |Related(e, k)| > 0 {
            assert names[0] in names;
          }
        }
      }
    }
  }

  /** A key keeps its value when every later write to it stores that same value. */
  lemma {:induction false} ExpandKeepsKey(e: Entity, names: seq<string>, pluralize: string -> string, k: string)
    requires k in Summary(e)
    requires forall n :: n in names && pluralize(n) == k && |Related(e, k)| > 0 ==>
      ExpandedView(Related(e, k)) == Some(Summary(e)[k])
    ensures k in Summary(Expand(e, names, pluralize).0)
    ensures Summary(Expand(e, names, pluralize).0)[k] == Summary(e)[k]
    decreases |names|
  {
    if names != [] {
      var step := ExpandOne(e, pluralize(names[0]));
      assert forall j :: Related(step.0, j) == Related(e, j);
      if step.1 {
        assert names[0] in names;
        forall n | n in names[1..] && pluralize(n) == k && |Related(step.0, k)| > 0
          ensures ExpandedView(Related(step.0, k)) == Some(Summary(step.0)[k])
        {
          assert n in names;
        }
        ExpandKeepsKey(step.0, names[1..], pluralize, k);
      }
    }
  }
}
