/** The search engine of `POST /crm/v3/objects/:resource/search`: an object
    matches when some filter group holds, and a group holds when each of its
    `EQ` filters finds the property equal to the filter value. Filters with
    any other operator constrain nothing. */
module Query {
  import Seqs
  import Entities

  datatype Filter = Filter(propertyName: string, operator: string, value: string)
  datatype FilterGroup = FilterGroup(filters: seq<Filter>)
  datatype Filters = Filters(filterGroups: seq<FilterGroup>)

  /** `filter.operator !== "EQ" || properties[filter.propertyName] === filter.value`. */
  predicate FilterHolds(properties: Entities.Props, f: Filter)
  {
    f.operator != "EQ" || (f.propertyName in properties.vals && properties.vals[f.propertyName] == f.value)
  }

  predicate GroupHolds(properties: Entities.Props, g: FilterGroup)
  {
    forall f :: f in g.filters ==> FilterHolds(properties, f)
  }

  predicate Matches(properties: Entities.Props, filters: Filters)
  {
    exists g :: g in filters.filterGroups && GroupHolds(properties, g)
  }

  function Selects(filters: Filters): Entities.Entity -> bool
  {
    (e: Entities.Entity) => Matches(e.properties, filters)
  }

  /** The matching objects, in the order they are enumerated. */
  function Matching(entities: seq<Entities.Entity>, filters: Filters): seq<Entities.Entity>
  {
    Seqs.Filter(Selects(filters), entities)
  }

  /** The nested loops of the search handler. */
  method Search(entities: seq<Entities.Entity>, filters: Filters) returns (results: seq<Entities.Entity>)
    ensures results == Matching(entities, filters)
  {
    results := [];
    var i := 0;
    while i < |entities|
      invariant 0 <= i <= |entities|
      invariant results == Seqs.Filter(Selects(filters), entities[..i])
    {
      var entity := entities[i];
      var add := false;
      var j := 0;
      while j < |filters.filterGroups|
        invariant 0 <= j <= |filters.filterGroups|
        invariant add <==> exists g :: g in filters.filterGroups[..j] && GroupHolds(entity.properties, g)
      {
        var filterGroup := filters.filterGroups[j];
        var group := true;
        var k := 0;
        while k < |filterGroup.filters|
          invariant 0 <= k <= |filterGroup.filters|
          invariant group <==> forall f :: f in filterGroup.filters[..k] ==> FilterHolds(entity.properties, f)
        {
          var filter := filterGroup.filters[k];
          ghost var wasGroup := group;
          if filter.operator == "EQ" {
            if filter.propertyName !in entity.properties.vals || entity.properties.vals[filter.propertyName] != filter.value {
              group := false;
            }
          }
          assert group == (wasGroup && FilterHolds(entity.properties, filter));
          assert filterGroup.filters[..k + 1] == filterGroup.filters[..k] + [filter];
          k := k + 1;
        }
        assert filterGroup.filters[..k] == filterGroup.filters;
        assert group == GroupHolds(entity.properties, filterGroup);
        assert filters.filterGroups[..j + 1] == filters.filterGroups[..j] + [filterGroup];
        add := add || group;
        j := j + 1;
      }
      assert filters.filterGroups[..j] == filters.filterGroups;
      Seqs.FilterSnoc(Selects(filters), entities[..i], entity);
      assert entities[..i + 1] == entities[..i] + [entity];
      if add {
        results := results + [entity];
      }
      i := i + 1;
    }
    assert entities[..i] == entities;
  }

  /** An object is found exactly when it is stored and matches; results keep the
      store's order; every stored object is either found or not found. */
  lemma SearchResults(entities: seq<Entities.Entity>, filters: Filters)
    ensures forall e :: e in Matching(entities, filters) <==> e in entities && Matches(e.properties, filters)
    ensures Seqs.IsSubsequence(Matching(entities, filters), entities)
    ensures |Matching(entities, filters)| <= |entities|
  {
    Seqs.FilterMembers(Selects(filters), entities);
    Seqs.FilterIsSubsequence(Selects(filters), entities);
    Seqs.FilterPartition(Selects(filters), (e: Entities.Entity) => !Selects(filters)(e), entities);
  }

  /** No filter group: nothing matches. */
  lemma {:induction false} NoGroupsMatchNothing(entities: seq<Entities.Entity>)
    ensures Matching(entities, Filters([])) == []
  {
    if entities != [] {
      NoGroupsMatchNothing(entities[1..]);
    }
  }

  /** A group without filters: everything matches, in store order. */
  lemma EmptyGroupMatchesAll(entities: seq<Entities.Entity>, filters: Filters)
    requires FilterGroup([]) in filters.filterGroups
    ensures Matching(entities, filters) == entities
  {
    if entities != [] {
      assert GroupHolds(entities[0].properties, FilterGroup([]));
      EmptyGroupMatchesAll(entities[1..], filters);
    }
  }

  /** Dropping every filter whose operator is not `EQ` changes no verdict. */
  function EqOnly(g: FilterGroup): FilterGroup
  {
    FilterGroup(Seqs.Filter((f: Filter) => f.operator == "EQ", g.filters))
  }

  lemma OnlyEqConstrains(properties: Entities.Props, filters: Filters)
    ensures Matches(properties, filters) <==>
      exists g :: g in filters.filterGroups && GroupHolds(properties, EqOnly(g))
  {
    forall g | g in filters.filterGroups ensures GroupHolds(properties, g) <==> GroupHolds(properties, EqOnly(g)) {
      Seqs.FilterMembers((f: Filter) => f.operator == "EQ", g.filters);
    }
  }

  /** The two-group example: `name EQ "A"` or `name EQ "B"` finds "A" and "B" but not "C". */
  lemma {:induction false} DisjunctionExample(props: Entities.Props)
    requires "name" in props.vals
    ensures var filters := Filters([FilterGroup([Filter("name", "EQ", "A")]), FilterGroup([Filter("name", "EQ", "B")])]);
      Matches(props, filters) <==> props.vals["name"] == "A" || props.vals["name"] == "B"
  {
    var g1 := FilterGroup([Filter("name", "EQ", "A")]);
    var g2 := FilterGroup([Filter("name", "EQ", "B")]);
    assert GroupHolds(props, g1) <==> props.vals["name"] == "A" by {
      assert g1.filters[0] in g1.filters;
    }
    assert GroupHolds(props, g2) <==> props.vals["name"] == "B" by {
      assert g2.filters[0] in g2.filters;
    }
    assert g1 in [g1, g2] && g2 in [g1, g2];
  }
}
