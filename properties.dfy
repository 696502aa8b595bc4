/** The partial update of an object's property bag: the merge
    `after = {...before}; after[p] = payload[p] for each payload key`, and the
    change detection `after[p] !== before[p]` that yields one property-change
    event per changed key. */
module Properties {
  import Wrappers
  import Seqs
  import OrderedMaps
  import Webhook
  import Entities

  type Props = Entities.Props

  function IsNewKey(before: map<string, string>): string -> bool
  {
    k => k !in before
  }

  /** The merged bag: the old keys in their order, then the payload's new keys in
      the payload's order; a payload value wins over the old one. */
  function Merged(before: Props, payload: Props): Props
  {
    OrderedMaps.OMap(before.keys + Seqs.Filter(IsNewKey(before.vals), payload.keys), before.vals + payload.vals)
  }

  lemma {:induction false} MergedValid(before: Props, payload: Props)
    requires OrderedMaps.Valid(before) && OrderedMaps.Valid(payload)
    ensures OrderedMaps.Valid(Merged(before, payload))
  {
    var added := Seqs.Filter(IsNewKey(before.vals), payload.keys);
    Seqs.FilterMembers(IsNewKey(before.vals), payload.keys);
    Seqs.FilterDistinct(IsNewKey(before.vals), payload.keys);
    var keys := before.keys + added;
    forall i, j | 0 <= i < j < |keys| ensures keys[i] != keys[j] {
      if j >= |before.keys| && i < |before.keys| {
        assert keys[j] in added;
        assert keys[i] in before.keys;
      } else if i >= |before.keys| {
        assert keys[i] == added[i - |before.keys|] && keys[j] == added[j - |before.keys|];
      }
    }
  }

  /** `after[p] !== before[p]` for a key `p` of `after`, where a missing key reads as `undefined`. */
  function DiffersAt(before: map<string, string>, after: map<string, string>): string -> bool
  {
    p => p !in before || p !in after || before[p] != after[p]
  }

  /** The keys of `after`, in its order, whose value differs from the old one. */
  function ChangedKeys(before: Props, after: Props): seq<string>
  {
    Seqs.Filter(DiffersAt(before.vals, after.vals), after.keys)
  }

  function ChangeEvents(portalId: int, singular: string, objectId: int, keys: seq<string>): (events: seq<Webhook.Event>)
    ensures |events| == |keys|
    ensures forall i :: 0 <= i < |keys| ==>
      events[i].subscriptionType == singular + ".propertyChange" && events[i].portalId == portalId &&
      events[i].objectId == objectId && events[i].propertyName == Wrappers.Some(keys[i])
  {
    seq(|keys|, i requires 0 <= i < |keys| => Webhook.PropertyChange(portalId, singular, objectId, keys[i]))
  }

  /** The first `i` entries of a bag. */
  function Prefix(m: Props, i: nat): (r: Props)
    requires OrderedMaps.Valid(m) && i <= |m.keys|
  {
    OrderedMaps.OMap(m.keys[..i], map k | k in m.keys[..i] :: m.vals[k])
  }

  lemma UnionUpdate(a: map<string, string>, b: map<string, string>, k: string, v: string)
    ensures a + b[k := v] == (a + b)[k := v]
  {
  }

  lemma PrefixStep(payload: Props, i: nat)
    requires OrderedMaps.Valid(payload) && i < |payload.keys|
    ensures payload.keys[i] !in payload.keys[..i]
    ensures Prefix(payload, i + 1).keys == Prefix(payload, i).keys + [payload.keys[i]]
    ensures Prefix(payload, i + 1).vals == Prefix(payload, i).vals[payload.keys[i] := payload.vals[payload.keys[i]]]
  {
    var prop := payload.keys[i];
    assert prop !in payload.keys[..i] by {
      forall j | 0 <= j < i ensures payload.keys[j] != prop { }
    }
    assert payload.keys[..i + 1] == payload.keys[..i] + [prop];
    var p0 := Prefix(payload, i).vals;
    var p1 := Prefix(payload, i + 1).vals;
    forall k ensures k in p1 <==> k in p0[prop := payload.vals[prop]] {
      assert k in payload.keys[..i + 1] <==> k in payload.keys[..i] || k == prop;
    }
  }

  /** Before the first iteration nothing is merged; after the last, all of the payload is. */
  lemma PrefixEnds(before: Props, payload: Props)
    requires OrderedMaps.Valid(payload)
    ensures Merged(before, Prefix(payload, 0)) == before
    ensures Prefix(payload, |payload.keys|) == payload
  {
    assert payload.keys[..|payload.keys|] == payload.keys;
    assert before.keys + [] == before.keys;
  }

  /** One more iteration of the merge loop is one more `Put`. */
  lemma MergedStep(before: Props, payload: Props, i: nat)
    requires OrderedMaps.Valid(before) && OrderedMaps.Valid(payload) && i < |payload.keys|
    requires OrderedMaps.Valid(Merged(before, Prefix(payload, i)))
    ensures Merged(before, Prefix(payload, i + 1)) ==
      OrderedMaps.Put(Merged(before, Prefix(payload, i)), payload.keys[i], payload.vals[payload.keys[i]])
  {
    var prop := payload.keys[i];
    var v := payload.vals[prop];
    var p0 := Prefix(payload, i);
    var p1 := Prefix(payload, i + 1);
    var m0 := Merged(before, p0);
    PrefixStep(payload, i);
    assert prop !in p0.vals;
    var added := Seqs.Filter(IsNewKey(before.vals), p0.keys);
    var tail := if prop in before.vals then [] else [prop];
    Seqs.FilterSnoc(IsNewKey(before.vals), p0.keys, prop);
    assert IsNewKey(before.vals)(prop) == (prop !in before.vals);
    assert Seqs.Filter(IsNewKey(before.vals), p1.keys) == added + tail;
    assert before.keys + (added + tail) == m0.keys + tail;
    UnionUpdate(before.vals, p0.vals, prop, v);
    assert Merged(before, p1).vals == m0.vals[prop := v];
  }

  /** The merge loop. */
  method Merge(before: Props, payload: Props) returns (after: Props)
    requires OrderedMaps.Valid(before) && OrderedMaps.Valid(payload)
    ensures OrderedMaps.Valid(after)
    ensures after.vals == before.vals + payload.vals
    ensures after == Merged(before, payload)
  {
    after := before;
    var i := 0;
    PrefixEnds(before, payload);
    while i < |payload.keys|
      invariant 0 <= i <= |payload.keys|
      invariant OrderedMaps.Valid(after)
      invariant after == Merged(before, Prefix(payload, i))
    {
      MergedStep(before, payload, i);
      var prop := payload.keys[i];
      after := OrderedMaps.Put(after, prop, payload.vals[prop]);
      i := i + 1;
    }
  }

  /** The notification loop: one property-change event per key of `after`
      whose value differs from the old one, in `after`'s key order. */
  method PropertyChangeEvents(portalId: int, singular: string, objectId: int, before: Props, after: Props)
    returns (events: seq<Webhook.Event>)
    requires OrderedMaps.Valid(after)
    ensures events == ChangeEvents(portalId, singular, objectId, ChangedKeys(before, after))
  {
    events := [];
    var i := 0;
    while i < |after.keys|
      invariant 0 <= i <= |after.keys|
      invariant events == ChangeEvents(portalId, singular, objectId, Seqs.Filter(DiffersAt(before.vals, after.vals), after.keys[..i]))
    {
      var prop := after.keys[i];
      Seqs.FilterSnoc(DiffersAt(before.vals, after.vals), after.keys[..i], prop);
      assert after.keys[..i + 1] == after.keys[..i] + [prop];
      if prop !in before.vals || after.vals[prop] != before.vals[prop] {
        events := events + [Webhook.PropertyChange(portalId, singular, objectId, prop)];
      }
      i := i + 1;
    }
    assert after.keys[..i] == after.keys;
  }

  /** The merge sets every payload key to its payload value, keeps every other
      property as it was, and keeps the old keys' order. */
  lemma MergeSemantics(before: Props, payload: Props, k: string)
    requires OrderedMaps.Valid(before) && OrderedMaps.Valid(payload)
    ensures k in payload.vals ==> k in Merged(before, payload).vals && Merged(before, payload).vals[k] == payload.vals[k]
    ensures k !in payload.vals ==> (k in Merged(before, payload).vals <==> k in before.vals)
    ensures k !in payload.vals && k in before.vals ==> Merged(before, payload).vals[k] == before.vals[k]
    ensures Merged(before, payload).keys[..|before.keys|] == before.keys
  {
  }

  /** An update reports a key exactly when the payload sets it to a value other
      than its old one (a key the object lacked counts as changed), and reports
      each such key once. */
  lemma {:induction false} UpdateReportsChanges(before: Props, payload: Props)
    requires OrderedMaps.Valid(before) && OrderedMaps.Valid(payload)
    ensures forall p :: p in ChangedKeys(before, Merged(before, payload)) <==>
      p in payload.vals && (p !in before.vals || before.vals[p] != payload.vals[p])
    ensures Seqs.Distinct(ChangedKeys(before, Merged(before, payload)))
  {
    var after := Merged(before, payload);
    MergedValid(before, payload);
    Seqs.FilterMembers(DiffersAt(before.vals, after.vals), after.keys);
    Seqs.FilterDistinct(DiffersAt(before.vals, after.vals), after.keys);
  }
}
