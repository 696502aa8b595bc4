/** Notification events and `webhook.send`. The outbound HTTP POST is not
    modelled: `Send` gives the batch that would be posted, stamped with the
    application id, or `None` when no webhook URL is configured. */
module Webhook {
  import opened Wrappers

  /** `{portalId, subscriptionType, objectId[, propertyName][, appId]}`. */
  datatype Event = Event(
    portalId: int,
    subscriptionType: string,
    objectId: int,
    propertyName: Option<string>,
    appId: Option<int>)

  /** The event a create emits: `"<resources>.creation"`, named by the plural path segment. */
  function Creation(portalId: int, resources: string, objectId: int): (e: Event)
    ensures e.subscriptionType == resources + ".creation"
    ensures e.objectId == objectId && e.propertyName.None? && e.appId.None?
  {
    Event(portalId, resources + ".creation", objectId, None, None)
  }

  /** The event an update emits for one changed property: `"<singular>.propertyChange"`. */
  function PropertyChange(portalId: int, singular: string, objectId: int, property: string): (e: Event)
    ensures e.subscriptionType == singular + ".propertyChange"
    ensures e.objectId == objectId && e.propertyName == Some(property) && e.appId.None?
  {
    Event(portalId, singular + ".propertyChange", objectId, Some(property), None)
  }

  function Stamp(events: seq<Event>, appId: int): seq<Event>
  {
    if events == [] then [] else [events[0].(appId := Some(appId))] + Stamp(events[1..], appId)
  }

  /** `webhook.send(events)`: nothing is sent without a URL; otherwise one batch
      holding every event, in order, each with `appId` set and all else kept. */
  function Send(url: Option<string>, appId: int, events: seq<Event>): (batch: Option<seq<Event>>)
    ensures batch.None? <==> url.None?
    ensures batch.Some? ==> |batch.value| == |events|
    ensures batch.Some? ==> forall i :: 0 <= i < |events| ==>
      batch.value[i].appId == Some(appId) && batch.value[i].(appId := events[i].appId) == events[i]
  {
    if url.None? then None
    else
      StampKeepsEvents(events, appId);
      Some(Stamp(events, appId))
  }

  lemma {:induction false} StampKeepsEvents(events: seq<Event>, appId: int)
    ensures |Stamp(events, appId)| == |events|
    ensures forall i :: 0 <= i < |events| ==> Stamp(events, appId)[i] == events[i].(appId := Some(appId))
  {
    if events != [] {
      StampKeepsEvents(events[1..], appId);
      forall i | 0 < i < |events|
        ensures Stamp(events, appId)[i] == events[i].(appId := Some(appId))
      {
        assert events[1..][i - 1] == events[i];
      }
    }
  }
}
