/**
 The proxy's subscription to its source (custom_components/reverse_cover/cover.py,
 `async_added_to_hass` and `_handle_source_event`): state-change events are
 filtered to the source's entity id, and each one that gets through makes
 the proxy write its derived properties again.
 */
module Subscription {
  import opened Optional
  import opened CoverStates
  import opened ReverseCover

  /** A state-change event: which entity changed and its new entry in the
      store, `None` when the entity was removed. */
  datatype StateChanged = StateChanged(entity: EntityId, newState: Option<SourceState>)

  /** What one write of the proxy's state carries: every derived property,
      read while the store holds the event's new entry. */
  datatype Published = Published(
    available: bool,
    state: Option<string>,
    position: Option<int>,
    opening: Option<bool>,
    closing: Option<bool>)

  /** A write is self-consistent: the proxy is available exactly when its
      state and flags are defined, the flags agree with the state, and at
      most one of them is set. */
  predicate Consistent(p: Published) {
    && (p.available <==> p.state.Some?)
    && (p.available <==> p.opening.Some?)
    && (p.available <==> p.closing.Some?)
    && (!p.available ==> p.position.None?)
    && (p.opening == Some(true) <==> p.state == Some(Opening))
    && (p.closing == Some(true) <==> p.state == Some(Closing))
    && !(p.opening == Some(true) && p.closing == Some(true))
  }

  /** The properties the proxy writes for one entry of its source. */
  function Publish(snap: Option<SourceState>): (p: Published)
    ensures Consistent(p)
    ensures p.available <==> snap.Some?
  {
    Published(Available(snap), State(snap), CurrentPosition(snap), IsOpening(snap), IsClosing(snap))
  }

  /** The writes a proxy for `source` makes over a history of events, in
      order: one per event of the source, none for any other entity. */
  function Republish(source: EntityId, events: seq<StateChanged>): (out: seq<Published>)
    ensures |out| <= |events|
    ensures forall i :: 0 <= i < |out| ==> Consistent(out[i])
    ensures (forall i :: 0 <= i < |events| ==> events[i].entity != source) ==> out == []
    ensures (forall i :: 0 <= i < |events| ==> events[i].entity == source) ==>
              |out| == |events| && forall i :: 0 <= i < |out| ==> out[i] == Publish(events[i].newState)
    decreases |events|
  {
    if events == [] then []
    else
      var rest := Republish(source, events[1..]);
      if events[0].entity == source then [Publish(events[0].newState)] + rest else rest
  }

  /** Writes follow the events: a history split in two is published as the
      two halves, one after the other. */
  lemma {:induction false} RepublishAppend(source: EntityId, a: seq<StateChanged>, b: seq<StateChanged>)
    ensures Republish(source, a + b) == Republish(source, a) + Republish(source, b)
    decreases |a|
  {
    if a == [] {
      assert a + b == b;
    } else {
      assert (a + b)[1..] == a[1..] + b;
      RepublishAppend(source, a[1..], b);
    }
  }

  /** An event of another entity never reaches the proxy. */
  lemma OtherEntityEventIgnored(source: EntityId, events: seq<StateChanged>, e: StateChanged)
    requires e.entity != source
    ensures Republish(source, events + [e]) == Republish(source, events)
  {
    RepublishAppend(source, events, [e]);
  }

  /** An event of the source makes exactly one more write, carrying the
      properties derived from its new entry. */
  lemma SourceEventPublished(source: EntityId, events: seq<StateChanged>, e: StateChanged)
    requires e.entity == source
    ensures Republish(source, events + [e]) == Republish(source, events) + [Publish(e.newState)]
  {
    RepublishAppend(source, events, [e]);
  }

  /** The states a proxy publishes over a history of its source, inverted
      once more, are the states the source itself went through. */
  lemma RepublishedStatesInvertBack(source: EntityId, events: seq<StateChanged>)
    requires forall i :: 0 <= i < |events| ==> events[i].entity == source && events[i].newState.Some?
    ensures |Republish(source, events)| == |events|
    ensures forall i :: 0 <= i < |events| ==>
              var s := Republish(source, events)[i].state;
              s.Some? && InvertState(s.value) == events[i].newState.value.state
  {
  }
}
