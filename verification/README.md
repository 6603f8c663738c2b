# Reverse Cover, modelled in Dafny

Reverse Cover is a Home Assistant integration. It creates a proxy cover entity that mirrors
one existing "source" cover upside down. An open source is reported as closed, a closing
source as opening, and position `p` as `100 - p`. Commands sent to the proxy are turned into
the opposite commands on the source.

This project models the proxy entity as pure functions. Their input is an optional snapshot
of the source's entry in the host's state store: the raw state string plus an optional
integer `current_position`. It proves the properties the proxy relies on:

- the inversion table is an involution and passes every other state through;
- positions are reflected and stay in range;
- the motion flags are exclusive and agree with the derived state;
- an absent source makes the proxy unavailable and every derived property `None`;
- each command becomes exactly one mirrored service call to the source, and a set-position
  without a position becomes none;
- two reverse covers stacked on each other cancel out;
- the unique id identifies its source.

Files and modules:

- `states.dfy`: `CoverStates` holds the four state strings, the inversion table `StateMap`
  and `InvertState`. `StateKinds` is an independent typed enum of those states and serves
  as the reference definition for the inversion.
- `proxy.dfy`: `Optional` (Python's `None`) and `ReverseCover`, which holds the source
  snapshot, the store lookup and the derived properties `available`,
  `current_cover_position`, `state`, `is_opening` and `is_closing`.
- `commands.dfy`: `Commands` models the inbound requests, the cover services and the
  forwarded `ServiceCall` value. That value stands in for `hass.services.async_call`.
- `identity.dfy`: `Identity` builds the unique id and the entity name, and holds their
  inverse.
- `subscription.dfy`: `Subscription` covers the state-change subscription filtered to the
  source, and the sequence of property writes it causes over a history of events.

The four state strings are the host platform's values (`"open"`, `"closed"`, `"opening"`,
`"closing"`). `cover.py` imports them from the host, so the proofs rely only on their
distinctness.

A source entry is never falsy in the host, so the code's `if not state` is modelled as
"the store has no entry".

When the source is absent, `available` is `False` and the other derived properties return
`None`. The host then shows the entity as unavailable. The model returns the same values
as the code and leaves the host's rendering out.

Stacking two reverse covers (`Commands.StackedProxiesCancel`) assumes how the host
dispatches services. A call to `open_cover`, `close_cover`, `stop_cover` or
`set_cover_position` with a position reaches the matching handler of the target cover, with
`position` passed through. `Commands.Received` encodes that assumption.

## Model

| member | source | states |
|---|---|---|
| CoverStates.InvertState | custom_components/reverse_cover/cover.py:23-28 | open and closed swap, opening and closing swap (each as an if-and-only-if), any state outside the table is returned unchanged, and table states stay in the table |
| CoverStates.InvertStateInvolution | custom_components/reverse_cover/cover.py:23-28 | inverting any state twice gives it back |
| CoverStates.InvertStateInjective | custom_components/reverse_cover/cover.py:23-28 | two source states are reported alike exactly when they are equal |
| CoverStates.InvertStateFixedPoints | custom_components/reverse_cover/cover.py:94 | a state is reported unchanged exactly when it is not one of the four table states |
| StateKinds.InvertStateIsReverse | custom_components/reverse_cover/cover.py:23-28 | the table lookup equals an independent reading: parse into a typed state, reverse physically, render back |
| StateKinds.ParseRender | custom_components/reverse_cover/cover.py:23-28 | the typed reading loses nothing: parsing a rendered valid state gives it back |
| ReverseCover.Lookup | custom_components/reverse_cover/cover.py:62-63 | the snapshot is present exactly when the store holds the source id, and is then the stored entry |
| ReverseCover.Available | custom_components/reverse_cover/cover.py:61-63 | the proxy is available exactly when its state and both flags are defined; an unavailable proxy also has no position |
| ReverseCover.AvailableIffInStore | custom_components/reverse_cover/cover.py:61-63 | the proxy is available exactly when the store holds the source |
| ReverseCover.OtherEntitiesIrrelevant | custom_components/reverse_cover/cover.py:62-63 | changing another entity's entry leaves the source's snapshot, and so every derived property, unchanged |
| ReverseCover.ReflectPosition | custom_components/reverse_cover/cover.py:73 | the reported and source positions sum to 100, and a position in 0..100 stays in 0..100 |
| ReverseCover.ReflectPositionInvolution | custom_components/reverse_cover/cover.py:73 | reflecting a position twice gives it back |
| ReverseCover.Reflect | custom_components/reverse_cover/cover.py:65-94 | inverting the shown state once more gives the source's state (so the four table states are swapped), the view keeps whether the state is a table state, passes other states through, and keeps whether a position exists, with the two positions summing to 100 |
| ReverseCover.ReflectInvolution | custom_components/reverse_cover/cover.py:65-94 | a reverse cover over a reversed view shows the original state and position |
| ReverseCover.CurrentPosition | custom_components/reverse_cover/cover.py:65-73 | absent source gives no position; a present source gives one exactly when it has one, summing with it to 100 |
| ReverseCover.PositionOfPresentSource | custom_components/reverse_cover/cover.py:65-73 | the reported position is `100 - p`, or missing when the source has none, and lies in 0..100 when `p` does |
| ReverseCover.State | custom_components/reverse_cover/cover.py:89-94 | the state is defined exactly when the source is present, and an unmapped source state is passed through |
| ReverseCover.StateOfPresentSource | custom_components/reverse_cover/cover.py:89-94 | open gives closed, closed gives open, opening gives closing, closing gives opening, anything else is unchanged |
| ReverseCover.IsOpening | custom_components/reverse_cover/cover.py:75-80 | defined exactly when the source is present, and true exactly when the derived state is opening |
| ReverseCover.IsClosing | custom_components/reverse_cover/cover.py:82-87 | defined exactly when the source is present, and true exactly when the derived state is closing |
| ReverseCover.FlagsFromRawState | custom_components/reverse_cover/cover.py:75-87 | is-opening holds exactly when the source's raw state is closing, is-closing exactly when it is opening |
| ReverseCover.FlagsExclusive | custom_components/reverse_cover/cover.py:75-87 | the proxy is never reported opening and closing at once |
| ReverseCover.AbsentSourceReportsNothing | custom_components/reverse_cover/cover.py:61-94 | with no source entry the proxy is unavailable and position, both flags and state are all missing |
| ReverseCover.PresentSourceIsAvailable | custom_components/reverse_cover/cover.py:61-94 | with a source entry the proxy is available and its state and both flags are defined |
| Commands.Mirror | custom_components/reverse_cover/cover.py:96-136 | open-cover and close-cover swap, stop stays stop, and a target position is reflected to sum with the original to 100 |
| Commands.MirrorInvolution | custom_components/reverse_cover/cover.py:96-136 | mirroring a service twice gives it back |
| Commands.Forward | custom_components/reverse_cover/cover.py:96-136 | nothing is forwarded exactly for set-position without a position; every forwarded call is in the cover domain and targets only the source; open forwards close, close forwards open, stop forwards stop (each as an if-and-only-if), and set-position(p) forwards a position summing with `p` to 100 |
| Commands.ForwardIsMirroredDirect | custom_components/reverse_cover/cover.py:96-136 | the forwarded call is the service an ordinary cover would run, mirrored and sent to the source |
| Commands.StackedProxiesCancel | custom_components/reverse_cover/cover.py:96-136 | a reverse cover commanding another reverse cover makes the inner one ask its source for exactly the originally requested service |
| Commands.SetPositionRoundTrip | custom_components/reverse_cover/cover.py:123-136 | once the source reaches the forwarded target, the proxy reports exactly the requested position |
| Commands.DirectionAgreesWithFlags | custom_components/reverse_cover/cover.py:96-112 | open sends the source closing and a closing source reads as an opening proxy; close sends it opening and an opening source reads as a closing proxy |
| Identity.UniqueId | custom_components/reverse_cover/cover.py:44 | the unique id is the prefix `reverse_` followed by exactly the source id |
| Identity.Name | custom_components/reverse_cover/cover.py:45 | the name is the prefix `Reverse ` followed by exactly the source id |
| Identity.SourceOfUniqueId | custom_components/reverse_cover/cover.py:44 | a recovered source is as long as the id without its prefix |
| Identity.SourceOfUniqueIdRoundTrip | custom_components/reverse_cover/cover.py:44 | every unique id gives its source back |
| Identity.UniqueIdOfParsed | custom_components/reverse_cover/cover.py:44 | every id the parser accepts is the unique id of the source it yields |
| Identity.UniqueIdInjective | custom_components/reverse_cover/cover.py:44 | two sources share a unique id exactly when they are equal, so at most one proxy per source |
| Identity.NameInjective | custom_components/reverse_cover/cover.py:45 | two sources share a name exactly when they are equal |
| Subscription.Publish | custom_components/reverse_cover/cover.py:57-59 | every write is self-consistent (availability, state and flags defined together, flags agreeing with the state and exclusive), and is available exactly when the source is present |
| Subscription.Republish | custom_components/reverse_cover/cover.py:51-59 | at most one write per event; every write self-consistent; no writes when no event concerns the source; one write per event, derived from that event's entry, when all concern it |
| Subscription.RepublishAppend | custom_components/reverse_cover/cover.py:51-59 | writes follow events in order: a split history is published as its two halves in sequence |
| Subscription.OtherEntityEventIgnored | custom_components/reverse_cover/cover.py:53-55 | an event of another entity adds no write |
| Subscription.SourceEventPublished | custom_components/reverse_cover/cover.py:57-59 | an event of the source adds exactly one write, derived from its new entry |
| Subscription.RepublishedStatesInvertBack | custom_components/reverse_cover/cover.py:51-59 | over a history of a present source, inverting each published state gives back the source's own state at that event |

## Left out

- Service dispatch itself (`hass.services.async_call` with `blocking=True`) is foreign async I/O. The model returns the call as a value. Errors raised by the host for a missing source are not modelled.
- The host event loop, callback scheduling and the write of the state into the store (`async_write_ha_state`) are not modelled. A write is modelled as the record of derived properties at that moment. The event's new entry is assumed to be what the store holds when the callback reads it.
- `async_setup_entry` (cover.py:31-35) and `device_info` (cover.py:46-49) only register objects with the host.
- `config_flow.py` is not part of this model. Rejecting a duplicate source is done by host library calls (`async_set_unique_id`, `_abort_if_unique_id_configured`), and the form schema is a library wrapper. The model only shows that the unique id determines the source (`Identity.UniqueIdInjective`).
- The host's rendering of a `None` state as "unknown" and of an unavailable entity as "unavailable" is host behaviour and is not modelled.
- Subscription.Republish: models one registration that lasts for the whole history. `async_added_to_hass` (cover.py:53-55) discards the remover that the subscription call returns and registers no `async_on_remove`. So after the entity is unloaded or reloaded, the listener stays registered and keeps calling the old entity. That lifetime behaviour is not modelled.
- Position attributes are modelled as unbounded integers. A float or other non-integer `current_position` is not modelled.
