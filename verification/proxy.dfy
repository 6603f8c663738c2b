/** A value that may be missing: `None` is Python's `None`, `Some(v)` any other value. */
module Optional {
  datatype Option<+T> = None | Some(value: T)
}

/**
 The reverse cover entity's derived properties
 (custom_components/reverse_cover/cover.py, ReverseCoverEntity).
 Every property is a pure function of the source entity's current entry in
 the host's state store, read afresh on each access.
 */
module ReverseCover {
  import opened Optional
  import opened CoverStates

  type EntityId = string

  /** What the host's state store holds for the source cover: its raw state
      string and its `current_position` attribute, which may be missing. */
  datatype SourceState = SourceState(state: string, position: Option<int>)

  /** `hass.states.get(source)`: the source's entry, or `None` when the
      store has none. */
  function Lookup(states: map<EntityId, SourceState>, source: EntityId): (r: Option<SourceState>)
    ensures r.Some? <==> source in states
    ensures r.Some? ==> r.value == states[source]
  {
    if source in states then Some(states[source]) else None
  }

  /** A position attribute as the proxy reports it, `100 - p`. */
  function ReflectPosition(p: int): (r: int)
    ensures r + p == 100
    ensures 0 <= p <= 100 ==> 0 <= r <= 100
  {
    100 - p
  }

  /** The source as the proxy shows it while the source is present: the
      state run through the inversion table and the position reflected. */
  function Reflect(u: SourceState): (v: SourceState)
    ensures InvertState(v.state) == u.state
    ensures v.state in Mapped <==> u.state in Mapped
    ensures u.state !in Mapped ==> v.state == u.state
    ensures v.position.Some? <==> u.position.Some?
    ensures v.position.Some? ==> v.position.value + u.position.value == 100
  {
    SourceState(
      InvertState(u.state),
      match u.position
      case None => None
      case Some(p) => Some(ReflectPosition(p)))
  }

  /** `available`: the source has an entry in the store. An available
      proxy has a state and both flags; an unavailable one has none of
      them and no position either. */
  function Available(snap: Option<SourceState>): (r: bool)
    ensures r <==> State(snap).Some?
    ensures r <==> IsOpening(snap).Some? && IsClosing(snap).Some?
    ensures !r ==> CurrentPosition(snap).None?
  {
    snap.Some?
  }

  /** `current_cover_position` */
  function CurrentPosition(snap: Option<SourceState>): (r: Option<int>)
    ensures snap.None? ==> r.None?
    ensures snap.Some? ==> (r.Some? <==> snap.value.position.Some?)
    ensures r.Some? ==> r.value + snap.value.position.value == 100
  {
    match snap
    case None => None
    case Some(u) => Reflect(u).position
  }

  /** `state` */
  function State(snap: Option<SourceState>): (r: Option<string>)
    ensures r.None? <==> snap.None?
    ensures snap.Some? && snap.value.state !in Mapped ==> r == Some(snap.value.state)
  {
    match snap
    case None => None
    case Some(u) => Some(Reflect(u).state)
  }

  /** `is_opening`: read from the source's raw state, closing. */
  function IsOpening(snap: Option<SourceState>): (r: Option<bool>)
    ensures r.None? <==> snap.None?
    ensures r == Some(true) <==> State(snap) == Some(Opening)
  {
    match snap
    case None => None
    case Some(u) => Some(u.state == Closing)
  }

  /** `is_closing`: read from the source's raw state, opening. */
  function IsClosing(snap: Option<SourceState>): (r: Option<bool>)
    ensures r.None? <==> snap.None?
    ensures r == Some(true) <==> State(snap) == Some(Closing)
  {
    match snap
    case None => None
    case Some(u) => Some(u.state == Opening)
  }

  /** The proxy is available exactly when the store has the source. */
  lemma AvailableIffInStore(states: map<EntityId, SourceState>, source: EntityId)
    ensures Available(Lookup(states, source)) <==> source in states
  {
  }

  /** Entries of other entities have no bearing on any derived property. */
  lemma OtherEntitiesIrrelevant(states: map<EntityId, SourceState>, source: EntityId,
                                other: EntityId, u: SourceState)
    requires other != source
    ensures Lookup(states[other := u], source) == Lookup(states, source)
  {
  }

  /** With the source missing, the proxy is unavailable and reports nothing. */
  lemma AbsentSourceReportsNothing()
    ensures !Available(None)
    ensures CurrentPosition(None).None?
    ensures IsOpening(None).None? && IsClosing(None).None?
    ensures State(None).None?
  {
  }

  /** With the source present, the proxy is available and both flags are
      defined. */
  lemma PresentSourceIsAvailable(u: SourceState)
    ensures Available(Some(u))
    ensures IsOpening(Some(u)).Some? && IsClosing(Some(u)).Some?
    ensures State(Some(u)).Some?
  {
  }

  /** The reported state: the four table states swap, every other state is
      passed through unchanged. */
  lemma StateOfPresentSource(u: SourceState)
    ensures u.state == Open ==> State(Some(u)) == Some(Closed)
    ensures u.state == Closed ==> State(Some(u)) == Some(Open)
    ensures u.state == Opening ==> State(Some(u)) == Some(Closing)
    ensures u.state == Closing ==> State(Some(u)) == Some(Opening)
    ensures u.state !in Mapped ==> State(Some(u)) == Some(u.state)
  {
  }

  /** The reported position is `100 - p` or missing, and stays within
      0..100 when the source's does. */
  lemma PositionOfPresentSource(u: SourceState)
    ensures u.position.None? ==> CurrentPosition(Some(u)).None?
    ensures u.position.Some? ==> CurrentPosition(Some(u)) == Some(100 - u.position.value)
    ensures u.position.Some? && 0 <= u.position.value <= 100 ==>
              0 <= CurrentPosition(Some(u)).value <= 100
  {
  }

  /** Reflecting a position twice gives it back. */
  lemma ReflectPositionInvolution(p: int)
    ensures ReflectPosition(ReflectPosition(p)) == p
  {
  }

  /** The flags are read from the opposite raw state. */
  lemma FlagsFromRawState(u: SourceState)
    ensures IsOpening(Some(u)) == Some(true) <==> u.state == Closing
    ensures IsClosing(Some(u)) == Some(true) <==> u.state == Opening
  {
  }

  /** The proxy is never reported as opening and closing at once. */
  lemma FlagsExclusive(snap: Option<SourceState>)
    ensures !(IsOpening(snap) == Some(true) && IsClosing(snap) == Some(true))
  {
  }

  /** A reverse cover whose source is itself reversed shows the original:
      the whole derived view is an involution. */
  lemma ReflectInvolution(u: SourceState)
    ensures Reflect(Reflect(u)) == u
  {
  }
}
