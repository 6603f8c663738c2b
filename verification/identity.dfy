/**
 The identity strings the proxy entity is registered under
 (custom_components/reverse_cover/cover.py, `__init__`).
 */
module Identity {
  import opened Optional
  import ReverseCover

  const UniqueIdPrefix: string := "reverse_"
  const NamePrefix: string := "Reverse "

  /** `unique_id`: the prefix followed by the source's entity id. */
  function UniqueId(source: ReverseCover.EntityId): (r: string)
    ensures |r| == |UniqueIdPrefix| + |source|
    ensures r[..|UniqueIdPrefix|] == UniqueIdPrefix
    ensures r[|UniqueIdPrefix|..] == source
  {
    UniqueIdPrefix + source
  }

  /** The entity name: the display prefix followed by the source's id. */
  function Name(source: ReverseCover.EntityId): (r: string)
    ensures |r| == |NamePrefix| + |source|
    ensures r[..|NamePrefix|] == NamePrefix
    ensures r[|NamePrefix|..] == source
  {
    NamePrefix + source
  }

  /** Recovers the source an id was built for, if it was built by
      `UniqueId` at all. */
  function SourceOfUniqueId(id: string): (r: Option<ReverseCover.EntityId>)
    ensures r.Some? ==> |r.value| + |UniqueIdPrefix| == |id|
  {
    if |UniqueIdPrefix| <= |id| && id[..|UniqueIdPrefix|] == UniqueIdPrefix
    then Some(id[|UniqueIdPrefix|..])
    else None
  }

  /** Every unique id names its source back. */
  lemma SourceOfUniqueIdRoundTrip(source: ReverseCover.EntityId)
    ensures SourceOfUniqueId(UniqueId(source)) == Some(source)
  {
  }

  /** An id the parser accepts is the unique id of the source it yields:
      the parser accepts exactly the proxies' ids. */
  lemma UniqueIdOfParsed(id: string, source: ReverseCover.EntityId)
    requires SourceOfUniqueId(id) == Some(source)
    ensures UniqueId(source) == id
  {
  }

  /** Distinct sources give distinct unique ids, so the host's registry,
      keyed by unique id, holds at most one proxy per source. */
  lemma UniqueIdInjective(a: ReverseCover.EntityId, b: ReverseCover.EntityId)
    ensures UniqueId(a) == UniqueId(b) <==> a == b
  {
  }

  /** Distinct sources give distinct names. */
  lemma NameInjective(a: ReverseCover.EntityId, b: ReverseCover.EntityId)
    ensures Name(a) == Name(b) <==> a == b
  {
  }
}
