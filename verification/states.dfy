/**
 The raw cover states the host platform reports and the fixed table that
 inverts them (custom_components/reverse_cover/cover.py, STATE_MAP and the
 `state` property).
 */
module CoverStates {

  /** The host's cover state strings. Only their distinctness matters to
      the inversion; the literals are the values the host platform uses. */
  const Open: string := "open"
  const Closed: string := "closed"
  const Opening: string := "opening"
  const Closing: string := "closing"

  /** The states the inversion table has an entry for. */
  const Mapped: set<string> := {Open, Closed, Opening, Closing}

  /** The inversion table: open and closed swap, opening and closing swap. */
  const StateMap: map<string, string> :=
    map[Open := Closed, Closed := Open, Opening := Closing, Closing := Opening]

  /** A table lookup that falls back to the state itself, as
      `STATE_MAP.get(s, s)` does. */
  function InvertState(s: string): (r: string)
    ensures s == Open <==> r == Closed
    ensures s == Closed <==> r == Open
    ensures s == Opening <==> r == Closing
    ensures s == Closing <==> r == Opening
    ensures s !in Mapped ==> r == s
    ensures r in Mapped <==> s in Mapped
  {
    if s in StateMap then StateMap[s] else s
  }

  /** Inverting twice gives back any state, mapped or not. */
  lemma InvertStateInvolution(s: string)
    ensures InvertState(InvertState(s)) == s
  {
  }

  /** The inversion never merges two states: distinct source states are
      reported as distinct proxy states. */
  lemma InvertStateInjective(s: string, t: string)
    ensures InvertState(s) == InvertState(t) <==> s == t
  {
  }

  /** Only the four table states move; every other state is a fixed point. */
  lemma InvertStateFixedPoints(s: string)
    ensures InvertState(s) == s <==> s !in Mapped
  {
  }
}

/**
 An independent, typed reading of a raw state, used as a reference
 definition for the string-level inversion.
 */
module StateKinds {
  import CoverStates

  /** The four states the inversion knows, and everything else verbatim. */
  datatype Kind = Open | Closed | Opening | Closing | Other(raw: string)

  /** `Other` never carries one of the four known strings. */
  predicate Valid(k: Kind) {
    k.Other? ==> k.raw !in CoverStates.Mapped
  }

  function Parse(s: string): (k: Kind)
    ensures Valid(k)
    ensures k.Other? <==> s !in CoverStates.Mapped
  {
    if s == CoverStates.Open then Open
    else if s == CoverStates.Closed then Closed
    else if s == CoverStates.Opening then Opening
    else if s == CoverStates.Closing then Closing
    else Other(s)
  }

  function Render(k: Kind): (s: string)
    ensures Valid(k) ==> (k.Other? <==> s !in CoverStates.Mapped)
  {
    match k
    case Open => CoverStates.Open
    case Closed => CoverStates.Closed
    case Opening => CoverStates.Opening
    case Closing => CoverStates.Closing
    case Other(raw) => raw
  }

  /** Physical reversal: a cover hung upside down. A position state flips,
      a direction of travel flips, anything else has no direction. */
  function Reverse(k: Kind): (r: Kind)
    ensures Valid(k) ==> Valid(r)
    ensures r.Other? <==> k.Other?
  {
    match k
    case Open => Closed
    case Closed => Open
    case Opening => Closing
    case Closing => Opening
    case Other(_) => k
  }

  lemma RenderParse(s: string)
    ensures Render(Parse(s)) == s
  {
  }

  lemma ParseRender(k: Kind)
    requires Valid(k)
    ensures Parse(Render(k)) == k
  {
  }

  lemma ReverseInvolution(k: Kind)
    ensures Reverse(Reverse(k)) == k
  {
  }

  /** The table lookup agrees with the typed reversal on every string. */
  lemma InvertStateIsReverse(s: string)
    ensures CoverStates.InvertState(s) == Render(Reverse(Parse(s)))
  {
  }
}
