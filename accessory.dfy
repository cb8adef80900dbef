/**
 * The accessory side of a HomeKit television, as the adapter sees it: the values of the
 * characteristics it reads, the input-source services linked under the television service,
 * and the characteristic writes it can issue.
 *
 * The numeric codes of the HomeKit enums are not modelled: each enum member is an abstract
 * case, and every value type has an `Unlisted…` case that stands for a value the device may
 * report or advertise but the enum does not list.
 */
module Accessory {
  import opened Wrappers

  /** Values of the CurrentMediaState characteristic. */
  datatype CurrentMediaState = Playing | Paused | Stopped | UnlistedMediaState(code: int)

  /** Values of the TargetMediaState characteristic. */
  datatype TargetMediaState = Play | Pause | Stop | UnlistedTarget(code: int)

  /** Values of the RemoteKey characteristic. */
  datatype RemoteKey =
    | Rewind | FastForward | NextTrack | PreviousTrack
    | ArrowUp | ArrowDown | ArrowLeft | ArrowRight
    | Select | Back | Exit | PlayPause | Information
    | UnlistedKey(code: int)

  /** The members of the target-media-state enum. */
  const KNOWN_TARGET_MEDIA_STATES: set<TargetMediaState> := {Play, Pause, Stop}

  /** The members of the remote-key enum. */
  const KNOWN_REMOTE_KEYS: set<RemoteKey> :=
    {Rewind, FastForward, NextTrack, PreviousTrack, ArrowUp, ArrowDown, ArrowLeft, ArrowRight,
     Select, Back, Exit, PlayPause, Information}

  /** An input-source service linked under the television: its configured name and identifier. */
  datatype InputSource = InputSource(name: string, identifier: int)

  /**
   * The accessory's current values: ACTIVE, CURRENT_MEDIA_STATE and ACTIVE_IDENTIFIER of the
   * television service (each possibly missing), and the input-source services parented under
   * this television, in the accessory's enumeration order.
   */
  datatype Snapshot = Snapshot(
    active: Option<int>,
    mediaState: Option<CurrentMediaState>,
    activeIdentifier: Option<int>,
    inputSources: seq<InputSource>)

  /** Python truthiness of an integer-valued characteristic: `None`, `0` and `False` are falsy. */
  predicate Truthy(v: Option<int>)
  {
    v.Some? && v.value != 0
  }

  /** One characteristic write the adapter hands to the transport. */
  datatype Write =
    | SetTargetMediaState(target: TargetMediaState)
    | PressRemoteKey(key: RemoteKey)
    | SetActiveIdentifier(identifier: int)

  /** The values a device advertises for TargetMediaState, restricted to the known enum. */
  function ClampTargetMediaStates(advertised: set<TargetMediaState>): set<TargetMediaState>
  {
    advertised * KNOWN_TARGET_MEDIA_STATES
  }

  /** The values a device advertises for RemoteKey, restricted to the known enum. */
  function ClampRemoteKeys(advertised: set<RemoteKey>): set<RemoteKey>
  {
    advertised * KNOWN_REMOTE_KEYS
  }

  /** A characteristic filter on input-source services: by configured name or by identifier. */
  datatype Filter = ByName(name: string) | ByIdentifier(identifier: int)

  predicate Matches(s: InputSource, f: Filter)
  {
    match f
    case ByName(n) => s.name == n
    case ByIdentifier(id) => s.identifier == id
  }

  /** The position of the first input source that passes the filter, if there is one. */
  function FirstIndex(sources: seq<InputSource>, f: Filter): (r: Option<nat>)
    ensures r.Some? ==> r.value < |sources| && Matches(sources[r.value], f)
    ensures r.Some? ==> forall j :: 0 <= j < r.value ==> !Matches(sources[j], f)
    ensures r.None? ==> forall j :: 0 <= j < |sources| ==> !Matches(sources[j], f)
    decreases |sources|
  {
    if |sources| == 0 then None
    else if Matches(sources[0], f) then Some(0)
    else
      match FirstIndex(sources[1..], f)
      case None => None
      case Some(i) => Some(i + 1)
  }
}
