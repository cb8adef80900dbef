/**
 * A HomeKit-paired television exposed as a media-player entity: its display state, the
 * features it negotiates from the characteristics the accessory advertises, its input-source
 * list and selection, and the single characteristic write each play/pause/stop command issues.
 */
module MediaPlayer {
  import opened Wrappers
  import opened Accessory

  /** Feature flags of the media-player entity; the source's bitmask is a set of these. */
  datatype Feature = SupportSelectSource | SupportPause | SupportPlay | SupportStop

  /** The platform states the entity reports. */
  datatype PlayerState = StatePlaying | StatePaused | StateIdle | StateOk | StateProblem

  /** The fixed table from HomeKit's current media state to the platform's state. */
  function HkToHaState(m: CurrentMediaState): (r: Option<PlayerState>)
    ensures r.Some? <==> !m.UnlistedMediaState?
    ensures r.Some? ==> r.value in {StatePlaying, StatePaused, StateIdle}
    ensures m == Playing ==> r == Some(StatePlaying)
    ensures m == Paused ==> r == Some(StatePaused)
    ensures m == Stopped ==> r == Some(StateIdle)
  {
    match m
    case Playing => Some(StatePlaying)
    case Paused => Some(StatePaused)
    case Stopped => Some(StateIdle)
    case UnlistedMediaState(_) => None
  }

  /** The entity's display state, read from ACTIVE and CURRENT_MEDIA_STATE. */
  function State(snap: Snapshot): (st: PlayerState)
    ensures st == StateProblem <==> !Truthy(snap.active)
    ensures st == StatePlaying <==> Truthy(snap.active) && snap.mediaState == Some(Playing)
    ensures st == StatePaused <==> Truthy(snap.active) && snap.mediaState == Some(Paused)
    ensures st == StateIdle <==> Truthy(snap.active) && snap.mediaState == Some(Stopped)
    ensures st == StateOk <==>
      Truthy(snap.active) && (snap.mediaState.None? || snap.mediaState.value.UnlistedMediaState?)
  {
    if !Truthy(snap.active) then StateProblem
    else if snap.mediaState.Some? then
      match HkToHaState(snap.mediaState.value)
      case Some(s) => s
      case None => StateOk
    else StateOk
  }

  /** Some input source under the television carries the identifier `id`. */
  predicate HasSourceWithIdentifier(sources: seq<InputSource>, id: int)
  {
    exists i :: 0 <= i < |sources| && sources[i].identifier == id
  }

  /**
   * The configured name of the current input source: none when ACTIVE_IDENTIFIER is falsy,
   * otherwise the name of the first input source whose identifier equals it.
   */
  function Source(snap: Snapshot): (r: Option<string>)
    requires Truthy(snap.activeIdentifier) ==>
      HasSourceWithIdentifier(snap.inputSources, snap.activeIdentifier.value)
    ensures r.None? <==> !Truthy(snap.activeIdentifier)
    ensures r.Some? ==> exists i :: (0 <= i < |snap.inputSources|
      && snap.inputSources[i].identifier == snap.activeIdentifier.value
      && snap.inputSources[i].name == r.value
      && (forall j :: 0 <= j < i ==> snap.inputSources[j].identifier != snap.activeIdentifier.value))
  {
    if !Truthy(snap.activeIdentifier) then None
    else
      match FirstIndex(snap.inputSources, ByIdentifier(snap.activeIdentifier.value))
      case Some(i) => Some(snap.inputSources[i].name)
      case None => assert false; None
  }

  /** No two input sources under the television share an identifier. */
  predicate IdentifiersUnique(sources: seq<InputSource>)
  {
    forall i, j :: 0 <= i < j < |sources| ==> sources[i].identifier != sources[j].identifier
  }

  /**
   * Once ACTIVE_IDENTIFIER holds the non-zero identifier of an input source, and identifiers
   * are unique, the entity reports that source's name as the current source.
   */
  lemma SelectedSourceIsReported(snap: Snapshot, i: nat)
    requires i < |snap.inputSources|
    requires snap.inputSources[i].identifier != 0
    requires IdentifiersUnique(snap.inputSources)
    ensures Source(snap.(activeIdentifier := Some(snap.inputSources[i].identifier)))
         == Some(snap.inputSources[i].name)
  {
  }

  /** An input source with identifier 0 is never reported as current: 0 reads as "no source". */
  lemma ZeroIdentifierIsNotReported(snap: Snapshot)
    ensures Source(snap.(activeIdentifier := Some(0))) == None
  {
  }

  // ---------------------------------------------------------------------------------------
  // Capability negotiation
  // ---------------------------------------------------------------------------------------

  /** The feature bits a clamped set of target media states enables. */
  function TargetMediaStateFeatures(targets: set<TargetMediaState>): (fs: set<Feature>)
    ensures SupportPlay in fs <==> Play in targets
    ensures SupportPause in fs <==> Pause in targets
    ensures SupportStop in fs <==> Stop in targets
    ensures SupportSelectSource !in fs
  {
    (if Pause in targets then {SupportPause} else {})
    + (if Play in targets then {SupportPlay} else {})
    + (if Stop in targets then {SupportStop} else {})
  }

  /** The feature bits a clamped set of remote keys enables: the toggle key gives play and pause. */
  function RemoteKeyFeatures(keys: set<RemoteKey>): (fs: set<Feature>)
    ensures SupportPlay in fs <==> PlayPause in keys
    ensures SupportPause in fs <==> PlayPause in keys
    ensures SupportStop !in fs && SupportSelectSource !in fs
  {
    if PlayPause in keys then {SupportPause, SupportPlay} else {}
  }

  /** The negotiated capabilities: the feature bits and the two supported-value sets. */
  datatype Capabilities = Capabilities(
    features: set<Feature>,
    targets: set<TargetMediaState>,
    keys: set<RemoteKey>)

  /** The capabilities of a freshly created entity. */
  const INITIAL: Capabilities := Capabilities({}, {}, {})

  /**
   * Every write path a command can take is advertised by a feature bit, and the supported
   * sets only hold members of the known enums.
   */
  predicate Consistent(c: Capabilities)
  {
    && (Play in c.targets ==> SupportPlay in c.features)
    && (Pause in c.targets ==> SupportPause in c.features)
    && (Stop in c.targets ==> SupportStop in c.features)
    && (PlayPause in c.keys ==> SupportPlay in c.features && SupportPause in c.features)
    && c.targets <= KNOWN_TARGET_MEDIA_STATES
    && c.keys <= KNOWN_REMOTE_KEYS
  }

  /** A setup callback: the characteristic it was invoked for, with its advertised values. */
  datatype SetupEvent =
    | ActiveIdentifierFound
    | TargetMediaStateFound(advertisedTargets: set<TargetMediaState>)
    | RemoteKeyFound(advertisedKeys: set<RemoteKey>)

  /** The feature bits one setup callback grants. */
  function Grants(e: SetupEvent): set<Feature>
  {
    match e
    case ActiveIdentifierFound => {SupportSelectSource}
    case TargetMediaStateFound(adv) => TargetMediaStateFeatures(ClampTargetMediaStates(adv))
    case RemoteKeyFound(adv) => RemoteKeyFeatures(ClampRemoteKeys(adv))
  }

  /** The capabilities after one setup callback. */
  function Setup(c: Capabilities, e: SetupEvent): (c': Capabilities)
    ensures c'.features == c.features + Grants(e)
    ensures c'.targets == if e.TargetMediaStateFound? then ClampTargetMediaStates(e.advertisedTargets) else c.targets
    ensures c'.keys == if e.RemoteKeyFound? then ClampRemoteKeys(e.advertisedKeys) else c.keys
    ensures Consistent(c) ==> Consistent(c')
  {
    match e
    case ActiveIdentifierFound =>
      c.(features := c.features + {SupportSelectSource})
    case TargetMediaStateFound(adv) =>
      var targets := ClampTargetMediaStates(adv);
      c.(targets := targets, features := c.features + TargetMediaStateFeatures(targets))
    case RemoteKeyFound(adv) =>
      var keys := ClampRemoteKeys(adv);
      c.(keys := keys, features := c.features + RemoteKeyFeatures(keys))
  }

  /** The capabilities after a sequence of setup callbacks, in order. */
  function Negotiate(c: Capabilities, events: seq<SetupEvent>): Capabilities
    decreases |events|
  {
    if |events| == 0 then c else Negotiate(Setup(c, events[0]), events[1..])
  }

  /** No setup callback ever clears a feature bit. */
  lemma {:induction false} NegotiateKeepsFeatures(c: Capabilities, events: seq<SetupEvent>)
    ensures c.features <= Negotiate(c, events).features
    decreases |events|
  {
    if |events| > 0 {
      NegotiateKeepsFeatures(Setup(c, events[0]), events[1..]);
    }
  }

  /** Setup callbacks keep every supported write path advertised by its feature bit. */
  lemma {:induction false} NegotiateKeepsConsistent(c: Capabilities, events: seq<SetupEvent>)
    requires Consistent(c)
    ensures Consistent(Negotiate(c, events))
    decreases |events|
  {
    if |events| > 0 {
      NegotiateKeepsConsistent(Setup(c, events[0]), events[1..]);
    }
  }

  /** A feature is set after negotiation exactly when it was set before or some callback granted it. */
  lemma {:induction false} NegotiatedFeature(c: Capabilities, events: seq<SetupEvent>, f: Feature)
    ensures f in Negotiate(c, events).features
        <==> f in c.features || exists i :: 0 <= i < |events| && f in Grants(events[i])
    decreases |events|
  {
    if |events| > 0 {
      var rest := events[1..];
      NegotiatedFeature(Setup(c, events[0]), rest, f);
      if exists i :: 0 <= i < |events| && f in Grants(events[i]) {
        var i :| 0 <= i < |events| && f in Grants(events[i]);
        if i > 0 {
          assert rest[i - 1] == events[i];
        }
      }
      if exists i :: 0 <= i < |rest| && f in Grants(rest[i]) {
        var i :| 0 <= i < |rest| && f in Grants(rest[i]);
        assert events[i + 1] == rest[i];
      }
    }
  }

  // ---------------------------------------------------------------------------------------
  // The entity
  // ---------------------------------------------------------------------------------------

  /** The error `async_select_source` raises for a name no input source carries. */
  datatype SelectSourceError = SourceNotFound(source: string)

  class HomeKitTelevision {
    var features: set<Feature>
    var supportedTargetMediaState: set<TargetMediaState>
    var supportedRemoteKey: set<RemoteKey>

    function Caps(): Capabilities
      reads this
    {
      Capabilities(features, supportedTargetMediaState, supportedRemoteKey)
    }

    ghost predicate Valid()
      reads this
    {
      Consistent(Caps())
    }

    constructor ()
      ensures Valid() && Caps() == INITIAL
    {
      features := {};
      supportedTargetMediaState := {};
      supportedRemoteKey := {};
    }

    /** Callback for the ACTIVE_IDENTIFIER characteristic: source selection is supported. */
    method SetupActiveIdentifier()
      requires Valid()
      modifies this
      ensures Valid()
      ensures Caps() == Setup(old(Caps()), ActiveIdentifierFound)
    {
      features := features + {SupportSelectSource};
    }

    /** Callback for the TARGET_MEDIA_STATE characteristic with its advertised values. */
    method SetupTargetMediaState(advertised: set<TargetMediaState>)
      requires Valid()
      modifies this
      ensures Valid()
      ensures Caps() == Setup(old(Caps()), TargetMediaStateFound(advertised))
    {
      supportedTargetMediaState := ClampTargetMediaStates(advertised);
      if Pause in supportedTargetMediaState {
        features := features + {SupportPause};
      }
      if Play in supportedTargetMediaState {
        features := features + {SupportPlay};
      }
      if Stop in supportedTargetMediaState {
        features := features + {SupportStop};
      }
    }

    /** Callback for the REMOTE_KEY characteristic with its advertised values. */
    method SetupRemoteKey(advertised: set<RemoteKey>)
      requires Valid()
      modifies this
      ensures Valid()
      ensures Caps() == Setup(old(Caps()), RemoteKeyFound(advertised))
    {
      supportedRemoteKey := ClampRemoteKeys(advertised);
      if PlayPause in supportedRemoteKey {
        features := features + {SupportPause, SupportPlay};
      }
    }

    /** The feature bits reported to the platform; they cover every write path a command takes. */
    function SupportedFeatures(): (fs: set<Feature>)
      reads this
      requires Valid()
      ensures Play in supportedTargetMediaState || PlayPause in supportedRemoteKey ==> SupportPlay in fs
      ensures Pause in supportedTargetMediaState || PlayPause in supportedRemoteKey ==> SupportPause in fs
      ensures Stop in supportedTargetMediaState ==> SupportStop in fs
    {
      features
    }

    /** The configured names of the input sources under this television, in enumeration order. */
    method SourceList(snap: Snapshot) returns (sources: seq<string>)
      ensures |sources| == |snap.inputSources|
      ensures forall k :: 0 <= k < |sources| ==> sources[k] == snap.inputSources[k].name
    {
      sources := [];
      for i := 0 to |snap.inputSources|
        invariant |sources| == i
        invariant forall k :: 0 <= k < i ==> sources[k] == snap.inputSources[k].name
      {
        sources := sources + [snap.inputSources[i].name];
      }
    }

    /**
     * Play: nothing while already playing; otherwise TargetMediaState := PLAY when supported,
     * else RemoteKey := PLAY_PAUSE when that key is supported, else nothing.
     */
    method MediaPlay(snap: Snapshot) returns (w: Option<Write>)
      requires Valid()
      ensures w.Some? <==>
        State(snap) != StatePlaying && (Play in supportedTargetMediaState || PlayPause in supportedRemoteKey)
      ensures w == Some(SetTargetMediaState(Play)) <==>
        State(snap) != StatePlaying && Play in supportedTargetMediaState
      ensures w == Some(PressRemoteKey(PlayPause)) <==>
        State(snap) != StatePlaying && Play !in supportedTargetMediaState && PlayPause in supportedRemoteKey
      ensures w.Some? ==> SupportPlay in features
    {
      if State(snap) == StatePlaying {
        return None;
      }
      if Play in supportedTargetMediaState {
        w := Some(SetTargetMediaState(Play));
      } else if PlayPause in supportedRemoteKey {
        w := Some(PressRemoteKey(PlayPause));
      } else {
        w := None;
      }
    }

    /**
     * Pause: nothing while already paused; otherwise TargetMediaState := PAUSE when supported,
     * else RemoteKey := PLAY_PAUSE when that key is supported, else nothing.
     */
    method MediaPause(snap: Snapshot) returns (w: Option<Write>)
      requires Valid()
      ensures w.Some? <==>
        State(snap) != StatePaused && (Pause in supportedTargetMediaState || PlayPause in supportedRemoteKey)
      ensures w == Some(SetTargetMediaState(Pause)) <==>
        State(snap) != StatePaused && Pause in supportedTargetMediaState
      ensures w == Some(PressRemoteKey(PlayPause)) <==>
        State(snap) != StatePaused && Pause !in supportedTargetMediaState && PlayPause in supportedRemoteKey
      ensures w.Some? ==> SupportPause in features
    {
      if State(snap) == StatePaused {
        return None;
      }
      if Pause in supportedTargetMediaState {
        w := Some(SetTargetMediaState(Pause));
      } else if PlayPause in supportedRemoteKey {
        w := Some(PressRemoteKey(PlayPause));
      } else {
        w := None;
      }
    }

    /** Stop: nothing while idle; otherwise TargetMediaState := STOP when supported, never a key. */
    method MediaStop(snap: Snapshot) returns (w: Option<Write>)
      requires Valid()
      ensures w.Some? <==> State(snap) != StateIdle && Stop in supportedTargetMediaState
      ensures w.Some? ==> w.value == SetTargetMediaState(Stop)
      ensures w.Some? ==> SupportStop in features
    {
      if State(snap) == StateIdle {
        return None;
      }
      if Stop in supportedTargetMediaState {
        w := Some(SetTargetMediaState(Stop));
      } else {
        w := None;
      }
    }

    /**
     * Select source: an error naming the source when no input source under this television
     * has that configured name; otherwise ActiveIdentifier := the first such source's identifier.
     */
    method SelectSource(snap: Snapshot, source: string) returns (r: Result<Write, SelectSourceError>)
      ensures r.Failure? <==> forall i :: 0 <= i < |snap.inputSources| ==> snap.inputSources[i].name != source
      ensures r.Failure? ==> r.error == SourceNotFound(source)
      ensures r.Success? ==> exists i :: (0 <= i < |snap.inputSources|
        && snap.inputSources[i].name == source
        && (forall j :: 0 <= j < i ==> snap.inputSources[j].name != source)
        && r.value == SetActiveIdentifier(snap.inputSources[i].identifier))
    {
      match FirstIndex(snap.inputSources, ByName(source)) {
        case None =>
          r := Failure(SourceNotFound(source));
        case Some(i) =>
          r := Success(SetActiveIdentifier(snap.inputSources[i].identifier));
      }
    }
  }

  /**
   * Selecting a source by name and then reading the current source gives that name back,
   * when the input sources' identifiers are unique and non-zero.
   */
  method SelectThenReport(tv: HomeKitTelevision, snap: Snapshot, source: string)
    returns (reported: Option<string>)
    requires IdentifiersUnique(snap.inputSources)
    requires forall i :: 0 <= i < |snap.inputSources| ==> snap.inputSources[i].identifier != 0
    requires exists i :: 0 <= i < |snap.inputSources| && snap.inputSources[i].name == source
    ensures reported == Some(source)
  {
    var r := tv.SelectSource(snap, source);
    var i :| 0 <= i < |snap.inputSources| && snap.inputSources[i].name == source
      && r.value == SetActiveIdentifier(snap.inputSources[i].identifier);
    SelectedSourceIsReported(snap, i);
    reported := Source(snap.(activeIdentifier := Some(r.value.identifier)));
  }

  /** What a caller can prove from the contracts above, on a few concrete accessories. */
  method Scenarios()
  {
    var idle := Snapshot(Some(1), Some(Stopped), None, []);
    var paused := idle.(mediaState := Some(Paused));

    // TARGET_MEDIA_STATE advertises PLAY and PAUSE, REMOTE_KEY advertises nothing.
    var tv := new HomeKitTelevision();
    tv.SetupTargetMediaState({Play, Pause});
    tv.SetupRemoteKey({});
    assert SupportPlay in tv.features && SupportPause in tv.features;
    assert SupportStop !in tv.features;
    var w := tv.MediaPause(paused);
    assert w == None;
    w := tv.MediaPlay(idle);
    assert w == Some(SetTargetMediaState(Play));

    // No TARGET_MEDIA_STATE; REMOTE_KEY advertises the play/pause toggle.
    var tv2 := new HomeKitTelevision();
    tv2.SetupRemoteKey({PlayPause});
    assert SupportPlay in tv2.features && SupportPause in tv2.features;
    w := tv2.MediaPlay(idle);
    assert w == Some(PressRemoteKey(PlayPause));

    // Selecting a source by name.
    var withSources := idle.(inputSources := [InputSource("TV", 1), InputSource("HDMI 1", 3)]);
    var r := tv.SelectSource(idle, "HDMI 1");
    assert r == Failure(SourceNotFound("HDMI 1"));
    assert withSources.inputSources[0].name != "HDMI 1";
    assert withSources.inputSources[1].name == "HDMI 1";
    r := tv.SelectSource(withSources, "HDMI 1");
    assert r == Success(SetActiveIdentifier(3));

    // An input source with identifier 0 is selected, but then reads as "no source".
    var zero := idle.(inputSources := [InputSource("HDMI", 0)]);
    assert zero.inputSources[0].name == "HDMI";
    r := tv.SelectSource(zero, "HDMI");
    assert r == Success(SetActiveIdentifier(0));
    ZeroIdentifierIsNotReported(zero);
    assert Source(zero.(activeIdentifier := Some(r.value.identifier))) == None;

    // Two input sources share identifier 5: selecting the second by name reads back the first.
    var shared := idle.(inputSources := [InputSource("A", 5), InputSource("B", 5)]);
    assert shared.inputSources[0].name != "B";
    assert shared.inputSources[1].name == "B";
    r := tv.SelectSource(shared, "B");
    assert r == Success(SetActiveIdentifier(5));
    var after := shared.(activeIdentifier := Some(5));
    assert after.inputSources[0].identifier == 5;
    assert Source(after) == Some("A");
  }
}
