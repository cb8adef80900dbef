# HomeKit television as a media player

A Dafny model of the adapter that presents a HomeKit-paired television as a
media-player entity in Home Assistant (`HomeKitTelevision` in
`homeassistant/components/homekit_controller/media_player.py`). The model covers four things:

- **Capability negotiation.** The three setup callbacks fill the entity's feature flags and
  its sets of supported target media states and remote keys. They do this from the values
  the accessory advertises, clamped to the known enums.
- **Display state.** The state is derived from the ACTIVE and CURRENT_MEDIA_STATE
  characteristics through the fixed HomeKit-to-platform table.
- **Commands.** Play, pause and stop each issue at most one characteristic write. The choice
  follows the current state and the negotiated sets.
- **Input sources.** The source list, the current source and source selection, over the
  input-source services linked under the television.

Files:

- `wrappers.dfy` (`Wrappers`): `Option` and `Result`.
- `accessory.dfy` (`Accessory`): the characteristic value types and the accessory snapshot
  (ACTIVE, CURRENT_MEDIA_STATE, ACTIVE_IDENTIFIER, and the linked input sources as
  (configured name, identifier) pairs in enumeration order). It also holds the writes the
  adapter can issue, the enum clamp (advertised values intersected with the known enum) and
  the first-match lookup over input sources.
- `media_player.dfy` (`MediaPlayer`): the state table, `State` and `Source`, capability
  negotiation as pure functions, and the class `HomeKitTelevision`, whose fields are the
  three fields the setup callbacks update.

Modelling choices:

- The feature bitmask is a `set<Feature>`, and `|=` is set union. The `SUPPORT_*` constants
  and the HomeKit enum members are abstract cases, not numbers. Each characteristic's value
  type has an `Unlisted…(code)` case for a value the enum does not list.
- ACTIVE and ACTIVE_IDENTIFIER are `Option<int>`. `Truthy` is false exactly for `None` and
  `0` (`False == 0`), Python's falsy values.
- A command returns the write it would hand to the transport as `Option<Write>`: `None` when
  it sends nothing. Source selection returns `Result<Write, SelectSourceError>`: the failure
  is the raised `ValueError`.
- `Valid()` on the class is the invariant that every supported target media state, and the
  PLAY_PAUSE key, is covered by its feature flag. The constructor establishes it and every
  setup callback keeps it. So every write a command issues is for a feature the entity
  reports.
- `Negotiate` folds a sequence of setup callbacks, as the entity base class invokes them.
  Each class callback is proved to update the fields exactly as one `Setup` step does.
- `Source` is undefined in the code when ACTIVE_IDENTIFIER is set but no input source
  carries it: line 145 would subscript `None`. The model makes "such a source exists" its
  precondition.
- `ZeroIdentifierIsNotReported` records one consequence of the falsiness test at line 134:
  an ACTIVE_IDENTIFIER of 0 reports no current source. `Scenarios` shows the selection half
  on one input source with identifier 0: selecting it writes ActiveIdentifier := 0, and the
  current source then reads as none. `SelectedSourceIsReported` and `SelectThenReport` state
  the round trip for non-zero, unique identifiers: select by name, then read back that name.
  Uniqueness is needed because selection takes the first source with the name (lines 207-211)
  while the read-back takes the first source with the identifier (lines 140-144). `Scenarios`
  shows two sources "A" and "B" sharing identifier 5: selecting "B" writes 5, and the current
  source then reads as "A".

## Model

| member | source | states |
|---|---|---|
| `Accessory.FirstIndex` | homeassistant/components/homekit_controller/media_player.py:207-211 | the index found passes the filter and no earlier input source does; none is found only when no input source passes |
| `MediaPlayer.HkToHaState` | homeassistant/components/homekit_controller/media_player.py:34-38 | the table lists exactly PLAYING, PAUSED and STOPPED, and maps them into playing, paused and idle |
| `MediaPlayer.State` | homeassistant/components/homekit_controller/media_player.py:148-159 | problem exactly when ACTIVE is falsy, whatever the media state; when active: playing, paused or idle exactly for PLAYING, PAUSED or STOPPED, and ok exactly for a missing or unlisted media state |
| `MediaPlayer.Source` | homeassistant/components/homekit_controller/media_player.py:130-146 | no source exactly when ACTIVE_IDENTIFIER is falsy; otherwise the name of the first input source whose identifier equals it |
| `MediaPlayer.SelectedSourceIsReported` | homeassistant/components/homekit_controller/media_player.py:133-146 | after ACTIVE_IDENTIFIER is set to a non-zero identifier (identifiers unique), the current source is that input source's name |
| `MediaPlayer.ZeroIdentifierIsNotReported` | homeassistant/components/homekit_controller/media_player.py:133-135 | an ACTIVE_IDENTIFIER of 0 reports no current source |
| `MediaPlayer.TargetMediaStateFeatures` | homeassistant/components/homekit_controller/media_player.py:89-96 | PLAY, PAUSE and STOP in the clamped set each enable exactly their own feature, never source selection |
| `MediaPlayer.RemoteKeyFeatures` | homeassistant/components/homekit_controller/media_player.py:100-101 | the PLAY_PAUSE key enables both play and pause, and nothing else is enabled by keys |
| `MediaPlayer.Setup` | homeassistant/components/homekit_controller/media_player.py:81-101 | a callback only adds feature bits (old bits kept, the new ones exactly those it grants), replaces only its own supported set with the clamped advertisement, and keeps the features consistent with the supported sets |
| `MediaPlayer.NegotiateKeepsFeatures` | homeassistant/components/homekit_controller/media_player.py:81-101 | over any sequence of setup callbacks, every feature bit set before is still set after |
| `MediaPlayer.NegotiateKeepsConsistent` | homeassistant/components/homekit_controller/media_player.py:81-101 | over any sequence of setup callbacks, every supported write path stays covered by its feature bit |
| `MediaPlayer.NegotiatedFeature` | homeassistant/components/homekit_controller/media_player.py:81-101 | a feature is set after a sequence of callbacks exactly when it was set before or some callback granted it |
| `MediaPlayer.HomeKitTelevision.constructor` | homeassistant/components/homekit_controller/media_player.py:60-66 | a new entity has no features and empty supported sets |
| `MediaPlayer.HomeKitTelevision.SetupActiveIdentifier` | homeassistant/components/homekit_controller/media_player.py:81-82 | ORs in source selection, leaves the supported sets alone, keeps the invariant |
| `MediaPlayer.HomeKitTelevision.SetupTargetMediaState` | homeassistant/components/homekit_controller/media_player.py:84-96 | stores the clamped target set and ORs in the play/pause/stop bits it contains; keeps the invariant |
| `MediaPlayer.HomeKitTelevision.SetupRemoteKey` | homeassistant/components/homekit_controller/media_player.py:98-101 | stores the clamped key set and ORs in play and pause when it holds PLAY_PAUSE; keeps the invariant |
| `MediaPlayer.HomeKitTelevision.SupportedFeatures` | homeassistant/components/homekit_controller/media_player.py:108-111 | the reported features include play, pause and stop whenever a command has a write path for them |
| `MediaPlayer.HomeKitTelevision.SourceList` | homeassistant/components/homekit_controller/media_player.py:113-128 | one configured name per input source under the television, in enumeration order |
| `MediaPlayer.HomeKitTelevision.MediaPlay` | homeassistant/components/homekit_controller/media_player.py:161-174 | no write while playing; otherwise TargetMediaState := PLAY if supported, else RemoteKey := PLAY_PAUSE if supported, else nothing; any write is for a reported feature |
| `MediaPlayer.HomeKitTelevision.MediaPause` | homeassistant/components/homekit_controller/media_player.py:176-189 | no write while paused; otherwise TargetMediaState := PAUSE if supported, else RemoteKey := PLAY_PAUSE if supported, else nothing; any write is for a reported feature |
| `MediaPlayer.HomeKitTelevision.MediaStop` | homeassistant/components/homekit_controller/media_player.py:191-200 | no write while idle; otherwise TargetMediaState := STOP exactly when STOP is supported, never a remote key |
| `MediaPlayer.SelectThenReport` | homeassistant/components/homekit_controller/media_player.py:202-220 | selecting an existing source by name and then reading the current source (lines 133-146) gives that name back, when identifiers are unique and non-zero |
| `MediaPlayer.HomeKitTelevision.SelectSource` | homeassistant/components/homekit_controller/media_player.py:202-220 | fails with an error naming the source, and writes nothing, exactly when no input source has that name; otherwise ActiveIdentifier := the identifier of the first input source with that name |

## Left out

- Platform registration (`async_setup_entry`, the listener and the known-devices lookup). It
  is plumbing outside the entity's logic.
- The transport (`async_put_characteristics`). A write is only a returned value; its success,
  failure and asynchronous suspension are not modelled.
- The entity base class and the pairing library's service tree. These are
  `entity_map.aid(...).services.iid/filter/first` and `self.service.value`. They are
  replaced by the snapshot: a sequence of input sources already filtered to this television.
  Which characteristic callbacks the base class invokes, and in what order, is an input to
  `Negotiate`.
- `clamp_enum_to_char` is modelled only as intersection with the known enum. Its handling of
  minimum and maximum values, and of a characteristic with no valid-values metadata, is
  library code not part of this model.
- The numeric values of the feature constants and of the HomeKit enums. They are abstract
  cases here, so an unlisted media-state code cannot coincide with a listed member.
- `get_characteristic_types`: its list decides which `_setup_*` callbacks the entity base
  class fires. That choice is abstracted into the sequence of setup events `Negotiate` takes.
- `device_class`, the unused `_state` field and the debug logging. None of them affects a
  result.
- Input sources missing CONFIGURED_NAME or IDENTIFIER. The model assumes every input source
  carries both, as the code does at lines 126, 145 and 216. Without them, those lines would
  raise `KeyError`; the model does not capture that error.
- The race in which two commands both read a stale state and both write. It is a concurrency
  effect; the model is sequential.
- `MediaPlayer.Source`: the case where ACTIVE_IDENTIFIER is set but no input source carries
  it is excluded by a precondition. The code raises an exception there rather than returning
  a value.
