# CN105Climate change reconciliation, modelled in Dafny

CN105Climate is an ESPHome component that drives a Mitsubishi heat pump over its CN105
serial port. This project models the component's control core, from
`components/cn105/climateControls.cpp`:

- **Change reconciliation.** A user's change request (mode, single/low/high target
  temperature, fan mode, swing mode) is reconciled with the controller's live state. The
  result is a *wanted settings* snapshot: protocol tokens plus a staged temperature.
- **Debounce.** The snapshot is marked dirty with a timestamp. It is handed to the
  transport only once the debounce delay has passed since the last change.
- **Dual setpoints.** On units with two setpoints, the low/high targets are reconciled:
  - AUTO keeps a fixed 4.0-degree amplitude;
  - a UI anti-rebound window ignores an echoed opposite-side update;
  - a change of less than 0.05 degrees is ignored;
  - a single target in AUTO or DRY is translated into a low/high pair.
- **Action.** The user-visible operating action is derived from the mode, the targets and
  the unit's activity signals (operating flag, stage fallback, compressor frequency).
- **Lookups.** Every protocol token comes from a fixed byte-map table by linear lookup.
  An unknown name falls back to the table's first entry.

The project has two layers:

- **Functional model** (modules `Values`, `ByteMaps`, `ClimateState`, `Settings`,
  `DualSetpoint`, `Actions`, `Intent`). The controller's state is one record,
  `ClimateState.Controller`. Each operation of the source is a function from the old
  state to the new one. The properties are lemmas about those functions.
- **Imperative object** (module `CN105`). `class CN105Climate` has one field per piece of
  controller state. Its methods update those fields step by step, as the source does:
  - Each state-changing method keeps `Valid()`: every staged token is a token of its
    table, and the climate group (`wantedSettings`) is never marked changed and sent at
    the same time.
  - Each one ensures `Snapshot() == Op(old(Snapshot()), ...)`, where `Op` is the
    matching function of the functional model. The lemmas therefore apply to the object.

The clock (`CUSTOM_MILLIS`) is an explicit `now` parameter, one per call.

Fixed per controller, and held in `ClimateState.Config`:

- the byte-map tables;
- the traits (two-point target support, HEAT/COOL support, horizontal swing);
- the stage-fallback flag;
- the anti-rebound window and the debounce delay;
- three collaborators whose bodies are not in this file, taken as arbitrary total
  functions:
  - the UI-to-unit temperature conversion;
  - the quantisation of the staged temperature;
  - the dual-setpoint sanitiser.

A temperature is `NaN` or a real number. Every ordered comparison involving `NaN` is false,
as for IEEE floats.

## Model

| member | source | states |
|---|---|---|
| ByteMaps.LookupIndex | components/cn105/climateControls.cpp:510-511 | The lookup returns -1 exactly when the name is not in the table. Otherwise it returns the index of the first entry equal to the name. |
| ByteMaps.LookupByteMapIndex | components/cn105/climateControls.cpp:510-511 | The front-to-back scan returns exactly the index `LookupIndex` specifies: the first match, or -1 after the last entry. The class setters call it. |
| ByteMaps.Setting | components/cn105/climateControls.cpp:509-516 | The stored token is always a token of the table. It is the name itself when the table has it, and entry 0 otherwise. |
| Settings.SettersFallBackToFirstEntry | components/cn105/climateControls.cpp:509-561 | Each of the six setters stores the requested name, or entry 0 of its own table on a miss. |
| Settings.SettersPreserveInv | components/cn105/climateControls.cpp:509-561 | Whatever name is passed, each setter leaves every staged token a token of its table. |
| CN105.CN105Climate.SetModeSetting | components/cn105/climateControls.cpp:509-516 | The object's new state is the functional setter applied to the old state. It keeps the object invariant. |
| CN105.CN105Climate.SetPowerSetting | components/cn105/climateControls.cpp:518-525 | The same, for the power token (table of 2). |
| CN105.CN105Climate.SetFanSpeed | components/cn105/climateControls.cpp:527-534 | The same, for the fan token (table of 6). |
| CN105.CN105Climate.SetVaneSetting | components/cn105/climateControls.cpp:536-543 | The same, for the vane token (table of 7). |
| CN105.CN105Climate.SetWideVaneSetting | components/cn105/climateControls.cpp:545-552 | The same, for the wide-vane token (table of 8). |
| CN105.CN105Climate.SetAirflowControlSetting | components/cn105/climateControls.cpp:554-561 | The same, for the run-state airflow token (table of 3). |
| Settings.ModeCommandFor | components/cn105/climateControls.cpp:375-409 | OFF is the only mode that writes just power OFF. HEAT_COOL is the only mode without a mapping. Every other mode writes a mode name and power ON. |
| Settings.ModeNamesDistinct | components/cn105/climateControls.cpp:377-401 | Two different powered modes are sent as two different mode names. |
| Settings.ControlModeWrites | components/cn105/climateControls.cpp:375-409 | OFF stages power "OFF" and nothing else. A powered mode stages its mode token and power "ON" and nothing else. An unmapped mode changes nothing. |
| CN105.CN105Climate.ControlMode | components/cn105/climateControls.cpp:375-409 | The object's switch leaves the state given by the functional mode mapping. It keeps the invariant. |
| Settings.FanCommandFor | components/cn105/climateControls.cpp:287-316 | FAN_OFF is the only fan mode that becomes a power command, and that command is OFF. Every other fan mode becomes a fan speed from {AUTO, QUIET, 1, 2, 3, 4}. |
| Settings.ControlFanWrites | components/cn105/climateControls.cpp:287-316 | FAN_OFF changes only the staged power. Every other fan mode changes only the staged fan token, to its mapped speed. |
| CN105.CN105Climate.ControlFan | components/cn105/climateControls.cpp:287-316 | The object's switch leaves the state given by the functional fan mapping. |
| Settings.ControlSwingMatchesRequest | components/cn105/climateControls.cpp:243-285 | Suppose nothing is pending: the staged vanes equal the reported ones, and the tables hold "AUTO", "SWING" and the wide-vane centre token (a vertical bar). Then the staged vane swings exactly for VERTICAL and BOTH. With wide-vane support, the staged wide vane swings exactly for HORIZONTAL and BOTH. |
| Settings.ControlSwingWrites | components/cn105/climateControls.cpp:243-285 | Only the staged vane and wide vane change. VERTICAL and BOTH stage vane SWING. OFF and HORIZONTAL stage vane AUTO exactly when the reported vane swings, and otherwise keep the staged vane. With wide-vane support, HORIZONTAL and BOTH stage wide vane SWING. OFF and VERTICAL stage the wide-vane centre token exactly when the reported wide vane swings. Without support, the wide vane is untouched. An unsupported value changes nothing. |
| CN105.CN105Climate.ControlSwing | components/cn105/climateControls.cpp:243-285 | The object's switch leaves the state given by the functional swing machine. |
| DualSetpoint.BothSetsExactly | components/cn105/climateControls.cpp:69-77 | Both targets become exactly the given pair, with side 'N' at `now`. The reported dual targets mirror them. Nothing else changes. |
| CN105.CN105Climate.HandleDualSetpointBoth | components/cn105/climateControls.cpp:69-77 | The object's update equals the functional handler. |
| DualSetpoint.LowOnlyIgnoredChangesNothing | components/cn105/climateControls.cpp:81-88 | Inside the anti-rebound window after a high change, a low-only update is a no-op. It is also a no-op when it is within 0.05 of a defined low. |
| DualSetpoint.LowOnlyApplied | components/cn105/climateControls.cpp:89-98 | An applied low stores the low and records side 'L' at `now`. In AUTO the high slides to low + 4.0; otherwise the high is kept. The reported targets mirror the live ones. Nothing else changes. |
| DualSetpoint.HighOnlyIgnoredChangesNothing | components/cn105/climateControls.cpp:103-110 | The symmetric no-op cases for a high-only update, after a low change. |
| DualSetpoint.HighOnlyApplied | components/cn105/climateControls.cpp:111-120 | An applied high stores the high and records side 'H'. In AUTO the low slides to high - 4.0. The reported targets mirror the live ones. |
| DualSetpoint.NaNSetpointIsStored | components/cn105/climateControls.cpp:85-98 | A NaN low outside the anti-rebound window is stored with side 'L', and in AUTO the high becomes NaN too. The no-change test at line 85 never holds for NaN. The same holds for a NaN high at lines 107-120. |
| DualSetpoint.AutoAmplitudePreserved | components/cn105/climateControls.cpp:90-94 | In AUTO, after any applied single-sided update with a defined value, high - low is exactly 4.0. The same holds at lines 112-116. |
| DualSetpoint.LowOnlyIdempotent | components/cn105/climateControls.cpp:79-99 | Re-sending the same defined low, at any later time, changes nothing more. |
| DualSetpoint.HighOnlyIdempotent | components/cn105/climateControls.cpp:101-121 | Re-sending the same defined high, at any later time, changes nothing more. |
| DualSetpoint.AntireboundBoundary | components/cn105/climateControls.cpp:81 | After a high change at T, a low at T + window - 1 is ignored, and a low at T + window is applied. The comparison is strict. |
| CN105.CN105Climate.HandleDualSetpointLowOnly | components/cn105/climateControls.cpp:79-99 | The object's early returns and updates equal the functional low-only handler. |
| CN105.CN105Climate.HandleDualSetpointHighOnly | components/cn105/climateControls.cpp:101-121 | The object's early returns and updates equal the functional high-only handler. |
| DualSetpoint.SingleTargetInAutoOrDry | components/cn105/climateControls.cpp:123-148 | AUTO: the single target is centred in [t - 2, t + 2] with side 'N'. DRY: it becomes the high, and also the low when the low is NaN, with side 'H'. Both modes store the single target. Any other mode changes nothing. |
| CN105.CN105Climate.HandleSingleTargetInAutoOrDry | components/cn105/climateControls.cpp:123-148 | The object's two independent `if`s equal the functional handler. |
| DualSetpoint.ApplyTemperatureRequestBranches | components/cn105/climateControls.cpp:161-194 | Without dual support, only a single target is used, stored converted. With dual support, a single target outside AUTO/DRY is dropped, and the result either is unchanged or mirrors the reported targets. Only targets, side and timestamp can change. |
| DualSetpoint.ControlTemperatureChoosesSetpoint | components/cn105/climateControls.cpp:318-373 | With two setpoints, HEAT stages the sanitised low, COOL and DRY the high, AUTO the unit's setpoint, and other modes the midpoint. AUTO reseeds low/high to unit ± 2 when that setpoint is positive. Without two setpoints, the single target is staged. Only the staged temperature and the targets can change. |
| CN105.CN105Climate.SanitizeDualSetpoints | components/cn105/climateControls.cpp:323 | Stands for the `sanitizeDualSetpoints()` calls at lines 323 and 449. The targets become what the configured sanitiser makes of them, nothing else changes, and the invariant is kept. |
| CN105.CN105Climate.ControlTemperature | components/cn105/climateControls.cpp:318-373 | The object's branches equal the functional setpoint choice. |
| CN105.CN105Climate.ProcessModeChange | components/cn105/climateControls.cpp:57-67 | Reports a change exactly when a mode is present. Sets the mode, then maps it and stages the temperature. |
| CN105.CN105Climate.ProcessTemperatureChange | components/cn105/climateControls.cpp:150-199 | Reports a change exactly when any of low, high or single is present. The update equals the functional dispatch followed by `controlTemperature`. |
| CN105.CN105Climate.ProcessFanChange | components/cn105/climateControls.cpp:201-209 | Reports a change exactly when a fan mode is present. Stores it and maps it. |
| CN105.CN105Climate.ProcessSwingChange | components/cn105/climateControls.cpp:211-219 | Reports a change exactly when a swing mode is present. Stores it and maps it. |
| CN105.CN105Climate.FinalizeControlIfUpdated | components/cn105/climateControls.cpp:221-232 | With an update, the settings are marked changed, not sent, at `now`. Otherwise nothing changes. |
| Intent.ControlMarksDirtyExactlyWhenUpdated | components/cn105/climateControls.cpp:43-55 | The settings are marked dirty at `now` exactly when the request carries a mode, a temperature, a fan or a swing. A request carrying none of them changes nothing. |
| CN105.CN105Climate.ControlDelegate | components/cn105/climateControls.cpp:43-55 | The object's pipeline equals the functional composition mode → temperature → fan → swing → finalize. It states the dirty-exactly-when-updated property and keeps the invariant. |
| Intent.ControlPreservesInv | components/cn105/climateControls.cpp:43-55 | No request breaks the invariant: every staged token stays a token of its table, and changed excludes sent. |
| Intent.IgnoredTemperatureStillMarksDirty | components/cn105/climateControls.cpp:155-198 | A low that the anti-rebound window drops still returns true from the temperature step. The dual side and timestamp stay, but the settings are marked dirty at `now`. |
| Intent.AutoTemperatureFollowsUnit | components/cn105/climateControls.cpp:326-334 | In AUTO with two setpoints and a positive unit setpoint, any temperature request ends with low/high = unit ± 2 and the unit's setpoint staged. |
| Intent.AutoLowThenEchoedHigh | components/cn105/climateControls.cpp:79-121 | Scenario: a low of 20.0 at t=0 in AUTO gives [20.0, 24.0] with side 'L'. An echoed high of 23.0 at t=50, inside the window, is ignored. |
| Intent.SingleSetpointUnit | components/cn105/climateControls.cpp:188-194 | Scenario: on a single-setpoint unit, 21.5 is stored converted and staged quantised. The dual targets and side are untouched. |
| CN105.CN105Climate.CheckPendingWantedSettings | components/cn105/climateControls.cpp:12-20 | The climate group is handed off exactly when it is marked changed and `now - lastChange` is at least the debounce delay. |
| CN105.CN105Climate.CheckPendingWantedRunStates | components/cn105/climateControls.cpp:22-29 | The same gate, for the run-state group. |
| Intent.ControlRestartsDebounce | components/cn105/climateControls.cpp:12-20 | After an applied request at `now`, the group is due at t exactly when t - now is at least the delay. |
| Intent.DebounceCoalesces | components/cn105/climateControls.cpp:14 | For two requests less than the delay apart: the group is never due between them. Afterwards it is due only once the delay has passed since the second. The second request's fan speed is what is staged. |
| Intent.ControlAllPreservesInv | components/cn105/climateControls.cpp:43-55 | By induction over any series of requests, the invariant holds after every one of them. |
| Intent.ControlAllOfEmptyRequestsChangesNothing | components/cn105/climateControls.cpp:221-224 | A series of requests that carry no mode, temperature, fan or swing leaves the whole state unchanged. |
| Intent.ControlStagesTokens | components/cn105/climateControls.cpp:43-55 | One call stages the mode token of a powered mode request and the fan token of a non-OFF fan request. It stages power OFF for mode OFF or FAN_OFF, and power ON for a powered mode without FAN_OFF. Otherwise it keeps each token. |
| Intent.ControlAllLastModeWins | components/cn105/climateControls.cpp:43-55 | After any series, the staged mode token is that of the last request for a powered mode. It does not matter what came before, or what OFF, HEAT_COOL or mode-less requests followed. |
| Intent.ControlAllLastPowerWins | components/cn105/climateControls.cpp:43-55 | After any series, the staged power token is that of the last request with a mapped mode (written at lines 380-405) or FAN_OFF (line 289). So [HEAT, OFF] stages OFF and [OFF, HEAT] stages ON. |
| Intent.ControlAllLastFanWins | components/cn105/climateControls.cpp:287-316 | After any series, the staged fan token is that of the last request for a fan mode other than FAN_OFF. |
| Intent.SwingOffAfterPendingVerticalKeepsSwing | components/cn105/climateControls.cpp:249-263 | Suppose the unit reports vane AUTO. A VERTICAL request, then an OFF request, leave vane SWING staged. OFF reads the reported vane, not the staged one. |
| Intent.ControlAllDueAfterLastChange | components/cn105/climateControls.cpp:12-20 | Over a series of requests, the climate group is due exactly when the delay has passed since the last call that carried a change. It does not matter what came before that call, or how many empty requests followed it. |
| Actions.ActionIfOperating | components/cn105/climateControls.cpp:411-432 | The action is the requested one or IDLE. It is the requested one exactly when the unit is operating, the stage fallback sees a non-idle stage, or the request is IDLE. |
| CN105.CN105Climate.SetActionIfOperatingTo | components/cn105/climateControls.cpp:411-432 | The object's update equals the functional gate. |
| Actions.ActionIfOperatingAndCompressorIsActive | components/cn105/climateControls.cpp:434-442 | A compressor frequency at or below 0 forces IDLE. Otherwise the operating gate decides. |
| CN105.CN105Climate.SetActionIfOperatingAndCompressorIsActiveTo | components/cn105/climateControls.cpp:434-442 | The object's update equals the functional compressor gate. |
| Actions.UpdateActionFitsMode | components/cn105/climateControls.cpp:444-499 | The derived action is one the mode allows, such as HEATING or IDLE for HEAT, and FAN for FAN_ONLY. Only the action and the sanitised targets change. Every gated mode reports IDLE with no activity signal. |
| Actions.AutoActionThresholds | components/cn105/climateControls.cpp:459-485 | AUTO with HEAT and COOL: COOLING at or above the high, else HEATING at or below the low, else IDLE; in this case a NaN target or room temperature gives IDLE. With only COOL or only HEAT, one threshold decides between that action and IDLE. With neither, FAN. Every result is gated by the activity signals. |
| Actions.AutoWithUnknownTemperatureIsIdle | components/cn105/climateControls.cpp:460-468 | With a NaN room temperature, AUTO with both modes falls through to IDLE. |
| CN105.CN105Climate.UpdateAction | components/cn105/climateControls.cpp:444-499 | The object's update equals the functional action derivation. |
| Intent.RemoteTemperatureIntake | components/cn105/climateControls.cpp:563-575 | A NaN sample changes nothing. Any other sample is stored and flagged for sending, even when unchanged. |
| CN105.CN105Climate.SetRemoteTemperature | components/cn105/climateControls.cpp:563-575 | The object's update equals the functional intake. |

## Left out

- `control` (lines 234-241) only takes the settings mutex, or its emulation, around
  `controlDelegate`. The model is single-threaded, so `ControlDelegate` stands for the
  call made under the lock. Concurrency is not modelled.
- `logCheckWantedSettingsMutex` (lines 31-41) only logs, so it has no counterpart. Every
  `ESP_LOG*` call and `debugSettings` is left out, because they do not change state.
- `sendWantedSettings`, `sendWantedRunStates` and `publish_state` are not part of this
  model; they are transport and host-framework work.
- CN105.CN105Climate.CheckPendingWantedSettings returns the decision to send instead of
  sending. CheckPendingWantedRunStates does the same.
- `normalizeUiTemperatureToHeatpumpTemperature`, `calculateTemperatureSetting` and
  `sanitizeDualSetpoints` are defined outside this file and are not part of this model
  (the calls to the last are `CN105.CN105Climate.SanitizeDualSetpoints`).
  They are arbitrary functions in `Config`, so the properties hold for every choice of
  them.
- The byte-map tables and `lookupByteMapIndex` live in the component's header, which is
  not part of this model:
  - The tables are configuration, with the lengths the lookups pass (5, 2, 6, 7, 8, 3).
  - `LookupByteMapIndex` is the front-to-back scan that the -1 miss convention implies,
    specified by the function `LookupIndex`.
  - Lemmas that need a token to be present (e.g. "SWING" in the vane table) say so.
- The constants `UI_SETPOINT_ANTIREBOUND_MS` and `debounce_delay_` are configuration.
- Temperatures are real numbers, not 32-bit floats. `fabsf(x) < 0.05f` is
  `-0.05 < x < 0.05` exactly. Float rounding of `±4.0`, `±2.0` and the midpoint is
  not modelled.
- `CUSTOM_MILLIS` is an unbounded integer `now`; the wrap-around of the millisecond
  counter is not modelled.
- The target-temperature getters and setters are plain field reads and writes; their
  bodies are outside this file.
- `traits()` and `config_traits()` (lines 501-507) are accessors of the traits, which
  the model reads directly from `Config`.
- Intent.DebounceCoalesces: it shows only two requests and only the fan token. The
  snapshot handed off after a burst does not always hold the last value asked for each
  field:
  - Over any series, the mode token (`Intent.ControlAllLastModeWins`), the fan token
    (`Intent.ControlAllLastFanWins`) and the power token (`Intent.ControlAllLastPowerWins`)
    are the last ones requested. In one request with a powered mode and FAN_OFF, power
    ends up OFF, because the fan step runs after the mode step (lines 49-51).
  - The staged temperature is not always the last one requested. In AUTO it follows the
    unit (`Intent.AutoTemperatureFollowsUnit`), and a mode change stages it again.
  - Swing is not always the last one requested. `Intent.SwingOffAfterPendingVerticalKeepsSwing`
    shows that SWING OFF after an unsent VERTICAL keeps the vane swinging, because lines
    249-255 test the reported vane rather than the staged one.
- `Inv` states "changed excludes sent" only for the climate group. The run-state group's
  flags are not touched by this core, so they are not constrained.
- One `now` stands for every `CUSTOM_MILLIS` read within a call (lines 74, 96, 118, 130, 142
  and 229). So `last_dual_setpoint_change_ms_` and `wantedSettings.lastChange` are always
  equal after a call in the model. In the source they can differ by the time the call
  takes.
- CN105.CN105Climate.constructor stands for the component's constructor, which is not part
  of this model. The controller starts from any state that satisfies `Inv`, not from the
  source's initial values (NaN temperatures, side 'N', nothing changed or sent).
- A NaN target temperature in a request is not dropped: the source stores it (lines 89 and
  111), and the model follows the source (`DualSetpoint.NaNSetpointIsStored`). Only a NaN
  remote temperature sample is dropped (lines 564-567).
- The climate mode, fan mode, swing mode and action enumerations come from the host
  framework; their definitions are not part of this model.
  - `SwingUnsupported` stands for any other swing value.
  - Fan modes ON, AUTO, FOCUS and anything else all take the default branch.
- In `controlTemperature`, the inner two-point checks at lines 327 and 358 repeat the
  outer check at line 322. Their `else` branches (lines 336-338 and 360-362) cannot be
  reached and have no counterpart.
- `handleDualSetpoint*` and `handleSingleTargetInAutoOrDry` write
  `currentSettings.dual_low_target` and `dual_high_target`. So the reported settings are
  not read-only in this core, and the model follows the code.
