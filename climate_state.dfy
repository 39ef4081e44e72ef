/**
 The state of the CN105 climate controller: the host framework's climate enums, the
 staged ("wanted") settings of the two debounce groups, the unit-reported snapshots it
 reads, its capabilities, and one record `Controller` with a field per piece of state
 that the change-reconciliation core reads or writes.
 */
module ClimateState {
  import opened Values
  import opened ByteMaps

  /** The host framework's climate modes; HeatCool has no protocol mapping here. */
  datatype Mode = Off | HeatCool | Cool | Heat | FanOnly | Dry | Auto

  datatype FanMode =
    | FanOn | FanOff | FanAuto | FanLow | FanMedium | FanHigh
    | FanMiddle | FanFocus | FanDiffuse | FanQuiet

  /** The four combined swing positions, and any out-of-range value the enum may carry. */
  datatype SwingMode = SwingOff | SwingBoth | SwingVertical | SwingHorizontal | SwingUnsupported

  datatype Action = ActionOff | Cooling | Heating | Idle | Drying | ActionFan

  /** Which setpoint was changed last: 'L', 'H' or 'N'. */
  datatype Side = Low | High | Neutral

  /** Capabilities: two-point target, HEAT and COOL modes, horizontal (wide-vane) swing. */
  datatype Traits = Traits(
    supportsTwoPointTarget: bool,
    supportsHeat: bool,
    supportsCool: bool,
    supportsHorizontalSwing: bool)

  /** The settings last reported by the unit; the core writes only the two dual targets. */
  datatype CurrentSettings = CurrentSettings(
    vane: Option<string>,
    wideVane: Option<string>,
    stage: Option<string>,
    temperature: Temp,
    dualLowTarget: Temp,
    dualHighTarget: Temp)

  datatype CurrentStatus = CurrentStatus(operating: bool, compressorFrequency: int)

  /** The climate-settings debounce group. */
  datatype WantedSettings = WantedSettings(
    hasChanged: bool,
    hasBeenSent: bool,
    lastChange: int,
    power: Option<string>,
    mode: Option<string>,
    fan: Option<string>,
    vane: Option<string>,
    wideVane: Option<string>,
    temperature: Temp)

  /** The run-states debounce group (only the airflow-control token is written by the core). */
  datatype WantedRunStates = WantedRunStates(
    hasChanged: bool,
    hasBeenSent: bool,
    lastChange: int,
    airflowControl: Option<string>)

  /** A change request from the host framework; an absent field must not be touched. */
  datatype ChangeRequest = ChangeRequest(
    mode: Option<Mode>,
    targetTemperature: Option<Temp>,
    targetTemperatureLow: Option<Temp>,
    targetTemperatureHigh: Option<Temp>,
    fanMode: Option<FanMode>,
    swingMode: Option<SwingMode>)

  /**
   What the controller is configured with and never changes: the byte maps, the traits,
   whether the stage token is a fallback activity signal, the anti-rebound window
   (UI_SETPOINT_ANTIREBOUND_MS), the debounce delay, and three collaborators whose bodies
   are outside this model: UI-to-unit temperature conversion, the final quantisation of
   the wanted temperature, and the sanitising of the dual setpoints.
   */
  datatype Config = Config(
    tables: Tables,
    traits: Traits,
    useStageForOperatingStatus: bool,
    antireboundMs: int,
    debounceDelay: int,
    normalize: Temp -> Temp,
    quantize: Temp -> Temp,
    sanitize: (Temp, Temp) -> (Temp, Temp))

  /** One field per field of the controller object that the core reads or writes. */
  datatype Controller = Controller(
    mode: Mode,
    fanMode: Option<FanMode>,
    swingMode: SwingMode,
    targetTemperature: Temp,
    targetTemperatureLow: Temp,
    targetTemperatureHigh: Temp,
    currentTemperature: Temp,
    action: Action,
    lastDualSetpointSide: Side,
    lastDualSetpointChangeMs: int,
    wantedSettings: WantedSettings,
    wantedRunStates: WantedRunStates,
    currentSettings: CurrentSettings,
    currentStatus: CurrentStatus,
    remoteTemperature: Temp,
    shouldSendExternalTemperature: bool)

  /**
   The controller's invariant: every staged token is a token of its table, and the climate
   group (`wantedSettings`) is never marked changed and sent at the same time.
   */
  predicate Inv(c: Controller, t: Tables)
  {
    TokenOf(c.wantedSettings.power, t.power) &&
    TokenOf(c.wantedSettings.mode, t.mode) &&
    TokenOf(c.wantedSettings.fan, t.fan) &&
    TokenOf(c.wantedSettings.vane, t.vane) &&
    TokenOf(c.wantedSettings.wideVane, t.wideVane) &&
    TokenOf(c.wantedRunStates.airflowControl, t.airflowControl) &&
    (c.wantedSettings.hasChanged ==> !c.wantedSettings.hasBeenSent)
  }

  /** The state with the dual targets replaced by what `sanitizeDualSetpoints` makes of them. */
  function Sanitized(c: Controller, cfg: Config): Controller
  {
    var p := cfg.sanitize(c.targetTemperatureLow, c.targetTemperatureHigh);
    c.(targetTemperatureLow := p.0, targetTemperatureHigh := p.1)
  }

  /** Copies the dual targets into the reported settings (`currentSettings.dual_*_target`). */
  function RefreshReportedTargets(c: Controller): Controller
  {
    c.(currentSettings := c.currentSettings.(
      dualLowTarget := c.targetTemperatureLow,
      dualHighTarget := c.targetTemperatureHigh))
  }
}
