/**
 The controller object. Its fields are the state the change-reconciliation core works on;
 every method updates them in place, step by step as the source does, and is proved to
 leave exactly the state that the matching operation of the functional model computes
 from the old state (`Snapshot() == Op(old(Snapshot()), ...)`). What those operations
 guarantee is proved about them in Settings, DualSetpoint, Actions and Intent.
 */
module CN105 {
  import opened Values
  import opened ByteMaps
  import opened ClimateState
  import Settings
  import DualSetpoint
  import Actions
  import Intent

  class CN105Climate {
    const cfg: Config

    var mode: Mode
    var fanMode: Option<FanMode>
    var swingMode: SwingMode
    var targetTemperature: Temp
    var targetTemperatureLow: Temp
    var targetTemperatureHigh: Temp
    var currentTemperature: Temp
    var action: Action
    var lastDualSetpointSide: Side
    var lastDualSetpointChangeMs: int
    var wantedSettings: WantedSettings
    var wantedRunStates: WantedRunStates
    var currentSettings: CurrentSettings
    var currentStatus: CurrentStatus
    var remoteTemperature: Temp
    var shouldSendExternalTemperature: bool

    /** The object's state as a value of the functional model. */
    function Snapshot(): Controller
      reads this
    {
      Controller(mode, fanMode, swingMode, targetTemperature, targetTemperatureLow,
                 targetTemperatureHigh, currentTemperature, action, lastDualSetpointSide,
                 lastDualSetpointChangeMs, wantedSettings, wantedRunStates, currentSettings,
                 currentStatus, remoteTemperature, shouldSendExternalTemperature)
    }

    predicate Valid()
      reads this
    {
      WellFormed(cfg.tables) && Inv(Snapshot(), cfg.tables)
    }

    constructor (config: Config, initial: Controller)
      requires WellFormed(config.tables) && Inv(initial, config.tables)
      ensures cfg == config && Snapshot() == initial && Valid()
    {
      cfg := config;
      mode := initial.mode;
      fanMode := initial.fanMode;
      swingMode := initial.swingMode;
      targetTemperature := initial.targetTemperature;
      targetTemperatureLow := initial.targetTemperatureLow;
      targetTemperatureHigh := initial.targetTemperatureHigh;
      currentTemperature := initial.currentTemperature;
      action := initial.action;
      lastDualSetpointSide := initial.lastDualSetpointSide;
      lastDualSetpointChangeMs := initial.lastDualSetpointChangeMs;
      wantedSettings := initial.wantedSettings;
      wantedRunStates := initial.wantedRunStates;
      currentSettings := initial.currentSettings;
      currentStatus := initial.currentStatus;
      remoteTemperature := initial.remoteTemperature;
      shouldSendExternalTemperature := initial.shouldSendExternalTemperature;
    }

    // -------------------------------------------------------------------------------
    // Debounce gate (the hand-off to the transport is the returned flag)

    method CheckPendingWantedSettings(now: int) returns (send: bool)
      ensures send == Intent.SendDue(wantedSettings.hasChanged, wantedSettings.lastChange,
                                     now, cfg.debounceDelay)
    {
      if !wantedSettings.hasChanged || now - wantedSettings.lastChange < cfg.debounceDelay {
        return false;
      }
      send := true;
    }

    method CheckPendingWantedRunStates(now: int) returns (send: bool)
      ensures send == Intent.SendDue(wantedRunStates.hasChanged, wantedRunStates.lastChange,
                                     now, cfg.debounceDelay)
    {
      if !wantedRunStates.hasChanged || now - wantedRunStates.lastChange < cfg.debounceDelay {
        return false;
      }
      send := true;
    }

    // -------------------------------------------------------------------------------
    // Intent pipeline

    method ControlDelegate(req: ChangeRequest, now: int)
      requires Valid()
      modifies this
      ensures Valid()
      ensures Snapshot() == Intent.Control(old(Snapshot()), cfg, req, now)
      ensures Intent.Updated(req) ==>
                wantedSettings.hasChanged && !wantedSettings.hasBeenSent &&
                wantedSettings.lastChange == now
      ensures !Intent.Updated(req) ==> Snapshot() == old(Snapshot())
    {
      var updated := false;
      var changed := ProcessModeChange(req);
      updated := changed || updated;
      changed := ProcessTemperatureChange(req, now);
      updated := changed || updated;
      changed := ProcessFanChange(req);
      updated := changed || updated;
      changed := ProcessSwingChange(req);
      updated := changed || updated;
      FinalizeControlIfUpdated(updated, now);
      Intent.ControlMarksDirtyExactlyWhenUpdated(old(Snapshot()), cfg, req, now);
    }

    method ProcessModeChange(req: ChangeRequest) returns (changed: bool)
      requires Valid()
      modifies this
      ensures Valid()
      ensures changed == req.mode.Some?
      ensures Snapshot() == Intent.ProcessModeChange(old(Snapshot()), cfg, req)
    {
      if req.mode.None? {
        return false;
      }
      mode := req.mode.value;
      ControlMode();
      ControlTemperature();
      changed := true;
    }

    method ProcessTemperatureChange(req: ChangeRequest, now: int) returns (changed: bool)
      requires Valid()
      modifies this
      ensures Valid()
      ensures changed == Intent.TemperatureRequested(req)
      ensures Snapshot() == Intent.ProcessTemperatureChange(old(Snapshot()), cfg, req, now)
    {
      var tempHasValue := req.targetTemperatureLow.Some? || req.targetTemperatureHigh.Some? ||
                          req.targetTemperature.Some?;
      if !tempHasValue {
        return false;
      }
      var tempLow, tempHigh, tempSingle := NaN, NaN, NaN;
      if req.targetTemperatureLow.Some? {
        tempLow := cfg.normalize(req.targetTemperatureLow.value);
      }
      if req.targetTemperatureHigh.Some? {
        tempHigh := cfg.normalize(req.targetTemperatureHigh.value);
      }
      if req.targetTemperature.Some? {
        tempSingle := cfg.normalize(req.targetTemperature.value);
      }
      if cfg.traits.supportsTwoPointTarget {
        if req.targetTemperatureLow.Some? && req.targetTemperatureHigh.Some? {
          HandleDualSetpointBoth(tempLow, tempHigh, now);
        } else if req.targetTemperatureLow.Some? {
          HandleDualSetpointLowOnly(tempLow, now);
        } else if req.targetTemperatureHigh.Some? {
          HandleDualSetpointHighOnly(tempHigh, now);
        } else if req.targetTemperature.Some? && (mode == Auto || mode == Dry) {
          HandleSingleTargetInAutoOrDry(tempSingle, now);
        }
      } else if req.targetTemperature.Some? {
        targetTemperature := tempSingle;
      }
      ControlTemperature();
      changed := true;
    }

    method ProcessFanChange(req: ChangeRequest) returns (changed: bool)
      requires Valid()
      modifies this
      ensures Valid()
      ensures changed == req.fanMode.Some?
      ensures Snapshot() == Intent.ProcessFanChange(old(Snapshot()), cfg, req)
    {
      if req.fanMode.None? {
        return false;
      }
      fanMode := req.fanMode;
      ControlFan();
      changed := true;
    }

    method ProcessSwingChange(req: ChangeRequest) returns (changed: bool)
      requires Valid()
      modifies this
      ensures Valid()
      ensures changed == req.swingMode.Some?
      ensures Snapshot() == Intent.ProcessSwingChange(old(Snapshot()), cfg, req)
    {
      if req.swingMode.None? {
        return false;
      }
      swingMode := req.swingMode.value;
      ControlSwing();
      changed := true;
    }

    method FinalizeControlIfUpdated(updated: bool, now: int)
      requires Valid()
      modifies this
      ensures Valid()
      ensures Snapshot() == Intent.FinalizeControlIfUpdated(old(Snapshot()), updated, now)
    {
      if !updated {
        return;
      }
      wantedSettings := wantedSettings.(hasChanged := true, hasBeenSent := false, lastChange := now);
    }

    // -------------------------------------------------------------------------------
    // Dual-setpoint reconciler

    method HandleDualSetpointBoth(low: Temp, high: Temp, now: int)
      requires Valid()
      modifies this
      ensures Valid()
      ensures Snapshot() == DualSetpoint.HandleDualSetpointBoth(old(Snapshot()), low, high, now)
    {
      targetTemperatureLow := low;
      targetTemperatureHigh := high;
      lastDualSetpointSide := Neutral;
      lastDualSetpointChangeMs := now;
      currentSettings := currentSettings.(dualLowTarget := targetTemperatureLow,
                                          dualHighTarget := targetTemperatureHigh);
    }

    method HandleDualSetpointLowOnly(low: Temp, now: int)
      requires Valid()
      modifies this
      ensures Valid()
      ensures Snapshot() == DualSetpoint.HandleDualSetpointLowOnly(old(Snapshot()), cfg, low, now)
    {
      if lastDualSetpointSide == High && now - lastDualSetpointChangeMs < cfg.antireboundMs {
        return;
      }
      if targetTemperatureLow.Val? && WithinEpsilon(low, targetTemperatureLow, NoChangeEpsilon) {
        return;
      }
      targetTemperatureLow := low;
      if mode == Auto {
        targetTemperatureHigh := Plus(targetTemperatureLow, AutoAmplitude);
      }
      lastDualSetpointSide := Low;
      lastDualSetpointChangeMs := now;
      currentSettings := currentSettings.(dualLowTarget := targetTemperatureLow,
                                          dualHighTarget := targetTemperatureHigh);
    }

    method HandleDualSetpointHighOnly(high: Temp, now: int)
      requires Valid()
      modifies this
      ensures Valid()
      ensures Snapshot() == DualSetpoint.HandleDualSetpointHighOnly(old(Snapshot()), cfg, high, now)
    {
      if lastDualSetpointSide == Low && now - lastDualSetpointChangeMs < cfg.antireboundMs {
        return;
      }
      if targetTemperatureHigh.Val? && WithinEpsilon(high, targetTemperatureHigh, NoChangeEpsilon) {
        return;
      }
      targetTemperatureHigh := high;
      if mode == Auto {
        targetTemperatureLow := Minus(targetTemperatureHigh, AutoAmplitude);
      }
      lastDualSetpointSide := High;
      lastDualSetpointChangeMs := now;
      currentSettings := currentSettings.(dualLowTarget := targetTemperatureLow,
                                          dualHighTarget := targetTemperatureHigh);
    }

    method HandleSingleTargetInAutoOrDry(requested: Temp, now: int)
      requires Valid()
      modifies this
      ensures Valid()
      ensures Snapshot() == DualSetpoint.HandleSingleTargetInAutoOrDry(old(Snapshot()), requested, now)
    {
      if mode == Auto {
        targetTemperatureLow := Minus(requested, HalfSpan);
        targetTemperatureHigh := Plus(requested, HalfSpan);
        lastDualSetpointSide := Neutral;
        lastDualSetpointChangeMs := now;
        currentSettings := currentSettings.(dualLowTarget := targetTemperatureLow,
                                            dualHighTarget := targetTemperatureHigh);
        targetTemperature := requested;
      }
      if mode == Dry {
        targetTemperatureHigh := requested;
        if targetTemperatureLow.NaN? {
          targetTemperatureLow := requested;
        }
        lastDualSetpointSide := High;
        lastDualSetpointChangeMs := now;
        currentSettings := currentSettings.(dualLowTarget := targetTemperatureLow,
                                            dualHighTarget := targetTemperatureHigh);
        targetTemperature := requested;
      }
    }

    /** The sanitising collaborator applied to the two targets. */
    method SanitizeDualSetpoints()
      requires Valid()
      modifies this
      ensures Valid()
      ensures Snapshot() == Sanitized(old(Snapshot()), cfg)
    {
      var p := cfg.sanitize(targetTemperatureLow, targetTemperatureHigh);
      targetTemperatureLow, targetTemperatureHigh := p.0, p.1;
    }

    method ControlTemperature()
      requires Valid()
      modifies this
      ensures Valid()
      ensures Snapshot() == DualSetpoint.ControlTemperature(old(Snapshot()), cfg)
    {
      var setting: Temp;
      if cfg.traits.supportsTwoPointTarget {
        SanitizeDualSetpoints();
        match mode {
          case Auto =>
            if currentSettings.temperature.Val? && currentSettings.temperature.v > 0.0 {
              targetTemperatureLow := Minus(currentSettings.temperature, HalfSpan);
              targetTemperatureHigh := Plus(currentSettings.temperature, HalfSpan);
            }
            setting := currentSettings.temperature;
          case Heat =>
            setting := targetTemperatureLow;
          case Cool =>
            setting := targetTemperatureHigh;
          case Dry =>
            setting := targetTemperatureHigh;
          case _ =>
            setting := Midpoint(targetTemperatureLow, targetTemperatureHigh);
        }
      } else {
        setting := targetTemperature;
      }
      setting := cfg.quantize(setting);
      wantedSettings := wantedSettings.(temperature := setting);
    }

    // -------------------------------------------------------------------------------
    // Token mappers

    method ControlSwing()
      requires Valid()
      modifies this
      ensures Valid()
      ensures Snapshot() == Settings.ControlSwing(old(Snapshot()), cfg)
    {
      var cmd := Settings.SwingCommandFor(swingMode, Settings.IsSwing(currentSettings.vane),
                                          Settings.IsSwing(currentSettings.wideVane),
                                          cfg.traits.supportsHorizontalSwing);
      if cmd.vane.Some? {
        SetVaneSetting(cmd.vane.value);
      }
      if cmd.wideVane.Some? {
        SetWideVaneSetting(cmd.wideVane.value);
      }
    }

    method ControlFan()
      requires Valid() && fanMode.Some?
      modifies this
      ensures Valid()
      ensures Snapshot() == Settings.ControlFan(old(Snapshot()), cfg.tables)
    {
      match Settings.FanCommandFor(fanMode.value) {
        case PowerSetting(name) => SetPowerSetting(name);
        case FanSpeed(name) => SetFanSpeed(name);
      }
    }

    method ControlMode()
      requires Valid()
      modifies this
      ensures Valid()
      ensures Snapshot() == Settings.ControlMode(old(Snapshot()), cfg.tables)
    {
      match Settings.ModeCommandFor(mode) {
        case ModeAndPowerOn(name) =>
          SetModeSetting(name);
          SetPowerSetting("ON");
        case PowerOff =>
          SetPowerSetting("OFF");
        case NoMapping =>
      }
    }

    // -------------------------------------------------------------------------------
    // Action derivation

    method SetActionIfOperatingTo(actionIfOperating: Action)
      requires Valid()
      modifies this
      ensures Valid()
      ensures Snapshot() == Actions.SetActionIfOperatingTo(old(Snapshot()), cfg, actionIfOperating)
    {
      var stageIsActive := Actions.StageIsActive(Snapshot(), cfg);
      if currentStatus.operating {
        action := actionIfOperating;
      } else if stageIsActive {
        action := actionIfOperating;
      } else {
        action := Idle;
      }
    }

    method SetActionIfOperatingAndCompressorIsActiveTo(a: Action)
      requires Valid()
      modifies this
      ensures Valid()
      ensures Snapshot() == Actions.SetActionIfOperatingAndCompressorIsActiveTo(old(Snapshot()), cfg, a)
    {
      if currentStatus.compressorFrequency <= 0 {
        action := Idle;
      } else {
        SetActionIfOperatingTo(a);
      }
    }

    method UpdateAction()
      requires Valid()
      modifies this
      ensures Valid()
      ensures Snapshot() == Actions.UpdateAction(old(Snapshot()), cfg)
    {
      if cfg.traits.supportsTwoPointTarget {
        SanitizeDualSetpoints();
      }
      match mode {
        case Heat =>
          SetActionIfOperatingTo(Heating);
        case Cool =>
          SetActionIfOperatingTo(Cooling);
        case Auto =>
          if cfg.traits.supportsHeat && cfg.traits.supportsCool {
            if AtLeast(currentTemperature, targetTemperatureHigh) {
              SetActionIfOperatingTo(Cooling);
            } else if AtMost(currentTemperature, targetTemperatureLow) {
              SetActionIfOperatingTo(Heating);
            } else {
              SetActionIfOperatingTo(Idle);
            }
          } else if cfg.traits.supportsCool {
            if Below(currentTemperature, targetTemperatureHigh) {
              SetActionIfOperatingTo(Idle);
            } else {
              SetActionIfOperatingTo(Cooling);
            }
          } else if cfg.traits.supportsHeat {
            if AtLeast(currentTemperature, targetTemperatureLow) {
              SetActionIfOperatingTo(Idle);
            } else {
              SetActionIfOperatingTo(Heating);
            }
          } else {
            SetActionIfOperatingTo(ActionFan);
          }
        case Dry =>
          SetActionIfOperatingTo(Drying);
        case FanOnly =>
          action := ActionFan;
        case _ =>
          action := ActionOff;
      }
    }

    // -------------------------------------------------------------------------------
    // set*Setting helpers

    method SetModeSetting(name: string)
      requires Valid()
      modifies this
      ensures Valid()
      ensures Snapshot() == Settings.SetModeSetting(old(Snapshot()), cfg.tables, name)
    {
      var index := LookupByteMapIndex(cfg.tables.mode, name);
      if index > -1 {
        wantedSettings := wantedSettings.(mode := Some(cfg.tables.mode[index]));
      } else {
        wantedSettings := wantedSettings.(mode := Some(cfg.tables.mode[0]));
      }
    }

    method SetPowerSetting(name: string)
      requires Valid()
      modifies this
      ensures Valid()
      ensures Snapshot() == Settings.SetPowerSetting(old(Snapshot()), cfg.tables, name)
    {
      var index := LookupByteMapIndex(cfg.tables.power, name);
      if index > -1 {
        wantedSettings := wantedSettings.(power := Some(cfg.tables.power[index]));
      } else {
        wantedSettings := wantedSettings.(power := Some(cfg.tables.power[0]));
      }
    }

    method SetFanSpeed(name: string)
      requires Valid()
      modifies this
      ensures Valid()
      ensures Snapshot() == Settings.SetFanSpeed(old(Snapshot()), cfg.tables, name)
    {
      var index := LookupByteMapIndex(cfg.tables.fan, name);
      if index > -1 {
        wantedSettings := wantedSettings.(fan := Some(cfg.tables.fan[index]));
      } else {
        wantedSettings := wantedSettings.(fan := Some(cfg.tables.fan[0]));
      }
    }

    method SetVaneSetting(name: string)
      requires Valid()
      modifies this
      ensures Valid()
      ensures Snapshot() == Settings.SetVaneSetting(old(Snapshot()), cfg.tables, name)
    {
      var index := LookupByteMapIndex(cfg.tables.vane, name);
      if index > -1 {
        wantedSettings := wantedSettings.(vane := Some(cfg.tables.vane[index]));
      } else {
        wantedSettings := wantedSettings.(vane := Some(cfg.tables.vane[0]));
      }
    }

    method SetWideVaneSetting(name: string)
      requires Valid()
      modifies this
      ensures Valid()
      ensures Snapshot() == Settings.SetWideVaneSetting(old(Snapshot()), cfg.tables, name)
    {
      var index := LookupByteMapIndex(cfg.tables.wideVane, name);
      if index > -1 {
        wantedSettings := wantedSettings.(wideVane := Some(cfg.tables.wideVane[index]));
      } else {
        wantedSettings := wantedSettings.(wideVane := Some(cfg.tables.wideVane[0]));
      }
    }

    method SetAirflowControlSetting(name: string)
      requires Valid()
      modifies this
      ensures Valid()
      ensures Snapshot() == Settings.SetAirflowControlSetting(old(Snapshot()), cfg.tables, name)
    {
      var index := LookupByteMapIndex(cfg.tables.airflowControl, name);
      if index > -1 {
        wantedRunStates := wantedRunStates.(airflowControl := Some(cfg.tables.airflowControl[index]));
      } else {
        wantedRunStates := wantedRunStates.(airflowControl := Some(cfg.tables.airflowControl[0]));
      }
    }

    // -------------------------------------------------------------------------------
    // Remote temperature

    method SetRemoteTemperature(setting: Temp)
      requires Valid()
      modifies this
      ensures Valid()
      ensures Snapshot() == Intent.SetRemoteTemperature(old(Snapshot()), setting)
    {
      if setting.NaN? {
        return;
      }
      remoteTemperature := setting;
      shouldSendExternalTemperature := true;
    }
  }
}
