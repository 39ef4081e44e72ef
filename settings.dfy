/**
 Token mappers: the `set*Setting` helpers, and the mode, fan and swing decisions of
 `controlMode`, `controlFan` and `controlSwing` that say which staged token to write.
 */
module Settings {
  import opened Values
  import opened ByteMaps
  import opened ClimateState

  // ---------------------------------------------------------------------------------
  // set*Setting: look the name up, store the matching token or entry 0 on a miss.

  function SetModeSetting(c: Controller, t: Tables, name: string): Controller
    requires WellFormed(t)
  {
    c.(wantedSettings := c.wantedSettings.(mode := Some(Setting(t.mode, name))))
  }

  function SetPowerSetting(c: Controller, t: Tables, name: string): Controller
    requires WellFormed(t)
  {
    c.(wantedSettings := c.wantedSettings.(power := Some(Setting(t.power, name))))
  }

  function SetFanSpeed(c: Controller, t: Tables, name: string): Controller
    requires WellFormed(t)
  {
    c.(wantedSettings := c.wantedSettings.(fan := Some(Setting(t.fan, name))))
  }

  function SetVaneSetting(c: Controller, t: Tables, name: string): Controller
    requires WellFormed(t)
  {
    c.(wantedSettings := c.wantedSettings.(vane := Some(Setting(t.vane, name))))
  }

  function SetWideVaneSetting(c: Controller, t: Tables, name: string): Controller
    requires WellFormed(t)
  {
    c.(wantedSettings := c.wantedSettings.(wideVane := Some(Setting(t.wideVane, name))))
  }

  function SetAirflowControlSetting(c: Controller, t: Tables, name: string): Controller
    requires WellFormed(t)
  {
    c.(wantedRunStates := c.wantedRunStates.(airflowControl := Some(Setting(t.airflowControl, name))))
  }

  /** Every setter stores the looked-up token, entry 0 of its table when the name is unknown. */
  lemma SettersFallBackToFirstEntry(c: Controller, t: Tables, name: string)
    requires WellFormed(t)
    ensures SetModeSetting(c, t, name).wantedSettings.mode
            == Some(if name in t.mode then name else t.mode[0])
    ensures SetPowerSetting(c, t, name).wantedSettings.power
            == Some(if name in t.power then name else t.power[0])
    ensures SetFanSpeed(c, t, name).wantedSettings.fan
            == Some(if name in t.fan then name else t.fan[0])
    ensures SetVaneSetting(c, t, name).wantedSettings.vane
            == Some(if name in t.vane then name else t.vane[0])
    ensures SetWideVaneSetting(c, t, name).wantedSettings.wideVane
            == Some(if name in t.wideVane then name else t.wideVane[0])
    ensures SetAirflowControlSetting(c, t, name).wantedRunStates.airflowControl
            == Some(if name in t.airflowControl then name else t.airflowControl[0])
  {
  }

  /** Every setter keeps the invariant: whatever the name, what it stores is a token. */
  lemma SettersPreserveInv(c: Controller, t: Tables, name: string)
    requires WellFormed(t) && Inv(c, t)
    ensures Inv(SetModeSetting(c, t, name), t)
    ensures Inv(SetPowerSetting(c, t, name), t)
    ensures Inv(SetFanSpeed(c, t, name), t)
    ensures Inv(SetVaneSetting(c, t, name), t)
    ensures Inv(SetWideVaneSetting(c, t, name), t)
    ensures Inv(SetAirflowControlSetting(c, t, name), t)
  {
  }

  // ---------------------------------------------------------------------------------
  // controlMode

  datatype ModeCommand = ModeAndPowerOn(modeName: string) | PowerOff | NoMapping

  /** Which tokens `controlMode` writes for a mode. */
  function ModeCommandFor(m: Mode): (r: ModeCommand)
    ensures r.PowerOff? <==> m == Off
    ensures r.NoMapping? <==> m == HeatCool
  {
    match m
    case Cool => ModeAndPowerOn("COOL")
    case Heat => ModeAndPowerOn("HEAT")
    case Dry => ModeAndPowerOn("DRY")
    case Auto => ModeAndPowerOn("AUTO")
    case FanOnly => ModeAndPowerOn("FAN")
    case Off => PowerOff
    case HeatCool => NoMapping
  }

  /** Distinct powered modes are sent as distinct mode names. */
  lemma ModeNamesDistinct(m1: Mode, m2: Mode)
    requires ModeCommandFor(m1).ModeAndPowerOn? && ModeCommandFor(m2).ModeAndPowerOn?
    requires m1 != m2
    ensures ModeCommandFor(m1).modeName != ModeCommandFor(m2).modeName
  {
  }

  function ControlMode(c: Controller, t: Tables): Controller
    requires WellFormed(t)
  {
    match ModeCommandFor(c.mode)
    case ModeAndPowerOn(name) => SetPowerSetting(SetModeSetting(c, t, name), t, "ON")
    case PowerOff => SetPowerSetting(c, t, "OFF")
    case NoMapping => c
  }

  /**
   OFF writes only the power token "OFF"; every powered mode writes its mode token and
   power "ON"; a mode without mapping changes nothing. Nothing outside the two tokens moves.
   */
  lemma ControlModeWrites(c: Controller, t: Tables)
    requires WellFormed(t)
    requires "OFF" in t.power && "ON" in t.power
    ensures var r := ControlMode(c, t);
      && (c.mode == Off ==>
            r == c.(wantedSettings := c.wantedSettings.(power := Some("OFF"))))
      && (c.mode == HeatCool ==> r == c)
      && (c.mode in {Cool, Heat, Dry, Auto, FanOnly} ==>
            r.wantedSettings.power == Some("ON") &&
            r.wantedSettings.mode == Some(Setting(t.mode, ModeCommandFor(c.mode).modeName)) &&
            r == c.(wantedSettings := r.wantedSettings) &&
            r.wantedSettings == c.wantedSettings.(power := r.wantedSettings.power,
                                                  mode := r.wantedSettings.mode))
  {
  }

  // ---------------------------------------------------------------------------------
  // controlFan

  datatype FanCommand = PowerSetting(powerName: string) | FanSpeed(speedName: string)

  /** What `controlFan` writes for a fan mode: only FAN_OFF turns into a power command. */
  function FanCommandFor(f: FanMode): (r: FanCommand)
    ensures r.PowerSetting? <==> f == FanOff
    ensures r.PowerSetting? ==> r.powerName == "OFF"
    ensures r.FanSpeed? ==> r.speedName in ["AUTO", "QUIET", "1", "2", "3", "4"]
  {
    match f
    case FanOff => PowerSetting("OFF")
    case FanQuiet => FanSpeed("QUIET")
    case FanDiffuse => FanSpeed("QUIET")
    case FanLow => FanSpeed("1")
    case FanMedium => FanSpeed("2")
    case FanMiddle => FanSpeed("3")
    case FanHigh => FanSpeed("4")
    case _ => FanSpeed("AUTO")
  }

  function ControlFan(c: Controller, t: Tables): Controller
    requires WellFormed(t)
    requires c.fanMode.Some?
  {
    match FanCommandFor(c.fanMode.value)
    case PowerSetting(name) => SetPowerSetting(c, t, name)
    case FanSpeed(name) => SetFanSpeed(c, t, name)
  }

  /** FAN_OFF writes power and leaves the fan token; every other fan mode writes only the fan token. */
  lemma ControlFanWrites(c: Controller, t: Tables)
    requires WellFormed(t) && c.fanMode.Some?
    ensures var r := ControlFan(c, t);
      && (c.fanMode.value == FanOff ==>
            r == c.(wantedSettings := c.wantedSettings.(power := Some(Setting(t.power, "OFF")))))
      && (c.fanMode.value != FanOff ==>
            r == c.(wantedSettings := c.wantedSettings.(
                      fan := Some(Setting(t.fan, FanCommandFor(c.fanMode.value).speedName)))))
  {
  }

  // ---------------------------------------------------------------------------------
  // controlSwing

  /** The names `controlSwing` passes to the vane and wide-vane setters; None: not written. */
  datatype SwingCommand = SwingCommand(vane: Option<string>, wideVane: Option<string>)

  predicate IsSwing(token: Option<string>)
  {
    token == Some("SWING")
  }

  /** The swing machine: what to write given the unit's current vane and wide-vane state. */
  function SwingCommandFor(sw: SwingMode, vaneIsSwing: bool, wideIsSwing: bool, wideSupported: bool)
    : SwingCommand
  {
    match sw
    case SwingOff =>
      SwingCommand(if vaneIsSwing then Some("AUTO") else None,
                   if wideSupported && wideIsSwing then Some("|") else None)
    case SwingVertical =>
      SwingCommand(Some("SWING"), if wideSupported && wideIsSwing then Some("|") else None)
    case SwingHorizontal =>
      SwingCommand(if vaneIsSwing then Some("AUTO") else None,
                   if wideSupported then Some("SWING") else None)
    case SwingBoth =>
      SwingCommand(Some("SWING"), if wideSupported then Some("SWING") else None)
    case SwingUnsupported =>
      SwingCommand(None, None)
  }

  function ControlSwing(c: Controller, cfg: Config): Controller
    requires WellFormed(cfg.tables)
  {
    var cmd := SwingCommandFor(c.swingMode, IsSwing(c.currentSettings.vane),
                               IsSwing(c.currentSettings.wideVane),
                               cfg.traits.supportsHorizontalSwing);
    var c1 := if cmd.vane.Some? then SetVaneSetting(c, cfg.tables, cmd.vane.value) else c;
    if cmd.wideVane.Some? then SetWideVaneSetting(c1, cfg.tables, cmd.wideVane.value) else c1
  }

  /**
   `controlSwing` reads the reported vanes and writes only the staged ones. VERTICAL and BOTH
   stage the vane token for "SWING"; OFF and HORIZONTAL stage the one for "AUTO" exactly when
   the reported vane swings, and otherwise keep the staged vane. With wide-vane support,
   HORIZONTAL and BOTH stage the wide-vane token for "SWING", and OFF and VERTICAL stage the
   one for "|" exactly when the reported wide vane swings. Without support the staged wide
   vane is untouched; an unsupported value changes nothing; nothing else ever changes.
   */
  lemma ControlSwingWrites(c: Controller, cfg: Config)
    requires WellFormed(cfg.tables)
    ensures var r := ControlSwing(c, cfg);
      var t := cfg.tables;
      var w := c.wantedSettings;
      && r == c.(wantedSettings := r.wantedSettings)
      && r.wantedSettings == w.(vane := r.wantedSettings.vane, wideVane := r.wantedSettings.wideVane)
      && ((c.swingMode == SwingVertical || c.swingMode == SwingBoth) ==>
            r.wantedSettings.vane == Some(Setting(t.vane, "SWING")))
      && ((c.swingMode == SwingOff || c.swingMode == SwingHorizontal) ==>
            r.wantedSettings.vane ==
              (if IsSwing(c.currentSettings.vane) then Some(Setting(t.vane, "AUTO")) else w.vane))
      && (cfg.traits.supportsHorizontalSwing ==>
            && ((c.swingMode == SwingHorizontal || c.swingMode == SwingBoth) ==>
                  r.wantedSettings.wideVane == Some(Setting(t.wideVane, "SWING")))
            && ((c.swingMode == SwingOff || c.swingMode == SwingVertical) ==>
                  r.wantedSettings.wideVane ==
                    (if IsSwing(c.currentSettings.wideVane) then Some(Setting(t.wideVane, "|"))
                     else w.wideVane)))
      && (!cfg.traits.supportsHorizontalSwing ==> r.wantedSettings.wideVane == w.wideVane)
      && (c.swingMode == SwingUnsupported ==> r == c)
  {
  }

  /**
   When the staged vanes agree with the reported ones (nothing is pending) and the tables
   hold the tokens the machine names, the staged snapshot `controlSwing` leaves is consistent
   with the request on each axis: the vane swings exactly for VERTICAL and BOTH, and (when
   the unit has one) the wide vane swings exactly for HORIZONTAL and BOTH.
   */
  lemma ControlSwingMatchesRequest(c: Controller, cfg: Config)
    requires WellFormed(cfg.tables) && c.swingMode != SwingUnsupported
    requires c.wantedSettings.vane == c.currentSettings.vane
    requires c.wantedSettings.wideVane == c.currentSettings.wideVane
    requires "AUTO" in cfg.tables.vane && "SWING" in cfg.tables.vane
    requires "|" in cfg.tables.wideVane && "SWING" in cfg.tables.wideVane
    ensures var w := ControlSwing(c, cfg).wantedSettings;
      && (IsSwing(w.vane) <==> c.swingMode == SwingVertical || c.swingMode == SwingBoth)
      && (cfg.traits.supportsHorizontalSwing ==>
            (IsSwing(w.wideVane) <==> c.swingMode == SwingHorizontal || c.swingMode == SwingBoth))
  {
    ControlSwingWrites(c, cfg);
  }
}
