/**
 Derivation of the user-visible operating action from the mode, the targets and the
 unit's activity signals (`setActionIfOperatingTo`, its deprecated compressor variant,
 `updateAction`).
 */
module Actions {
  import opened Values
  import opened ByteMaps
  import opened ClimateState

  /** The stage fallback: enabled, a stage is reported, and it is not the idle stage (entry 0). */
  predicate StageIsActive(c: Controller, cfg: Config)
    requires WellFormed(cfg.tables)
  {
    cfg.useStageForOperatingStatus && c.currentSettings.stage.Some? &&
    c.currentSettings.stage.value != cfg.tables.stage[0]
  }

  /**
   The action `setActionIfOperatingTo(a)` sets: `a` when the unit reports it is operating, or
   when the stage fallback sees activity; IDLE otherwise.
   */
  function ActionIfOperating(c: Controller, cfg: Config, a: Action): (r: Action)
    requires WellFormed(cfg.tables)
    ensures r == a || r == Idle
    ensures r == a <==> c.currentStatus.operating || StageIsActive(c, cfg) || a == Idle
  {
    if c.currentStatus.operating then a
    else if StageIsActive(c, cfg) then a
    else Idle
  }

  function SetActionIfOperatingTo(c: Controller, cfg: Config, a: Action): Controller
    requires WellFormed(cfg.tables)
  {
    c.(action := ActionIfOperating(c, cfg, a))
  }

  /** The deprecated variant: a compressor frequency of at most 0 forces IDLE first. */
  function ActionIfOperatingAndCompressorIsActive(c: Controller, cfg: Config, a: Action): (r: Action)
    requires WellFormed(cfg.tables)
    ensures c.currentStatus.compressorFrequency <= 0 ==> r == Idle
    ensures r == a || r == Idle
    ensures c.currentStatus.compressorFrequency > 0 ==>
              (r == a <==> c.currentStatus.operating || StageIsActive(c, cfg) || a == Idle)
  {
    if c.currentStatus.compressorFrequency <= 0 then Idle
    else ActionIfOperating(c, cfg, a)
  }

  function SetActionIfOperatingAndCompressorIsActiveTo(c: Controller, cfg: Config, a: Action): Controller
    requires WellFormed(cfg.tables)
  {
    c.(action := ActionIfOperatingAndCompressorIsActive(c, cfg, a))
  }

  /** The action the mode calls for before gating by the activity signals. */
  function ModeAction(c: Controller, cfg: Config): Action
  {
    var cur := c.currentTemperature;
    var low := c.targetTemperatureLow;
    var high := c.targetTemperatureHigh;
    match c.mode
    case Heat => Heating
    case Cool => Cooling
    case Auto =>
      if cfg.traits.supportsHeat && cfg.traits.supportsCool then
        if AtLeast(cur, high) then Cooling
        else if AtMost(cur, low) then Heating
        else Idle
      else if cfg.traits.supportsCool then
        if Below(cur, high) then Idle else Cooling
      else if cfg.traits.supportsHeat then
        if AtLeast(cur, low) then Idle else Heating
      else ActionFan
    case Dry => Drying
    case FanOnly => ActionFan
    case _ => ActionOff
  }

  /** FAN_ONLY and the modes without an action are not gated; every other mode is. */
  function DerivedAction(c: Controller, cfg: Config): Action
    requires WellFormed(cfg.tables)
  {
    match c.mode
    case FanOnly => ActionFan
    case Off => ActionOff
    case HeatCool => ActionOff
    case _ => ActionIfOperating(c, cfg, ModeAction(c, cfg))
  }

  function UpdateAction(c: Controller, cfg: Config): Controller
    requires WellFormed(cfg.tables)
  {
    var s := if cfg.traits.supportsTwoPointTarget then Sanitized(c, cfg) else c;
    s.(action := DerivedAction(s, cfg))
  }

  /** The actions each mode can lead to. */
  predicate ActionFitsMode(m: Mode, a: Action)
  {
    match m
    case Heat => a == Heating || a == Idle
    case Cool => a == Cooling || a == Idle
    case Dry => a == Drying || a == Idle
    case Auto => a == Cooling || a == Heating || a == Idle || a == ActionFan
    case FanOnly => a == ActionFan
    case _ => a == ActionOff
  }

  /**
   `updateAction` only ever leaves an action the mode allows, changes nothing but the action
   and (with two setpoints) the sanitised targets, and reports IDLE for every gated mode
   when neither the operating flag nor the stage fallback shows activity.
   */
  lemma UpdateActionFitsMode(c: Controller, cfg: Config)
    requires WellFormed(cfg.tables)
    ensures var r := UpdateAction(c, cfg);
      && ActionFitsMode(r.mode, r.action)
      && r == (if cfg.traits.supportsTwoPointTarget then Sanitized(c, cfg) else c).(action := r.action)
      && ((!c.currentStatus.operating && !StageIsActive(c, cfg) &&
           c.mode in {Heat, Cool, Dry, Auto}) ==> r.action == Idle)
  {
  }

  /**
   AUTO with both HEAT and COOL: at or above the high target the unit is COOLING, else at or
   below the low target HEATING, else IDLE (also when a target or the room temperature is
   NaN), each gated by the activity signals. With only one of them supported a single
   threshold decides between that action and IDLE; with neither, FAN (gated).
   */
  lemma AutoActionThresholds(c: Controller, cfg: Config)
    requires WellFormed(cfg.tables) && c.mode == Auto
    ensures var cur := c.currentTemperature;
      var low := c.targetTemperatureLow;
      var high := c.targetTemperatureHigh;
      var a := DerivedAction(c, cfg);
      && (cfg.traits.supportsHeat && cfg.traits.supportsCool ==>
            && (AtLeast(cur, high) ==> a == ActionIfOperating(c, cfg, Cooling))
            && (!AtLeast(cur, high) && AtMost(cur, low) ==> a == ActionIfOperating(c, cfg, Heating))
            && (!AtLeast(cur, high) && !AtMost(cur, low) ==> a == Idle)
            && (a == Cooling ==> AtLeast(cur, high))
            && (a == Heating ==> AtMost(cur, low) && !AtLeast(cur, high)))
      && (cfg.traits.supportsCool && !cfg.traits.supportsHeat ==>
            (a == Cooling || a == Idle) &&
            (a == Cooling <==> !Below(cur, high) && ActionIfOperating(c, cfg, Cooling) == Cooling))
      && (cfg.traits.supportsHeat && !cfg.traits.supportsCool ==>
            (a == Heating || a == Idle) &&
            (a == Heating <==> !AtLeast(cur, low) && ActionIfOperating(c, cfg, Heating) == Heating))
      && (!cfg.traits.supportsHeat && !cfg.traits.supportsCool ==>
            a == ActionIfOperating(c, cfg, ActionFan))
  {
  }

  /** A NaN room temperature is never "at or beyond" a threshold: with both modes AUTO gives IDLE. */
  lemma AutoWithUnknownTemperatureIsIdle(c: Controller, cfg: Config)
    requires WellFormed(cfg.tables) && c.mode == Auto
    requires cfg.traits.supportsHeat && cfg.traits.supportsCool
    requires c.currentTemperature.NaN?
    ensures DerivedAction(c, cfg) == Idle
  {
  }
}
