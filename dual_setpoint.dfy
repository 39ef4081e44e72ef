/**
 The dual-setpoint reconciler: a state machine over the side changed last ('L', 'H', 'N')
 and the time of that change, with an anti-rebound window between opposite sides, a
 no-op epsilon, a fixed band in AUTO, and the centring of a single target. Also the
 mode-dependent choice of the temperature to send (`controlTemperature`).
 */
module DualSetpoint {
  import opened Values
  import opened ClimateState

  // ---------------------------------------------------------------------------------
  // The four handlers

  /** Both targets in one request: set them as given, side 'N'. */
  function HandleDualSetpointBoth(c: Controller, low: Temp, high: Temp, now: int): Controller
  {
    RefreshReportedTargets(c.(targetTemperatureLow := low, targetTemperatureHigh := high,
                              lastDualSetpointSide := Neutral, lastDualSetpointChangeMs := now))
  }

  /** A low-only update arriving within the window after a high change is a UI echo. */
  predicate LowRebound(c: Controller, cfg: Config, now: int)
  {
    c.lastDualSetpointSide == High && now - c.lastDualSetpointChangeMs < cfg.antireboundMs
  }

  predicate LowOnlyIgnored(c: Controller, cfg: Config, low: Temp, now: int)
  {
    LowRebound(c, cfg, now) || WithinEpsilon(low, c.targetTemperatureLow, NoChangeEpsilon)
  }

  function HandleDualSetpointLowOnly(c: Controller, cfg: Config, low: Temp, now: int): Controller
  {
    if LowOnlyIgnored(c, cfg, low, now) then c
    else
      var high := if c.mode == Auto then Plus(low, AutoAmplitude) else c.targetTemperatureHigh;
      RefreshReportedTargets(c.(targetTemperatureLow := low, targetTemperatureHigh := high,
                                lastDualSetpointSide := Low, lastDualSetpointChangeMs := now))
  }

  predicate HighRebound(c: Controller, cfg: Config, now: int)
  {
    c.lastDualSetpointSide == Low && now - c.lastDualSetpointChangeMs < cfg.antireboundMs
  }

  predicate HighOnlyIgnored(c: Controller, cfg: Config, high: Temp, now: int)
  {
    HighRebound(c, cfg, now) || WithinEpsilon(high, c.targetTemperatureHigh, NoChangeEpsilon)
  }

  function HandleDualSetpointHighOnly(c: Controller, cfg: Config, high: Temp, now: int): Controller
  {
    if HighOnlyIgnored(c, cfg, high, now) then c
    else
      var low := if c.mode == Auto then Minus(high, AutoAmplitude) else c.targetTemperatureLow;
      RefreshReportedTargets(c.(targetTemperatureLow := low, targetTemperatureHigh := high,
                                lastDualSetpointSide := High, lastDualSetpointChangeMs := now))
  }

  function HandleSingleTargetInAutoOrDry(c: Controller, requested: Temp, now: int): Controller
  {
    if c.mode == Auto then
      RefreshReportedTargets(c.(targetTemperatureLow := Minus(requested, HalfSpan),
                                targetTemperatureHigh := Plus(requested, HalfSpan),
                                lastDualSetpointSide := Neutral,
                                lastDualSetpointChangeMs := now)).(targetTemperature := requested)
    else if c.mode == Dry then
      var low := if c.targetTemperatureLow.NaN? then requested else c.targetTemperatureLow;
      RefreshReportedTargets(c.(targetTemperatureHigh := requested,
                                targetTemperatureLow := low,
                                lastDualSetpointSide := High,
                                lastDualSetpointChangeMs := now)).(targetTemperature := requested)
    else c
  }

  /** The reported dual targets mirror the live ones. */
  predicate Mirrored(c: Controller)
  {
    c.currentSettings.dualLowTarget == c.targetTemperatureLow &&
    c.currentSettings.dualHighTarget == c.targetTemperatureHigh
  }

  /** Everything outside the reconciler's footprint is equal in `a` and `b`. */
  predicate SameOutsideTargets(a: Controller, b: Controller)
  {
    a.mode == b.mode && a.fanMode == b.fanMode && a.swingMode == b.swingMode &&
    a.currentTemperature == b.currentTemperature && a.action == b.action &&
    a.wantedSettings == b.wantedSettings && a.wantedRunStates == b.wantedRunStates &&
    a.currentSettings.(dualLowTarget := b.currentSettings.dualLowTarget,
                       dualHighTarget := b.currentSettings.dualHighTarget) == b.currentSettings &&
    a.currentStatus == b.currentStatus && a.remoteTemperature == b.remoteTemperature &&
    a.shouldSendExternalTemperature == b.shouldSendExternalTemperature
  }

  // ---------------------------------------------------------------------------------
  // Properties of the handlers

  /**
   An ignored low-only update changes nothing: neither after a recent high change (the
   anti-rebound window) nor when the new low is within the epsilon of a defined current low.
   */
  lemma LowOnlyIgnoredChangesNothing(c: Controller, cfg: Config, low: Temp, now: int)
    ensures LowRebound(c, cfg, now) ==> HandleDualSetpointLowOnly(c, cfg, low, now) == c
    ensures c.targetTemperatureLow.Val? && low.Val? &&
            -NoChangeEpsilon < low.v - c.targetTemperatureLow.v < NoChangeEpsilon ==>
            HandleDualSetpointLowOnly(c, cfg, low, now) == c
  {
  }

  /**
   An applied low-only update records side 'L' at `now`, stores the new low, slides the high
   to low + 4.0 in AUTO (keeps it otherwise), mirrors both targets into the reported settings
   and touches nothing else.
   */
  lemma LowOnlyApplied(c: Controller, cfg: Config, low: Temp, now: int)
    requires !LowOnlyIgnored(c, cfg, low, now)
    ensures var r := HandleDualSetpointLowOnly(c, cfg, low, now);
      && r.lastDualSetpointSide == Low && r.lastDualSetpointChangeMs == now
      && r.targetTemperatureLow == low
      && (c.mode == Auto ==> r.targetTemperatureHigh == Plus(low, AutoAmplitude))
      && (c.mode != Auto ==> r.targetTemperatureHigh == c.targetTemperatureHigh)
      && r.targetTemperature == c.targetTemperature
      && Mirrored(r) && SameOutsideTargets(r, c)
  {
  }

  lemma HighOnlyIgnoredChangesNothing(c: Controller, cfg: Config, high: Temp, now: int)
    ensures HighRebound(c, cfg, now) ==> HandleDualSetpointHighOnly(c, cfg, high, now) == c
    ensures c.targetTemperatureHigh.Val? && high.Val? &&
            -NoChangeEpsilon < high.v - c.targetTemperatureHigh.v < NoChangeEpsilon ==>
            HandleDualSetpointHighOnly(c, cfg, high, now) == c
  {
  }

  lemma HighOnlyApplied(c: Controller, cfg: Config, high: Temp, now: int)
    requires !HighOnlyIgnored(c, cfg, high, now)
    ensures var r := HandleDualSetpointHighOnly(c, cfg, high, now);
      && r.lastDualSetpointSide == High && r.lastDualSetpointChangeMs == now
      && r.targetTemperatureHigh == high
      && (c.mode == Auto ==> r.targetTemperatureLow == Minus(high, AutoAmplitude))
      && (c.mode != Auto ==> r.targetTemperatureLow == c.targetTemperatureLow)
      && r.targetTemperature == c.targetTemperature
      && Mirrored(r) && SameOutsideTargets(r, c)
  {
  }

  /**
   A NaN target from a request is not dropped. Outside the anti-rebound window it is stored
   (the no-change test never holds for NaN) and the side is recorded; in AUTO the other
   target slides to NaN as well.
   */
  lemma NaNSetpointIsStored(c: Controller, cfg: Config, now: int)
    ensures !LowRebound(c, cfg, now) ==>
      var r := HandleDualSetpointLowOnly(c, cfg, NaN, now);
      && r.targetTemperatureLow == NaN && r.lastDualSetpointSide == Low
      && (c.mode == Auto ==> r.targetTemperatureHigh == NaN)
    ensures !HighRebound(c, cfg, now) ==>
      var r := HandleDualSetpointHighOnly(c, cfg, NaN, now);
      && r.targetTemperatureHigh == NaN && r.lastDualSetpointSide == High
      && (c.mode == Auto ==> r.targetTemperatureLow == NaN)
  {
  }

  /** After any applied single-sided update in AUTO with a defined value the band is exactly 4.0. */
  lemma AutoAmplitudePreserved(c: Controller, cfg: Config, t: Temp, now: int)
    requires c.mode == Auto && t.Val?
    ensures !LowOnlyIgnored(c, cfg, t, now) ==>
      var r := HandleDualSetpointLowOnly(c, cfg, t, now);
      r.targetTemperatureLow.Val? && r.targetTemperatureHigh.Val? &&
      r.targetTemperatureHigh.v - r.targetTemperatureLow.v == AutoAmplitude
    ensures !HighOnlyIgnored(c, cfg, t, now) ==>
      var r := HandleDualSetpointHighOnly(c, cfg, t, now);
      r.targetTemperatureLow.Val? && r.targetTemperatureHigh.Val? &&
      r.targetTemperatureHigh.v - r.targetTemperatureLow.v == AutoAmplitude
  {
  }

  /**
   Re-issuing the same defined low is a no-op: when the first update was not blocked by the
   anti-rebound window, a second identical one, at any later time, changes nothing more.
   */
  lemma LowOnlyIdempotent(c: Controller, cfg: Config, low: Temp, now: int, later: int)
    requires low.Val? && !LowRebound(c, cfg, now)
    ensures var once := HandleDualSetpointLowOnly(c, cfg, low, now);
      HandleDualSetpointLowOnly(once, cfg, low, later) == once
  {
    var once := HandleDualSetpointLowOnly(c, cfg, low, now);
    if LowOnlyIgnored(c, cfg, low, now) {
      assert WithinEpsilon(low, c.targetTemperatureLow, NoChangeEpsilon);
    } else {
      assert once.targetTemperatureLow == low;
    }
    assert WithinEpsilon(low, once.targetTemperatureLow, NoChangeEpsilon);
  }

  lemma HighOnlyIdempotent(c: Controller, cfg: Config, high: Temp, now: int, later: int)
    requires high.Val? && !HighRebound(c, cfg, now)
    ensures var once := HandleDualSetpointHighOnly(c, cfg, high, now);
      HandleDualSetpointHighOnly(once, cfg, high, later) == once
  {
    var once := HandleDualSetpointHighOnly(c, cfg, high, now);
    if HighOnlyIgnored(c, cfg, high, now) {
      assert WithinEpsilon(high, c.targetTemperatureHigh, NoChangeEpsilon);
    } else {
      assert once.targetTemperatureHigh == high;
    }
    assert WithinEpsilon(high, once.targetTemperatureHigh, NoChangeEpsilon);
  }

  /**
   The window boundary: after a high change at T, a low-only update at T + window - 1 is
   ignored and one at T + window is applied (unless it is within the epsilon).
   */
  lemma AntireboundBoundary(c: Controller, cfg: Config, low: Temp)
    requires c.lastDualSetpointSide == High
    requires !WithinEpsilon(low, c.targetTemperatureLow, NoChangeEpsilon)
    ensures var t := c.lastDualSetpointChangeMs + cfg.antireboundMs;
      && HandleDualSetpointLowOnly(c, cfg, low, t - 1) == c
      && HandleDualSetpointLowOnly(c, cfg, low, t).lastDualSetpointSide == Low
      && HandleDualSetpointLowOnly(c, cfg, low, t).targetTemperatureLow == low
  {
  }

  /** Both supplied: exactly (low, high), side 'N', no anti-rebound check. */
  lemma BothSetsExactly(c: Controller, low: Temp, high: Temp, now: int)
    ensures var r := HandleDualSetpointBoth(c, low, high, now);
      && r.targetTemperatureLow == low && r.targetTemperatureHigh == high
      && r.lastDualSetpointSide == Neutral && r.lastDualSetpointChangeMs == now
      && r.targetTemperature == c.targetTemperature
      && Mirrored(r) && SameOutsideTargets(r, c)
  {
  }

  /**
   A single target in AUTO is centred in a 4.0 band with side 'N'; in DRY it becomes the high,
   and the low only when the low was NaN, with side 'H'; the single target is stored in both.
   In any other mode nothing changes.
   */
  lemma SingleTargetInAutoOrDry(c: Controller, requested: Temp, now: int)
    ensures var r := HandleSingleTargetInAutoOrDry(c, requested, now);
      && (c.mode == Auto ==>
            r.targetTemperatureLow == Minus(requested, HalfSpan) &&
            r.targetTemperatureHigh == Plus(requested, HalfSpan) &&
            r.targetTemperature == requested &&
            r.lastDualSetpointSide == Neutral && r.lastDualSetpointChangeMs == now &&
            Mirrored(r) && SameOutsideTargets(r, c))
      && (c.mode == Dry ==>
            r.targetTemperatureHigh == requested &&
            r.targetTemperatureLow == (if c.targetTemperatureLow.NaN? then requested
                                       else c.targetTemperatureLow) &&
            r.targetTemperature == requested &&
            r.lastDualSetpointSide == High && r.lastDualSetpointChangeMs == now &&
            Mirrored(r) && SameOutsideTargets(r, c))
      && (c.mode != Auto && c.mode != Dry ==> r == c)
  {
  }

  // ---------------------------------------------------------------------------------
  // Applying the temperature fields of a request (processTemperatureChange before
  // controlTemperature)

  /** The unit-side value of an optional request field; NaN when absent. */
  function Normalized(cfg: Config, field: Option<Temp>): Temp
  {
    if field.Some? then cfg.normalize(field.value) else NaN
  }

  function ApplyTemperatureRequest(c: Controller, cfg: Config, req: ChangeRequest, now: int): Controller
  {
    var low := Normalized(cfg, req.targetTemperatureLow);
    var high := Normalized(cfg, req.targetTemperatureHigh);
    var single := Normalized(cfg, req.targetTemperature);
    if cfg.traits.supportsTwoPointTarget then
      if req.targetTemperatureLow.Some? && req.targetTemperatureHigh.Some? then
        HandleDualSetpointBoth(c, low, high, now)
      else if req.targetTemperatureLow.Some? then
        HandleDualSetpointLowOnly(c, cfg, low, now)
      else if req.targetTemperatureHigh.Some? then
        HandleDualSetpointHighOnly(c, cfg, high, now)
      else if req.targetTemperature.Some? && (c.mode == Auto || c.mode == Dry) then
        HandleSingleTargetInAutoOrDry(c, single, now)
      else c
    else if req.targetTemperature.Some? then
      c.(targetTemperature := single)
    else c
  }

  /**
   Without dual support only a single target is used, and it is stored as given (converted)
   with the dual targets, side and timestamp untouched. With dual support a single target
   outside AUTO and DRY is dropped. Whatever the branch, either nothing changed or the
   reported dual targets mirror the live ones.
   */
  lemma ApplyTemperatureRequestBranches(c: Controller, cfg: Config, req: ChangeRequest, now: int)
    ensures var r := ApplyTemperatureRequest(c, cfg, req, now);
      && (!cfg.traits.supportsTwoPointTarget ==>
            r == (if req.targetTemperature.Some?
                  then c.(targetTemperature := cfg.normalize(req.targetTemperature.value))
                  else c))
      && ((cfg.traits.supportsTwoPointTarget && req.targetTemperatureLow.None? &&
           req.targetTemperatureHigh.None? && c.mode != Auto && c.mode != Dry) ==> r == c)
      && (cfg.traits.supportsTwoPointTarget ==> r == c || Mirrored(r))
      && (cfg.traits.supportsTwoPointTarget ==> SameOutsideTargets(r, c))
  {
  }

  // ---------------------------------------------------------------------------------
  // controlTemperature

  /** The value `controlTemperature` hands to quantisation when the unit has two setpoints. */
  function SetpointToSend(mode: Mode, low: Temp, high: Temp, unitSetpoint: Temp): Temp
  {
    match mode
    case Auto => unitSetpoint
    case Heat => low
    case Cool => high
    case Dry => high
    case _ => Midpoint(low, high)
  }

  function ControlTemperature(c: Controller, cfg: Config): Controller
  {
    if !cfg.traits.supportsTwoPointTarget then
      c.(wantedSettings := c.wantedSettings.(temperature := cfg.quantize(c.targetTemperature)))
    else
      var s := Sanitized(c, cfg);
      var unit := c.currentSettings.temperature;
      var r := if s.mode == Auto && Positive(unit)
               then s.(targetTemperatureLow := Minus(unit, HalfSpan),
                       targetTemperatureHigh := Plus(unit, HalfSpan))
               else s;
      var setting := SetpointToSend(s.mode, s.targetTemperatureLow, s.targetTemperatureHigh, unit);
      r.(wantedSettings := r.wantedSettings.(temperature := cfg.quantize(setting)))
  }

  /**
   The choice of setpoint: with two setpoints HEAT sends the (sanitised) low, COOL and DRY the
   high, AUTO the unit's reported temperature (reseeding low/high to it +-2.0 when it is
   defined and positive), any other mode the midpoint; without, the single target. Only the
   staged temperature and the dual targets can change.
   */
  lemma ControlTemperatureChoosesSetpoint(c: Controller, cfg: Config)
    ensures var r := ControlTemperature(c, cfg);
      var p := cfg.sanitize(c.targetTemperatureLow, c.targetTemperatureHigh);
      var unit := c.currentSettings.temperature;
      && r.wantedSettings == c.wantedSettings.(temperature := r.wantedSettings.temperature)
      && r.(targetTemperatureLow := c.targetTemperatureLow,
            targetTemperatureHigh := c.targetTemperatureHigh,
            wantedSettings := c.wantedSettings) == c
      && (!cfg.traits.supportsTwoPointTarget ==>
            r == c.(wantedSettings := c.wantedSettings.(temperature := cfg.quantize(c.targetTemperature))))
      && (cfg.traits.supportsTwoPointTarget ==>
            && (c.mode == Heat ==> r.wantedSettings.temperature == cfg.quantize(p.0))
            && (c.mode == Cool || c.mode == Dry ==> r.wantedSettings.temperature == cfg.quantize(p.1))
            && (c.mode == Auto ==> r.wantedSettings.temperature == cfg.quantize(unit))
            && (c.mode in {Off, HeatCool, FanOnly} ==>
                  r.wantedSettings.temperature == cfg.quantize(Midpoint(p.0, p.1)))
            && (c.mode == Auto && Positive(unit) ==>
                  r.targetTemperatureLow == Minus(unit, HalfSpan) &&
                  r.targetTemperatureHigh == Plus(unit, HalfSpan))
            && (!(c.mode == Auto && Positive(unit)) ==>
                  r.targetTemperatureLow == p.0 && r.targetTemperatureHigh == p.1))
  {
  }
}
