/**
 The intent pipeline (`controlDelegate` and the `process*Change` steps), the debounce gate
 of the two staged groups, and the remote-temperature intake.
 */
module Intent {
  import opened Values
  import opened ByteMaps
  import opened ClimateState
  import opened Settings
  import opened DualSetpoint

  // ---------------------------------------------------------------------------------
  // The four steps and the dirty marking

  function ProcessModeChange(c: Controller, cfg: Config, req: ChangeRequest): Controller
    requires WellFormed(cfg.tables)
  {
    if req.mode.None? then c
    else ControlTemperature(ControlMode(c.(mode := req.mode.value), cfg.tables), cfg)
  }

  predicate TemperatureRequested(req: ChangeRequest)
  {
    req.targetTemperatureLow.Some? || req.targetTemperatureHigh.Some? || req.targetTemperature.Some?
  }

  function ProcessTemperatureChange(c: Controller, cfg: Config, req: ChangeRequest, now: int): Controller
  {
    if !TemperatureRequested(req) then c
    else ControlTemperature(ApplyTemperatureRequest(c, cfg, req, now), cfg)
  }

  function ProcessFanChange(c: Controller, cfg: Config, req: ChangeRequest): Controller
    requires WellFormed(cfg.tables)
  {
    if req.fanMode.None? then c
    else ControlFan(c.(fanMode := req.fanMode), cfg.tables)
  }

  function ProcessSwingChange(c: Controller, cfg: Config, req: ChangeRequest): Controller
    requires WellFormed(cfg.tables)
  {
    if req.swingMode.None? then c
    else ControlSwing(c.(swingMode := req.swingMode.value), cfg)
  }

  /** Whether a step reported a change: a field of its kind is present in the request. */
  predicate Updated(req: ChangeRequest)
  {
    req.mode.Some? || TemperatureRequested(req) || req.fanMode.Some? || req.swingMode.Some?
  }

  function FinalizeControlIfUpdated(c: Controller, updated: bool, now: int): Controller
  {
    if !updated then c
    else c.(wantedSettings := c.wantedSettings.(hasChanged := true, hasBeenSent := false,
                                                lastChange := now))
  }

  /** `controlDelegate`: mode, temperature, fan, swing in that order, then the dirty mark. */
  function Control(c: Controller, cfg: Config, req: ChangeRequest, now: int): Controller
    requires WellFormed(cfg.tables)
  {
    var c1 := ProcessModeChange(c, cfg, req);
    var c2 := ProcessTemperatureChange(c1, cfg, req, now);
    var c3 := ProcessFanChange(c2, cfg, req);
    var c4 := ProcessSwingChange(c3, cfg, req);
    FinalizeControlIfUpdated(c4, Updated(req), now)
  }

  /** A `control` call as the host framework delivers it: the request and the time it arrives. */
  datatype TimedRequest = TimedRequest(req: ChangeRequest, at: int)

  /** A series of `control` calls, applied in order. */
  function ControlAll(c: Controller, cfg: Config, calls: seq<TimedRequest>): Controller
    requires WellFormed(cfg.tables)
    decreases |calls|
  {
    if |calls| == 0 then c
    else ControlAll(Control(c, cfg, calls[0].req, calls[0].at), cfg, calls[1..])
  }

  // ---------------------------------------------------------------------------------
  // The debounce gate

  /** A group is handed to the transport when it changed and has been quiet for the delay. */
  predicate SendDue(hasChanged: bool, lastChange: int, now: int, delay: int)
  {
    hasChanged && now - lastChange >= delay
  }

  // ---------------------------------------------------------------------------------
  // Remote temperature

  /** A NaN sample is dropped; any other sample is stored and flagged for sending, even if equal. */
  function SetRemoteTemperature(c: Controller, t: Temp): Controller
  {
    if t.NaN? then c
    else c.(remoteTemperature := t, shouldSendExternalTemperature := true)
  }

  // ---------------------------------------------------------------------------------
  // Properties

  /**
   The dirty mark is set exactly when the request carries at least one of mode, temperature
   (single, low or high), fan or swing; a request carrying none of them changes nothing at all.
   */
  lemma ControlMarksDirtyExactlyWhenUpdated(c: Controller, cfg: Config, req: ChangeRequest, now: int)
    requires WellFormed(cfg.tables)
    ensures var r := Control(c, cfg, req, now);
      && (Updated(req) ==>
            r.wantedSettings.hasChanged && !r.wantedSettings.hasBeenSent &&
            r.wantedSettings.lastChange == now)
      && (!Updated(req) ==> r == c)
  {
  }

  /**
   A temperature that the reconciler ignores still counts as a change: a low-only request in
   the anti-rebound window leaves the dual side and its timestamp alone but marks the
   settings dirty at `now`, restarting the debounce delay.
   */
  lemma IgnoredTemperatureStillMarksDirty(c: Controller, cfg: Config, low: Temp, now: int)
    requires WellFormed(cfg.tables) && cfg.traits.supportsTwoPointTarget
    requires LowRebound(c, cfg, now)
    ensures var req := ChangeRequest(None, None, Some(low), None, None, None);
      var r := Control(c, cfg, req, now);
      && r.lastDualSetpointSide == c.lastDualSetpointSide
      && r.lastDualSetpointChangeMs == c.lastDualSetpointChangeMs
      && r.currentSettings == c.currentSettings
      && r.wantedSettings.hasChanged && r.wantedSettings.lastChange == now
  {
  }

  /** Only the staged temperature of the climate group can change in the temperature step. */
  lemma TemperatureStepKeepsTokens(c: Controller, cfg: Config, req: ChangeRequest, now: int)
    ensures var r := ProcessTemperatureChange(c, cfg, req, now);
      && r.wantedSettings == c.wantedSettings.(temperature := r.wantedSettings.temperature)
      && r.wantedRunStates == c.wantedRunStates
  {
    var a := ApplyTemperatureRequest(c, cfg, req, now);
    if TemperatureRequested(req) {
      if cfg.traits.supportsTwoPointTarget {
        ApplyTemperatureRequestBranches(c, cfg, req, now);
      }
      assert a.wantedSettings == c.wantedSettings && a.wantedRunStates == c.wantedRunStates;
      ControlTemperatureChoosesSetpoint(a, cfg);
    }
  }

  lemma ModeStepPreservesInv(c: Controller, cfg: Config, req: ChangeRequest)
    requires WellFormed(cfg.tables) && Inv(c, cfg.tables)
    ensures Inv(ProcessModeChange(c, cfg, req), cfg.tables)
  {
    if req.mode.Some? {
      var c0 := c.(mode := req.mode.value);
      var m := ControlMode(c0, cfg.tables);
      match ModeCommandFor(req.mode.value) {
        case ModeAndPowerOn(name) =>
          SettersPreserveInv(c0, cfg.tables, name);
          SettersPreserveInv(SetModeSetting(c0, cfg.tables, name), cfg.tables, "ON");
        case PowerOff =>
          SettersPreserveInv(c0, cfg.tables, "OFF");
        case NoMapping =>
      }
      assert Inv(m, cfg.tables);
      ControlTemperatureChoosesSetpoint(m, cfg);
    }
  }

  lemma FanAndSwingStepsPreserveInv(c: Controller, cfg: Config, req: ChangeRequest)
    requires WellFormed(cfg.tables) && Inv(c, cfg.tables)
    ensures Inv(ProcessFanChange(c, cfg, req), cfg.tables)
    ensures Inv(ProcessSwingChange(c, cfg, req), cfg.tables)
  {
    if req.fanMode.Some? {
      var c0 := c.(fanMode := req.fanMode);
      match FanCommandFor(req.fanMode.value) {
        case PowerSetting(name) => SettersPreserveInv(c0, cfg.tables, name);
        case FanSpeed(name) => SettersPreserveInv(c0, cfg.tables, name);
      }
    }
    if req.swingMode.Some? {
      var c0 := c.(swingMode := req.swingMode.value);
      var cmd := SwingCommandFor(c0.swingMode, IsSwing(c0.currentSettings.vane),
                                 IsSwing(c0.currentSettings.wideVane),
                                 cfg.traits.supportsHorizontalSwing);
      var c1 := if cmd.vane.Some? then SetVaneSetting(c0, cfg.tables, cmd.vane.value) else c0;
      if cmd.vane.Some? {
        SettersPreserveInv(c0, cfg.tables, cmd.vane.value);
      }
      if cmd.wideVane.Some? {
        SettersPreserveInv(c1, cfg.tables, cmd.wideVane.value);
      }
    }
  }

  /** No step of `controlDelegate` breaks the invariant. */
  lemma ControlPreservesInv(c: Controller, cfg: Config, req: ChangeRequest, now: int)
    requires WellFormed(cfg.tables) && Inv(c, cfg.tables)
    ensures Inv(Control(c, cfg, req, now), cfg.tables)
  {
    var c1 := ProcessModeChange(c, cfg, req);
    ModeStepPreservesInv(c, cfg, req);
    var c2 := ProcessTemperatureChange(c1, cfg, req, now);
    TemperatureStepKeepsTokens(c1, cfg, req, now);
    assert Inv(c2, cfg.tables);
    var c3 := ProcessFanChange(c2, cfg, req);
    FanAndSwingStepsPreserveInv(c2, cfg, req);
    var c4 := ProcessSwingChange(c3, cfg, req);
    FanAndSwingStepsPreserveInv(c3, cfg, req);
    assert Control(c, cfg, req, now) == FinalizeControlIfUpdated(c4, Updated(req), now);
  }

  /**
   After an applied request at `now` the climate group is due exactly once the delay has
   elapsed since `now`: every request restarts the quiet period.
   */
  lemma ControlRestartsDebounce(c: Controller, cfg: Config, req: ChangeRequest, now: int, t: int)
    requires WellFormed(cfg.tables) && Updated(req)
    ensures var w := Control(c, cfg, req, now).wantedSettings;
      SendDue(w.hasChanged, w.lastChange, t, cfg.debounceDelay) <==> t - now >= cfg.debounceDelay
  {
    ControlMarksDirtyExactlyWhenUpdated(c, cfg, req, now);
  }

  /**
   Debounce coalescing: two applied requests less than the delay apart are handed off as one
   snapshot. Between them the group is never due, and afterwards it is due only once the
   delay has elapsed since the second; a fan speed in the second request is what is staged.
   */
  lemma DebounceCoalesces(c: Controller, cfg: Config, r1: ChangeRequest, r2: ChangeRequest,
                          t1: int, t2: int, t: int)
    requires WellFormed(cfg.tables) && Updated(r1) && Updated(r2)
    requires t1 <= t2 && t2 - t1 < cfg.debounceDelay
    ensures var first := Control(c, cfg, r1, t1);
      var second := Control(first, cfg, r2, t2);
      && (t1 <= t < t2 ==>
            !SendDue(first.wantedSettings.hasChanged, first.wantedSettings.lastChange, t,
                     cfg.debounceDelay))
      && ((SendDue(second.wantedSettings.hasChanged, second.wantedSettings.lastChange, t,
                   cfg.debounceDelay)) <==> t - t2 >= cfg.debounceDelay)
      && (r2.fanMode.Some? && r2.fanMode.value != FanOff ==>
            second.wantedSettings.fan ==
              Some(Setting(cfg.tables.fan, FanCommandFor(r2.fanMode.value).speedName)))
  {
    var first := Control(c, cfg, r1, t1);
    ControlRestartsDebounce(c, cfg, r1, t1, t);
    ControlRestartsDebounce(first, cfg, r2, t2, t);
  }

  /**
   In AUTO with two setpoints, once the unit has reported a positive setpoint, a temperature
   request does not reach the staged settings: `controlTemperature` reseeds low/high from the
   unit's setpoint +-2.0 and stages that setpoint, whatever the request asked for.
   */
  lemma AutoTemperatureFollowsUnit(c: Controller, cfg: Config, req: ChangeRequest, now: int)
    requires cfg.traits.supportsTwoPointTarget && c.mode == Auto && TemperatureRequested(req)
    requires Positive(c.currentSettings.temperature)
    ensures var r := ProcessTemperatureChange(c, cfg, req, now);
      var unit := c.currentSettings.temperature;
      && r.targetTemperatureLow == Minus(unit, HalfSpan)
      && r.targetTemperatureHigh == Plus(unit, HalfSpan)
      && r.wantedSettings.temperature == cfg.quantize(unit)
  {
    var a := ApplyTemperatureRequest(c, cfg, req, now);
    ApplyTemperatureRequestBranches(c, cfg, req, now);
    assert a.mode == Auto && a.currentSettings.temperature == c.currentSettings.temperature;
  }

  /**
   An AUTO scenario: a low of 20.0 at time 0 (unit setpoint not yet known, conversions the
   identity) gives low 20.0, high 24.0, side 'L'; a high of 23.0 50 ms later, inside the
   anti-rebound window, is ignored and the high stays 24.0.
   */
  lemma AutoLowThenEchoedHigh(c: Controller, cfg: Config)
    requires WellFormed(cfg.tables)
    requires cfg.traits.supportsTwoPointTarget && cfg.antireboundMs > 50
    requires forall t :: cfg.normalize(t) == t
    requires forall l, h :: cfg.sanitize(l, h) == (l, h)
    requires c.mode == Auto && c.targetTemperatureLow.NaN? && c.lastDualSetpointSide == Neutral
    requires c.currentSettings.temperature.NaN?
    ensures var r1 := Control(c, cfg, ChangeRequest(None, None, Some(Val(20.0)), None, None, None), 0);
      var r2 := Control(r1, cfg, ChangeRequest(None, None, None, Some(Val(23.0)), None, None), 50);
      && r1.targetTemperatureLow == Val(20.0) && r1.targetTemperatureHigh == Val(24.0)
      && r1.lastDualSetpointSide == Low
      && r2.targetTemperatureLow == Val(20.0) && r2.targetTemperatureHigh == Val(24.0)
      && r2.lastDualSetpointSide == Low && r2.lastDualSetpointChangeMs == 0
  {
  }

  /**
   Without two setpoints a single target of 21.5 is staged as the quantised converted value
   and the dual targets, side and reported targets stay as they were.
   */
  lemma SingleSetpointUnit(c: Controller, cfg: Config, now: int)
    requires WellFormed(cfg.tables) && !cfg.traits.supportsTwoPointTarget
    ensures var r := Control(c, cfg, ChangeRequest(None, Some(Val(21.5)), None, None, None, None), now);
      && r.targetTemperature == cfg.normalize(Val(21.5))
      && r.wantedSettings.temperature == cfg.quantize(cfg.normalize(Val(21.5)))
      && r.targetTemperatureLow == c.targetTemperatureLow
      && r.targetTemperatureHigh == c.targetTemperatureHigh
      && r.lastDualSetpointSide == c.lastDualSetpointSide
      && r.currentSettings == c.currentSettings
  {
  }

  /** A NaN remote sample changes nothing; any other is stored and always re-sent. */
  lemma RemoteTemperatureIntake(c: Controller, t: Temp)
    ensures t.NaN? ==> SetRemoteTemperature(c, t) == c
    ensures t.Val? ==> SetRemoteTemperature(c, t)
                       == c.(remoteTemperature := t, shouldSendExternalTemperature := true)
  {
  }

  // ---------------------------------------------------------------------------------
  // Series of control calls

  /** However many requests arrive, the invariant holds after each of them. */
  lemma {:induction false} ControlAllPreservesInv(c: Controller, cfg: Config, calls: seq<TimedRequest>)
    requires WellFormed(cfg.tables) && Inv(c, cfg.tables)
    ensures Inv(ControlAll(c, cfg, calls), cfg.tables)
    decreases |calls|
  {
    if |calls| > 0 {
      ControlPreservesInv(c, cfg, calls[0].req, calls[0].at);
      ControlAllPreservesInv(Control(c, cfg, calls[0].req, calls[0].at), cfg, calls[1..]);
    }
  }

  /** Requests that carry none of mode, temperature, fan or swing leave the state as it was. */
  lemma {:induction false} ControlAllOfEmptyRequestsChangesNothing(c: Controller, cfg: Config,
                                                                     calls: seq<TimedRequest>)
    requires WellFormed(cfg.tables)
    requires forall i :: 0 <= i < |calls| ==> !Updated(calls[i].req)
    ensures ControlAll(c, cfg, calls) == c
    decreases |calls|
  {
    if |calls| > 0 {
      ControlMarksDirtyExactlyWhenUpdated(c, cfg, calls[0].req, calls[0].at);
      ControlAllOfEmptyRequestsChangesNothing(c, cfg, calls[1..]);
    }
  }

  /** Applying two series one after the other is applying their concatenation. */
  lemma {:induction false} ControlAllAppend(c: Controller, cfg: Config,
                                            a: seq<TimedRequest>, b: seq<TimedRequest>)
    requires WellFormed(cfg.tables)
    ensures ControlAll(c, cfg, a + b) == ControlAll(ControlAll(c, cfg, a), cfg, b)
    decreases |a|
  {
    if |a| == 0 {
      assert a + b == b;
    } else {
      assert (a + b)[0] == a[0];
      assert (a + b)[1..] == a[1..] + b;
      ControlAllAppend(Control(c, cfg, a[0].req, a[0].at), cfg, a[1..], b);
    }
  }

  /**
   Debounce over a series: the climate group becomes due exactly when the delay has passed
   since the last call that carried a change, whatever came before it and however many
   empty requests followed it.
   */
  lemma ControlAllDueAfterLastChange(c: Controller, cfg: Config, before: seq<TimedRequest>,
                                     last: TimedRequest, after: seq<TimedRequest>, t: int)
    requires WellFormed(cfg.tables) && Updated(last.req)
    requires forall i :: 0 <= i < |after| ==> !Updated(after[i].req)
    ensures var w := ControlAll(c, cfg, before + [last] + after).wantedSettings;
      SendDue(w.hasChanged, w.lastChange, t, cfg.debounceDelay) <==> t - last.at >= cfg.debounceDelay
  {
    var x := ControlAll(c, cfg, before);
    ControlAllAppend(c, cfg, before + [last], after);
    ControlAllAppend(c, cfg, before, [last]);
    assert ControlAll(x, cfg, [last]) == Control(x, cfg, last.req, last.at);
    ControlAllOfEmptyRequestsChangesNothing(ControlAll(c, cfg, before + [last]), cfg, after);
    ControlRestartsDebounce(x, cfg, last.req, last.at, t);
  }

  // ---------------------------------------------------------------------------------
  // Which request a staged token comes from

  /** A powered mode is the only kind of request that writes the staged mode token. */
  predicate WritesModeToken(req: ChangeRequest)
  {
    req.mode.Some? && ModeCommandFor(req.mode.value).ModeAndPowerOn?
  }

  /** A fan mode other than FAN_OFF is the only kind of request that writes the staged fan token. */
  predicate WritesFanToken(req: ChangeRequest)
  {
    req.fanMode.Some? && req.fanMode.value != FanOff
  }

  /**
   A mode with a mapping writes the staged power token, and so does FAN_OFF; no other
   request touches it.
   */
  predicate WritesPower(req: ChangeRequest)
  {
    || (req.mode.Some? && !ModeCommandFor(req.mode.value).NoMapping?)
    || req.fanMode == Some(FanOff)
  }

  /**
   The power a request stages when it writes one: "OFF" for mode OFF or for FAN_OFF (the fan
   step runs after the mode step, so FAN_OFF wins over a powered mode in the same request),
   and "ON" for a powered mode otherwise.
   */
  function PowerName(req: ChangeRequest): string
  {
    if req.fanMode == Some(FanOff) || req.mode == Some(Off) then "OFF" else "ON"
  }

  /** One call stages the mode, fan and power tokens its request names, and keeps them otherwise. */
  lemma ControlStagesTokens(c: Controller, cfg: Config, req: ChangeRequest, now: int)
    requires WellFormed(cfg.tables)
    ensures var w := Control(c, cfg, req, now).wantedSettings;
      && w.mode == (if WritesModeToken(req)
                    then Some(Setting(cfg.tables.mode, ModeCommandFor(req.mode.value).modeName))
                    else c.wantedSettings.mode)
      && w.fan == (if WritesFanToken(req)
                   then Some(Setting(cfg.tables.fan, FanCommandFor(req.fanMode.value).speedName))
                   else c.wantedSettings.fan)
      && w.power == (if WritesPower(req)
                     then Some(Setting(cfg.tables.power, PowerName(req)))
                     else c.wantedSettings.power)
  {
    var c1 := ProcessModeChange(c, cfg, req);
    if req.mode.Some? {
      ControlTemperatureChoosesSetpoint(ControlMode(c.(mode := req.mode.value), cfg.tables), cfg);
    }
    var c2 := ProcessTemperatureChange(c1, cfg, req, now);
    TemperatureStepKeepsTokens(c1, cfg, req, now);
    var c3 := ProcessFanChange(c2, cfg, req);
    if req.fanMode.Some? {
      ControlFanWrites(c2.(fanMode := req.fanMode), cfg.tables);
    }
    if req.swingMode.Some? {
      ControlSwingWrites(c3.(swingMode := req.swingMode.value), cfg);
    }
  }

  lemma {:induction false} ControlAllKeepsModeToken(c: Controller, cfg: Config, calls: seq<TimedRequest>)
    requires WellFormed(cfg.tables)
    requires forall i :: 0 <= i < |calls| ==> !WritesModeToken(calls[i].req)
    ensures ControlAll(c, cfg, calls).wantedSettings.mode == c.wantedSettings.mode
    decreases |calls|
  {
    if |calls| > 0 {
      ControlStagesTokens(c, cfg, calls[0].req, calls[0].at);
      ControlAllKeepsModeToken(Control(c, cfg, calls[0].req, calls[0].at), cfg, calls[1..]);
    }
  }

  lemma {:induction false} ControlAllKeepsFanToken(c: Controller, cfg: Config, calls: seq<TimedRequest>)
    requires WellFormed(cfg.tables)
    requires forall i :: 0 <= i < |calls| ==> !WritesFanToken(calls[i].req)
    ensures ControlAll(c, cfg, calls).wantedSettings.fan == c.wantedSettings.fan
    decreases |calls|
  {
    if |calls| > 0 {
      ControlStagesTokens(c, cfg, calls[0].req, calls[0].at);
      ControlAllKeepsFanToken(Control(c, cfg, calls[0].req, calls[0].at), cfg, calls[1..]);
    }
  }

  lemma {:induction false} ControlAllKeepsPower(c: Controller, cfg: Config, calls: seq<TimedRequest>)
    requires WellFormed(cfg.tables)
    requires forall i :: 0 <= i < |calls| ==> !WritesPower(calls[i].req)
    ensures ControlAll(c, cfg, calls).wantedSettings.power == c.wantedSettings.power
    decreases |calls|
  {
    if |calls| > 0 {
      ControlStagesTokens(c, cfg, calls[0].req, calls[0].at);
      ControlAllKeepsPower(Control(c, cfg, calls[0].req, calls[0].at), cfg, calls[1..]);
    }
  }

  /**
   Coalescing for the mode: after any series, the staged mode token is the one of the last
   request that asked for a powered mode, whatever came before it, and whatever OFF,
   HEAT_COOL or mode-less requests followed it.
   */
  lemma ControlAllLastModeWins(c: Controller, cfg: Config, before: seq<TimedRequest>,
                               last: TimedRequest, after: seq<TimedRequest>)
    requires WellFormed(cfg.tables) && WritesModeToken(last.req)
    requires forall i :: 0 <= i < |after| ==> !WritesModeToken(after[i].req)
    ensures ControlAll(c, cfg, before + [last] + after).wantedSettings.mode
            == Some(Setting(cfg.tables.mode, ModeCommandFor(last.req.mode.value).modeName))
  {
    var x := ControlAll(c, cfg, before);
    ControlAllAppend(c, cfg, before + [last], after);
    ControlAllAppend(c, cfg, before, [last]);
    assert ControlAll(x, cfg, [last]) == Control(x, cfg, last.req, last.at);
    ControlStagesTokens(x, cfg, last.req, last.at);
    ControlAllKeepsModeToken(ControlAll(c, cfg, before + [last]), cfg, after);
  }

  /**
   Coalescing for the fan: after any series, the staged fan token is the one of the last
   request that asked for a fan mode other than FAN_OFF.
   */
  lemma ControlAllLastFanWins(c: Controller, cfg: Config, before: seq<TimedRequest>,
                              last: TimedRequest, after: seq<TimedRequest>)
    requires WellFormed(cfg.tables) && WritesFanToken(last.req)
    requires forall i :: 0 <= i < |after| ==> !WritesFanToken(after[i].req)
    ensures ControlAll(c, cfg, before + [last] + after).wantedSettings.fan
            == Some(Setting(cfg.tables.fan, FanCommandFor(last.req.fanMode.value).speedName))
  {
    var x := ControlAll(c, cfg, before);
    ControlAllAppend(c, cfg, before + [last], after);
    ControlAllAppend(c, cfg, before, [last]);
    assert ControlAll(x, cfg, [last]) == Control(x, cfg, last.req, last.at);
    ControlStagesTokens(x, cfg, last.req, last.at);
    ControlAllKeepsFanToken(ControlAll(c, cfg, before + [last]), cfg, after);
  }

  /**
   Coalescing for power: after any series, the staged power token is the one of the last
   request that wrote it (a mapped mode or FAN_OFF), so [HEAT, OFF] stages "OFF" and
   [OFF, HEAT] stages "ON".
   */
  lemma ControlAllLastPowerWins(c: Controller, cfg: Config, before: seq<TimedRequest>,
                                last: TimedRequest, after: seq<TimedRequest>)
    requires WellFormed(cfg.tables) && WritesPower(last.req)
    requires forall i :: 0 <= i < |after| ==> !WritesPower(after[i].req)
    ensures ControlAll(c, cfg, before + [last] + after).wantedSettings.power
            == Some(Setting(cfg.tables.power, PowerName(last.req)))
  {
    var x := ControlAll(c, cfg, before);
    ControlAllAppend(c, cfg, before + [last], after);
    ControlAllAppend(c, cfg, before, [last]);
    assert ControlAll(x, cfg, [last]) == Control(x, cfg, last.req, last.at);
    ControlStagesTokens(x, cfg, last.req, last.at);
    ControlAllKeepsPower(ControlAll(c, cfg, before + [last]), cfg, after);
  }

  /**
   Swing does not follow the last request while a change is pending. With the unit
   reporting vane "AUTO", a VERTICAL request stages "SWING"; an OFF request after it, before
   the unit has reported the new vane, leaves "SWING" staged, because OFF consults the
   reported vane and not the staged one.
   */
  lemma SwingOffAfterPendingVerticalKeepsSwing(c: Controller, cfg: Config, t1: int, t2: int)
    requires WellFormed(cfg.tables) && "SWING" in cfg.tables.vane
    requires c.currentSettings.vane == Some("AUTO")
    ensures var vertical := ChangeRequest(None, None, None, None, None, Some(SwingVertical));
      var off := ChangeRequest(None, None, None, None, None, Some(SwingOff));
      ControlAll(c, cfg, [TimedRequest(vertical, t1), TimedRequest(off, t2)]).wantedSettings.vane
        == Some("SWING")
  {
    var vertical := ChangeRequest(None, None, None, None, None, Some(SwingVertical));
    var off := ChangeRequest(None, None, None, None, None, Some(SwingOff));
    var first := Control(c, cfg, vertical, t1);
    ControlSwingWrites(c.(swingMode := SwingVertical), cfg);
    assert first.wantedSettings.vane == Some("SWING");
    assert first.currentSettings == c.currentSettings;
    var second := Control(first, cfg, off, t2);
    ControlSwingWrites(first.(swingMode := SwingOff), cfg);
    assert second.wantedSettings.vane == Some("SWING");
    var calls := [TimedRequest(vertical, t1), TimedRequest(off, t2)];
    assert calls[1..] == [TimedRequest(off, t2)];
    assert ControlAll(first, cfg, [TimedRequest(off, t2)]) == second;
  }
}
