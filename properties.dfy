/**
 * Properties of the mixing-tank process, proved about the step functions of
 * module `Engine`.
 */
module Properties {
  import opened TagTable
  import opened Engine

  /** The plant as the program starts satisfies the invariant. */
  lemma InitialValid()
    ensures Valid(InitialPlant)
  {
  }

  /** One tick keeps the invariant, whatever noise the agitator draws from its band. */
  lemma TickPreservesValid(p: Plant, noise: real)
    requires Valid(p)
    requires InBand(noise, p.tags.agitatorSpeedPV)
    ensures Valid(Tick(p, noise))
  {
    if p.status.filling {
      TickFromFilling(p, noise);
    } else if p.status.mixing {
      TickFromMixing(p, noise);
    } else {
      TickFromDraining(p, noise);
    }
  }

  lemma TickFromFilling(p: Plant, noise: real)
    requires Valid(p) && p.status.filling
    requires InBand(noise, p.tags.agitatorSpeedPV)
    ensures Valid(Tick(p, noise))
  {
  }

  lemma TickFromMixing(p: Plant, noise: real)
    requires Valid(p) && p.status.mixing
    requires InBand(noise, p.tags.agitatorSpeedPV)
    ensures Valid(Tick(p, noise))
  {
    var m := Mix(p, noise);
    assert Tick(p, noise) == (if m.status.draining then Drain(m) else m);
    if (p.status.mixIter + 1) as real == p.tags.mixingTimePV {
      assert m.status.draining && m.tags.levelPV == FullLevel;
      var d := Drain(m);
      assert d.tags.levelPV == FullLevel - DrainRate;
      assert Valid(d);
    } else {
      assert p.tags.mixingTimePV.Floor > p.status.mixIter + 1;
      assert Valid(m);
    }
  }

  lemma TickFromDraining(p: Plant, noise: real)
    requires Valid(p) && p.status.draining
    ensures Valid(Tick(p, noise))
  {
  }

  lemma AllInBandSlice(noises: seq<real>, speed: real, lo: nat, hi: nat)
    requires lo <= hi <= |noises|
    requires AllInBand(noises, speed)
    ensures AllInBand(noises[lo..hi], speed)
  {
    forall i | 0 <= i < hi - lo ensures InBand(noises[lo..hi][i], speed) {
      assert noises[lo..hi][i] == noises[lo + i];
    }
  }

  /** The invariant holds after any number of ticks with in-band agitator noise. */
  lemma {:induction false} ValidForever(p: Plant, noises: seq<real>)
    requires Valid(p)
    requires AllInBand(noises, p.tags.agitatorSpeedPV)
    ensures Valid(RunTicks(p, noises))
    decreases |noises|
  {
    if noises != [] {
      TickPreservesValid(p, noises[0]);
      var q := Tick(p, noises[0]);
      AllInBandSlice(noises, q.tags.agitatorSpeedPV, 1, |noises|);
      ValidForever(q, noises[1..]);
    }
  }

  /** Running `a` then `b` is running `a + b`. */
  lemma {:induction false} RunTicksAppend(p: Plant, a: seq<real>, b: seq<real>)
    ensures RunTicks(p, a + b) == RunTicks(RunTicks(p, a), b)
    decreases |a|
  {
    if a != [] {
      assert (a + b)[0] == a[0];
      assert (a + b)[1..] == a[1..] + b;
      RunTicksAppend(Tick(p, a[0]), a[1..], b);
    } else {
      assert a + b == b;
    }
  }

  /**
   * Phases follow the cycle filling, mixing, draining, filling. A tick either
   * keeps the phase or moves to the next one, except that a filling tick runs
   * on through mixing into draining exactly when the mixing time is one tick.
   */
  lemma PhaseOrder(p: Plant, noise: real)
    requires Valid(p)
    requires InBand(noise, p.tags.agitatorSpeedPV)
    ensures var r := Tick(p, noise).status;
      (p.status.filling ==> r.filling || r.mixing || (r.draining && p.tags.mixingTimePV == 1.0)) &&
      (p.status.filling && p.tags.mixingTimePV == 1.0 ==> r.filling || r.draining) &&
      (p.status.mixing ==> r.mixing || r.draining) &&
      (p.status.draining ==> r.draining || r.filling)
  {
  }

  /** The first tick from the initial table runs pump 1 once. */
  lemma FirstTick(noise: real)
    ensures var r := Tick(InitialPlant, noise);
      r.tags.levelPV == 16.37 && r.tags.pump1PV == 16.37 &&
      r.status == InitialStatus && SupplyOne(r.tags) && InletsFollowCommands(r.tags)
  {
  }

  /**
   * The fillTank call that first lifts the level above 600 switches the supply
   * and already runs pump 2 once; short of a full tank that is the whole tick.
   */
  lemma CrossingSwitchesSupply(p: Plant, noise: real)
    requires Valid(p) && p.status.filling
    requires p.tags.levelPV < SupplySwitchLevel < p.tags.levelPV + p.tags.pump1SpeedSP
    ensures var r := Fill(p);
      var l := p.tags.levelPV + p.tags.pump1SpeedSP + p.tags.pump2SpeedSP;
      r.tags.levelPV == (if l > FullLevel then FullLevel else l) &&
      r.tags.inlet1CMD == 0 && r.tags.pump1CMD == 0 && r.tags.pump1PV == 0.0 &&
      r.tags.inlet1Position == 0 && r.tags.inlet1OLS == 0 && r.tags.inlet1CLS == 1 &&
      (l < FullLevel ==>
         Tick(p, noise) == r && r.status.filling &&
         r.tags.inlet2CMD == 1 && r.tags.pump2CMD == 1 && r.tags.pump2PV == p.tags.pump2SpeedSP &&
         r.tags.inlet2Position == 1 && r.tags.inlet2OLS == 1 && r.tags.inlet2CLS == 0)
  {
  }

  /**
   * A filling tick that fills the tank closes supply 2, starts the agitator and,
   * in the same call, runs the first mixing step.
   */
  lemma FullTankStartsMixing(p: Plant, noise: real)
    requires Valid(p) && p.status.filling
    requires p.tags.levelPV > SupplySwitchLevel && p.tags.levelPV + p.tags.pump2SpeedSP >= FullLevel
    requires p.tags.mixingTimePV > 1.0
    ensures var r := Tick(p, noise);
      r.status == Status(filling := false, mixing := true, draining := false, mixIter := 1) &&
      r.tags.levelPV == FullLevel && SuppliesOff(r.tags) &&
      r.tags.agitatorCMD == 1 && r.tags.agitatorPV == noise &&
      r.tags.temperaturePV == Heat(p.tags.temperaturePV) &&
      r.tags.inlet2Position == 0 && r.tags.inlet2OLS == 0 && r.tags.inlet2CLS == 1
  {
  }

  /**
   * A level of exactly 600 stalls filling: pump 1 stops below 600, the switch
   * needs more than 600, and supply 2 is still off. After one tick refreshes
   * the inlet switches the plant never changes again.
   */
  lemma StallAtSwitchLevel(p: Plant, noise1: real, noise2: real)
    requires Valid(p) && p.status.filling && p.tags.levelPV == SupplySwitchLevel
    ensures Tick(p, noise1) == Plant(RefreshInlets(p.tags), p.status)
    ensures Tick(Tick(p, noise1), noise2) == Tick(p, noise1)
  {
  }

  /**
   * The heating clamp tests 301 but writes 300: a mixing tick can end at
   * exactly 301, and a tick from between 300 and 301 lowers the temperature.
   */
  lemma HeatClampQuirk(p: Plant, noise: real)
    requires Valid(p) && p.status.mixing
    requires (p.status.mixIter + 1) as real < p.tags.mixingTimePV
    ensures p.tags.temperaturePV == 286.4 ==> Tick(p, noise).tags.temperaturePV == HeatLimit
    ensures HeatReset < p.tags.temperaturePV < HeatLimit ==>
              Tick(p, noise).tags.temperaturePV == HeatReset < p.tags.temperaturePV
  {
  }

  /** While mixing has not reached its time, every tick advances the counter by one. */
  lemma {:induction false} MixingCountdown(p: Plant, noises: seq<real>)
    requires Valid(p) && p.status.mixing
    requires AllInBand(noises, p.tags.agitatorSpeedPV)
    requires (p.status.mixIter + |noises|) as real < p.tags.mixingTimePV
    ensures var r := RunTicks(p, noises);
      r.status.mixing && r.status.mixIter == p.status.mixIter + |noises| &&
      r.tags.levelPV == FullLevel && Valid(r)
    decreases |noises|
  {
    if noises != [] {
      var q := Tick(p, noises[0]);
      TickPreservesValid(p, noises[0]);
      AllInBandSlice(noises, q.tags.agitatorSpeedPV, 1, |noises|);
      MixingCountdown(q, noises[1..]);
    }
  }

  /**
   * The tick on which the counter reaches the mixing time stops the agitator,
   * opens the outlet and, in the same call, drains once.
   */
  lemma MixingEnds(p: Plant, noise: real)
    requires Valid(p) && p.status.mixing
    requires (p.status.mixIter + 1) as real == p.tags.mixingTimePV
    ensures var r := Tick(p, noise);
      r.status == Status(filling := false, mixing := false, draining := true, mixIter := 0) &&
      r.tags.agitatorCMD == 0 && r.tags.agitatorPV == 0.0 &&
      r.tags.outletCMD == 1 && r.tags.outletPosition == 1 &&
      r.tags.levelPV == FullLevel - DrainRate
  {
  }

  /**
   * Entered with the counter at `k`, mixing lasts until the counter reaches the
   * mixing time: `M - 1 - k` more ticks stay in mixing and the next one drains.
   */
  lemma MixingDuration(p: Plant, noises: seq<real>)
    requires Valid(p) && p.status.mixing
    requires AllInBand(noises, p.tags.agitatorSpeedPV)
    requires (p.status.mixIter + |noises|) as real == p.tags.mixingTimePV
    ensures RunTicks(p, noises[..|noises| - 1]).status.mixing
    ensures RunTicks(p, noises).status.draining
  {
    var n := |noises|;
    AllInBandSlice(noises, p.tags.agitatorSpeedPV, 0, n - 1);
    MixingCountdown(p, noises[..n - 1]);
    var q := RunTicks(p, noises[..n - 1]);
    assert noises == noises[..n - 1] + [noises[n - 1]];
    RunTicksAppend(p, noises[..n - 1], [noises[n - 1]]);
    assert RunTicks(q, [noises[n - 1]]) == Tick(q, noises[n - 1]);
    MixingEnds(q, noises[n - 1]);
  }

  /**
   * While the level stays above the drain rate, every tick drains exactly 23.06
   * and cools by 5.2, never below the base temperature.
   */
  lemma {:induction false} DrainingCountdown(p: Plant, noises: seq<real>)
    requires Valid(p) && p.status.draining
    requires p.tags.levelPV > DrainRate * (|noises| as real)
    ensures var r := RunTicks(p, noises);
      var c := p.tags.temperaturePV - CoolRate * (|noises| as real);
      r.status.draining && r.tags.levelPV == p.tags.levelPV - DrainRate * (|noises| as real) &&
      r.tags.temperaturePV == (if c < BaseTemperature then BaseTemperature else c) && Valid(r)
    decreases |noises|
  {
    if noises != [] {
      var q := Tick(p, noises[0]);
      TickFromDraining(p, noises[0]);
      assert q.tags.levelPV == p.tags.levelPV - DrainRate;
      DrainingCountdown(q, noises[1..]);
    }
  }

  /** `n` equal steps of size `step` added up: what pump 1 adds in `n` filling ticks. */
  function Repeated(step: real, n: nat): real
  {
    if n == 0 then 0.0 else Repeated(step, n - 1) + step
  }

  /** `n` steps of `step` add up to `step * n`. */
  lemma {:induction false} RepeatedIsProduct(step: real, n: nat)
    ensures Repeated(step, n) == step * (n as real)
  {
    if n != 0 {
      RepeatedIsProduct(step, n - 1);
      assert step * (n as real) == step * ((n - 1) as real) + step;
    }
  }

  /** Non-negative steps never add up to less than zero. */
  lemma {:induction false} RepeatedNonNegative(step: real, n: nat)
    requires 0.0 <= step
    ensures 0.0 <= Repeated(step, n)
  {
    if n != 0 {
      RepeatedNonNegative(step, n - 1);
    }
  }

  /** One filling tick on supply 1 that stays below 600 adds pump 1's setpoint. */
  lemma FillTickBelowSwitch(p: Plant, noise: real)
    requires Valid(p) && p.status.filling
    requires InBand(noise, p.tags.agitatorSpeedPV)
    requires p.tags.levelPV + p.tags.pump1SpeedSP < SupplySwitchLevel
    ensures var q := Tick(p, noise);
      q.status == p.status && q.tags.levelPV == p.tags.levelPV + p.tags.pump1SpeedSP &&
      q.tags.pump1PV == p.tags.pump1SpeedSP && SupplyOne(q.tags) && Valid(q)
  {
    assert SupplyOne(p.tags);
    TickFromFilling(p, noise);
  }

  /**
   * Below 600 on supply 1, every filling tick adds pump 1's setpoint to the
   * level (`RepeatedIsProduct`: the setpoint times the number of ticks) and
   * pump 1 reads that setpoint.
   */
  lemma {:induction false} FillingCountup(p: Plant, noises: seq<real>)
    requires Valid(p) && p.status.filling
    requires AllInBand(noises, p.tags.agitatorSpeedPV)
    requires p.tags.levelPV + Repeated(p.tags.pump1SpeedSP, |noises|) < SupplySwitchLevel
    ensures var r := RunTicks(p, noises);
      r.status.filling && r.tags.levelPV == p.tags.levelPV + Repeated(p.tags.pump1SpeedSP, |noises|) &&
      SupplyOne(r.tags) && (noises != [] ==> r.tags.pump1PV == p.tags.pump1SpeedSP) && Valid(r)
    decreases |noises|
  {
    if noises != [] {
      var step, rest := p.tags.pump1SpeedSP, noises[1..];
      RepeatedNonNegative(step, |rest|);
      assert Repeated(step, |noises|) == Repeated(step, |rest|) + step;
      assert InBand(noises[0], p.tags.agitatorSpeedPV);
      var q := Tick(p, noises[0]);
      FillTickBelowSwitch(p, noises[0]);
      assert q.tags.pump1SpeedSP == step;
      AllInBandSlice(noises, q.tags.agitatorSpeedPV, 1, |noises|);
      FillingCountup(q, rest);
      assert RunTicks(p, noises) == RunTicks(q, rest);
    }
  }

  /**
   * The drain that follows mixing: the tick that ends mixing drains once, 42
   * more ticks leave 8.42, and the next one empties the tank, closes the outlet
   * and re-arms filling on supply 1. Inlet 1 is then commanded open but still
   * reads closed, because only a filling tick refreshes the inlet switches.
   * The tank has cooled 44 times; if the last mixing tick ended at 300 or
   * less, the new cycle starts at the base temperature.
   */
  lemma DrainAfterMixing(p: Plant, noises: seq<real>)
    requires Valid(p) && p.status.mixing
    requires (p.status.mixIter + 1) as real == p.tags.mixingTimePV
    requires AllInBand(noises, p.tags.agitatorSpeedPV)
    requires |noises| == 44
    ensures var q := RunTicks(p, noises[..43]);
      q.status.draining && q.tags.levelPV == 8.42
    ensures var r := RunTicks(p, noises);
      var c := Heat(p.tags.temperaturePV) - CoolRate * 44.0;
      r.status == InitialStatus && r.tags.levelPV == 0.0 &&
      r.tags.outletCMD == 0 && r.tags.outletPosition == 0 && SupplyOne(r.tags) &&
      r.tags.inlet1Position == 0 && r.tags.inlet1OLS == 0 && r.tags.inlet1CLS == 1 &&
      r.tags.temperaturePV == (if c < BaseTemperature then BaseTemperature else c)
    ensures Heat(p.tags.temperaturePV) <= HeatReset ==>
      RunTicks(p, noises).tags.temperaturePV == BaseTemperature
  {
    var q := Tick(p, noises[0]);
    MixingEnds(p, noises[0]);
    TickFromMixing(p, noises[0]);
    assert q.tags.temperaturePV == Cool(Heat(p.tags.temperaturePV));
    AllInBandSlice(noises, q.tags.agitatorSpeedPV, 1, 43);
    DrainingCountdown(q, noises[1..43]);
    assert noises[..43][1..] == noises[1..43];
    assert RunTicks(p, noises[..43]) == RunTicks(q, noises[1..43]);
    var d := RunTicks(p, noises[..43]);
    assert noises == noises[..43] + [noises[43]];
    RunTicksAppend(p, noises[..43], [noises[43]]);
    assert RunTicks(d, [noises[43]]) == Tick(d, noises[43]);
  }
}
