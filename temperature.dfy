/**
 * The temperatures the process actually reaches from its initial table.
 *
 * `Valid` bounds the temperature by 301, the value the heating clamp lets
 * through. From the initial table the schedule is tighter: filling always runs
 * at the base temperature, mixing heats it by 14.6 per tick from there until
 * the clamp holds it at 300, and a drain from a full tank cools it 44 times,
 * which brings any temperature of at most 300 back to the base. So no tick
 * reached from the initial table ever goes above 300.
 */
module TemperatureSchedule {
  import opened TagTable
  import opened Engine
  import Properties

  /** The temperature after `k` heating steps from the base temperature, before any clamp. */
  function Heated(k: nat): real
  {
    BaseTemperature + HeatRate * (k as real)
  }

  /** The level after `j` drain steps from a full tank. */
  function Drained(j: nat): real
  {
    FullLevel - DrainRate * (j as real)
  }

  /** The temperatures mixing passes through: base plus whole heating steps, or the clamp value 300. */
  ghost predicate MixingTemperature(t: real)
  {
    t == HeatReset || exists k: nat :: Heated(k) <= HeatReset && t == Heated(k)
  }

  /**
   * After `j` drain steps from a full tank, the tank has cooled by 5.2 per step
   * from at most 300, or has reached the base temperature.
   */
  ghost predicate DrainingTemperature(level: real, t: real)
  {
    exists j: nat :: 1 <= j && level == Drained(j) &&
      (t == BaseTemperature || t <= HeatReset - CoolRate * (j as real))
  }

  /** `Valid`, and the temperature follows the schedule of its phase. */
  ghost predicate OnSchedule(p: Plant)
  {
    Valid(p) &&
    (p.status.filling ==> p.tags.temperaturePV == BaseTemperature) &&
    (p.status.mixing ==> MixingTemperature(p.tags.temperaturePV)) &&
    (p.status.draining ==> DrainingTemperature(p.tags.levelPV, p.tags.temperaturePV))
  }

  /** Heating a scheduled mixing temperature gives another one, never above 300. */
  lemma HeatOnSchedule(t: real)
    requires MixingTemperature(t)
    ensures MixingTemperature(Heat(t)) && Heat(t) <= HeatReset
  {
    if t != HeatReset {
      var k: nat :| Heated(k) <= HeatReset && t == Heated(k);
      if Heated(k + 1) <= HeatReset {
        assert Heat(t) == Heated(k + 1);
      } else {
        assert Heat(t) == HeatReset;
      }
    }
  }

  /** The drain in the tick that ends mixing starts the drain schedule. */
  lemma CoolAfterMixing(t: real)
    requires MixingTemperature(t)
    ensures DrainingTemperature(Drained(1), Cool(t))
  {
    if t != HeatReset {
      var k: nat :| Heated(k) <= HeatReset && t == Heated(k);
      assert BaseTemperature <= t;
    }
    var c := Cool(t);
    assert c == BaseTemperature || c <= HeatReset - CoolRate * (1 as real);
  }

  /** One drain step from the drain schedule stays on it, or ends at the base temperature. */
  lemma CoolWhileDraining(level: real, t: real)
    requires DrainingTemperature(level, t) && BaseTemperature <= t
    ensures level > DrainRate ==> DrainingTemperature(level - DrainRate, Cool(t))
    ensures level <= DrainRate ==> Cool(t) == BaseTemperature
  {
    var j: nat :| 1 <= j && level == Drained(j) &&
      (t == BaseTemperature || t <= HeatReset - CoolRate * (j as real));
    if level > DrainRate {
      assert level - DrainRate == Drained(j + 1);
      var c := Cool(t);
      assert c == BaseTemperature || c <= HeatReset - CoolRate * ((j + 1) as real);
    } else {
      assert t - CoolRate < BaseTemperature;
    }
  }

  lemma FillingOnSchedule(p: Plant, noise: real)
    requires OnSchedule(p) && p.status.filling
    requires InBand(noise, p.tags.agitatorSpeedPV)
    ensures OnSchedule(Tick(p, noise))
  {
    Properties.TickPreservesValid(p, noise);
    var f := Fill(p);
    if !f.status.filling {
      assert f.tags.levelPV == FullLevel;
      var m := Mix(f, noise);
      assert Heated(0) == BaseTemperature;
      HeatOnSchedule(p.tags.temperaturePV);
      if m.status.draining {
        CoolAfterMixing(m.tags.temperaturePV);
        assert Tick(p, noise) == Drain(m);
      } else {
        assert Tick(p, noise) == m;
      }
    }
  }

  lemma MixingOnSchedule(p: Plant, noise: real)
    requires OnSchedule(p) && p.status.mixing
    requires InBand(noise, p.tags.agitatorSpeedPV)
    ensures OnSchedule(Tick(p, noise))
  {
    Properties.TickPreservesValid(p, noise);
    var m := Mix(p, noise);
    HeatOnSchedule(p.tags.temperaturePV);
    if m.status.draining {
      CoolAfterMixing(m.tags.temperaturePV);
      assert Tick(p, noise) == Drain(m);
    } else {
      assert Tick(p, noise) == m;
    }
  }

  lemma DrainingOnSchedule(p: Plant, noise: real)
    requires OnSchedule(p) && p.status.draining
    requires InBand(noise, p.tags.agitatorSpeedPV)
    ensures OnSchedule(Tick(p, noise))
  {
    Properties.TickPreservesValid(p, noise);
    CoolWhileDraining(p.tags.levelPV, p.tags.temperaturePV);
    assert Tick(p, noise) == Drain(p);
  }

  /** Every tick keeps the temperature on its phase's schedule. */
  lemma TickOnSchedule(p: Plant, noise: real)
    requires OnSchedule(p)
    requires InBand(noise, p.tags.agitatorSpeedPV)
    ensures OnSchedule(Tick(p, noise))
  {
    if p.status.filling {
      FillingOnSchedule(p, noise);
    } else if p.status.mixing {
      MixingOnSchedule(p, noise);
    } else {
      DrainingOnSchedule(p, noise);
    }
  }

  /** On schedule, the temperature is at most 300, and exactly the base temperature while filling. */
  lemma ScheduleBounds(p: Plant)
    requires OnSchedule(p)
    ensures BaseTemperature <= p.tags.temperaturePV <= HeatReset
    ensures p.status.filling ==> p.tags.temperaturePV == BaseTemperature
  {
    if p.status.mixing && p.tags.temperaturePV != HeatReset {
      var k: nat :| Heated(k) <= HeatReset && p.tags.temperaturePV == Heated(k);
    } else if p.status.draining {
      var j: nat :| 1 <= j && p.tags.levelPV == Drained(j) &&
        (p.tags.temperaturePV == BaseTemperature || p.tags.temperaturePV <= HeatReset - CoolRate * (j as real));
    }
  }

  lemma {:induction false} ScheduleForever(p: Plant, noises: seq<real>)
    requires OnSchedule(p)
    requires AllInBand(noises, p.tags.agitatorSpeedPV)
    ensures OnSchedule(RunTicks(p, noises))
    decreases |noises|
  {
    if noises != [] {
      TickOnSchedule(p, noises[0]);
      var q := Tick(p, noises[0]);
      Properties.AllInBandSlice(noises, q.tags.agitatorSpeedPV, 1, |noises|);
      ScheduleForever(q, noises[1..]);
    }
  }

  /**
   * From the initial table, any run of ticks keeps the temperature between the
   * base temperature and 300. While filling, which is how every cycle starts,
   * it is exactly the base temperature.
   */
  lemma ReachableTemperature(noises: seq<real>)
    requires AllInBand(noises, Initial.agitatorSpeedPV)
    ensures var r := RunTicks(InitialPlant, noises);
      BaseTemperature <= r.tags.temperaturePV <= HeatReset &&
      (r.status.filling ==> r.tags.temperaturePV == BaseTemperature)
  {
    Properties.InitialValid();
    assert OnSchedule(InitialPlant);
    ScheduleForever(InitialPlant, noises);
    ScheduleBounds(RunTicks(InitialPlant, noises));
  }
}
