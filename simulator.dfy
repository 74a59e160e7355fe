/**
 * The simulator engine as the program has it: an object with phase flags and a
 * mix counter that updates the shared tag table in place, one tag at a time.
 *
 * Each method is proved to leave the plant in the state the matching function
 * of module `Engine` computes from the state before the call.
 */
module Simulation {
  import opened TagTable
  import opened Engine
  import Properties

  class Simulator {
    /** The shared tag table the engine reads and writes. */
    const data: TagStore

    var filling: bool
    var mixing: bool
    var draining: bool
    var mixIter: int

    /** The plant as one value: the tag table and this object's status. */
    ghost function State(): Plant
      reads this, data
    {
      Plant(data.tags, Status(filling, mixing, draining, mixIter))
    }

    ghost predicate Valid()
      reads this, data
    {
      Engine.Valid(State())
    }

    /** A simulator over `store`, starting in the filling phase. */
    constructor (store: TagStore)
      ensures data == store
      ensures State() == Plant(store.tags, InitialStatus)
    {
      data := store;
      filling, mixing, draining := true, false, false;
      mixIter := 0;
    }

    /** One tick; `noise` is the agitator reading drawn from its band for this tick. */
    method Run(noise: real)
      requires InBand(noise, data.tags.agitatorSpeedPV)
      modifies this, data
      ensures State() == Tick(old(State()), noise)
      ensures old(Valid()) ==> Valid()
    {
      ghost var before := State();
      if filling {
        FillTank();
      }
      if !filling && !draining {
        MixTank(noise);
      }
      if draining {
        DrainTank();
      }
      if Engine.Valid(before) {
        Properties.TickPreservesValid(before, noise);
      }
    }

    method FillTank()
      modifies this, data
      ensures State() == Fill(old(State()))
    {
      var t := data.tags;
      ghost var t0 := t;
      if 0.0 <= t.levelPV < SupplySwitchLevel && t.inlet1CMD != 0 && t.pump1CMD != 0 {
        t := t.(pump1PV := t.pump1SpeedSP);
        t := t.(levelPV := t.levelPV + t.pump1SpeedSP);
      }
      assert t == PumpOneStep(t0);

      if t.levelPV > SupplySwitchLevel {
        t := t.(inlet1CMD := 0);
        t := t.(pump1CMD := 0);
        t := t.(pump1PV := 0.0);
        t := t.(inlet2CMD := 1);
        t := t.(pump2CMD := 1);
      }
      assert t == SupplySwitch(PumpOneStep(t0));

      if SupplySwitchLevel <= t.levelPV < FullLevel && t.inlet2CMD != 0 && t.pump2CMD != 0 {
        t := t.(pump2PV := t.pump2SpeedSP);
        t := t.(levelPV := t.levelPV + t.pump2SpeedSP);
        if t.levelPV > FullLevel {
          t := t.(levelPV := FullLevel);
        }
      }
      ghost var t3 := t;
      assert t3 == PumpTwoStep(SupplySwitch(PumpOneStep(t0)));

      if t.levelPV >= FullLevel {
        t := t.(inlet2CMD := 0);
        t := t.(agitatorCMD := 1);
        t := t.(pump2CMD := 0);
        t := t.(pump2PV := 0.0);
        filling := false;
        mixing := true;
      }
      assert t == FullStop(t3);

      if t.inlet1CMD == 1 {
        t := t.(inlet1Position := 1);
        t := t.(inlet1OLS := 1);
        t := t.(inlet1CLS := 0);
      } else {
        t := t.(inlet1Position := 0);
        t := t.(inlet1OLS := 0);
        t := t.(inlet1CLS := 1);
      }

      if t.inlet2CMD == 1 {
        t := t.(inlet2Position := 1);
        t := t.(inlet2OLS := 1);
        t := t.(inlet2CLS := 0);
      } else {
        t := t.(inlet2Position := 0);
        t := t.(inlet2OLS := 0);
        t := t.(inlet2CLS := 1);
      }
      data.tags := t;
    }

    method MixTank(noise: real)
      requires InBand(noise, data.tags.agitatorSpeedPV)
      modifies this, data
      ensures State() == Mix(old(State()), noise)
    {
      var t := data.tags;
      if mixing && t.agitatorCMD != 0 {
        t := t.(agitatorPV := noise);
        if t.temperaturePV < HeatLimit {
          t := t.(temperaturePV := t.temperaturePV + HeatRate);
          if t.temperaturePV > HeatLimit {
            t := t.(temperaturePV := HeatReset);
          }
        }
      }

      mixIter := mixIter + 1;
      if mixIter as real == t.mixingTimePV {
        mixIter := 0;
        mixing := false;
        t := t.(agitatorCMD := 0);
        t := t.(agitatorPV := 0.0);
        draining := true;
        t := t.(outletCMD := 1);
      }
      data.tags := t;
    }

    method DrainTank()
      modifies this, data
      ensures State() == Drain(old(State()))
    {
      var t := data.tags;
      if t.levelPV > 0.0 && t.outletCMD != 0 {
        t := t.(levelPV := t.levelPV - DrainRate);
        if t.levelPV < 0.0 {
          t := t.(levelPV := 0.0);
        }
        if t.temperaturePV > BaseTemperature {
          t := t.(temperaturePV := t.temperaturePV - CoolRate);
          if t.temperaturePV < BaseTemperature {
            t := t.(temperaturePV := BaseTemperature);
          }
        }
      }

      if t.levelPV == 0.0 {
        t := t.(outletCMD := 0);
        draining := false;
        filling := true;
        t := t.(inlet1CMD := 1);
        t := t.(pump1CMD := 1);
      }

      if t.outletCMD == 1 {
        t := t.(outletPosition := 1);
      } else {
        t := t.(outletPosition := 0);
      }
      data.tags := t;
    }
  }
}
