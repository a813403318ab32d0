/** Stages 2 and 3 of the sizing script: normalise the load profile to the
    target daily energy, add the cable loss and size the battery for the
    autonomy window. The script's module-level results are returned as one
    `Sizing` record. */
module Sizing {
  import opened RealArith
  import opened Profile

  /** The script's parameters: target daily energy (Wh), cable loss as a
      fraction of the energy drawn, days of autonomy, nominal voltage (V). */
  datatype Config = Config(
    targetDailyWh: real,
    lossFraction: real,
    daysAutonomy: nat,
    nominalVoltage: real)

  /** A loss fraction the division by `1 - loss` can work with. */
  predicate ValidLoss(loss: real)
  {
    0.0 <= loss < 1.0
  }

  /** The script's results, one field per module-level variable. */
  datatype Sizing = Sizing(
    profile: seq<real>,          // normalised hourly load (W)
    energyPerDay: real,          // Wh drawn at the load per day
    netEnergyPerDay: real,       // Wh taken from the battery per day
    batteryRequiredWh: real)     // capacity for the whole autonomy window

  /** The one configuration error: a raw profile that draws no energy cannot
      be scaled to the target. */
  datatype SizingError = ZeroEnergyProfile

  datatype Result<T> = Ok(value: T) | Err(error: SizingError)

  /** Energy the battery must deliver so that `energy` reaches the load after
      the cable loss. */
  function NetDailyEnergy(energy: real, loss: real): (net: real)
    requires ValidLoss(loss)
    ensures net * (1.0 - loss) == energy
    ensures 0.0 <= energy ==> energy <= net
  {
    LossNeverReducesEnergy(energy, loss);
    energy / (1.0 - loss)
  }

  lemma LossNeverReducesEnergy(energy: real, loss: real)
    requires ValidLoss(loss)
    ensures 0.0 <= energy ==> energy <= energy / (1.0 - loss)
  {
    if 0.0 <= energy {
      var net := energy / (1.0 - loss);
      assert net * (1.0 - loss) == energy;
      assert net - energy == net * loss;
      DivNonNegative(energy, 1.0 - loss);
      MulNonNegative(net, loss);
    }
  }

  /** Capacity that covers `days` days of net energy. */
  function BatteryCapacity(net: real, days: nat): real
  {
    net * days as real
  }

  /** Capacity in ampere-hours at the nominal voltage. */
  function AmpHours(wh: real, volts: real): (ah: real)
    requires volts > 0.0
    ensures ah * volts == wh
    ensures 0.0 <= wh ==> 0.0 <= ah
  {
    wh / volts
  }

  /** Stages 2 and 3: scale the raw profile to the target, recompute the
      daily energy, add the cable loss and size the battery. */
  function Size(cfg: Config, raw: seq<real>): (r: Result<Sizing>)
    requires ValidLoss(cfg.lossFraction)
    ensures r.Err? <==> Sum(raw) == 0.0
    ensures r.Ok? ==>
      var s := r.value;
      && |s.profile| == |raw|
      && (forall i :: 0 <= i < |raw| ==> s.profile[i] == raw[i] * ScalingFactor(raw, cfg.targetDailyWh))
      && Sum(s.profile) == s.energyPerDay == cfg.targetDailyWh
      && s.netEnergyPerDay * (1.0 - cfg.lossFraction) == cfg.targetDailyWh
      && s.batteryRequiredWh * (1.0 - cfg.lossFraction) == cfg.daysAutonomy as real * cfg.targetDailyWh
      && (0.0 <= cfg.targetDailyWh ==> cfg.targetDailyWh <= s.netEnergyPerDay)
  {
    if Sum(raw) == 0.0 then Err(ZeroEnergyProfile)
    else
      var profile := Normalize(raw, cfg.targetDailyWh);
      var energy := Sum(profile);
      var net := NetDailyEnergy(energy, cfg.lossFraction);
      var battery := BatteryCapacity(net, cfg.daysAutonomy);
      assert battery * (1.0 - cfg.lossFraction) == cfg.daysAutonomy as real * energy by {
        assert net * (1.0 - cfg.lossFraction) == energy;
      }
      Ok(Sizing(profile, energy, net, battery))
  }
}
