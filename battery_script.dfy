/** The sizing script as a whole, for a 48 V node that must run three days
    without recharge: the fixed raw load profile, the script's constants and
    the run that produces the values the script reports. */
module BatteryScript {
  import opened RealArith
  import opened Profile
  import opened Sizing
  import opened Discharge

  /** 576 Wh per day at the load, 5 % cable loss, 3 days, 48 V. */
  const ScriptConfig: Config := Config(576.0, 0.05, 3, 48.0)

  /** The hourly draw (W) before scaling, midnight first. */
  const RawProfile: seq<real> := [
    5.0, 5.0, 5.0, 5.0,
    8.0, 10.0, 15.0, 20.0,
    25.0, 30.0, 30.0, 25.0,
    20.0, 15.0, 15.0, 20.0,
    25.0, 30.0, 20.0, 15.0,
    10.0, 8.0, 6.0, 5.0]

  /** Everything the script computes: the sizing, the capacity in Ah and the
      state-of-charge trace. */
  datatype ScriptResults = ScriptResults(sizing: Sizing, batteryAh: real, soc: seq<real>)

  /** The raw profile covers a day and draws 372 Wh. */
  lemma RawProfileEnergy()
    ensures |RawProfile| == HoursPerDay
    ensures NonNegative(RawProfile)
    ensures Sum(RawProfile) == 372.0
  {
    var q0, q1, q2 := [5.0, 5.0, 5.0, 5.0], [8.0, 10.0, 15.0, 20.0], [25.0, 30.0, 30.0, 25.0];
    var q3, q4, q5 := [20.0, 15.0, 15.0, 20.0], [25.0, 30.0, 20.0, 15.0], [10.0, 8.0, 6.0, 5.0];
    assert RawProfile == q0 + q1 + q2 + q3 + q4 + q5;
    SumConcat(q0 + q1 + q2 + q3 + q4, q5);
    SumConcat(q0 + q1 + q2 + q3, q4);
    SumConcat(q0 + q1 + q2, q3);
    SumConcat(q0 + q1, q2);
    SumConcat(q0, q1);
    SumOfFour(q0);
    SumOfFour(q1);
    SumOfFour(q2);
    SumOfFour(q3);
    SumOfFour(q4);
    SumOfFour(q5);
  }

  lemma SumOfFour(s: seq<real>)
    requires |s| == 4
    ensures Sum(s) == s[0] + s[1] + s[2] + s[3]
  {
    assert s[..0] == [] && s[..4] == s;
    SumSnoc(s, 0);
    SumSnoc(s, 1);
    SumSnoc(s, 2);
    SumSnoc(s, 3);
  }

  /** The capacity `Size` computes is exactly the loss-adjusted energy of the
      tiled profile. */
  lemma CapacityCoversTiledLoad(cfg: Config, raw: seq<real>)
    requires ValidLoss(cfg.lossFraction) && Sum(raw) != 0.0
    ensures Size(cfg, raw).Ok?
    ensures var s := Size(cfg, raw).value;
            s.batteryRequiredWh == Drawn(Sum(Tile(s.profile, cfg.daysAutonomy)), cfg.lossFraction)
  {
    var s := Size(cfg, raw).value;
    var d := 1.0 - cfg.lossFraction;
    var e := cfg.daysAutonomy as real * cfg.targetDailyWh;
    var b := s.batteryRequiredWh;
    var tiled := Sum(Tile(s.profile, cfg.daysAutonomy));
    SumTile(s.profile, cfg.daysAutonomy);
    assert tiled == e;
    assert b * d == e;
    DivUnique(b, tiled, d);
  }

  /** A battery sized by `Size` powers the tiled, normalised profile through
      the whole autonomy window: its charge never rises, never goes below
      empty, and is exactly empty after the last hour. */
  lemma SizedBatteryCoversAutonomy(cfg: Config, raw: seq<real>)
    requires ValidLoss(cfg.lossFraction) && 0.0 <= cfg.targetDailyWh
    requires NonNegative(raw) && Sum(raw) != 0.0
    ensures Size(cfg, raw).Ok?
    ensures var s := Size(cfg, raw).value;
            var t := Trace(s.batteryRequiredWh, Tile(s.profile, cfg.daysAutonomy), cfg.lossFraction);
            && |t| == 1 + |raw| * cfg.daysAutonomy
            && t[|t| - 1] == 0.0
            && (forall k :: 0 <= k < |t| ==> 0.0 <= t[k])
            && (forall i, j :: 0 <= i <= j < |t| ==> t[j] <= t[i])
  {
    var s := Size(cfg, raw).value;
    var loss := cfg.lossFraction;
    var loads := Tile(s.profile, cfg.daysAutonomy);
    NormalizeKeepsNonNegative(raw, cfg.targetDailyWh);
    TileAt(s.profile, cfg.daysAutonomy);
    assert NonNegative(loads);
    CapacityCoversTiledLoad(cfg, raw);
    ExactCapacityEndsEmpty(loads, loss);
    var t := Trace(s.batteryRequiredWh, loads, loss);
    forall i, j | 0 <= i <= j < |t|
      ensures t[j] <= t[i]
    {
      TraceNonIncreasing(s.batteryRequiredWh, loads, loss, i, j);
    }
  }

  /** The script run end to end with its own constants. The exact values
      below are those the script's tests expect within their tolerances. */
  method RunScript() returns (results: ScriptResults)
    ensures |results.sizing.profile| == 24
    ensures forall i :: 0 <= i < 24 ==> results.sizing.profile[i] == RawProfile[i] * (576.0 / 372.0)
    ensures Sum(results.sizing.profile) == 576.0
    ensures results.sizing.energyPerDay == 576.0
    ensures results.sizing.netEnergyPerDay == 576.0 / 0.95
    ensures results.sizing.batteryRequiredWh == 3.0 * 576.0 / 0.95
    ensures results.batteryAh == 3.0 * 576.0 / 0.95 / 48.0
    ensures 605.3 <= results.sizing.netEnergyPerDay <= 607.3
    ensures 1817.9 <= results.sizing.batteryRequiredWh <= 1819.9
    ensures 37.8 <= results.batteryAh <= 38.0
    ensures |results.soc| == 73
    ensures results.soc[0] == results.sizing.batteryRequiredWh
    ensures results.soc[72] == 0.0
    ensures forall k :: 0 <= k < 72 ==>
              results.soc[k + 1] == results.soc[k] - results.sizing.profile[k % 24] / 0.95
    ensures forall k :: 0 <= k < 73 ==> 0.0 <= results.soc[k]
    ensures forall i, j :: 0 <= i <= j < 73 ==> results.soc[j] <= results.soc[i]
  {
    RawProfileEnergy();
    var cfg := ScriptConfig;
    var s := Size(cfg, RawProfile).value;
    var soc := Simulate(s.batteryRequiredWh, s.profile, cfg.daysAutonomy, cfg.lossFraction);
    SizedBatteryCoversAutonomy(cfg, RawProfile);
    DivUnique(s.netEnergyPerDay, 576.0, 0.95);
    DivUnique(s.batteryRequiredWh, 3.0 * 576.0, 0.95);
    results := ScriptResults(s, AmpHours(s.batteryRequiredWh, cfg.nominalVoltage), soc);
  }
}
