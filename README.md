# Battery sizing for a 48 V IoT node — a Dafny model

The script `File.py` sizes the battery pack of a 48 V sensor node that has to
run for three days without recharge. It takes a fixed hourly load profile
(24 values in W, so each entry is also the Wh drawn in that hour). It scales
the profile so that one day draws 576 Wh. It then adds a 5 % cable loss to get
the energy taken from the battery per day. It multiplies that by the three days
of autonomy to get the required capacity in Wh, and converts it to Ah at 48 V.
Last, it simulates the discharge: starting from a full battery, it subtracts
the loss-adjusted load of every hour of the three days, tiling the daily
profile, and records the state of charge (SoC) after each hour.

The model keeps these four stages and uses exact `real` arithmetic in place of
floating point. The parameters (target daily energy, loss fraction, autonomy
days, nominal voltage) form a `Config`. The script's module-level results
(`profile`, `energy_per_day`, `net_energy_per_day`, `battery_required_Wh`,
`soc`) are returned as values rather than kept as globals.

- `arith.dfy` — module `RealArith`: small arithmetic facts used by the proofs.
- `profile.dfy` — module `Profile`: the numpy operations the script uses
  (`.sum()`, multiplication by a scalar, `np.tile`) over `seq<real>`, and
  normalisation to the target daily energy.
- `sizing.dfy` — module `Sizing`: cable loss, battery capacity, the Ah
  conversion and the `Size` pipeline for stages 2 and 3. A raw profile that
  draws no energy returns the error `ZeroEnergyProfile`.
- `discharge.dfy` — module `Discharge`: the SoC trace as a recursive
  specification function `Trace`, its properties, and `Simulate`. `Simulate`
  is the script's `for` loop, which appends to `soc`, proved equal to `Trace`.
- `battery_script.dfy` — module `BatteryScript`: the script's own profile and
  constants, and `RunScript`, which runs all stages and states the values the
  script's tests expect.

## Model

| member | source | states |
|---|---|---|
| `Profile.ScalingFactor` | File.py:46-47 | the factor times the raw daily energy is exactly the target |
| `Profile.Normalize` | File.py:46-49 | the scaled profile keeps its length, every entry is the raw entry times one common factor, and its sum is exactly the target |
| `Profile.SumScale` | File.py:48-49 | scaling every entry by k scales the daily energy by k |
| `Profile.ScalingFactorPositive` | File.py:47 | with positive raw energy and target, the common factor is positive |
| `Profile.NormalizeKeepsNonNegative` | File.py:46-48 | a non-negative raw profile with non-zero energy stays non-negative after scaling to a non-negative target |
| `Profile.NormalizeIdempotent` | File.py:46-48 | scaling a profile whose energy already equals the target returns it unchanged, so scaling twice is scaling once |
| `Profile.ScalingFactorDoubles` | File.py:47 | a raw day of 288 Wh gets the factor 2 to reach 576 Wh |
| `Profile.TileAt` | File.py:65 | the tiled load has 24·days entries (\|p\|·days in general), and entry i is `profile[i % 24]` |
| `Profile.SumTile` | File.py:58-65 | the tiled load draws days times the daily energy |
| `Sizing.NetDailyEnergy` | File.py:53 | the net energy less the loss fraction of itself is the energy at the load, and it is never below the energy at the load |
| `Sizing.LossNeverReducesEnergy` | File.py:53 | for 0 ≤ f < 1 and non-negative energy, energy / (1 − f) ≥ energy |
| `Sizing.AmpHours` | File.py:78 | the Ah figure times the voltage is the Wh capacity, and it is non-negative when the capacity is |
| `Sizing.Size` | File.py:46-58 | it fails exactly when the raw profile draws no energy; otherwise the scaled profile sums to the target, the recomputed daily energy equals the target, net energy × (1 − f) = target, and capacity × (1 − f) = days × target |
| `Discharge.Trace` | File.py:64-68 | the trace has one entry more than there are loads and starts at the capacity |
| `Discharge.TraceAt` | File.py:64-68 | entry k is the capacity less the loss-adjusted energy of the first k loads |
| `Discharge.TraceStep` | File.py:67-68 | each entry is the previous one less that hour's load divided by (1 − f) |
| `Discharge.TraceNonIncreasing` | File.py:67-68 | with non-negative loads and 0 ≤ f < 1 the SoC never rises: i ≤ j implies entry j ≤ entry i |
| `Discharge.TraceFinal` | File.py:63-68 | the last entry is the capacity less the loss-adjusted energy of all loads |
| `Discharge.ExactCapacityEndsEmpty` | File.py:62-68 | a battery holding exactly the loss-adjusted energy of the loads never goes below zero and ends at exactly zero |
| `Discharge.TiledTraceStep` | File.py:65-68 | over the tiled profile the trace has 1 + 24·days entries, and hour k draws `profile[k % 24] / (1 − f)` |
| `Discharge.Simulate` | File.py:63-70 | the loop builds exactly `Trace` over the tiled profile: 1 + 24·days entries, first the capacity, each next entry the previous less the loss-adjusted hourly load |
| `BatteryScript.RawProfileEnergy` | File.py:34-46 | the script's raw profile has 24 non-negative entries and draws 372 Wh |
| `BatteryScript.CapacityCoversTiledLoad` | File.py:57-65 | the capacity `Size` returns is exactly the loss-adjusted energy of the tiled autonomy window |
| `BatteryScript.SizedBatteryCoversAutonomy` | File.py:57-68 | for any non-negative raw profile with non-zero energy, the SoC trace of the sized battery has 1 + 24·days entries, never rises, never goes below zero, and ends at exactly zero |
| `BatteryScript.RunScript` | File.py:34-78 | with the script's constants: every entry is scaled by 576/372, daily energy is exactly 576 Wh, net energy 576/0.95 Wh, capacity 3·576/0.95 Wh, Ah that divided by 48, all within the tests' tolerances; the SoC trace has 73 entries, starts at the capacity, steps by `profile[k % 24] / 0.95`, never rises, stays ≥ 0 and ends at 0 |

## Left out

- The package-install fallback (File.py:1-13): environment set-up through micropip and asyncio, not sizing logic.
- Console output (File.py:74-77): only the arithmetic of the Ah figure on line 78 is modelled, as `Sizing.AmpHours`.
- Plotting (File.py:82-99): rendering through matplotlib.
- Floating point: all quantities are exact reals. The tests' tolerances (±1 Wh, ±0.1 Ah) become exact equalities; `RunScript` also states the tolerance bounds.
- numpy itself: `np.array`, `.sum()`, `profile * scaling` and `np.tile` are modelled as `seq<real>` functions (`Sum`, `Scale`, `Tile`). The final `np.array(soc)` (File.py:70) only changes the container and is not modelled.
- The unused `base_load` (File.py:33) and `hours` (File.py:45), which only the plot uses.
- Division by a zero raw sum (File.py:47): numpy would yield infinities or NaN and carry on. The model returns `ZeroEnergyProfile` from `Size` instead, and `Normalize` requires a non-zero raw sum.
- Autonomy days is any natural number, including 0, for which the tiled load is empty and the trace is just the capacity; the script itself only uses 3.
