/** Stage 4 of the sizing script: start from a full battery and take the
    loss-adjusted load of every hour of the autonomy window out of it,
    recording the state of charge (Wh) after each hour. */
module Discharge {
  import opened RealArith
  import opened Profile

  /** Energy taken from the battery to deliver `load` Wh after the cable
      loss. */
  function Drawn(load: real, loss: real): real
    requires loss < 1.0
  {
    load / (1.0 - loss)
  }

  /** The state-of-charge trace the simulation builds: the capacity, then one
      entry per load, each the previous one minus the loss-adjusted load. */
  function Trace(capacity: real, loads: seq<real>, loss: real): (t: seq<real>)
    requires loss < 1.0
    ensures |t| == |loads| + 1
    ensures t[0] == capacity
    decreases |loads|
  {
    if loads == [] then [capacity]
    else
      var before := Trace(capacity, loads[..|loads| - 1], loss);
      before + [before[|before| - 1] - Drawn(loads[|loads| - 1], loss)]
  }

  /** Every trace entry is the capacity less the loss-adjusted energy of the
      loads before it. */
  lemma {:induction false} TraceAt(capacity: real, loads: seq<real>, loss: real, k: nat)
    requires loss < 1.0 && k <= |loads|
    ensures Trace(capacity, loads, loss)[k] == capacity - Drawn(Sum(loads[..k]), loss)
    decreases |loads|
  {
    var t := Trace(capacity, loads, loss);
    if k == 0 {
      assert loads[..0] == [];
      assert Drawn(0.0, loss) == 0.0;
    } else if k < |loads| {
      var front := loads[..|loads| - 1];
      TraceAt(capacity, front, loss, k);
      assert front[..k] == loads[..k];
    } else {
      var front := loads[..|loads| - 1];
      TraceAt(capacity, front, loss, k - 1);
      assert front[..k - 1] == front;
      assert loads[..k] == loads;
      DrawnAdds(Sum(front), loads[k - 1], loss);
    }
  }

  lemma DrawnAdds(a: real, b: real, loss: real)
    requires loss < 1.0
    ensures Drawn(a + b, loss) == Drawn(a, loss) + Drawn(b, loss)
  {
    var d := 1.0 - loss;
    var x, y, z := a / d, b / d, (a + b) / d;
    assert x * d == a && y * d == b && z * d == a + b;
    assert (z - (x + y)) * d == 0.0;
    ZeroFactor(z - (x + y), d);
  }

  lemma DrawnMonotone(a: real, b: real, loss: real)
    requires loss < 1.0 && a <= b
    ensures Drawn(a, loss) <= Drawn(b, loss)
  {
    DrawnAdds(a, b - a, loss);
    assert a + (b - a) == b;
    DivNonNegative(b - a, 1.0 - loss);
  }

  /** Each hour takes exactly the loss-adjusted load out of the battery. */
  lemma TraceStep(capacity: real, loads: seq<real>, loss: real, k: nat)
    requires loss < 1.0 && k < |loads|
    ensures Trace(capacity, loads, loss)[k + 1]
            == Trace(capacity, loads, loss)[k] - Drawn(loads[k], loss)
  {
    TraceAt(capacity, loads, loss, k);
    TraceAt(capacity, loads, loss, k + 1);
    assert loads[..k + 1] == loads[..k] + [loads[k]];
    assert loads[..k + 1][..k] == loads[..k];
    DrawnAdds(Sum(loads[..k]), loads[k], loss);
  }

  /** With non-negative loads the state of charge never rises. */
  lemma TraceNonIncreasing(capacity: real, loads: seq<real>, loss: real, i: nat, j: nat)
    requires 0.0 <= loss < 1.0 && NonNegative(loads)
    requires i <= j <= |loads|
    ensures Trace(capacity, loads, loss)[j] <= Trace(capacity, loads, loss)[i]
  {
    TraceAt(capacity, loads, loss, i);
    TraceAt(capacity, loads, loss, j);
    SumPrefixMonotone(loads, i, j);
    DrawnMonotone(Sum(loads[..i]), Sum(loads[..j]), loss);
  }

  /** After the last load the battery holds the capacity less the
      loss-adjusted energy of all loads. */
  lemma TraceFinal(capacity: real, loads: seq<real>, loss: real)
    requires loss < 1.0
    ensures Trace(capacity, loads, loss)[|loads|] == capacity - Drawn(Sum(loads), loss)
  {
    TraceAt(capacity, loads, loss, |loads|);
    assert loads[..|loads|] == loads;
  }

  /** A battery whose capacity is exactly the loss-adjusted energy of the
      loads never goes below empty and ends exactly empty. */
  lemma ExactCapacityEndsEmpty(loads: seq<real>, loss: real)
    requires 0.0 <= loss < 1.0 && NonNegative(loads)
    ensures var t := Trace(Drawn(Sum(loads), loss), loads, loss);
            && t[|loads|] == 0.0
            && forall k :: 0 <= k <= |loads| ==> 0.0 <= t[k]
  {
    var t := Trace(Drawn(Sum(loads), loss), loads, loss);
    TraceFinal(Drawn(Sum(loads), loss), loads, loss);
    forall k | 0 <= k <= |loads|
      ensures 0.0 <= t[k]
    {
      TraceNonIncreasing(Drawn(Sum(loads), loss), loads, loss, k, |loads|);
    }
  }

  /** Over the tiled profile, hour `k` of the window draws hour `k % |p|`
      of the day. */
  lemma TiledTraceStep(capacity: real, p: seq<real>, days: nat, loss: real)
    requires loss < 1.0
    ensures var t := Trace(capacity, Tile(p, days), loss);
            && |t| == 1 + |p| * days
            && forall k :: 0 <= k < |t| - 1 ==> t[k + 1] == t[k] - Drawn(p[k % |p|], loss)
  {
    var loads := Tile(p, days);
    TileAt(p, days);
    forall k | 0 <= k < |loads|
      ensures Trace(capacity, loads, loss)[k + 1]
              == Trace(capacity, loads, loss)[k] - Drawn(p[k % |p|], loss)
    {
      TraceStep(capacity, loads, loss, k);
    }
  }

  /** The discharge loop: `soc` starts as `[capacity]` and grows by one entry
      per hour of the tiled profile. */
  method Simulate(capacity: real, profile: seq<real>, days: nat, loss: real)
    returns (soc: seq<real>)
    requires loss < 1.0
    ensures soc == Trace(capacity, Tile(profile, days), loss)
    ensures |soc| == 1 + |profile| * days && soc[0] == capacity
    ensures forall k :: 0 <= k < |soc| - 1 ==>
              soc[k + 1] == soc[k] - Drawn(profile[k % |profile|], loss)
  {
    soc := [capacity];
    var timeline := Tile(profile, days);
    for i := 0 to |timeline|
      invariant soc == Trace(capacity, timeline[..i], loss)
    {
      assert timeline[..i + 1][..i] == timeline[..i];
      soc := soc + [soc[|soc| - 1] - timeline[i] / (1.0 - loss)];
    }
    assert timeline[..|timeline|] == timeline;
    TiledTraceStep(capacity, profile, days, loss);
  }
}
