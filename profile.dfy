/** Hourly load profiles: a day's power draw in Watts, one entry per hour.
    Each entry is also the energy (Wh) drawn in that hour, so the sum of a
    profile is its daily energy. Models the numpy array operations the sizing
    script uses: `.sum()`, multiplication by a scalar and `np.tile`. */
module Profile {
  import opened RealArith

  /** Number of hourly entries in a daily profile. */
  const HoursPerDay: nat := 24

  /** Sum of a sequence, peeling off the last element (so that a prefix sum
      extends by one entry at a time). */
  function Sum(s: seq<real>): real
  {
    if s == [] then 0.0 else Sum(s[..|s| - 1]) + s[|s| - 1]
  }

  predicate NonNegative(s: seq<real>)
  {
    forall i :: 0 <= i < |s| ==> 0.0 <= s[i]
  }

  /** Element-wise multiplication by a scalar (`profile * scaling`). */
  function Scale(s: seq<real>, k: real): (r: seq<real>)
    ensures |r| == |s|
    ensures forall i :: 0 <= i < |s| ==> r[i] == s[i] * k
  {
    seq(|s|, i requires 0 <= i < |s| => s[i] * k)
  }

  /** The factor that brings a profile's daily energy to the target. */
  function ScalingFactor(raw: seq<real>, target: real): (k: real)
    requires Sum(raw) != 0.0
    ensures k * Sum(raw) == target
  {
    target / Sum(raw)
  }

  /** The profile scaled so that its daily energy equals the target. */
  function Normalize(raw: seq<real>, target: real): (r: seq<real>)
    requires Sum(raw) != 0.0
    ensures |r| == |raw|
    ensures Sum(r) == target
    ensures forall i :: 0 <= i < |raw| ==> r[i] == raw[i] * ScalingFactor(raw, target)
  {
    SumScale(raw, ScalingFactor(raw, target));
    Scale(raw, ScalingFactor(raw, target))
  }

  /** `np.tile(profile, days)`: the daily profile repeated `days` times. */
  function Tile(p: seq<real>, days: nat): seq<real>
  {
    if days == 0 then [] else Tile(p, days - 1) + p
  }

  /** The tiled sequence holds `days` whole copies, and hour `i` of it is
      hour `i % |p|` of the day. */
  lemma {:induction false} TileAt(p: seq<real>, days: nat)
    ensures |Tile(p, days)| == |p| * days
    ensures forall i :: 0 <= i < |Tile(p, days)| ==> Tile(p, days)[i] == p[i % |p|]
  {
    if days > 0 {
      var front := Tile(p, days - 1);
      var r := Tile(p, days);
      TileAt(p, days - 1);
      assert r == front + p;
      assert |p| * days == |p| * (days - 1) + |p|;
      forall i | |front| <= i < |r|
        ensures r[i] == p[i % |p|]
      {
        ModOffset(|p|, days - 1, i - |front|);
      }
    }
  }

  /** Adding a whole number of periods does not change the remainder. */
  lemma ModOffset(m: nat, k: nat, j: nat)
    requires j < m
    ensures (m * k + j) % m == j
  {
    var q := (m * k + j) / m;
    var r := (m * k + j) % m;
    assert m * q + r == m * k + j;
    if q < k {
      assert m * q <= m * (k - 1) by { MulMono(m, q, k - 1); }
      assert false;
    } else if q > k {
      assert m * (k + 1) <= m * q by { MulMono(m, k + 1, q); }
      assert false;
    }
  }

  /** The sum distributes over concatenation. */
  lemma {:induction false} SumConcat(a: seq<real>, b: seq<real>)
    ensures Sum(a + b) == Sum(a) + Sum(b)
    decreases |b|
  {
    if b == [] {
      assert a + b == a;
    } else {
      var b' := b[..|b| - 1];
      assert (a + b)[..|a + b| - 1] == a + b';
      SumConcat(a, b');
    }
  }

  /** Scaling every entry scales the sum by the same factor. */
  lemma {:induction false} SumScale(s: seq<real>, k: real)
    ensures Sum(Scale(s, k)) == k * Sum(s)
    decreases |s|
  {
    if s != [] {
      var s' := s[..|s| - 1];
      forall i | 0 <= i < |s'|
        ensures Scale(s, k)[..|s| - 1][i] == Scale(s', k)[i]
      {
      }
      assert Scale(s, k)[..|s| - 1] == Scale(s', k);
      SumScale(s', k);
    }
  }

  /** Tiling `days` copies multiplies the daily energy by `days`. */
  lemma {:induction false} SumTile(p: seq<real>, days: nat)
    ensures Sum(Tile(p, days)) == days as real * Sum(p)
  {
    if days > 0 {
      var front := Tile(p, days - 1);
      SumTile(p, days - 1);
      SumConcat(front, p);
      var d := (days - 1) as real;
      assert days as real == d + 1.0;
      MulSucc(d, Sum(p));
    }
  }

  /** A prefix sum extends by one entry at a time. */
  lemma SumSnoc(s: seq<real>, k: nat)
    requires k < |s|
    ensures Sum(s[..k + 1]) == Sum(s[..k]) + s[k]
  {
    assert s[..k + 1][..k] == s[..k];
  }

  /** A prefix of a non-negative profile never draws more than the whole. */
  lemma {:induction false} SumPrefixMonotone(s: seq<real>, i: nat, j: nat)
    requires NonNegative(s)
    requires i <= j <= |s|
    ensures Sum(s[..i]) <= Sum(s[..j])
    decreases j - i
  {
    if i < j {
      SumPrefixMonotone(s, i, j - 1);
      SumSnoc(s, j - 1);
    }
  }

  /** The common factor is positive when target and raw energy both are. */
  lemma ScalingFactorPositive(raw: seq<real>, target: real)
    requires Sum(raw) > 0.0 && target > 0.0
    ensures ScalingFactor(raw, target) > 0.0
  {
  }

  /** A non-negative profile stays non-negative when normalised to a
      non-negative target. */
  lemma NormalizeKeepsNonNegative(raw: seq<real>, target: real)
    requires NonNegative(raw) && Sum(raw) != 0.0 && 0.0 <= target
    ensures NonNegative(Normalize(raw, target))
  {
    SumPrefixMonotone(raw, 0, |raw|);
    assert raw[..|raw|] == raw;
    assert Sum(raw) > 0.0;
    var k := ScalingFactor(raw, target);
    DivNonNegative(target, Sum(raw));
    forall i | 0 <= i < |raw|
      ensures Normalize(raw, target)[i] >= 0.0
    {
      MulNonNegative(raw[i], k);
    }
  }

  /** Normalising a profile whose energy already equals the target returns it
      unchanged. */
  lemma NormalizeIdempotent(s: seq<real>, target: real)
    requires target != 0.0 && Sum(s) == target
    ensures Normalize(s, target) == s
    ensures Normalize(Normalize(s, target), target) == s
  {
    var k := ScalingFactor(s, target);
    assert (k - 1.0) * target == 0.0;
    ZeroFactor(k - 1.0, target);
    assert Normalize(s, target) == s;
  }

  /** A raw day of 288 Wh is doubled to reach 576 Wh. */
  lemma ScalingFactorDoubles(raw: seq<real>)
    requires Sum(raw) == 288.0
    ensures ScalingFactor(raw, 576.0) == 2.0
  {
  }
}
