/** Orbital geometry of the space-themed canvas: planet size from note length,
    the zoom-driven circle-to-card morph, orbit radius sizing, evenly spaced start
    angles and the deterministic per-id orbit-duration jitter. */
module SpaceTheme {
  import opened Domain

  const PLANET_MIN_RADIUS: real := 28.0
  const PLANET_MAX_RADIUS: real := 70.0
  const PLANET_CHAR_CAP: nat := 5000

  const MORPH_ZOOM_START: real := 1.2
  const MORPH_ZOOM_END: real := 1.8

  const NOTE_ORBIT_BASE_DURATION: real := 60.0
  const STAR_ORBIT_BASE_DURATION: real := 120.0
  const ORBIT_DURATION_VARIANCE: int := 20

  const MIN_ORBITAL_RADIUS: real := 140.0
  const ORBITAL_GAP: real := 20.0
  const SYSTEM_MIN_SPACING: real := 500.0

  const QUICK_ACTION_BUTTON_SIZE: real := 32.0
  const QUICK_ACTION_RING_OFFSET: real := 20.0

  /** `Math.PI` as a double. */
  const PI: real := 3.141592653589793

  // ---------------------------------------------------------------------------
  // Planet radius

  /** Removes every piece matched by the regular expression `/<[^>]*>/g`: a `<`
      up to and including the next `>`. A `<` with no `>` after it stays. */
  function StripTags(s: string): (r: string)
    ensures |r| <= |s|
    ensures forall c :: c in r ==> c in s
    ensures forall i :: 0 <= i < |r| && r[i] == '<' ==> '>' !in r[i + 1..]
    decreases |s|
  {
    if s == [] then []
    else if s[0] == '<' && '>' in s[1..] then
      var close := IndexOf(s, '>', 1);
      StripTags(s[close + 1..])
    else
      var rest := StripTags(s[1..]);
      assert s[0] == '<' ==> '>' !in rest;
      [s[0]] + rest
  }

  /** The first index at or after `from` holding `c`. */
  function IndexOf(s: string, c: char, from: nat): (k: nat)
    requires from <= |s| && c in s[from..]
    ensures from <= k < |s| && s[k] == c
    decreases |s| - from
  {
    if s[from] == c then from else IndexOf(s, c, from + 1)
  }

  /** `IndexOf` finds the first `c` at or after `from`. */
  lemma {:induction false} IndexOfFirst(s: string, c: char, from: nat, k: nat)
    requires from <= k < |s| && s[k] == c
    requires forall i :: from <= i < k ==> s[i] != c
    ensures IndexOf(s, c, from) == k
    decreases k - from
  {
    if from < k {
      IndexOfFirst(s, c, from + 1, k);
    }
  }

  /** Text in which no `<` is followed by a `>` holds no tag and comes back
      unchanged; in particular text without `<`, and text without `>`. */
  lemma {:induction false} StripTagsKeepsTagFree(s: string)
    requires forall i, j :: 0 <= i < j < |s| && s[i] == '<' ==> s[j] != '>'
    ensures StripTags(s) == s
    decreases |s|
  {
    if s != [] {
      assert !(s[0] == '<' && '>' in s[1..]);
      forall i, j | 0 <= i < j < |s[1..]| && s[1..][i] == '<' ensures s[1..][j] != '>' {
        assert s[1..][i] == s[i + 1] && s[1..][j] == s[j + 1];
      }
      StripTagsKeepsTagFree(s[1..]);
    }
  }

  /** The first complete tag is removed, and only the tag: the tag-free text
      before it is kept and stripping goes on after it. */
  lemma {:induction false} StripTagsRemovesTag(before: string, body: string, after: string)
    requires '<' !in before
    requires '>' !in body
    ensures StripTags(before + ['<'] + body + ['>'] + after) == before + StripTags(after)
    decreases |before|
  {
    var s := before + ['<'] + body + ['>'] + after;
    var close := |before| + |body| + 1;
    if before == [] {
      assert s[close] == '>' && s[1..][close - 1] == '>';
      forall i | 1 <= i < close ensures s[i] != '>' {
        assert s[i] == body[i - 1];
      }
      IndexOfFirst(s, '>', 1, close);
      assert s[close + 1..] == after;
    } else {
      assert s[0] == before[0] && s[1..] == before[1..] + ['<'] + body + ['>'] + after;
      StripTagsRemovesTag(before[1..], body, after);
      assert before == [before[0]] + before[1..];
    }
  }

  /** The tag-stripped content length plus the title length, capped. */
  function ClampedCharCount(content: string, title: string): (n: nat)
    ensures n <= PLANET_CHAR_CAP
  {
    var count := |StripTags(content)| + |title|;
    if count < PLANET_CHAR_CAP then count else PLANET_CHAR_CAP
  }

  /** `PLANET_MIN_RADIUS + (PLANET_MAX_RADIUS - PLANET_MIN_RADIUS) * sqrt(clamped / CAP)`,
      with the square root supplied as `root`. */
  function RadiusFromRoot(root: real): real
  {
    PLANET_MIN_RADIUS + (PLANET_MAX_RADIUS - PLANET_MIN_RADIUS) * root
  }

  function GetPlanetRadius(content: string, title: string, root: real): (r: real)
    requires IsSqrt(root, ClampedCharCount(content, title) as real / PLANET_CHAR_CAP as real)
    ensures PLANET_MIN_RADIUS <= r <= PLANET_MAX_RADIUS
  {
    SqrtMonotone(root, ClampedCharCount(content, title) as real / PLANET_CHAR_CAP as real, 1.0, 1.0);
    RadiusFromRoot(root)
  }

  lemma SqrtMonotone(r1: real, x1: real, r2: real, x2: real)
    requires IsSqrt(r1, x1) && IsSqrt(r2, x2) && x1 <= x2
    ensures r1 <= r2
  {
    if r1 > r2 {
      MulPositive(r1, r1 - r2);
      MulNonNegative(r2, r1 - r2);
    }
  }

  /** More characters never give a smaller planet. */
  lemma PlanetRadiusMonotone(c1: string, t1: string, root1: real, c2: string, t2: string, root2: real)
    requires IsSqrt(root1, ClampedCharCount(c1, t1) as real / PLANET_CHAR_CAP as real)
    requires IsSqrt(root2, ClampedCharCount(c2, t2) as real / PLANET_CHAR_CAP as real)
    requires |StripTags(c1)| + |t1| <= |StripTags(c2)| + |t2|
    ensures GetPlanetRadius(c1, t1, root1) <= GetPlanetRadius(c2, t2, root2)
  {
    SqrtMonotone(root1, ClampedCharCount(c1, t1) as real / PLANET_CHAR_CAP as real,
                 root2, ClampedCharCount(c2, t2) as real / PLANET_CHAR_CAP as real);
  }

  /** Beyond the character cap, the planet stops growing. */
  lemma PlanetRadiusCapped(c1: string, t1: string, root1: real, c2: string, t2: string, root2: real)
    requires IsSqrt(root1, ClampedCharCount(c1, t1) as real / PLANET_CHAR_CAP as real)
    requires IsSqrt(root2, ClampedCharCount(c2, t2) as real / PLANET_CHAR_CAP as real)
    requires |StripTags(c1)| + |t1| >= PLANET_CHAR_CAP && |StripTags(c2)| + |t2| >= PLANET_CHAR_CAP
    ensures GetPlanetRadius(c1, t1, root1) == GetPlanetRadius(c2, t2, root2) == PLANET_MAX_RADIUS
  {
    SqrtOfOne(root1);
    SqrtOfOne(root2);
  }

  lemma SqrtOfOne(r: real)
    requires IsSqrt(r, 1.0)
    ensures r == 1.0
  {
    SqrtMonotone(r, 1.0, 1.0, 1.0);
    SqrtMonotone(1.0, 1.0, r, 1.0);
  }

  lemma MulPositive(a: real, b: real)
    requires a > 0.0 && b > 0.0
    ensures a * b > 0.0
  {
  }

  lemma MulNonNegative(a: real, b: real)
    requires a >= 0.0 && b >= 0.0
    ensures a * b >= 0.0
  {
  }

  // ---------------------------------------------------------------------------
  // Morph progress

  /** `max(0, min(1, (zoom - START) / (END - START)))`. */
  function GetMorphProgress(zoom: real): (t: real)
    ensures 0.0 <= t <= 1.0
    ensures zoom <= MORPH_ZOOM_START ==> t == 0.0
    ensures zoom >= MORPH_ZOOM_END ==> t == 1.0
    ensures MORPH_ZOOM_START < zoom < MORPH_ZOOM_END ==> 0.0 < t < 1.0
  {
    var ramp := (zoom - MORPH_ZOOM_START) / (MORPH_ZOOM_END - MORPH_ZOOM_START);
    var capped := if ramp < 1.0 then ramp else 1.0;
    if capped > 0.0 then capped else 0.0
  }

  /** The morph is flat below the start threshold, flat above the end threshold,
      non-decreasing everywhere, and strictly increasing in between. */
  lemma MorphProgressMonotone(z1: real, z2: real)
    requires z1 <= z2
    ensures GetMorphProgress(z1) <= GetMorphProgress(z2)
    ensures MORPH_ZOOM_START <= z1 < z2 <= MORPH_ZOOM_END ==> GetMorphProgress(z1) < GetMorphProgress(z2)
  {
  }

  // ---------------------------------------------------------------------------
  // Orbital radius

  /** `planetRadii.reduce((sum, r) => sum + r * 2, 0)`. */
  function SumDiameters(radii: seq<real>): (r: real)
    ensures (forall i :: 0 <= i < |radii| ==> radii[i] >= 0.0) ==> r >= 0.0
  {
    if radii == [] then 0.0 else SumDiameters(radii[..|radii| - 1]) + radii[|radii| - 1] * 2.0
  }

  /** Radius of the circle whose circumference holds all diameters plus a gap each. */
  function PackedRadius(radii: seq<real>): (r: real)
    ensures 2.0 * PI * r == SumDiameters(radii) + |radii| as real * ORBITAL_GAP
  {
    (SumDiameters(radii) + |radii| as real * ORBITAL_GAP) / (2.0 * PI)
  }

  function ComputeOrbitalRadius(radii: seq<real>): (r: real)
    ensures radii == [] ==> r == 0.0
    ensures radii != [] ==> r >= MIN_ORBITAL_RADIUS && r >= PackedRadius(radii)
    ensures radii != [] ==> r == MIN_ORBITAL_RADIUS || r == PackedRadius(radii)
  {
    if |radii| == 0 then 0.0
    else
      var minRadius := PackedRadius(radii);
      if MIN_ORBITAL_RADIUS > minRadius then MIN_ORBITAL_RADIUS else minRadius
  }

  lemma {:induction false} SumDiametersMonotone(a: seq<real>, b: seq<real>)
    requires |a| == |b|
    requires forall i :: 0 <= i < |a| ==> a[i] <= b[i]
    ensures SumDiameters(a) <= SumDiameters(b)
  {
    if a != [] {
      SumDiametersMonotone(a[..|a| - 1], b[..|b| - 1]);
    }
  }

  /** Growing any planet never shrinks the orbit. */
  lemma OrbitalRadiusMonotone(a: seq<real>, b: seq<real>)
    requires |a| == |b|
    requires forall i :: 0 <= i < |a| ==> a[i] <= b[i]
    ensures ComputeOrbitalRadius(a) <= ComputeOrbitalRadius(b)
  {
    SumDiametersMonotone(a, b);
    assert PackedRadius(a) <= PackedRadius(b);
  }

  // ---------------------------------------------------------------------------
  // Start angles

  function DistributeAngles(count: nat): (angles: seq<real>)
    ensures |angles| == count
  {
    seq(count, i requires 0 <= i < count => (2.0 * PI * i as real) / count as real)
  }

  /** The angles start at 0, are spaced exactly `2π / count` apart, and stay below `2π`. */
  lemma DistributeAnglesBounds(count: nat)
    ensures count > 0 ==> DistributeAngles(count)[0] == 0.0
    ensures forall i :: 0 <= i < count ==> 0.0 <= DistributeAngles(count)[i] < 2.0 * PI
  {
    var a := DistributeAngles(count);
    forall i | 0 <= i < count ensures 0.0 <= a[i] < 2.0 * PI {
      FractionBelowOne(i, count);
      assert a[i] == (2.0 * PI) * (i as real / count as real);
    }
  }

  lemma DistributeAnglesSpacing(count: nat)
    ensures forall i :: 0 <= i < count - 1 ==>
              DistributeAngles(count)[i + 1] - DistributeAngles(count)[i] == 2.0 * PI / count as real
  {
  }

  lemma DistributeAnglesIncreasing(count: nat)
    ensures forall i, j :: 0 <= i < j < count ==> DistributeAngles(count)[i] < DistributeAngles(count)[j]
  {
    var a := DistributeAngles(count);
    forall i, j | 0 <= i < j < count ensures a[i] < a[j] {
      assert a[j] - a[i] == (2.0 * PI) * ((j - i) as real / count as real);
      FractionPositive(j - i, count);
    }
  }

  lemma FractionBelowOne(i: nat, n: nat)
    requires i < n
    ensures 0.0 <= i as real / n as real < 1.0
  {
  }

  lemma FractionPositive(i: nat, n: nat)
    requires 0 < i && 0 < n
    ensures i as real / n as real > 0.0
  {
  }

  // ---------------------------------------------------------------------------
  // Orbit duration

  const TWO_32: int := 0x1_0000_0000
  const TWO_31: int := 0x8000_0000

  /** ECMAScript ToInt32: reduce modulo 2^32 into the signed 32-bit range. */
  function ToInt32(x: int): (r: int)
    ensures -TWO_31 <= r < TWO_31
  {
    (x + TWO_31) % TWO_32 - TWO_31
  }

  /** The UTF-16 code units `charCodeAt` walks over: a character of the
      Basic Multilingual Plane is its own unit, any other is a surrogate
      pair from which the character can be recovered. */
  function CodeUnits(s: string): (units: seq<int>)
    ensures forall i :: 0 <= i < |units| ==> 0 <= units[i] < 0x1_0000
    ensures |units| >= |s|
    ensures (forall i :: 0 <= i < |s| ==> s[i] as int < 0x1_0000) ==>
              |units| == |s| && forall i :: 0 <= i < |s| ==> units[i] == s[i] as int
    ensures s != [] && s[0] as int >= 0x1_0000 ==>
              |units| >= 2 && 0xD800 <= units[0] < 0xDC00 && 0xDC00 <= units[1] < 0xE000
              && 0x1_0000 + (units[0] - 0xD800) * 0x400 + (units[1] - 0xDC00) == s[0] as int
  {
    if s == [] then []
    else
      var c := s[0] as int;
      var head := if c < 0x1_0000 then [c]
                  else [0xD800 + (c - 0x1_0000) / 0x400, 0xDC00 + (c - 0x1_0000) % 0x400];
      head + CodeUnits(s[1..])
  }

  /** `((hash << 5) - hash + code) | 0` on a signed 32-bit `hash`. */
  function HashStep(hash: int, code: int): (r: int)
    ensures -TWO_31 <= r < TWO_31
  {
    ToInt32(ToInt32(hash * 32) - hash + code)
  }

  /** The exact polynomial hash: `Σ 31^(n-1-i) · code_i`, in Horner form. */
  function PolyHash(codes: seq<int>): (r: int)
    ensures (forall i :: 0 <= i < |codes| ==> codes[i] >= 0) ==> r >= 0
  {
    if codes == [] then 0 else 31 * PolyHash(codes[..|codes| - 1]) + codes[|codes| - 1]
  }

  /** The 32-bit string hash the source computes. */
  function StringHash(id: string): (h: int)
    ensures -TWO_31 <= h < TWO_31
  {
    ToInt32(PolyHash(CodeUnits(id)))
  }

  function Abs(x: int): nat { if x < 0 then -x else x }

  lemma ToInt32AddMultiple(a: int, k: int)
    ensures ToInt32(a + k * TWO_32) == ToInt32(a)
  {
    var x := a + TWO_31;
    assert (x + k * TWO_32) % TWO_32 == x % TWO_32 by {
      ModAddMultiple(x, k);
    }
  }

  lemma ModAddMultiple(x: int, k: int)
    ensures (x + k * TWO_32) % TWO_32 == x % TWO_32
  {
  }

  lemma ToInt32Offset(x: int)
    ensures exists k :: ToInt32(x) == x + k * TWO_32
  {
    var y := x + TWO_31;
    assert y == (y / TWO_32) * TWO_32 + y % TWO_32;
    assert ToInt32(x) == x + (-(y / TWO_32)) * TWO_32;
  }

  /** One hash step on a reduced value agrees with the exact polynomial step, reduced. */
  lemma HashStepAgrees(x: int, code: int)
    ensures HashStep(ToInt32(x), code) == ToInt32(31 * x + code)
  {
    var h := ToInt32(x);
    ToInt32Offset(x);
    var k1 :| h == x + k1 * TWO_32;
    ToInt32Offset(h * 32);
    var k2 :| ToInt32(h * 32) == h * 32 + k2 * TWO_32;
    calc {
      HashStep(h, code);
      ToInt32(h * 32 + k2 * TWO_32 - h + code);
      { assert h * 32 + k2 * TWO_32 - h + code == (31 * h + code) + k2 * TWO_32; }
      ToInt32((31 * h + code) + k2 * TWO_32);
      { ToInt32AddMultiple(31 * h + code, k2); }
      ToInt32(31 * h + code);
      { assert 31 * h + code == (31 * x + code) + (31 * k1) * TWO_32; }
      ToInt32((31 * x + code) + (31 * k1) * TWO_32);
      { ToInt32AddMultiple(31 * x + code, 31 * k1); }
      ToInt32(31 * x + code);
    }
  }

  /** `baseDuration + (|hash| % 40 - 20)`, the hash folded over the id's code units. */
  method GetOrbitDuration(baseDuration: real, id: string) returns (duration: real)
    ensures duration == baseDuration + ((Abs(StringHash(id)) % (ORBIT_DURATION_VARIANCE * 2)) - ORBIT_DURATION_VARIANCE) as real
    ensures baseDuration - ORBIT_DURATION_VARIANCE as real <= duration <= baseDuration + (ORBIT_DURATION_VARIANCE - 1) as real
  {
    var codes := CodeUnits(id);
    var hash := 0;
    var i := 0;
    while i < |codes|
      invariant 0 <= i <= |codes|
      invariant hash == ToInt32(PolyHash(codes[..i]))
    {
      assert codes[..i + 1][..i] == codes[..i];
      HashStepAgrees(PolyHash(codes[..i]), codes[i]);
      hash := HashStep(hash, codes[i]);
      i := i + 1;
    }
    assert codes[..i] == codes;
    var variance := (Abs(hash) % (ORBIT_DURATION_VARIANCE * 2)) - ORBIT_DURATION_VARIANCE;
    duration := baseDuration + variance as real;
  }
}
