/** The terrain kernel: a row-major heightfield of vertices whose planar
    coordinates are fixed and whose heights are generated from fractal noise
    or sculpted by brushes, plus a square splat raster of RGB material weights
    that paint brushes blend toward a colour. Noise and Math.sqrt are oracles
    passed in per call. */
module Terrain {
  import opened Common

  const DefaultSize: real := 200.0
  const DefaultSegments: nat := 256
  /** Width and height of the splat canvas, in pixels. */
  const SplatMapSize: nat := 512
  /** Height given to every vertex whose landmass value is below the water level. */
  const WaterFloor: real := -2.0

  /** One pixel of the splat raster: R = rock, G = grass, B = sand weight. */
  datatype Rgb = Rgb(r: real, g: real, b: real)

  const GrassColor: Rgb := Rgb(0.0, 255.0, 0.0)

  /** A width x height raster stored row by row. */
  datatype Raster = Raster(width: nat, height: nat, pixels: seq<Rgb>)

  ghost predicate RasterShaped(ras: Raster)
  {
    |ras.pixels| == ras.width * ras.height
  }

  /** The terrain object: world size, segment count, vertex grid and splat raster. */
  datatype TerrainState = TerrainState(size: real, segments: nat, grid: seq<Vec3>, splat: Raster)

  // ---------------------------------------------------------------------------
  // Smoothstep falloff

  /** Math.max(0, Math.min(1, t)). */
  function Clamp01(t: real): (r: real)
    ensures 0.0 <= r <= 1.0
    ensures 0.0 <= t <= 1.0 ==> r == t
    ensures t <= 0.0 ==> r == 0.0
    ensures t >= 1.0 ==> r == 1.0
  {
    Max(0.0, Min(1.0, t))
  }

  lemma MulNonneg(a: real, b: real)
    requires 0.0 <= a && 0.0 <= b
    ensures 0.0 <= a * b
  {
  }

  lemma MulPos(a: real, b: real)
    requires 0.0 < a && 0.0 < b
    ensures 0.0 < a * b
  {
  }

  lemma MulMono(a: real, b: real, c: real)
    requires 0.0 <= c && a <= b
    ensures a * c <= b * c
  {
    MulNonneg(b - a, c);
    assert (b - a) * c == b * c - a * c;
  }

  lemma MulStrictMono(a: real, b: real, c: real)
    requires 0.0 < c && a < b
    ensures a * c < b * c
  {
    MulPos(b - a, c);
    assert (b - a) * c == b * c - a * c;
  }

  /** The cubic x^2 (3 - 2x). */
  function Cubic(x: real): real { x * x * (3.0 - 2.0 * x) }

  lemma CubicBounds(x: real)
    requires 0.0 <= x <= 1.0
    ensures 0.0 <= Cubic(x) <= 1.0
    ensures 0.0 < x ==> 0.0 < Cubic(x)
  {
    var xx := x * x;
    var k := 3.0 - 2.0 * x;
    assert Cubic(x) == xx * k;
    MulNonneg(x, x);
    MulNonneg(xx, k);
    var u := 1.0 - x;
    var uu := u * u;
    MulNonneg(u, u);
    MulNonneg(uu, 1.0 + 2.0 * x);
    assert uu == 1.0 - 2.0 * x + xx;
    assert uu * (1.0 + 2.0 * x) == 1.0 - xx * k;
    if 0.0 < x {
      MulPos(x, x);
      MulPos(xx, k);
    }
  }

  lemma CubicDifference(x: real, y: real)
    ensures Cubic(y) - Cubic(x) == (y - x) * (3.0 * (x + y) - 2.0 * (x * x + x * y + y * y))
  {
  }

  lemma ProductBelow(a: real, b: real)
    requires 0.0 <= a && 0.0 <= b <= 1.0
    ensures a * b <= a
  {
    MulMono(b, 1.0, a);
  }

  lemma ProductStrictlyBelow(a: real, b: real)
    requires 0.0 < a && 0.0 <= b < 1.0
    ensures a * b < a
  {
    MulStrictMono(b, 1.0, a);
  }

  /** The slope bound with the three products as plain unknowns. */
  lemma SlopeFromProducts(x: real, y: real, xx: real, xy: real, yy: real)
    requires 0.0 <= x < y && xx <= x && xy <= x && yy <= y
    ensures 0.0 < 3.0 * (x + y) - 2.0 * (xx + xy + yy)
  {
  }

  lemma CubicSlopePositive(x: real, y: real)
    requires 0.0 <= x < y <= 1.0
    ensures 0.0 < 3.0 * (x + y) - 2.0 * (x * x + x * y + y * y)
  {
    ProductBelow(x, x);
    ProductBelow(y, y);
    ProductBelow(x, y);
    SlopeFromProducts(x, y, x * x, x * y, y * y);
  }

  /** The cubic is strictly increasing on [0, 1]. */
  lemma CubicStrict(x: real, y: real)
    requires 0.0 <= x < y <= 1.0
    ensures Cubic(x) < Cubic(y)
  {
    var q := 3.0 * (x + y) - 2.0 * (x * x + x * y + y * y);
    CubicDifference(x, y);
    CubicSlopePositive(x, y);
    MulPos(y - x, q);
  }

  /** Where a quotient by a positive number sits relative to 0 and 1. */
  lemma DivSign(a: real, d: real)
    requires 0.0 < d
    ensures a <= 0.0 ==> a / d <= 0.0
    ensures 0.0 < a ==> 0.0 < a / d
    ensures d <= a ==> 1.0 <= a / d
    ensures 0.0 <= a <= d ==> 0.0 <= a / d <= 1.0
  {
    var q := a / d;
    assert q * d == a;
    if a <= 0.0 && q > 0.0 {
      MulPos(q, d);
    }
    if 0.0 < a && q <= 0.0 {
      MulNonneg(-q, d);
    }
    if d <= a && q < 1.0 {
      MulStrictMono(q, 1.0, d);
    }
    if a <= d && q > 1.0 {
      MulStrictMono(1.0, q, d);
    }
  }

  /** The brush falloff `smoothstep(min, max, value)`. */
  function Smoothstep(lo: real, hi: real, v: real): (r: real)
    requires lo < hi
    ensures 0.0 <= r <= 1.0
    ensures v <= lo ==> r == 0.0
    ensures v >= hi ==> r == 1.0
    ensures lo < v ==> 0.0 < r
  {
    var t := (v - lo) / (hi - lo);
    DivSign(v - lo, hi - lo);
    var x := Clamp01(t);
    CubicBounds(x);
    Cubic(x)
  }

  /** Smoothstep never decreases, and strictly increases inside [lo, hi]. */
  lemma SmoothstepMonotone(lo: real, hi: real, a: real, b: real)
    requires lo < hi && a <= b
    ensures Smoothstep(lo, hi, a) <= Smoothstep(lo, hi, b)
    ensures lo <= a && a < b && b <= hi ==> Smoothstep(lo, hi, a) < Smoothstep(lo, hi, b)
  {
    var d := hi - lo;
    var ta := (a - lo) / d;
    var tb := (b - lo) / d;
    assert ta <= tb by {
      assert a - lo <= b - lo;
    }
    var xa := Clamp01(ta);
    var xb := Clamp01(tb);
    assert xa <= xb;
    if xa < xb {
      CubicStrict(xa, xb);
    }
    if lo <= a && a < b && b <= hi {
      assert ta < tb by {
        assert a - lo < b - lo;
      }
      assert 0.0 <= ta && tb <= 1.0 by {
        assert b - lo <= d;
      }
      CubicStrict(xa, xb);
    }
  }

  /** Halfway through the falloff the weight is one half. */
  lemma SmoothstepMidpoint()
    ensures Smoothstep(0.0, 1.0, 0.5) == 0.5
  {
  }

  /** THREE.MathUtils.lerp(a, b, t). */
  function Lerp(a: real, b: real, t: real): real { a + (b - a) * t }

  /** For t in [0, 1], lerp lands between its ends and no farther from `b` than `a` was. */
  lemma LerpBetween(a: real, b: real, t: real)
    requires 0.0 <= t <= 1.0
    ensures Min(a, b) <= Lerp(a, b, t) <= Max(a, b)
    ensures Lerp(a, b, t) - b == (a - b) * (1.0 - t)
  {
    if a <= b {
      MulNonneg(b - a, t);
      MulMono(t, 1.0, b - a);
    } else {
      MulNonneg(a - b, t);
      MulMono(t, 1.0, a - b);
    }
  }

  // ---------------------------------------------------------------------------
  // Grid and raster construction

  /** The coordinate of grid line `k` of `segments` across a plane of side
      `size` centred on the origin. */
  function GridLine(k: int, size: real, segments: nat): real
    requires segments >= 1
  {
    k as real * (size / segments as real) - size / 2.0
  }

  /** The first grid line is the plane's near edge, the last its far edge,
      and neighbouring lines are one cell apart. */
  lemma GridLineSpan(size: real, segments: nat, k: nat)
    requires segments >= 1 && k < segments
    ensures GridLine(0, size, segments) == -size / 2.0
    ensures GridLine(segments, size, segments) == size / 2.0
    ensures GridLine(k + 1, size, segments) - GridLine(k, size, segments) == size / segments as real
  {
    var cell := size / segments as real;
    assert segments as real * cell == size;
    assert (k + 1) as real * cell == k as real * cell + cell;
  }

  /** The plane three.js builds for `PlaneGeometry(size, size, n, n)` rotated by
      -pi/2 about X: (n+1)^2 vertices, row-major, x by column and z by row,
      both running from -size/2 to size/2, height 0. */
  function PlaneGrid(size: real, segments: nat): (g: seq<Vec3>)
    requires segments >= 1
    ensures |g| == (segments + 1) * (segments + 1)
    ensures forall i :: 0 <= i < |g| ==> g[i].y == 0.0
    ensures forall i :: 0 <= i < |g| ==>
      g[i].x == GridLine(i % (segments + 1), size, segments) &&
      g[i].z == GridLine(i / (segments + 1), size, segments)
  {
    var w := segments + 1;
    seq(w * w, i => Vec3(GridLine(i % w, size, segments), 0.0, GridLine(i / w, size, segments)))
  }

  /** Every grid line of a plane with non-negative side lies on the plane. */
  lemma GridLineOnPlane(size: real, segments: nat, k: nat)
    requires segments >= 1 && k <= segments && size >= 0.0
    ensures -size / 2.0 <= GridLine(k, size, segments) <= size / 2.0
  {
    var cell := size / segments as real;
    assert cell >= 0.0;
    assert k as real * cell <= segments as real * cell;
    assert segments as real * cell == size;
  }

  lemma MulCancelLess(c: nat, a: nat, b: nat)
    requires c * a < c * b
    ensures a < b
  {
  }

  /** Every vertex of the plane lies within it. */
  lemma PlaneGridWithinPlane(size: real, segments: nat, i: nat)
    requires segments >= 1 && size >= 0.0 && i < |PlaneGrid(size, segments)|
    ensures var v := PlaneGrid(size, segments)[i];
      -size / 2.0 <= v.x <= size / 2.0 && -size / 2.0 <= v.z <= size / 2.0
  {
    var w := segments + 1;
    assert w * (i / w) <= i < w * w;
    MulCancelLess(w, i / w, w);
    GridLineOnPlane(size, segments, i % w);
    GridLineOnPlane(size, segments, i / w);
  }

  /** `fillRect` with rgb(0, 255, 0) over the whole canvas. */
  function GrassRaster(width: nat, height: nat): (ras: Raster)
    ensures ras.width == width && ras.height == height && RasterShaped(ras)
    ensures forall i :: 0 <= i < |ras.pixels| ==> ras.pixels[i] == GrassColor
  {
    Raster(width, height, seq(width * height, _ => GrassColor))
  }

  /** `resetSplatMap`: same canvas, every pixel grass. */
  function ResetSplatMap(ras: Raster): (r: Raster)
    ensures r.width == ras.width && r.height == ras.height && RasterShaped(r)
    ensures forall i :: 0 <= i < |r.pixels| ==> r.pixels[i] == GrassColor
  {
    GrassRaster(ras.width, ras.height)
  }

  /** `createMesh`: a fresh flat grid and a fresh all-grass splat canvas. */
  function CreateMesh(size: real, segments: nat): (t: TerrainState)
    requires segments >= 1
    ensures t.size == size && t.segments == segments
    ensures |t.grid| == (segments + 1) * (segments + 1)
    ensures forall i :: 0 <= i < |t.grid| ==> t.grid[i].y == 0.0
    ensures t.splat.width == SplatMapSize && t.splat.height == SplatMapSize && RasterShaped(t.splat)
    ensures forall i :: 0 <= i < |t.splat.pixels| ==> t.splat.pixels[i] == GrassColor
  {
    TerrainState(size, segments, PlaneGrid(size, segments), GrassRaster(SplatMapSize, SplatMapSize))
  }

  /** The terrain as the constructor and `init` leave it. */
  function InitialTerrain(): TerrainState
  {
    CreateMesh(DefaultSize, DefaultSegments)
  }

  /** `recreate(size, segments)`: discards the old grid and raster entirely. */
  function Recreate(t: TerrainState, size: real, segments: nat): (r: TerrainState)
    requires segments >= 1
    ensures r.size == size && r.segments == segments
    ensures |r.grid| == (segments + 1) * (segments + 1)
    ensures forall i :: 0 <= i < |r.grid| ==> r.grid[i].y == 0.0
    ensures RasterShaped(r.splat) && forall i :: 0 <= i < |r.splat.pixels| ==> r.splat.pixels[i] == GrassColor
  {
    CreateMesh(size, segments)
  }

  /** No edit survives a recreate: the result depends only on size and segments. */
  lemma RecreateForgetsEdits(t1: TerrainState, t2: TerrainState, size: real, segments: nat)
    requires segments >= 1
    ensures Recreate(t1, size, segments) == Recreate(t2, size, segments)
  {
  }

  /** `reset`: every height to 0 and the raster back to grass; topology untouched. */
  function Reset(t: TerrainState): (r: TerrainState)
    ensures r.size == t.size && r.segments == t.segments
    ensures |r.grid| == |t.grid|
    ensures forall i :: 0 <= i < |r.grid| ==>
      r.grid[i].y == 0.0 && r.grid[i].x == t.grid[i].x && r.grid[i].z == t.grid[i].z
    ensures r.splat.width == t.splat.width && r.splat.height == t.splat.height
    ensures RasterShaped(r.splat) && forall i :: 0 <= i < |r.splat.pixels| ==> r.splat.pixels[i] == GrassColor
  {
    t.(grid := seq(|t.grid|, i requires 0 <= i < |t.grid| => t.grid[i].(y := 0.0)),
       splat := ResetSplatMap(t.splat))
  }

  /** A freshly recreated terrain is already in the reset state. */
  lemma ResetAfterRecreate(t: TerrainState, size: real, segments: nat)
    requires segments >= 1
    ensures Reset(Recreate(t, size, segments)) == Recreate(t, size, segments)
  {
    var r := Recreate(t, size, segments);
    var z := Reset(r);
    assert z.grid == r.grid by {
      forall i | 0 <= i < |r.grid|
        ensures z.grid[i] == r.grid[i]
      {
      }
    }
    assert z.splat.pixels == r.splat.pixels;
  }

  // ---------------------------------------------------------------------------
  // Generation

  datatype GenerationParams = GenerationParams(
    mountainScale: real, mountainHeight: real, mountainOctaves: real,
    landmassScale: real, waterLevel: real, persistence: real, lacunarity: real)

  /** The two scales are divisors; the sliders keep them positive. */
  predicate ScalesNonZero(p: GenerationParams)
  {
    p.mountainScale != 0.0 && p.landmassScale != 0.0
  }

  /** A 2D noise sampler (one `createNoise2D` instance). */
  type Noise2 = (real, real) -> real

  /** The landmass mask `(noise(x / landmassScale, z / landmassScale) + 1) / 2`. */
  function Landmass(v: Vec3, p: GenerationParams, noise: Noise2): real
    requires ScalesNonZero(p)
  {
    (noise(v.x / p.landmassScale, v.z / p.landmassScale) + 1.0) / 2.0
  }

  function Pow(b: real, n: nat): real
  {
    if n == 0 then 1.0 else Pow(b, n - 1) * b
  }

  /** How many times `for (j = 0; j < octaves; j++)` runs. */
  function OctaveCount(octaves: real): (n: nat)
    ensures octaves <= n as real
    ensures n > 0 ==> ((n - 1) as real) < octaves
  {
    if octaves <= 0.0 then 0 else Ceil(octaves)
  }

  /** One octave's contribution `perlinValue * amplitude`: the noise sampled at
      the coordinates scaled by `frequency`, weighted by `amplitude`. */
  function OctaveTerm(x: real, z: real, p: GenerationParams, noise: Noise2, frequency: real, amplitude: real): real
    requires ScalesNonZero(p)
  {
    noise(x / p.mountainScale * frequency, z / p.mountainScale * frequency) * amplitude
  }

  /** The fractal sum over the first n octaves,
      sum_{j < n} noise(x / scale * lacunarity^j, z / scale * lacunarity^j) * persistence^j. */
  function FractalSum(x: real, z: real, p: GenerationParams, noise: Noise2, n: nat): real
    requires ScalesNonZero(p)
  {
    if n == 0 then 0.0
    else FractalSum(x, z, p, noise, n - 1) + OctaveTerm(x, z, p, noise, Pow(p.lacunarity, n - 1), Pow(p.persistence, n - 1))
  }

  /** The octave loop of `generate` as written: amplitude and frequency are
      multiplied in place, and the result is the closed-form fractal sum. */
  method FractalNoise(x: real, z: real, p: GenerationParams, noise: Noise2) returns (noiseHeight: real)
    requires ScalesNonZero(p)
    ensures noiseHeight == FractalSum(x, z, p, noise, OctaveCount(p.mountainOctaves))
  {
    var amplitude := 1.0;
    var frequency := 1.0;
    noiseHeight := 0.0;
    var j: nat := 0;
    while (j as real) < p.mountainOctaves
      invariant j <= OctaveCount(p.mountainOctaves)
      invariant amplitude == Pow(p.persistence, j)
      invariant frequency == Pow(p.lacunarity, j)
      invariant noiseHeight == FractalSum(x, z, p, noise, j)
      decreases OctaveCount(p.mountainOctaves) - j
    {
      noiseHeight := noiseHeight + OctaveTerm(x, z, p, noise, frequency, amplitude);
      amplitude := amplitude * p.persistence;
      frequency := frequency * p.lacunarity;
      j := j + 1;
    }
  }

  /** The height `generate` gives one vertex. */
  function GeneratedHeight(v: Vec3, p: GenerationParams, noise: Noise2): real
    requires ScalesNonZero(p)
  {
    if Landmass(v, p, noise) < p.waterLevel then WaterFloor
    else FractalSum(v.x, v.z, p, noise, OctaveCount(p.mountainOctaves)) * p.mountainHeight
  }

  /** `generate(options)` with the noise instance created for this call. */
  function Generate(grid: seq<Vec3>, p: GenerationParams, noise: Noise2): (r: seq<Vec3>)
    requires ScalesNonZero(p)
    ensures |r| == |grid|
    ensures forall i :: 0 <= i < |r| ==> r[i].x == grid[i].x && r[i].z == grid[i].z
    ensures forall i :: 0 <= i < |r| && Landmass(grid[i], p, noise) < p.waterLevel ==> r[i].y == WaterFloor
    ensures forall i :: 0 <= i < |r| && Landmass(grid[i], p, noise) >= p.waterLevel ==>
      r[i].y == p.mountainHeight * FractalSum(grid[i].x, grid[i].z, p, noise, OctaveCount(p.mountainOctaves))
  {
    seq(|grid|, i requires 0 <= i < |grid| => grid[i].(y := GeneratedHeight(grid[i], p, noise)))
  }

  /** Generation overwrites every height: two grids with the same planar
      coordinates come out identical, whatever was sculpted before. */
  lemma GenerateForgetsHeights(g1: seq<Vec3>, g2: seq<Vec3>, p: GenerationParams, noise: Noise2)
    requires ScalesNonZero(p)
    requires |g1| == |g2|
    requires forall i :: 0 <= i < |g1| ==> g1[i].x == g2[i].x && g1[i].z == g2[i].z
    ensures Generate(g1, p, noise) == Generate(g2, p, noise)
  {
    var r1 := Generate(g1, p, noise);
    var r2 := Generate(g2, p, noise);
    forall i | 0 <= i < |g1|
      ensures r1[i] == r2[i]
    {
      assert Landmass(g1[i], p, noise) == Landmass(g2[i], p, noise);
    }
  }

  /** Water vertices ignore every mountain parameter. */
  lemma WaterIgnoresMountains(grid: seq<Vec3>, p: GenerationParams, q: GenerationParams, noise: Noise2, i: int)
    requires ScalesNonZero(p) && ScalesNonZero(q)
    requires q.landmassScale == p.landmassScale && q.waterLevel == p.waterLevel
    requires 0 <= i < |grid| && Landmass(grid[i], p, noise) < p.waterLevel
    ensures Generate(grid, p, noise)[i] == Generate(grid, q, noise)[i]
  {
    assert Landmass(grid[i], p, noise) == Landmass(grid[i], q, noise);
  }

  /** With the default parameters a noise sample of 0.4 puts the vertex on
      land, and all six octaves contribute. */
  lemma DefaultParamsLandVertex(v: Vec3, noise: Noise2)
    requires noise(v.x / 400.0, v.z / 400.0) == 0.4
    ensures var p := GenerationParams(100.0, 35.0, 6.0, 400.0, 0.25, 0.5, 2.0);
      Landmass(v, p, noise) == 0.7 && Landmass(v, p, noise) >= p.waterLevel && OctaveCount(p.mountainOctaves) == 6
  {
  }

  // ---------------------------------------------------------------------------
  // Sculpting

  /** A sculpt brush: the mode name, a world-space radius and a strength. */
  datatype SculptBrush = SculptBrush(kind: string, size: real, strength: real)

  /** `P.distanceTo(center)`: full 3D distance, height included. */
  function Distance(p: Vec3, q: Vec3, sqrt: real -> real): (d: real)
    requires IsSqrt(sqrt)
    ensures 0.0 <= d
  {
    sqrt(Sq(p.x - q.x) + Sq(p.y - q.y) + Sq(p.z - q.z))
  }

  /** The falloff weight inside the brush. */
  function Falloff(size: real, d: real): (f: real)
    requires 0.0 <= d < size
    ensures 0.0 < f <= 1.0
    ensures d == 0.0 ==> f == 1.0
  {
    var v := (size - d) / size;
    assert d == 0.0 ==> v == 1.0;
    Smoothstep(0.0, 1.0, v)
  }

  /** The `switch (brush.type)` of `sculpt` for one vertex inside the brush. */
  function BrushHeight(y: real, centerY: real, kind: string, strength: real, falloff: real): (h: real)
    requires 0.0 < falloff <= 1.0
    ensures !KnownSculptKind(kind) ==> h == y
    ensures kind == "raise" && 0.0 <= strength ==> y <= h <= y + strength
    ensures kind == "raise" && 0.0 < strength ==> y < h
    ensures kind == "lower" && 0.0 <= strength ==> y - strength <= h <= y
    ensures kind == "lower" && 0.0 < strength ==> h < y
    ensures (kind == "flatten" || kind == "smooth") && 0.0 <= strength <= 1.0 ==>
      Min(y, centerY) <= h <= Max(y, centerY)
  {
    if kind == "raise" then RaisedHeight(y, strength, falloff)
    else if kind == "lower" then LoweredHeight(y, strength, falloff)
    else if kind == "flatten" then PulledHeight(y, centerY, strength, falloff, 0.1)
    else if kind == "smooth" then PulledHeight(y, centerY, strength, falloff, 0.05)
    else y
  }

  /** `raise`: up by falloff * strength. */
  function RaisedHeight(y: real, strength: real, falloff: real): (h: real)
    requires 0.0 < falloff <= 1.0
    ensures 0.0 <= strength ==> y <= h <= y + strength
    ensures 0.0 < strength ==> y < h
  {
    RaiseLowerBounded(y, strength, falloff);
    y + falloff * strength
  }

  /** `lower`: down by falloff * strength. */
  function LoweredHeight(y: real, strength: real, falloff: real): (h: real)
    requires 0.0 < falloff <= 1.0
    ensures 0.0 <= strength ==> y - strength <= h <= y
    ensures 0.0 < strength ==> h < y
  {
    RaiseLowerBounded(y, strength, falloff);
    y - falloff * strength
  }

  /** `flatten` (rate 0.1) and `smooth` (rate 0.05): a lerp toward the
      brush point's height by falloff * strength * rate. */
  function PulledHeight(y: real, centerY: real, strength: real, falloff: real, rate: real): (h: real)
    requires 0.0 < falloff <= 1.0 && 0.0 < rate <= 1.0
    ensures 0.0 <= strength <= 1.0 ==> Min(y, centerY) <= h <= Max(y, centerY)
  {
    PullBounded(y, centerY, strength, falloff, rate);
    Lerp(y, centerY, falloff * strength * rate)
  }

  lemma PullBounded(y: real, c: real, strength: real, f: real, rate: real)
    requires 0.0 < f <= 1.0 && 0.0 < rate <= 1.0
    ensures 0.0 <= strength <= 1.0 ==> Min(y, c) <= Lerp(y, c, f * strength * rate) <= Max(y, c)
  {
    if 0.0 <= strength <= 1.0 {
      RaiseBounded(strength, f);
      ProductBelow(f * strength, rate);
      MulNonneg(f * strength, rate);
      LerpBetween(y, c, f * strength * rate);
    }
  }

  predicate KnownSculptKind(kind: string)
  {
    kind == "raise" || kind == "lower" || kind == "flatten" || kind == "smooth"
  }

  /** One vertex after `sculpt`. */
  function SculptVertex(v: Vec3, center: Vec3, brush: SculptBrush, sqrt: real -> real): (w: Vec3)
    requires IsSqrt(sqrt)
    ensures w.x == v.x && w.z == v.z
    ensures Distance(v, center, sqrt) >= brush.size ==> w == v
    ensures !KnownSculptKind(brush.kind) ==> w == v
    // raise: the height grows by falloff * strength, at most strength
    ensures brush.kind == "raise" && 0.0 <= brush.strength ==>
      v.y <= w.y <= v.y + brush.strength
    ensures brush.kind == "raise" && 0.0 < brush.strength && Distance(v, center, sqrt) < brush.size ==>
      v.y < w.y
    // lower is the mirror image
    ensures brush.kind == "lower" && 0.0 <= brush.strength ==>
      v.y - brush.strength <= w.y <= v.y
    ensures brush.kind == "lower" && 0.0 < brush.strength && Distance(v, center, sqrt) < brush.size ==>
      w.y < v.y
    // flatten and smooth pull toward the brush point's height without overshooting
    ensures (brush.kind == "flatten" || brush.kind == "smooth") && 0.0 <= brush.strength <= 1.0 ==>
      Min(v.y, center.y) <= w.y <= Max(v.y, center.y)
  {
    var d := Distance(v, center, sqrt);
    if d < brush.size then
      v.(y := BrushHeight(v.y, center.y, brush.kind, brush.strength, Falloff(brush.size, d)))
    else v
  }

  lemma RaiseBounded(strength: real, f: real)
    requires 0.0 < f <= 1.0
    ensures 0.0 <= strength ==> 0.0 <= f * strength <= strength
    ensures 0.0 < strength ==> 0.0 < f * strength
  {
    if 0.0 <= strength {
      MulNonneg(f, strength);
      MulMono(f, 1.0, strength);
    }
    if 0.0 < strength {
      MulPos(f, strength);
    }
  }

  /** The raise and lower steps, stated on the heights themselves. */
  lemma RaiseLowerBounded(y: real, strength: real, f: real)
    requires 0.0 < f <= 1.0
    ensures 0.0 <= strength ==> y <= y + f * strength <= y + strength
    ensures 0.0 <= strength ==> y - strength <= y - f * strength <= y
    ensures 0.0 < strength ==> y < y + f * strength && y - f * strength < y
  {
    RaiseBounded(strength, f);
    var w := f * strength;
    assert 0.0 <= strength ==> 0.0 <= w <= strength;
  }

  /** `sculpt(intersectionPoint, brush)` over the whole grid. */
  function Sculpt(grid: seq<Vec3>, center: Vec3, brush: SculptBrush, sqrt: real -> real): (r: seq<Vec3>)
    requires IsSqrt(sqrt)
    ensures |r| == |grid|
    ensures forall i :: 0 <= i < |r| ==> r[i].x == grid[i].x && r[i].z == grid[i].z
    ensures forall i :: 0 <= i < |r| && Distance(grid[i], center, sqrt) >= brush.size ==> r[i] == grid[i]
  {
    seq(|grid|, i requires 0 <= i < |grid| => SculptVertex(grid[i], center, brush, sqrt))
  }

  /** A raise of strength 0.5 with radius 10 lifts a vertex at distance 5 by 0.25. */
  lemma RaiseHalfway(v: Vec3, center: Vec3, sqrt: real -> real)
    requires IsSqrt(sqrt) && Distance(v, center, sqrt) == 5.0
    ensures SculptVertex(v, center, SculptBrush("raise", 10.0, 0.5), sqrt).y == v.y + 0.25
  {
    assert Falloff(10.0, 5.0) == 0.5 by { SmoothstepMidpoint(); }
  }

  // ---------------------------------------------------------------------------
  // Painting

  /** A paint brush: material name, target colour, pixel-space radius, strength. */
  datatype PaintBrush = PaintBrush(kind: string, color: Rgb, size: real, strength: real)

  datatype Uv = Uv(u: real, v: real)

  /** The clipped pixel box `[startX, endX) x [startY, endY)` around the brush centre. */
  datatype Box = Box(startX: int, startY: int, endX: int, endY: int)

  /** A texture coordinate in [0, 1] scaled to a pixel coordinate. */
  function Scale(u: real, n: nat): real { u * n as real }

  function CenterX(ras: Raster, uv: Uv): real { Scale(uv.u, ras.width) }

  function CenterY(ras: Raster, uv: Uv): real { Scale(1.0 - uv.v, ras.height) }

  function PaintBox(ras: Raster, uv: Uv, size: real): Box
  {
    var cx := CenterX(ras, uv);
    var cy := CenterY(ras, uv);
    Box(Floor(Max(0.0, cx - size)), Floor(Max(0.0, cy - size)),
        Ceil(Min(ras.width as real, cx + size)), Ceil(Min(ras.height as real, cy + size)))
  }

  predicate InUnitSquare(uv: Uv)
  {
    0.0 <= uv.u <= 1.0 && 0.0 <= uv.v <= 1.0
  }

  /** For a uv on the mesh and a non-negative radius the box lies inside the raster. */
  lemma PaintBoxInside(ras: Raster, uv: Uv, size: real)
    requires InUnitSquare(uv) && 0.0 <= size
    ensures var b := PaintBox(ras, uv, size);
      0 <= b.startX <= b.endX <= ras.width && 0 <= b.startY <= b.endY <= ras.height
  {
    var cx := CenterX(ras, uv);
    var cy := CenterY(ras, uv);
    UnitScale(uv.u, ras.width);
    UnitScale(1.0 - uv.v, ras.height);
    assert 0.0 <= cx <= ras.width as real;
    assert 0.0 <= cy <= ras.height as real;
    BoxSpan(cx, size, ras.width);
    BoxSpan(cy, size, ras.height);
  }

  lemma UnitScale(u: real, n: nat)
    requires 0.0 <= u <= 1.0
    ensures 0.0 <= Scale(u, n) <= n as real
  {
    MulNonneg(u, n as real);
    MulMono(u, 1.0, n as real);
  }

  /** One axis of the clipped box around a centre inside `[0, n]`. */
  lemma BoxSpan(c: real, size: real, n: nat)
    requires 0.0 <= c <= n as real && 0.0 <= size
    ensures 0 <= Floor(Max(0.0, c - size)) <= Ceil(Min(n as real, c + size)) <= n
  {
    FloorLeCeil(Max(0.0, c - size), Min(n as real, c + size));
  }

  /** Distance from pixel (x, y) to the brush centre. */
  function PixelDistance(x: int, y: int, cx: real, cy: real, sqrt: real -> real): (d: real)
    requires IsSqrt(sqrt)
    ensures 0.0 <= d
  {
    sqrt(Sq(x as real - cx) + Sq(y as real - cy))
  }

  /** `c + (target - c) * strength` for one channel. */
  function BlendChannel(c: real, target: real, s: real): real { c + (target - c) * s }

  function BlendPixel(p: Rgb, target: Rgb, s: real): Rgb
  {
    Rgb(BlendChannel(p.r, target.r, s), BlendChannel(p.g, target.g, s), BlendChannel(p.b, target.b, s))
  }

  /** For a weight in [0, 1] a blended channel lies between the old value and
      the target, and never moves away from the target; a positive weight
      strictly closes a non-zero gap. */
  lemma BlendChannelApproaches(c: real, target: real, s: real)
    requires 0.0 <= s <= 1.0
    ensures Min(c, target) <= BlendChannel(c, target, s) <= Max(c, target)
    ensures BlendChannel(c, target, s) - target == (c - target) * (1.0 - s)
    ensures 0.0 < s && c != target ==>
      (if c < target then c < BlendChannel(c, target, s) else BlendChannel(c, target, s) < c)
  {
    LerpBetween(c, target, s);
    assert BlendChannel(c, target, s) == Lerp(c, target, s);
    var bl := BlendChannel(c, target, s);
    assert bl == c + (target - c) * s;
    if 0.0 < s && c < target {
      MulPos(target - c, s);
      assert c < bl;
    }
    if 0.0 < s && c > target {
      MulPos(c - target, s);
      assert (target - c) * s == -((c - target) * s);
      assert bl < c;
    }
  }

  /** The value a pixel `p` at column `x`, row `y` has after one `paint` at `uv`:
      blended when it is inside the clipped box and closer than the radius. */
  function PaintedAt(ras: Raster, p: Rgb, x: int, y: int, uv: Uv, brush: PaintBrush, sqrt: real -> real): Rgb
    requires IsSqrt(sqrt)
  {
    var b := PaintBox(ras, uv, brush.size);
    var d := PixelDistance(x, y, CenterX(ras, uv), CenterY(ras, uv), sqrt);
    if b.startX <= x < b.endX && b.startY <= y < b.endY && d < brush.size then
      BlendPixel(p, brush.color, PaintWeight(brush.size, d, brush.strength))
    else p
  }

  /** `strength = falloff * brushStrength` for a pixel at distance d inside the brush. */
  function PaintWeight(size: real, d: real, brushStrength: real): (w: real)
    requires 0.0 <= d < size
    ensures 0.0 <= brushStrength <= 1.0 ==> 0.0 <= w <= 1.0
    ensures 0.0 < brushStrength ==> 0.0 < w
    ensures d == 0.0 ==> w == brushStrength
  {
    var f := Falloff(size, d);
    RaiseBounded(brushStrength, f);
    f * brushStrength
  }

  /** Pixel `i` of the raster after one `paint` at `uv`. */
  function PaintedPixel(ras: Raster, i: nat, uv: Uv, brush: PaintBrush, sqrt: real -> real): Rgb
    requires IsSqrt(sqrt) && RasterShaped(ras) && i < |ras.pixels|
  {
    PaintedAt(ras, ras.pixels[i], i % ras.width, i / ras.width, uv, brush, sqrt)
  }

  /** `paint(intersection, brush)`: without a uv nothing happens; otherwise each
      pixel of the clipped box closer than the radius is blended toward the
      brush colour with weight `smoothstep(falloff) * strength`. */
  function Paint(ras: Raster, uv: Option<Uv>, brush: PaintBrush, sqrt: real -> real): (r: Raster)
    requires IsSqrt(sqrt) && RasterShaped(ras)
    ensures r.width == ras.width && r.height == ras.height && RasterShaped(r)
    ensures uv.None? ==> r == ras
    ensures uv.Some? ==> forall i :: 0 <= i < |r.pixels| ==>
      (PixelDistance(i % ras.width, i / ras.width, CenterX(ras, uv.value), CenterY(ras, uv.value), sqrt) >= brush.size ==>
       r.pixels[i] == ras.pixels[i])
  {
    match uv
    case None => ras
    case Some(p) =>
      ras.(pixels := seq(|ras.pixels|, i requires 0 <= i < |ras.pixels| => PaintedPixel(ras, i, p, brush, sqrt)))
  }

  /** The clipping box never drops a pixel the brush reaches: for a pixel of
      the raster, being closer than the radius already puts it in the box. */
  lemma BoxCoversBrush(ras: Raster, uv: Uv, size: real, x: int, y: int, sqrt: real -> real)
    requires IsSqrt(sqrt)
    requires 0 <= x < ras.width && 0 <= y < ras.height
    requires PixelDistance(x, y, CenterX(ras, uv), CenterY(ras, uv), sqrt) < size
    ensures var b := PaintBox(ras, uv, size);
      b.startX <= x < b.endX && b.startY <= y < b.endY
  {
    var cx := CenterX(ras, uv);
    var cy := CenterY(ras, uv);
    var dx := x as real - cx;
    var dy := y as real - cy;
    SqrtDominates(sqrt, dx, Sq(dy));
    assert Sq(dy) + Sq(dx) == Sq(dx) + Sq(dy);
    SqrtDominates(sqrt, dy, Sq(dx));
    assert cx - size < x as real < cx + size;
    assert cy - size < y as real < cy + size;
  }

  /** Pixel `i` of a shaped raster sits at column `i % width`, row `i / width`, inside the raster. */
  lemma PixelCoordinates(ras: Raster, i: nat)
    requires RasterShaped(ras) && i < |ras.pixels|
    ensures 0 < ras.width && i % ras.width < ras.width && i / ras.width < ras.height
  {
    var w := ras.width;
    assert 0 < w;
    assert w * (i / w) <= i < w * ras.height;
    MulCancelLess(w, i / w, ras.height);
  }

  /** For a pixel inside the raster the box test adds nothing to the
      distance test. */
  lemma PaintedAtIsDistanceFilter(ras: Raster, p: Rgb, x: int, y: int, uv: Uv, brush: PaintBrush, sqrt: real -> real)
    requires IsSqrt(sqrt) && 0 <= x < ras.width && 0 <= y < ras.height
    ensures var d := PixelDistance(x, y, CenterX(ras, uv), CenterY(ras, uv), sqrt);
      PaintedAt(ras, p, x, y, uv, brush, sqrt) ==
        if d < brush.size then BlendPixel(p, brush.color, PaintWeight(brush.size, d, brush.strength))
        else p
  {
    var d := PixelDistance(x, y, CenterX(ras, uv), CenterY(ras, uv), sqrt);
    if d < brush.size {
      BoxCoversBrush(ras, uv, brush.size, x, y, sqrt);
    }
  }

  /** For one pixel: the box test adds nothing to the distance test. */
  lemma PaintedPixelIsDistanceFilter(ras: Raster, uv: Uv, brush: PaintBrush, sqrt: real -> real, i: nat)
    requires IsSqrt(sqrt) && RasterShaped(ras) && i < |ras.pixels|
    ensures var d := PixelDistance(i % ras.width, i / ras.width, CenterX(ras, uv), CenterY(ras, uv), sqrt);
      PaintedPixel(ras, i, uv, brush, sqrt) ==
        if d < brush.size then BlendPixel(ras.pixels[i], brush.color, PaintWeight(brush.size, d, brush.strength))
        else ras.pixels[i]
  {
    PixelCoordinates(ras, i);
    PaintedAtIsDistanceFilter(ras, ras.pixels[i], i % ras.width, i / ras.width, uv, brush, sqrt);
  }

  /** Painting is the full-raster rule "blend every pixel closer than the
      radius": the clipping box is only an optimisation. */
  lemma PaintIsDistanceFilter(ras: Raster, uv: Uv, brush: PaintBrush, sqrt: real -> real, i: nat)
    requires IsSqrt(sqrt) && RasterShaped(ras) && i < |ras.pixels|
    ensures var d := PixelDistance(i % ras.width, i / ras.width, CenterX(ras, uv), CenterY(ras, uv), sqrt);
      Paint(ras, Some(uv), brush, sqrt).pixels[i] ==
        if d < brush.size then BlendPixel(ras.pixels[i], brush.color, PaintWeight(brush.size, d, brush.strength))
        else ras.pixels[i]
  {
    assert Paint(ras, Some(uv), brush, sqrt).pixels[i] == PaintedPixel(ras, i, uv, brush, sqrt);
    PaintedPixelIsDistanceFilter(ras, uv, brush, sqrt, i);
  }

  ghost predicate ChannelsInRange(p: Rgb)
  {
    0.0 <= p.r <= 255.0 && 0.0 <= p.g <= 255.0 && 0.0 <= p.b <= 255.0
  }

  /** Each channel of `q` lies between the same channel of `p` and of `t`. */
  ghost predicate PixelBetween(p: Rgb, t: Rgb, q: Rgb)
  {
    && Min(p.r, t.r) <= q.r <= Max(p.r, t.r)
    && Min(p.g, t.g) <= q.g <= Max(p.g, t.g)
    && Min(p.b, t.b) <= q.b <= Max(p.b, t.b)
  }

  lemma BlendPixelBetween(p: Rgb, t: Rgb, s: real)
    requires 0.0 <= s <= 1.0
    ensures PixelBetween(p, t, BlendPixel(p, t, s))
  {
    BlendChannelApproaches(p.r, t.r, s);
    BlendChannelApproaches(p.g, t.g, s);
    BlendChannelApproaches(p.b, t.b, s);
  }

  lemma BetweenKeepsRange(p: Rgb, t: Rgb, q: Rgb)
    requires PixelBetween(p, t, q) && ChannelsInRange(p) && ChannelsInRange(t)
    ensures ChannelsInRange(q)
  {
  }

  lemma PaintedAtBetween(ras: Raster, p: Rgb, x: int, y: int, uv: Uv, brush: PaintBrush, sqrt: real -> real)
    requires IsSqrt(sqrt) && 0.0 <= brush.strength <= 1.0
    ensures PixelBetween(p, brush.color, PaintedAt(ras, p, x, y, uv, brush, sqrt))
  {
    var d := PixelDistance(x, y, CenterX(ras, uv), CenterY(ras, uv), sqrt);
    if d < brush.size {
      BlendPixelBetween(p, brush.color, PaintWeight(brush.size, d, brush.strength));
    }
  }

  /** Every painted channel lies between its old value and the brush colour,
      so a raster of channels in [0, 255] stays in range. */
  lemma PaintStaysBetween(ras: Raster, uv: Uv, brush: PaintBrush, sqrt: real -> real, i: nat)
    requires IsSqrt(sqrt) && RasterShaped(ras) && i < |ras.pixels|
    requires 0.0 <= brush.strength <= 1.0
    ensures PixelBetween(ras.pixels[i], brush.color, Paint(ras, Some(uv), brush, sqrt).pixels[i])
    ensures ChannelsInRange(ras.pixels[i]) && ChannelsInRange(brush.color) ==>
      ChannelsInRange(Paint(ras, Some(uv), brush, sqrt).pixels[i])
  {
    var q := Paint(ras, Some(uv), brush, sqrt).pixels[i];
    assert q == PaintedPixel(ras, i, uv, brush, sqrt);
    PaintedAtBetween(ras, ras.pixels[i], i % ras.width, i / ras.width, uv, brush, sqrt);
    if ChannelsInRange(ras.pixels[i]) && ChannelsInRange(brush.color) {
      BetweenKeepsRange(ras.pixels[i], brush.color, q);
    }
  }

  /** At the brush centre the falloff is 1, so the weight is the brush strength. */
  lemma CentreWeight(size: real, strength: real)
    requires 0.0 < size
    ensures PaintWeight(size, 0.0, strength) == strength
  {
  }

  /** The default rock brush at the middle of a 512 x 512 raster blends the
      centre pixel with the full strength 0.1. */
  lemma PaintedAtCentre(ras: Raster, p: Rgb, sqrt: real -> real)
    requires IsSqrt(sqrt) && ras.width == 512 && ras.height == 512
    ensures PaintedAt(ras, p, 256, 256, Uv(0.5, 0.5), PaintBrush("rock", Rgb(255.0, 0.0, 0.0), 15.0, 0.1), sqrt) ==
      BlendPixel(p, Rgb(255.0, 0.0, 0.0), 0.1)
  {
    var uv := Uv(0.5, 0.5);
    assert CenterX(ras, uv) == 256.0 && CenterY(ras, uv) == 256.0;
    SqrtZero(sqrt);
    assert PixelDistance(256, 256, 256.0, 256.0, sqrt) == 0.0 by {
      assert Sq(256 as real - 256.0) + Sq(256 as real - 256.0) == 0.0;
    }
    assert PaintBox(ras, uv, 15.0) == Box(241, 241, 271, 271);
    CentreWeight(15.0, 0.1);
  }

  /** Painting rock at the middle of a 512 x 512 raster moves the centre
      pixel's red channel a tenth of the way to 255. */
  lemma PaintCentrePixel(ras: Raster, sqrt: real -> real)
    requires IsSqrt(sqrt) && RasterShaped(ras)
    requires ras.width == 512 && ras.height == 512
    ensures var i := 256 * 512 + 256;
      Paint(ras, Some(Uv(0.5, 0.5)), PaintBrush("rock", Rgb(255.0, 0.0, 0.0), 15.0, 0.1), sqrt).pixels[i].r ==
        ras.pixels[i].r + (255.0 - ras.pixels[i].r) * 0.1
  {
    var i := 256 * 512 + 256;
    var brush := PaintBrush("rock", Rgb(255.0, 0.0, 0.0), 15.0, 0.1);
    assert i % 512 == 256 && i / 512 == 256;
    assert Paint(ras, Some(Uv(0.5, 0.5)), brush, sqrt).pixels[i] == PaintedPixel(ras, i, Uv(0.5, 0.5), brush, sqrt);
    PaintedAtCentre(ras, ras.pixels[i], sqrt);
  }
}
