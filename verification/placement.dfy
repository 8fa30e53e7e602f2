/** The foliage scatterers of the editor: one pass over the terrain vertices
    in order, placing an instance at each vertex that passes a height, slope
    and (for trees) noise-mask filter, up to a fixed instance budget.
    `Math.random()` is an oracle `random(k)`: the k-th value drawn. */
module Placement {
  import opened Common
  import opened Terrain

  const TreeBudget: nat := 20000
  const GrassBudget: nat := 75000

  /** One tree: position, per-axis scale, and the drawn fraction of a full
      turn about Y (the rotation is that fraction times 2 pi). */
  datatype Tree = Tree(position: Vec3, scale: Vec3, turn: real)

  /** One grass blade: position, uniform scale, fraction of a full turn. */
  datatype Blade = Blade(position: Vec3, scale: real, turn: real)

  type Random = nat -> real

  /** At most the first `n` elements. */
  function Take<T>(s: seq<T>, n: nat): (r: seq<T>)
    ensures |r| <= n && |r| <= |s|
    ensures |s| <= n ==> r == s
    ensures |s| > n ==> |r| == n && r == s[..n]
  {
    if |s| <= n then s else s[..n]
  }

  predicate StrictlyIncreasing(s: seq<nat>)
  {
    forall a, b :: 0 <= a < b < |s| ==> s[a] < s[b]
  }

  // ---------------------------------------------------------------------------
  // Trees

  /** Height in [1, 25] and a normal whose Y component is at least `minNormalY`. */
  predicate OnPlantableGround(v: Vec3, normalY: real, minNormalY: real)
  {
    !(v.y < 1.0 || v.y > 25.0 || normalY < minNormalY)
  }

  /** The tree mask `(noise(x / 50, z / 50) + 1) / 2`. */
  function TreeMask(v: Vec3, noise: Noise2): real
  {
    (noise(v.x / 50.0, v.z / 50.0) + 1.0) / 2.0
  }

  predicate TreeSite(v: Vec3, normalY: real, noise: Noise2)
  {
    OnPlantableGround(v, normalY, 0.8) && TreeMask(v, noise) >= 0.6
  }

  /** Reference definition: the indices below `n` of every vertex a tree may
      stand on, in vertex order, with no budget. */
  function TreeSitesBelow(grid: seq<Vec3>, normals: seq<real>, noise: Noise2, n: nat): (r: seq<nat>)
    requires n <= |grid| == |normals|
    ensures forall k :: 0 <= k < |r| ==> r[k] < n && TreeSite(grid[r[k]], normals[r[k]], noise)
  {
    if n == 0 then []
    else
      var r := TreeSitesBelow(grid, normals, noise, n - 1);
      if TreeSite(grid[n - 1], normals[n - 1], noise) then r + [n - 1] else r
  }

  /** The reference filter misses no site. */
  lemma {:induction false} TreeSitesComplete(grid: seq<Vec3>, normals: seq<real>, noise: Noise2, n: nat, j: nat)
    requires n <= |grid| == |normals|
    requires j < n && TreeSite(grid[j], normals[j], noise)
    ensures j in TreeSitesBelow(grid, normals, noise, n)
  {
    if j < n - 1 {
      TreeSitesComplete(grid, normals, noise, n - 1, j);
    }
  }

  /** A shorter scan yields a prefix of a longer one. */
  lemma {:induction false} TreeSitesPrefix(grid: seq<Vec3>, normals: seq<real>, noise: Noise2, m: nat, n: nat)
    requires m <= n <= |grid| == |normals|
    ensures var a := TreeSitesBelow(grid, normals, noise, m);
      var b := TreeSitesBelow(grid, normals, noise, n);
      |a| <= |b| && b[..|a|] == a
    decreases n - m
  {
    if m < n {
      TreeSitesPrefix(grid, normals, noise, m, n - 1);
      var a := TreeSitesBelow(grid, normals, noise, m);
      var b1 := TreeSitesBelow(grid, normals, noise, n - 1);
      var b := TreeSitesBelow(grid, normals, noise, n);
      assert b[..|b1|] == b1;
      assert b[..|a|] == b1[..|a|];
    }
  }

  /** The `k`-th tree placed, at vertex `v`: draws 4k, 4k+1, 4k+2 scale it
      by `1 + r * 0.5`, `1 + r * 1.0`, `1 + r * 0.5`, and draw 4k+3 turns it. */
  function PlacedTree(v: Vec3, random: Random, k: nat): Tree
  {
    var d := 4 * k;
    Tree(v, Vec3(1.0 + random(d) * 0.5, 1.0 + random(d + 1) * 1.0, 1.0 + random(d + 2) * 0.5), random(d + 3))
  }

  /** `createVegetation`: every tree sits on one of the first `TreeBudget`
      sites of the reference filter, in order, and uses four draws
      (scale x, y, z, then rotation). */
  method CreateVegetation(grid: seq<Vec3>, normals: seq<real>, noise: Noise2, random: Random)
    returns (trees: seq<Tree>, sites: seq<nat>)
    requires |grid| == |normals|
    ensures sites == Take(TreeSitesBelow(grid, normals, noise, |grid|), TreeBudget)
    ensures |trees| == |sites| <= TreeBudget
    ensures forall k :: 0 <= k < |trees| ==> trees[k] == PlacedTree(grid[sites[k]], random, k)
  {
    trees, sites := [], [];
    var count := 0;
    var i := 0;
    while i < |grid|
      invariant 0 <= i <= |grid|
      invariant count == |trees| == |sites| <= TreeBudget
      invariant sites == TreeSitesBelow(grid, normals, noise, i)
      invariant forall k :: 0 <= k < |trees| ==> trees[k] == PlacedTree(grid[sites[k]], random, k)
    {
      if count >= TreeBudget {
        break;
      }
      var v := grid[i];
      if OnPlantableGround(v, normals[i], 0.8) && TreeMask(v, noise) >= 0.6 {
        trees := trees + [PlacedTree(v, random, count)];
        sites := sites + [i];
        count := count + 1;
      }
      i := i + 1;
    }
    VegetationScanComplete(grid, normals, noise, i, sites);
  }

  /** A scan that stopped at the end of the grid or with the budget spent has
      found exactly the budgeted prefix of the reference sites. */
  lemma VegetationScanComplete(grid: seq<Vec3>, normals: seq<real>, noise: Noise2, i: nat, sites: seq<nat>)
    requires i <= |grid| == |normals|
    requires sites == TreeSitesBelow(grid, normals, noise, i)
    requires |sites| <= TreeBudget && (i == |grid| || |sites| == TreeBudget)
    ensures sites == Take(TreeSitesBelow(grid, normals, noise, |grid|), TreeBudget)
  {
    TreeSitesPrefix(grid, normals, noise, i, |grid|);
    var all := TreeSitesBelow(grid, normals, noise, |grid|);
    if i < |grid| && |all| > TreeBudget {
      assert all[..TreeBudget] == all[..|sites|];
    }
  }

  /** On a grid with every height below 1 no vertex is a tree site. */
  lemma {:induction false} LowGroundHasNoTreeSites(grid: seq<Vec3>, normals: seq<real>, noise: Noise2, n: nat)
    requires n <= |grid| == |normals|
    requires forall i :: 0 <= i < |grid| ==> grid[i].y < 1.0
    ensures TreeSitesBelow(grid, normals, noise, n) == []
  {
    if n > 0 {
      LowGroundHasNoTreeSites(grid, normals, noise, n - 1);
    }
  }

  /** With draws in [0, 1) a tree is scaled by [1, 1.5) across and [1, 2) up. */
  lemma TreeScaleBounds(v: Vec3, random: Random, k: nat)
    requires forall j :: 0.0 <= random(j) < 1.0
    ensures var s := PlacedTree(v, random, k).scale;
      1.0 <= s.x < 1.5 && 1.0 <= s.y < 2.0 && 1.0 <= s.z < 1.5
  {
    var d := 4 * k;
    assert 0.0 <= random(d) < 1.0 && 0.0 <= random(d + 1) < 1.0 && 0.0 <= random(d + 2) < 1.0;
  }

  // ---------------------------------------------------------------------------
  // Grass

  /** The state of the grass loop after the vertices below some index: the
      sites kept so far, the draw each kept blade's scale uses (its rotation
      uses the next one), and the number of draws consumed. */
  datatype GrassScan = GrassScan(sites: seq<nat>, starts: seq<nat>, draws: nat)

  /** Reference definition of the grass loop without a budget: a vertex on
      grass ground costs one draw and is kept unless that draw exceeds 0.1;
      a kept vertex costs two more draws for its blade. */
  function GrassScanBelow(grid: seq<Vec3>, normals: seq<real>, random: Random, n: nat): (g: GrassScan)
    requires n <= |grid| == |normals|
    ensures |g.starts| == |g.sites|
    ensures StrictlyIncreasing(g.sites)
    ensures forall k :: 0 <= k < |g.sites| ==> g.sites[k] < n && OnPlantableGround(grid[g.sites[k]], normals[g.sites[k]], 0.9)
    ensures forall k :: 0 <= k < |g.starts| ==> g.starts[k] + 2 <= g.draws
  {
    if n == 0 then GrassScan([], [], 0)
    else
      var g := GrassScanBelow(grid, normals, random, n - 1);
      if !OnPlantableGround(grid[n - 1], normals[n - 1], 0.9) then g
      else if random(g.draws) > 0.1 then g.(draws := g.draws + 1)
      else GrassScan(g.sites + [n - 1], g.starts + [g.draws + 1], g.draws + 3)
  }

  /** A shorter scan's sites and draw positions are prefixes of a longer one's. */
  lemma {:induction false} GrassScanPrefix(grid: seq<Vec3>, normals: seq<real>, random: Random, m: nat, n: nat)
    requires m <= n <= |grid| == |normals|
    ensures var a := GrassScanBelow(grid, normals, random, m);
      var b := GrassScanBelow(grid, normals, random, n);
      |a.sites| <= |b.sites| && b.sites[..|a.sites|] == a.sites && b.starts[..|a.starts|] == a.starts
    decreases n - m
  {
    if m < n {
      GrassScanPrefix(grid, normals, random, m, n - 1);
      var a := GrassScanBelow(grid, normals, random, m);
      var b1 := GrassScanBelow(grid, normals, random, n - 1);
      var b := GrassScanBelow(grid, normals, random, n);
      assert b.sites[..|b1.sites|] == b1.sites && b.starts[..|b1.starts|] == b1.starts;
      assert b.sites[..|a.sites|] == b1.sites[..|a.sites|];
      assert b.starts[..|a.starts|] == b1.starts[..|a.starts|];
    }
  }

  /** Reference definition: the indices below `n` of every vertex grass may
      grow on, before the random thinning. */
  function GrassGroundBelow(grid: seq<Vec3>, normals: seq<real>, n: nat): (r: seq<nat>)
    requires n <= |grid| == |normals|
    ensures forall k :: 0 <= k < |r| ==> r[k] < n && OnPlantableGround(grid[r[k]], normals[r[k]], 0.9)
  {
    if n == 0 then []
    else
      var r := GrassGroundBelow(grid, normals, n - 1);
      if OnPlantableGround(grid[n - 1], normals[n - 1], 0.9) then r + [n - 1] else r
  }

  /** The grass loop's draw accounting: each ground vertex costs one
      thinning draw, each kept blade two more, and each blade's two draws
      come before the next blade's. */
  lemma {:induction false} GrassDrawAccounting(grid: seq<Vec3>, normals: seq<real>, random: Random, n: nat)
    requires n <= |grid| == |normals|
    ensures var g := GrassScanBelow(grid, normals, random, n);
      && g.draws == |GrassGroundBelow(grid, normals, n)| + 2 * |g.sites|
      && forall k :: 0 <= k && k + 1 < |g.starts| ==> g.starts[k] + 3 <= g.starts[k + 1]
  {
    if n > 0 {
      GrassDrawAccounting(grid, normals, random, n - 1);
    }
  }

  /** When no draw exceeds 0.1 the thinning keeps every ground vertex. */
  lemma {:induction false} NoThinningKeepsAllGround(grid: seq<Vec3>, normals: seq<real>, random: Random, n: nat)
    requires n <= |grid| == |normals|
    requires forall k :: random(k) <= 0.1
    ensures GrassScanBelow(grid, normals, random, n).sites == GrassGroundBelow(grid, normals, n)
  {
    if n > 0 {
      NoThinningKeepsAllGround(grid, normals, random, n - 1);
    }
  }

  /** When every draw exceeds 0.1 the thinning keeps nothing. */
  lemma {:induction false} FullThinningKeepsNothing(grid: seq<Vec3>, normals: seq<real>, random: Random, n: nat)
    requires n <= |grid| == |normals|
    requires forall k :: random(k) > 0.1
    ensures GrassScanBelow(grid, normals, random, n).sites == []
  {
    if n > 0 {
      FullThinningKeepsNothing(grid, normals, random, n - 1);
    }
  }

  /** A blade at `v` whose two draws start at `d`: scale `0.5 + r * 0.5`,
      then the fraction of a full turn. */
  function PlacedBlade(v: Vec3, random: Random, d: nat): Blade
  {
    Blade(v, 0.5 + random(d) * 0.5, random(d + 1))
  }

  /** `createGrass`: the kept sites are the first `GrassBudget` of the
      reference scan, and each blade is placed with the draws the scan
      assigns it. */
  method CreateGrass(grid: seq<Vec3>, normals: seq<real>, random: Random)
    returns (blades: seq<Blade>, sites: seq<nat>)
    requires |grid| == |normals|
    ensures var full := GrassScanBelow(grid, normals, random, |grid|);
      && sites == Take(full.sites, GrassBudget)
      && |blades| == |sites|
      && forall k :: 0 <= k < |blades| ==> blades[k] == PlacedBlade(grid[sites[k]], random, full.starts[k])
    ensures forall k :: 0 <= k < |sites| ==>
      sites[k] < |grid| && OnPlantableGround(grid[sites[k]], normals[sites[k]], 0.9)
  {
    blades, sites := [], [];
    var count := 0;
    var draws: nat := 0;
    var i := 0;
    ghost var starts: seq<nat> := [];
    while i < |grid|
      invariant 0 <= i <= |grid|
      invariant GrassScanBelow(grid, normals, random, i) == GrassScan(sites, starts, draws)
      invariant count == |blades| == |sites| <= GrassBudget
      invariant forall k :: 0 <= k < |blades| ==> blades[k] == PlacedBlade(grid[sites[k]], random, starts[k])
    {
      if count >= GrassBudget {
        break;
      }
      var v := grid[i];
      if OnPlantableGround(v, normals[i], 0.9) {
        var r := random(draws);
        if !(r > 0.1) {
          blades := blades + [PlacedBlade(v, random, draws + 1)];
          sites := sites + [i];
          starts := starts + [draws + 1];
          draws := draws + 3;
          count := count + 1;
        } else {
          draws := draws + 1;
        }
      }
      i := i + 1;
    }
    GrassScanComplete(grid, normals, random, i);
  }

  /** A scan that stopped at the end of the grid or with the budget spent has
      found the budgeted prefix of the full scan. */
  lemma GrassScanComplete(grid: seq<Vec3>, normals: seq<real>, random: Random, i: nat)
    requires i <= |grid| == |normals|
    requires var g := GrassScanBelow(grid, normals, random, i);
      |g.sites| <= GrassBudget && (i == |grid| || |g.sites| == GrassBudget)
    ensures var g := GrassScanBelow(grid, normals, random, i);
      var full := GrassScanBelow(grid, normals, random, |grid|);
      g.sites == Take(full.sites, GrassBudget) && g.starts == full.starts[..|g.starts|]
  {
    GrassScanPrefix(grid, normals, random, i, |grid|);
    var g := GrassScanBelow(grid, normals, random, i);
    var full := GrassScanBelow(grid, normals, random, |grid|);
    if i < |grid| && |full.sites| > GrassBudget {
      assert full.sites[..GrassBudget] == full.sites[..|g.sites|];
    }
  }

  /** With draws in [0, 1) a blade is scaled by [0.5, 1). */
  lemma BladeScaleBounds(v: Vec3, random: Random, d: nat)
    requires forall j :: 0.0 <= random(j) < 1.0
    ensures 0.5 <= PlacedBlade(v, random, d).scale < 1.0
  {
    assert 0.0 <= random(d) < 1.0;
  }
}
