/**
 * Voronoi fracture and the destructible cube (engine/physics/fracture.py).
 *
 * scipy's 2-D Voronoi tessellation is the parameter `tessellate`, and every
 * `np.random.uniform` draw is an element of a sequence handed in by the
 * caller; both are collected in `FractureDraws`.
 */
module Fracture {
  import opened Vectors

  /** A point of the XZ plane, `[p[0], p[2]]`. */
  datatype Point2 = Point2(x: real, z: real)

  /** scipy's `Voronoi` result: regions as vertex indices (-1 for a vertex at infinity), and the vertices. */
  datatype Voronoi = Voronoi(regions: seq<seq<int>>, vertices: seq<Point2>)

  /** One cell extruded to the object's height: the source's `{'position', 'size', 'volume'}` dictionary. */
  datatype Piece = Piece(position: Vec3, size: Vec3, volume: real)

  /** A broken-off piece: its transform's position, its size and its physics body's fields. */
  datatype Fragment = Fragment(position: Vec3, size: Vec3, mass: real, isStatic: bool, velocity: Vec3)

  /**
   * The random draws one fracture consumes: the five seed offsets (in units
   * of the object's size), the tessellation, and per piece a break-off
   * factor and an initial velocity.
   */
  datatype FractureDraws = FractureDraws(seedOffsets: seq<Vec3>, tessellate: seq<Point2> -> Voronoi,
                                         factors: seq<real>, kicks: seq<Vec3>)

  // ---------------------------------------------------------------------
  // Seeds

  /** `start` followed by `center + offset * size` for each offset, appended in order. */
  function Scatter(center: Vec3, size: Vec3, start: seq<Vec3>, offsets: seq<Vec3>): (r: seq<Vec3>)
    ensures |r| == |start| + |offsets|
    ensures r[..|start|] == start
    ensures forall k :: 0 <= k < |offsets| ==> r[|start| + k] == Add(center, Mul(offsets[k], size))
  {
    if offsets == [] then start
    else
      var before := Scatter(center, size, start, offsets[..|offsets| - 1]);
      before + [Add(center, Mul(offsets[|offsets| - 1], size))]
  }

  /** The XZ projection the tessellation is computed on. */
  function ProjectXZ(points: seq<Vec3>): seq<Point2> {
    seq(|points|, k requires 0 <= k < |points| => Point2(points[k].x, points[k].z))
  }

  /** The seeds of the object's tessellation: the fracture points and five random points around the object. */
  function FractureSeeds(position: Vec3, size: Vec3, fracturePoints: seq<Vec3>, seedOffsets: seq<Vec3>): seq<Vec3> {
    Scatter(position, size, fracturePoints, seedOffsets)
  }

  // ---------------------------------------------------------------------
  // Regions to pieces

  /** Every finite vertex index of every region points into the vertex list, as scipy guarantees. */
  predicate WellIndexed(vor: Voronoi) {
    forall r, k :: r in vor.regions && 0 <= k < |r| && r[k] != -1 ==> 0 <= r[k] < |vor.vertices|
  }

  /** A region the source turns into a piece: non-empty and without the vertex at infinity. */
  predicate Usable(region: seq<int>) {
    |region| != 0 && -1 !in region
  }

  predicate IndicesIn(region: seq<int>, vertices: seq<Point2>) {
    forall k :: 0 <= k < |region| ==> 0 <= region[k] < |vertices|
  }

  /** The smallest element. */
  function MinOf(xs: seq<real>): (m: real)
    requires |xs| > 0
    ensures m in xs
    ensures forall k :: 0 <= k < |xs| ==> m <= xs[k]
  {
    if |xs| == 1 then xs[0]
    else
      var rest := MinOf(xs[1..]);
      assert forall k :: 1 <= k < |xs| ==> xs[k] == xs[1..][k - 1];
      if xs[0] <= rest then xs[0] else rest
  }

  /** The largest element. */
  function MaxOf(xs: seq<real>): (m: real)
    requires |xs| > 0
    ensures m in xs
    ensures forall k :: 0 <= k < |xs| ==> xs[k] <= m
  {
    if |xs| == 1 then xs[0]
    else
      var rest := MaxOf(xs[1..]);
      assert forall k :: 1 <= k < |xs| ==> xs[k] == xs[1..][k - 1];
      if xs[0] >= rest then xs[0] else rest
  }

  /** The x coordinates of `region`'s vertices, `vor.vertices[region][:, 0]`. */
  function RegionXs(region: seq<int>, vertices: seq<Point2>): seq<real>
    requires IndicesIn(region, vertices)
  {
    seq(|region|, k requires 0 <= k < |region| => vertices[region[k]].x)
  }

  /** The z coordinates of `region`'s vertices. */
  function RegionZs(region: seq<int>, vertices: seq<Point2>): seq<real>
    requires IndicesIn(region, vertices)
  {
    seq(|region|, k requires 0 <= k < |region| => vertices[region[k]].z)
  }

  /** The piece spanning the box from `lo` to `hi`: its centre, its size and the product of the sizes. */
  function BoxPiece(lo: Vec3, hi: Vec3): (p: Piece)
    ensures p.position.x - p.size.x / 2.0 == lo.x && p.position.x + p.size.x / 2.0 == hi.x
    ensures p.position.y - p.size.y / 2.0 == lo.y && p.position.y + p.size.y / 2.0 == hi.y
    ensures p.position.z - p.size.z / 2.0 == lo.z && p.position.z + p.size.z / 2.0 == hi.z
  {
    var size := Sub(hi, lo);
    Piece(Div(Add(lo, hi), 2.0), size, size.x * size.y * size.z)
  }

  /**
   * The piece of one region: the bounding rectangle of its vertices in XZ,
   * extruded from the object's bottom to its top.
   */
  function PieceOf(region: seq<int>, vertices: seq<Point2>, minCorner: Vec3, maxCorner: Vec3): (p: Piece)
    requires |region| > 0 && IndicesIn(region, vertices)
    ensures p.position.y - p.size.y / 2.0 == minCorner.y && p.position.y + p.size.y / 2.0 == maxCorner.y
  {
    var xs := RegionXs(region, vertices);
    var zs := RegionZs(region, vertices);
    BoxPiece(Vec3(MinOf(xs), minCorner.y, MinOf(zs)), Vec3(MaxOf(xs), maxCorner.y, MaxOf(zs)))
  }

  /** A piece's XZ rectangle holds every vertex of its region. */
  lemma PieceCoversRegion(region: seq<int>, vertices: seq<Point2>, minCorner: Vec3, maxCorner: Vec3)
    requires |region| > 0 && IndicesIn(region, vertices)
    ensures var p := PieceOf(region, vertices, minCorner, maxCorner);
      forall k :: 0 <= k < |region| ==>
        p.position.x - p.size.x / 2.0 <= vertices[region[k]].x <= p.position.x + p.size.x / 2.0 &&
        p.position.z - p.size.z / 2.0 <= vertices[region[k]].z <= p.position.z + p.size.z / 2.0
  {
    var xs := RegionXs(region, vertices);
    var zs := RegionZs(region, vertices);
    var p := PieceOf(region, vertices, minCorner, maxCorner);
    assert p.position.x - p.size.x / 2.0 == MinOf(xs) && p.position.x + p.size.x / 2.0 == MaxOf(xs);
    assert p.position.z - p.size.z / 2.0 == MinOf(zs) && p.position.z + p.size.z / 2.0 == MaxOf(zs);
    forall k | 0 <= k < |region|
      ensures p.position.x - p.size.x / 2.0 <= vertices[region[k]].x <= p.position.x + p.size.x / 2.0
      ensures p.position.z - p.size.z / 2.0 <= vertices[region[k]].z <= p.position.z + p.size.z / 2.0
    {
      assert xs[k] == vertices[region[k]].x && zs[k] == vertices[region[k]].z;
    }
  }

  /** The rectangle is the smallest one: its x and z edges each pass through a vertex of the region. */
  lemma PieceIsTight(region: seq<int>, vertices: seq<Point2>, minCorner: Vec3, maxCorner: Vec3)
    requires |region| > 0 && IndicesIn(region, vertices)
    ensures var p := PieceOf(region, vertices, minCorner, maxCorner);
      (exists k :: 0 <= k < |region| && vertices[region[k]].x == p.position.x - p.size.x / 2.0) &&
      (exists k :: 0 <= k < |region| && vertices[region[k]].x == p.position.x + p.size.x / 2.0) &&
      (exists k :: 0 <= k < |region| && vertices[region[k]].z == p.position.z - p.size.z / 2.0) &&
      (exists k :: 0 <= k < |region| && vertices[region[k]].z == p.position.z + p.size.z / 2.0)
  {
    var xs := RegionXs(region, vertices);
    var zs := RegionZs(region, vertices);
    var p := PieceOf(region, vertices, minCorner, maxCorner);
    assert p.position.x - p.size.x / 2.0 == MinOf(xs) && p.position.x + p.size.x / 2.0 == MaxOf(xs);
    assert p.position.z - p.size.z / 2.0 == MinOf(zs) && p.position.z + p.size.z / 2.0 == MaxOf(zs);
    var a :| 0 <= a < |xs| && xs[a] == MinOf(xs);
    var b :| 0 <= b < |xs| && xs[b] == MaxOf(xs);
    var c :| 0 <= c < |zs| && zs[c] == MinOf(zs);
    var d :| 0 <= d < |zs| && zs[d] == MaxOf(zs);
    assert vertices[region[a]].x == xs[a] && vertices[region[b]].x == xs[b];
    assert vertices[region[c]].z == zs[c] && vertices[region[d]].z == zs[d];
  }

  /** A usable region of a well-indexed tessellation indexes only existing vertices. */
  lemma UsableRegionIndices(vor: Voronoi, m: nat)
    requires WellIndexed(vor) && m < |vor.regions| && Usable(vor.regions[m])
    ensures IndicesIn(vor.regions[m], vor.vertices)
  {
    var region := vor.regions[m];
    assert region in vor.regions;
    forall k | 0 <= k < |region|
      ensures 0 <= region[k] < |vor.vertices|
    {
      assert region[k] in region;
    }
  }

  /** The pieces of the first m regions, skipping the unusable ones. */
  function PiecesUpTo(vor: Voronoi, minCorner: Vec3, maxCorner: Vec3, m: nat): seq<Piece>
    requires WellIndexed(vor) && m <= |vor.regions|
  {
    if m == 0 then []
    else
      var region := vor.regions[m - 1];
      if Usable(region) then
        UsableRegionIndices(vor, m - 1);
        PiecesUpTo(vor, minCorner, maxCorner, m - 1) + [PieceOf(region, vor.vertices, minCorner, maxCorner)]
      else
        PiecesUpTo(vor, minCorner, maxCorner, m - 1)
  }

  /** The object's bounding box corners `position -/+ size / 2`. */
  function MinCorner(position: Vec3, size: Vec3): Vec3 {
    Sub(position, Div(size, 2.0))
  }

  function MaxCorner(position: Vec3, size: Vec3): Vec3 {
    Add(position, Div(size, 2.0))
  }

  /** All pieces of a tessellation of an object at `position` with `size`. */
  function VoronoiPieces(vor: Voronoi, position: Vec3, size: Vec3): seq<Piece>
    requires WellIndexed(vor)
  {
    PiecesUpTo(vor, MinCorner(position, size), MaxCorner(position, size), |vor.regions|)
  }

  /** There are never more pieces than regions, and none at all when no region is usable. */
  lemma {:induction false} PiecesBound(vor: Voronoi, minCorner: Vec3, maxCorner: Vec3, m: nat)
    requires WellIndexed(vor) && m <= |vor.regions|
    ensures |PiecesUpTo(vor, minCorner, maxCorner, m)| <= m
    ensures (forall k :: 0 <= k < m ==> !Usable(vor.regions[k])) ==> PiecesUpTo(vor, minCorner, maxCorner, m) == []
  {
    if m > 0 {
      PiecesBound(vor, minCorner, maxCorner, m - 1);
    }
  }

  /** Every piece is the piece of a usable region among the first m. */
  lemma {:induction false} PiecesComeFromUsableRegions(vor: Voronoi, minCorner: Vec3, maxCorner: Vec3, m: nat)
    requires WellIndexed(vor) && m <= |vor.regions|
    ensures forall p :: p in PiecesUpTo(vor, minCorner, maxCorner, m) ==>
      exists k :: 0 <= k < m && Usable(vor.regions[k]) && p == PieceOf(vor.regions[k], vor.vertices, minCorner, maxCorner)
  {
    if m > 0 {
      PiecesComeFromUsableRegions(vor, minCorner, maxCorner, m - 1);
    }
  }

  /** Every usable region among the first m yields its piece. */
  lemma {:induction false} UsableRegionsYieldPieces(vor: Voronoi, minCorner: Vec3, maxCorner: Vec3, m: nat)
    requires WellIndexed(vor) && m <= |vor.regions|
    ensures forall k :: 0 <= k < m && Usable(vor.regions[k]) ==>
      PieceOf(vor.regions[k], vor.vertices, minCorner, maxCorner) in PiecesUpTo(vor, minCorner, maxCorner, m)
  {
    if m > 0 {
      UsableRegionsYieldPieces(vor, minCorner, maxCorner, m - 1);
    }
  }

  /** Every piece spans the object's full height and is centred on the object in y. */
  lemma {:induction false} PiecesSpanObjectHeight(vor: Voronoi, position: Vec3, size: Vec3, m: nat)
    requires WellIndexed(vor) && m <= |vor.regions|
    ensures forall p :: p in PiecesUpTo(vor, MinCorner(position, size), MaxCorner(position, size), m) ==>
      p.size.y == size.y && p.position.y == position.y
  {
    if m > 0 {
      PiecesSpanObjectHeight(vor, position, size, m - 1);
    }
  }

  // ---------------------------------------------------------------------
  // Pieces to fragments

  /** The break-off rule: tiny pieces always break off, large ones never, in between the random factor decides. */
  function BreaksOff(volume: real, randomFactor: real): (b: bool)
    ensures b ==> volume < 0.5
    ensures volume < 0.1 ==> b
  {
    volume < 0.1 || (volume < 0.5 && randomFactor < 1.0)
  }

  /**
   * A physics fragment of density 1000 kg/m^3, dynamic, with the drawn
   * initial velocity. The piece can be read back from the fragment: its box
   * is kept and its volume is the mass over the density.
   */
  function MakeFragment(p: Piece, kick: Vec3): (f: Fragment)
    ensures Piece(f.position, f.size, f.mass / 1000.0) == p
    ensures !f.isStatic && f.velocity == kick
  {
    Fragment(p.position, p.size, p.volume * 1000.0, false, kick)
  }

  /** The fragments from the first m pieces, in piece order. */
  function FragmentsUpTo(pieces: seq<Piece>, factors: seq<real>, kicks: seq<Vec3>, m: nat): seq<Fragment>
    requires m <= |pieces| && |pieces| <= |factors| && |pieces| <= |kicks|
  {
    if m == 0 then []
    else
      FragmentsUpTo(pieces, factors, kicks, m - 1) +
        (if BreaksOff(pieces[m - 1].volume, factors[m - 1]) then [MakeFragment(pieces[m - 1], kicks[m - 1])] else [])
  }

  /** The break-off rule by volume band. */
  lemma BreakOffBands(volume: real, randomFactor: real)
    ensures volume < 0.1 ==> BreaksOff(volume, randomFactor)
    ensures volume >= 0.5 ==> !BreaksOff(volume, randomFactor)
    ensures 0.1 <= volume < 0.5 ==> (BreaksOff(volume, randomFactor) <==> randomFactor < 1.0)
  {
  }

  /** There are never more fragments than pieces, and none when no piece breaks off. */
  lemma {:induction false} FragmentsBound(pieces: seq<Piece>, factors: seq<real>, kicks: seq<Vec3>, m: nat)
    requires m <= |pieces| && |pieces| <= |factors| && |pieces| <= |kicks|
    ensures |FragmentsUpTo(pieces, factors, kicks, m)| <= m
    ensures (forall k :: 0 <= k < m ==> !BreaksOff(pieces[k].volume, factors[k])) ==>
      FragmentsUpTo(pieces, factors, kicks, m) == []
  {
    if m > 0 {
      FragmentsBound(pieces, factors, kicks, m - 1);
    }
  }

  /** Every fragment is the fragment of a broken-off piece among the first m. */
  lemma {:induction false} FragmentsComeFromBrokenPieces(pieces: seq<Piece>, factors: seq<real>, kicks: seq<Vec3>, m: nat)
    requires m <= |pieces| && |pieces| <= |factors| && |pieces| <= |kicks|
    ensures forall f :: f in FragmentsUpTo(pieces, factors, kicks, m) ==>
      exists k :: 0 <= k < m && BreaksOff(pieces[k].volume, factors[k]) && f == MakeFragment(pieces[k], kicks[k])
  {
    if m > 0 {
      FragmentsComeFromBrokenPieces(pieces, factors, kicks, m - 1);
    }
  }

  /** Every broken-off piece among the first m yields its fragment. */
  lemma {:induction false} BrokenPiecesYieldFragments(pieces: seq<Piece>, factors: seq<real>, kicks: seq<Vec3>, m: nat)
    requires m <= |pieces| && |pieces| <= |factors| && |pieces| <= |kicks|
    ensures forall k :: 0 <= k < m && BreaksOff(pieces[k].volume, factors[k]) ==>
      MakeFragment(pieces[k], kicks[k]) in FragmentsUpTo(pieces, factors, kicks, m)
  {
    if m > 0 {
      BrokenPiecesYieldFragments(pieces, factors, kicks, m - 1);
    }
  }

  /** Every fragment is dynamic and weighs 1000 times the volume of the piece it came from. */
  lemma FragmentsAreDynamic(pieces: seq<Piece>, factors: seq<real>, kicks: seq<Vec3>)
    requires |pieces| <= |factors| && |pieces| <= |kicks|
    ensures forall f :: f in FragmentsUpTo(pieces, factors, kicks, |pieces|) ==>
      !f.isStatic && exists k :: 0 <= k < |pieces| && f.mass == pieces[k].volume * 1000.0 && f.size == pieces[k].size
  {
    FragmentsComeFromBrokenPieces(pieces, factors, kicks, |pieces|);
    forall f | f in FragmentsUpTo(pieces, factors, kicks, |pieces|)
      ensures !f.isStatic && exists k :: 0 <= k < |pieces| && f.mass == pieces[k].volume * 1000.0 && f.size == pieces[k].size
    {
      var k :| 0 <= k < |pieces| && BreaksOff(pieces[k].volume, factors[k]) && f == MakeFragment(pieces[k], kicks[k]);
      assert f.mass == pieces[k].volume * 1000.0 && f.size == pieces[k].size;
    }
  }

  /** Pieces under 0.1 always break off whatever the draw; with only pieces of volume 0.5 or more nothing does. */
  lemma SmallPiecesAlwaysBreak(pieces: seq<Piece>, factors: seq<real>, kicks: seq<Vec3>)
    requires |pieces| <= |factors| && |pieces| <= |kicks|
    ensures forall k :: 0 <= k < |pieces| && pieces[k].volume < 0.1 ==>
      MakeFragment(pieces[k], kicks[k]) in FragmentsUpTo(pieces, factors, kicks, |pieces|)
    ensures (forall k :: 0 <= k < |pieces| ==> pieces[k].volume >= 0.5) ==>
      FragmentsUpTo(pieces, factors, kicks, |pieces|) == []
  {
    BrokenPiecesYieldFragments(pieces, factors, kicks, |pieces|);
    FragmentsBound(pieces, factors, kicks, |pieces|);
  }

  // ---------------------------------------------------------------------
  // FractureSystem

  /** The draws suffice for one fracture of the object: five seed offsets, well-indexed cells, a factor and a kick per piece. */
  predicate Adequate(draws: FractureDraws, position: Vec3, size: Vec3, fracturePoints: seq<Vec3>) {
    var vor := draws.tessellate(ProjectXZ(FractureSeeds(position, size, fracturePoints, draws.seedOffsets)));
    |draws.seedOffsets| == 5 && WellIndexed(vor) &&
    |vor.regions| <= |draws.factors| && |vor.regions| <= |draws.kicks|
  }

  /** The fragments one fracture of the object yields. */
  function FractureFragments(position: Vec3, size: Vec3, fracturePoints: seq<Vec3>, draws: FractureDraws): seq<Fragment>
    requires Adequate(draws, position, size, fracturePoints)
  {
    var vor := draws.tessellate(ProjectXZ(FractureSeeds(position, size, fracturePoints, draws.seedOffsets)));
    var pieces := VoronoiPieces(vor, position, size);
    PiecesBound(vor, MinCorner(position, size), MaxCorner(position, size), |vor.regions|);
    FragmentsUpTo(pieces, draws.factors, draws.kicks, |pieces|)
  }

  /** Appends `center + offset * size` to `start` for each offset in turn, the loops of `_generate_voronoi_fracture` and `_fracture`. */
  method ScatterPoints(center: Vec3, size: Vec3, start: seq<Vec3>, offsets: seq<Vec3>) returns (points: seq<Vec3>)
    ensures points == Scatter(center, size, start, offsets)
  {
    points := start;
    var n := 0;
    while n < |offsets|
      invariant 0 <= n <= |offsets|
      invariant points == Scatter(center, size, start, offsets[..n])
    {
      assert offsets[..n + 1][..n] == offsets[..n];
      points := points + [Add(center, Mul(offsets[n], size))];
      n := n + 1;
    }
    assert offsets[..|offsets|] == offsets;
  }

  /** fracture.py `_generate_voronoi_fracture`. */
  method GenerateVoronoiFracture(position: Vec3, size: Vec3, fracturePoints: seq<Vec3>,
                                 seedOffsets: seq<Vec3>, tessellate: seq<Point2> -> Voronoi)
    returns (pieces: seq<Piece>)
    requires |seedOffsets| == 5
    requires WellIndexed(tessellate(ProjectXZ(FractureSeeds(position, size, fracturePoints, seedOffsets))))
    ensures var vor := tessellate(ProjectXZ(FractureSeeds(position, size, fracturePoints, seedOffsets)));
      pieces == VoronoiPieces(vor, position, size)
    ensures forall p :: p in pieces ==> p.size.y == size.y && p.position.y == position.y
  {
    var minCorner := MinCorner(position, size);
    var maxCorner := MaxCorner(position, size);
    var allPoints := ScatterPoints(position, size, fracturePoints, seedOffsets);
    var vor := tessellate(ProjectXZ(allPoints));
    pieces := [];
    var m := 0;
    while m < |vor.regions|
      invariant 0 <= m <= |vor.regions|
      invariant pieces == PiecesUpTo(vor, minCorner, maxCorner, m)
    {
      var region := vor.regions[m];
      if |region| != 0 && -1 !in region {
        UsableRegionIndices(vor, m);
        pieces := pieces + [PieceOf(region, vor.vertices, minCorner, maxCorner)];
      }
      m := m + 1;
    }
    PiecesSpanObjectHeight(vor, position, size, |vor.regions|);
  }

  /** fracture.py `_calculate_fracture_pieces`; the material strength only feeds an unused threshold. */
  method CalculateFracturePieces(pieces: seq<Piece>, materialStrength: real, factors: seq<real>, kicks: seq<Vec3>)
    returns (fragments: seq<Fragment>)
    requires |pieces| <= |factors| && |pieces| <= |kicks|
    ensures fragments == FragmentsUpTo(pieces, factors, kicks, |pieces|)
  {
    fragments := [];
    var m := 0;
    while m < |pieces|
      invariant 0 <= m <= |pieces|
      invariant fragments == FragmentsUpTo(pieces, factors, kicks, m)
    {
      var volume := pieces[m].volume;
      var randomFactor := factors[m];
      if volume < 0.1 || (volume < 0.5 && randomFactor < 1.0) {
        fragments := fragments + [Fragment(pieces[m].position, pieces[m].size, volume * 1000.0, false, kicks[m])];
      }
      m := m + 1;
    }
  }

  /** fracture.py `fracture_object`: tessellate, then select the pieces that break off. */
  method FractureObject(position: Vec3, size: Vec3, fracturePoints: seq<Vec3>, materialStrength: real,
                        draws: FractureDraws)
    returns (fragments: seq<Fragment>)
    requires Adequate(draws, position, size, fracturePoints)
    ensures fragments == FractureFragments(position, size, fracturePoints, draws)
    ensures |fragments| <= |draws.tessellate(ProjectXZ(FractureSeeds(position, size, fracturePoints, draws.seedOffsets))).regions|
  {
    var pieces := GenerateVoronoiFracture(position, size, fracturePoints, draws.seedOffsets, draws.tessellate);
    ghost var vor := draws.tessellate(ProjectXZ(FractureSeeds(position, size, fracturePoints, draws.seedOffsets)));
    PiecesBound(vor, MinCorner(position, size), MaxCorner(position, size), |vor.regions|);
    fragments := CalculateFracturePieces(pieces, materialStrength, draws.factors, draws.kicks);
    FragmentsBound(pieces, draws.factors, draws.kicks, |pieces|);
  }

  // ---------------------------------------------------------------------
  // DestructibleCube

  /** The fracture points around an impact: the impact itself, then three random points around it. */
  function ImpactPoints(impactPosition: Vec3, size: Vec3, impactOffsets: seq<Vec3>): seq<Vec3> {
    Scatter(impactPosition, size, [impactPosition], impactOffsets)
  }

  class DestructibleCube {
    const position: Vec3
    const size: Vec3
    var health: real
    var intact: bool
    var fragments: seq<Fragment>

    /** An intact cube has no fragments. */
    ghost predicate Valid()
      reads this
    {
      intact ==> fragments == []
    }

    constructor (position: Vec3, size: Vec3)
      ensures Valid()
      ensures this.position == position && this.size == size
      ensures health == 100.0 && intact && fragments == []
    {
      this.position := position;
      this.size := size;
      health := 100.0;
      intact := true;
      fragments := [];
    }

    /**
     * Lowers health by `damage`; the first time health reaches zero or below
     * while intact, the cube fractures around `impactPosition`.
     */
    method ApplyDamage(damage: real, impactPosition: Vec3, impactOffsets: seq<Vec3>, draws: FractureDraws)
      requires Valid()
      requires intact && health - damage <= 0.0 ==>
        |impactOffsets| == 3 && Adequate(draws, position, size, ImpactPoints(impactPosition, size, impactOffsets))
      modifies this
      ensures Valid()
      ensures health == old(health) - damage
      ensures old(intact) && health <= 0.0 ==>
        !intact && fragments == FractureFragments(position, size, ImpactPoints(impactPosition, size, impactOffsets), draws)
      ensures !(old(intact) && health <= 0.0) ==> intact == old(intact) && fragments == old(fragments)
      ensures IsBroken() <==> old(IsBroken()) || health <= 0.0
      ensures old(IsBroken()) ==> fragments == old(fragments)
    {
      health := health - damage;
      if health <= 0.0 && intact {
        Fracture(impactPosition, impactOffsets, draws);
      }
    }

    /** fracture.py `_fracture`: fracture points around the impact, fragments from them, no longer intact. */
    method Fracture(impactPosition: Vec3, impactOffsets: seq<Vec3>, draws: FractureDraws)
      requires |impactOffsets| == 3 && Adequate(draws, position, size, ImpactPoints(impactPosition, size, impactOffsets))
      modifies this
      ensures Valid()
      ensures !intact && health == old(health)
      ensures fragments == FractureFragments(position, size, ImpactPoints(impactPosition, size, impactOffsets), draws)
    {
      var fracturePoints := ScatterPoints(impactPosition, size, [impactPosition], impactOffsets);
      fragments := FractureObject(position, size, fracturePoints, 100.0, draws);
      intact := false;
    }

    /** `not intact`. */
    function IsBroken(): (b: bool)
      reads this
      ensures b <==> !intact
    {
      !intact
    }

    /** The fragments once broken, and the empty list while intact. */
    function GetFragments(): (r: seq<Fragment>)
      reads this
      requires Valid()
      ensures intact ==> r == []
      ensures !intact ==> r == fragments
      ensures r == fragments
    {
      if !intact then fragments else []
    }
  }
}
