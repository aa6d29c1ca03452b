/** Flash generation (phantom-animation.js, triggerLightning,
    generateLightningBranches, getLightningColor). Math.random is an injected
    stream `rand` of draws in [0, 1) read from a cursor; every operation
    returns the cursor after the draws it used, in the order the source
    makes them. */
module Flashes {
  import opened Common

  /** Every draw of the stream lies in [0, 1), as Math.random's do. */
  ghost predicate UnitDraws(rand: nat -> real)
  {
    forall i: nat :: 0.0 <= rand(i) < 1.0
  }

  lemma ScaleUnit(draw: real, k: real)
    requires 0.0 <= draw < 1.0 && k > 0.0
    ensures 0.0 <= draw * k < k
  {
    assert (1.0 - draw) * k > 0.0;
  }

  /** Math.floor(Math.random() * n): an index below n. */
  function Pick(draw: real, n: nat): (k: nat)
    requires 0.0 <= draw < 1.0 && n > 0
    ensures k < n
  {
    var scaled := draw * n as real;
    ScaleUnit(draw, n as real);
    var k := scaled.Floor;
    assert k as real <= scaled < n as real;
    assert k < n;
    k
  }

  /** The frequency class that drives a flash's every parameter. */
  datatype Band = Bass | Treble | Mid

  function Ratio(part: real, total: real): real
    requires total != 0.0
  {
    part / total
  }

  /** bass if bassRatio > 0.5, else treble if trebleRatio > 0.4, else mid. */
  function Classify(bassRatio: real, trebleRatio: real): (b: Band)
    ensures b == Bass <==> bassRatio > 0.5
    ensures b == Mid <==> bassRatio <= 0.5 && trebleRatio <= 0.4
  {
    if bassRatio > 0.5 then Bass else if trebleRatio > 0.4 then Treble else Mid
  }

  /** The class of a flash triggered with these band energies: for a
      positive total, bass when bass is more than half of it, otherwise
      treble when treble is more than two fifths of it, otherwise mid. */
  function ClassOf(bass: real, mid: real, treble: real): (b: Band)
    requires bass + mid + treble != 0.0
    ensures var total := bass + mid + treble; total > 0.0 ==>
      && (b == Bass <==> 2.0 * bass > total)
      && (b == Treble <==> 2.0 * bass <= total && 5.0 * treble > 2.0 * total)
  {
    var total := bass + mid + treble;
    var b := Classify(Ratio(bass, total), Ratio(treble, total));
    if total > 0.0 then
      ShareAbove(bass, total, 0.5);
      ShareAbove(treble, total, 0.4);
      b
    else
      b
  }

  lemma ShareAbove(part: real, total: real, bound: real)
    requires total > 0.0
    ensures part / total > bound <==> part > bound * total
  {
    assert part / total * total == part;
    if part / total > bound {
      assert part / total * total > bound * total;
    }
  }

  /** The three examples of dominant-band classification. */
  lemma ClassifyExamples()
    ensures Classify(0.6, 0.1) == Bass
    ensures Classify(0.3, 0.5) == Treble
    ensures Classify(0.3, 0.2) == Mid
  {
  }

  // ---------------------------------------------------------------------
  // Branch geometry

  datatype Point = Point(x: real, y: real)

  const Origin: Point := Point(0.0, 0.0)

  /** Branch count, points per branch, horizontal spread and vertical step. */
  datatype Shape = Shape(branchCount: nat, segmentCount: nat, spread: real, verticalStep: real)

  function Spread(band: Band): real
  {
    match band
    case Bass => 60.0
    case Treble => 25.0
    case Mid => 40.0
  }

  function VerticalStep(band: Band): real
  {
    match band
    case Bass => 35.0
    case Treble => 15.0
    case Mid => 25.0
  }

  /** The ranges each class allows: bass 2-4 branches of 12-19 points,
      treble 4-9 of 6-13, mid 3-6 of 8-17. */
  predicate ShapeFits(band: Band, s: Shape)
  {
    && s.spread == Spread(band)
    && s.verticalStep == VerticalStep(band)
    && match band
       case Bass => 2 <= s.branchCount <= 4 && 12 <= s.segmentCount <= 19
       case Treble => 4 <= s.branchCount <= 9 && 6 <= s.segmentCount <= 13
       case Mid => 3 <= s.branchCount <= 6 && 8 <= s.segmentCount <= 17
  }

  /** The shape chosen by generateLightningBranches from its first two draws;
      it always lies in the ranges of the class the same ratios select. */
  function BranchShape(bassRatio: real, trebleRatio: real, countDraw: real, lengthDraw: real): (s: Shape)
    requires 0.0 <= countDraw < 1.0 && 0.0 <= lengthDraw < 1.0
    ensures ShapeFits(Classify(bassRatio, trebleRatio), s)
  {
    if bassRatio > 0.5 then
      Shape(2 + Pick(countDraw, 3), 12 + Pick(lengthDraw, 8), 60.0, 35.0)
    else if trebleRatio > 0.4 then
      Shape(4 + Pick(countDraw, 6), 6 + Pick(lengthDraw, 8), 25.0, 15.0)
    else
      Shape(3 + Pick(countDraw, 4), 8 + Pick(lengthDraw, 10), 40.0, 25.0)
  }

  /** One random-walk step: x moves by (dxDraw - 0.5) * spread, y by
      dyDraw * verticalStep + 10. With draws in [0, 1) the step is jagged:
      y grows by at least 10 and by less than verticalStep + 10, and x moves
      by at least -spread/2 and by less than spread/2. */
  function Advance(p: Point, s: Shape, dxDraw: real, dyDraw: real): (q: Point)
    ensures s.spread > 0.0 && s.verticalStep > 0.0 && 0.0 <= dxDraw < 1.0 && 0.0 <= dyDraw < 1.0 ==>
      JaggedStep(p, q, s)
  {
    var dx, dy := (dxDraw - 0.5) * s.spread, dyDraw * s.verticalStep;
    var q := Point(p.x + dx, p.y + dy + 10.0);
    DrawnStep(p, q, s, dxDraw, dyDraw, dx, dy);
    q
  }

  lemma DrawnStep(p: Point, q: Point, s: Shape, dxDraw: real, dyDraw: real, dx: real, dy: real)
    requires dx == (dxDraw - 0.5) * s.spread && dy == dyDraw * s.verticalStep
    requires q == Point(p.x + dx, p.y + dy + 10.0)
    ensures s.spread > 0.0 && s.verticalStep > 0.0 && 0.0 <= dxDraw < 1.0 && 0.0 <= dyDraw < 1.0 ==>
      JaggedStep(p, q, s)
  {
    if s.spread > 0.0 && s.verticalStep > 0.0 && 0.0 <= dxDraw < 1.0 && 0.0 <= dyDraw < 1.0 {
      SwayWithin(dxDraw, s.spread, dx);
      DropWithin(dyDraw, s.verticalStep, dy);
      StepWithin(p, q, s, dx, dy);
    }
  }

  lemma SwayWithin(draw: real, w: real, dx: real)
    requires 0.0 <= draw < 1.0 && w > 0.0 && dx == (draw - 0.5) * w
    ensures -w / 2.0 <= dx < w / 2.0
  {
    CenteredUnit(draw, w);
  }

  lemma DropWithin(draw: real, k: real, dy: real)
    requires 0.0 <= draw < 1.0 && k > 0.0 && dy == draw * k
    ensures 0.0 <= dy < k
  {
    ScaleUnit(draw, k);
  }

  /** The index of the first draw of branch i. */
  function BranchStart(cursor: nat, s: Shape, i: nat): (start: nat)
    ensures start >= cursor + 2
  {
    cursor + 2 + 2 * i * s.segmentCount
  }

  /** branch is the walk of shape s whose steps use the draws from start on,
      two per step. */
  ghost predicate DrawnBranch(branch: seq<Point>, s: Shape, rand: nat -> real, start: nat)
  {
    && |branch| == s.segmentCount
    && (|branch| > 0 ==> branch[0] == Origin)
    && forall j :: 0 < j < |branch| ==>
         branch[j] == Advance(branch[j - 1], s, rand(start + 2 * j - 2), rand(start + 2 * j - 1))
  }

  /** q follows p with y larger by at least 10 and by less than
      verticalStep + 10, and x moved by at least -spread/2 and less than
      spread/2. */
  predicate JaggedStep(p: Point, q: Point, s: Shape)
  {
    && -s.spread / 2.0 <= q.x - p.x < s.spread / 2.0
    && p.y + 10.0 <= q.y < p.y + s.verticalStep + 10.0
  }

  lemma CenteredUnit(draw: real, w: real)
    requires 0.0 <= draw < 1.0 && w > 0.0
    ensures -w / 2.0 <= (draw - 0.5) * w < w / 2.0
  {
    ScaleUnit(draw, w);
    assert (draw - 0.5) * w == draw * w - 0.5 * w;
  }

  lemma StepWithin(p: Point, q: Point, s: Shape, dx: real, dy: real)
    requires q == Point(p.x + dx, p.y + dy + 10.0)
    requires -s.spread / 2.0 <= dx < s.spread / 2.0 && 0.0 <= dy < s.verticalStep
    ensures JaggedStep(p, q, s)
  {
  }

  /** Branches of one flash: as many as the shape says, each with the
      shape's number of points, starting at the origin, every step jagged. */
  ghost predicate BranchesFollow(branches: seq<seq<Point>>, s: Shape)
  {
    && |branches| == s.branchCount
    && forall i :: 0 <= i < |branches| ==>
         && |branches[i]| == s.segmentCount
         && (|branches[i]| > 0 ==> branches[i][0] == Origin)
         && forall j :: 0 < j < |branches[i]| ==> JaggedStep(branches[i][j - 1], branches[i][j], s)
  }

  /** The shape read back off a flash's branches. */
  function ShapeOf(branches: seq<seq<Point>>, band: Band): Shape
  {
    Shape(|branches|, if branches == [] then 0 else |branches[0]|, Spread(band), VerticalStep(band))
  }

  /** The branch geometry a flash of class band may have. */
  ghost predicate Branching(branches: seq<seq<Point>>, band: Band)
  {
    ShapeFits(band, ShapeOf(branches, band)) && BranchesFollow(branches, ShapeOf(branches, band))
  }

  /** generateLightningBranches: the shape comes from the first two draws,
      then each point of each branch is the previous one advanced by the next
      two draws (the final pair of each branch is drawn but not used). The
      result is 2-4, 4-9 or 3-6 branches of 12-19, 6-13 or 8-17 points, each
      starting at the origin with every step jagged. */
  method GenerateBranches(bassRatio: real, trebleRatio: real, rand: nat -> real, cursor: nat)
    returns (branches: seq<seq<Point>>, next: nat)
    requires UnitDraws(rand)
    ensures var s := BranchShape(bassRatio, trebleRatio, rand(cursor), rand(cursor + 1));
      && |branches| == s.branchCount
      && next == BranchStart(cursor, s, s.branchCount)
      && forall i :: 0 <= i < |branches| ==> DrawnBranch(branches[i], s, rand, BranchStart(cursor, s, i))
    ensures Branching(branches, Classify(bassRatio, trebleRatio))
  {
    var s := BranchShape(bassRatio, trebleRatio, rand(cursor), rand(cursor + 1));
    branches := [];
    next := cursor + 2;
    var i := 0;
    while i < s.branchCount
      invariant 0 <= i <= s.branchCount
      invariant |branches| == i
      invariant next == BranchStart(cursor, s, i)
      invariant forall k :: 0 <= k < i ==> DrawnBranch(branches[k], s, rand, BranchStart(cursor, s, k))
      invariant forall k :: 0 <= k < i ==> BranchesFollowOne(branches[k], s)
    {
      var branch;
      var start := next;
      branch, next := DrawBranch(s, rand, start);
      DrawnBranchIsJagged(branch, s, rand, start);
      NextBranchStart(cursor, s, i);
      branches := branches + [branch];
      i := i + 1;
    }
  }

  lemma NextBranchStart(cursor: nat, s: Shape, i: nat)
    ensures BranchStart(cursor, s, i + 1) == BranchStart(cursor, s, i) + 2 * s.segmentCount
  {
    assert 2 * (i + 1) * s.segmentCount == 2 * i * s.segmentCount + 2 * s.segmentCount;
  }

  /** The inner loop of generateLightningBranches: one branch, pushing the
      current point and then advancing x and y by two fresh draws. */
  method DrawBranch(s: Shape, rand: nat -> real, start: nat) returns (branch: seq<Point>, next: nat)
    ensures DrawnBranch(branch, s, rand, start)
    ensures next == start + 2 * s.segmentCount
  {
    branch := [];
    next := start;
    var x, y := 0.0, 0.0;
    var j := 0;
    while j < s.segmentCount
      invariant 0 <= j <= s.segmentCount
      invariant |branch| == j
      invariant next == start + 2 * j
      invariant j > 0 ==> branch[0] == Origin
      invariant forall m :: 0 < m < j ==>
        branch[m] == Advance(branch[m - 1], s, rand(start + 2 * m - 2), rand(start + 2 * m - 1))
      invariant j == 0 ==> Point(x, y) == Origin
      invariant j > 0 ==> Point(x, y) == Advance(branch[j - 1], s, rand(next - 2), rand(next - 1))
    {
      var p := Point(x, y);
      branch := branch + [p];
      x := x + (rand(next) - 0.5) * s.spread;
      y := y + rand(next + 1) * s.verticalStep + 10.0;
      assert Point(x, y) == Advance(p, s, rand(next), rand(next + 1));
      next := next + 2;
      j := j + 1;
    }
  }

  /** One branch of BranchesFollow. */
  ghost predicate BranchesFollowOne(branch: seq<Point>, s: Shape)
  {
    && |branch| == s.segmentCount
    && (|branch| > 0 ==> branch[0] == Origin)
    && forall j :: 0 < j < |branch| ==> JaggedStep(branch[j - 1], branch[j], s)
  }

  lemma DrawnBranchIsJagged(branch: seq<Point>, s: Shape, rand: nat -> real, start: nat)
    requires UnitDraws(rand) && s.spread > 0.0 && s.verticalStep > 0.0
    requires DrawnBranch(branch, s, rand, start)
    ensures BranchesFollowOne(branch, s)
  {
  }

  // ---------------------------------------------------------------------
  // Colour

  datatype Rgb = Rgb(r: int, g: int, b: int)

  /** An rgba colour as a record; the tint of a flash is its rgb part. */
  datatype Color = Rgba(rgb: Rgb, a: real)

  const White: Rgb := Rgb(255, 255, 255)

  /** The four colours of each class: deep purple, dark red, midnight blue,
      dark slate blue; white, light sky blue, cyan, light blue; blue violet,
      dark violet, medium slate blue, slate blue. */
  function Palette(band: Band): (p: seq<Rgb>)
    ensures |p| == 4
  {
    match band
    case Bass => [Rgb(75, 0, 130), Rgb(139, 0, 0), Rgb(25, 25, 112), Rgb(72, 61, 139)]
    case Treble => [White, Rgb(135, 206, 250), Rgb(0, 255, 255), Rgb(173, 216, 230)]
    case Mid => [Rgb(138, 43, 226), Rgb(147, 0, 211), Rgb(123, 104, 238), Rgb(106, 90, 205)]
  }

  /** Alpha of palette entry k from its own draw: 0.9 + draw * 0.1 for the
      white of the treble palette, 0.8 + draw * 0.2 for every other entry. */
  function PaletteAlpha(band: Band, k: nat, draw: real): real
  {
    if band == Treble && k == 0 then 0.9 + draw * 0.1 else 0.8 + draw * 0.2
  }

  /** getLightningColor: the four palette entries of the class take one alpha
      draw each, then a fifth draw picks one of them. The colour is always one
      of the class's palette, with alpha in [0.8, 1), and white only ever
      comes with alpha of at least 0.9. */
  function LightningColor(bass: real, mid: real, treble: real, rand: nat -> real, cursor: nat): (c: Color)
    requires bass + mid + treble != 0.0
    requires UnitDraws(rand)
    ensures c.rgb in Palette(ClassOf(bass, mid, treble))
    ensures 0.8 <= c.a < 1.0
    ensures c.rgb == White ==> 0.9 <= c.a
  {
    var band := ClassOf(bass, mid, treble);
    var k := Pick(rand(cursor + 4), 4);
    Rgba(Palette(band)[k], PaletteAlpha(band, k, rand(cursor + k)))
  }

  // ---------------------------------------------------------------------
  // Bolts and flashes

  /** Cap on the number of bolts of one trigger. */
  const MaxBolts: int := 8

  /** Cap on the number of live flashes. */
  const MaxFlashes: nat := 25

  /** Math.ceil. */
  function Ceil(x: real): (c: int)
    ensures x <= c as real < x + 1.0
  {
    -((-x).Floor)
  }

  /** numBolts: ceil(bass/255*2) + ceil(mid/255*1.5) + ceil(treble/255*2),
      capped at 8. Never above 8, never negative for non-negative energies and
      at least one when any band is positive. */
  function NumBolts(bass: real, mid: real, treble: real): (n: int)
    ensures n <= MaxBolts
    ensures bass >= 0.0 && mid >= 0.0 && treble >= 0.0 ==> n >= 0
    ensures bass >= 0.0 && mid >= 0.0 && treble >= 0.0 && bass + mid + treble > 0.0 ==> n >= 1
  {
    var sum := Ceil(bass / 255.0 * 2.0) + Ceil(mid / 255.0 * 1.5) + Ceil(treble / 255.0 * 2.0);
    if sum < MaxBolts then sum else MaxBolts
  }

  /** For band energies in [0, 247] (everything the aggregator produces) each
      term is at most 2, so a trigger yields 1 to 6 bolts and the cap of 8
      never takes effect. */
  lemma BoltsOnAnalysisPath(bass: real, mid: real, treble: real)
    requires 0.0 <= bass <= 247.0 && 0.0 <= mid <= 247.0 && 0.0 <= treble <= 247.0
    requires bass + mid + treble > 0.0
    ensures 1 <= NumBolts(bass, mid, treble) <= 6
  {
  }

  /** A flash: position, intensity, age and lifetime in frames, branch
      geometry, colour and the class it was generated for. */
  datatype Flash = Flash(x: real, y: real, intensity: real, age: nat, maxAge: real,
                         branches: seq<seq<Point>>, color: Color, frequencyType: Band)

  /** The class-dependent part of a flash before clamping: vertical
      position, intensity and lifetime. */
  datatype Placement = Placement(y: real, intensity: real, duration: real)

  /** The band energy that sets a flash's intensity. */
  function Dominant(band: Band, bass: real, mid: real, treble: real): real
  {
    match band
    case Bass => bass
    case Treble => treble
    case Mid => mid
  }

  /** Unclamped intensity: (volume + dominant band) / 400, 350 or 380. It
      is non-negative whenever both terms are. */
  function Intensity(band: Band, volume: real, bass: real, mid: real, treble: real): (i: real)
    ensures volume >= 0.0 && Dominant(band, bass, mid, treble) >= 0.0 ==> i >= 0.0
  {
    match band
    case Bass => (volume + bass) / 400.0
    case Treble => (volume + treble) / 350.0
    case Mid => (volume + mid) / 380.0
  }

  /** The class-dependent part of one flash from its vertical-position and
      lifetime draws: its intensity is the class's, and a lifetime draw in
      [0, 1) gives a lifetime in the class's range. */
  function Place(band: Band, volume: real, bass: real, mid: real, treble: real,
                 height: real, yDraw: real, durationDraw: real): (p: Placement)
    ensures p.intensity == Intensity(band, volume, bass, mid, treble)
    ensures 0.0 <= durationDraw < 1.0 ==> LifetimeFits(band, p.duration)
  {
    var intensity := Intensity(band, volume, bass, mid, treble);
    match band
    case Bass =>
      Placement(height * 0.4 + yDraw * height * 0.3, intensity, 20.0 + durationDraw * 15.0)
    case Treble =>
      Placement(yDraw * height * 0.4, intensity, 8.0 + durationDraw * 8.0)
    case Mid =>
      Placement(height * 0.2 + yDraw * height * 0.4, intensity, 15.0 + durationDraw * 10.0)
  }

  /** Lifetimes: bass [20, 35), treble [8, 16), mid [15, 25) frames. */
  predicate LifetimeFits(band: Band, maxAge: real)
  {
    match band
    case Bass => 20.0 <= maxAge < 35.0
    case Treble => 8.0 <= maxAge < 16.0
    case Mid => 15.0 <= maxAge < 25.0
  }

  /** Vertical bands: bass [0.4h, 0.7h), treble [0, 0.4h), mid [0.2h, 0.6h). */
  predicate HeightFits(band: Band, y: real, height: real)
  {
    var lo := match band case Bass => 0.4 case Treble => 0.0 case Mid => 0.2;
    var hi := match band case Bass => 0.7 case Treble => 0.4 case Mid => 0.6;
    && (height >= 0.0 ==> lo * height <= y <= hi * height)
    && (height > 0.0 ==> y < hi * height)
  }

  lemma PlaceFits(band: Band, volume: real, bass: real, mid: real, treble: real,
                  height: real, yDraw: real, durationDraw: real)
    requires 0.0 <= yDraw < 1.0 && 0.0 <= durationDraw < 1.0
    ensures var p := Place(band, volume, bass, mid, treble, height, yDraw, durationDraw);
      LifetimeFits(band, p.duration) && HeightFits(band, p.y, height)
  {
    var share := yDraw * height;
    if height > 0.0 {
      ScaleUnit(yDraw, height);
    } else if height == 0.0 {
      assert share == 0.0;
    }
    assert height >= 0.0 ==> 0.0 <= share <= height;
    assert height > 0.0 ==> share < height;
    match band {
      case Bass =>
        assert yDraw * height * 0.3 == share * 0.3;
      case Treble =>
        assert yDraw * height * 0.4 == share * 0.4;
      case Mid =>
        assert yDraw * height * 0.4 == share * 0.4;
    }
  }

  /** Everything one new flash of a trigger with these inputs satisfies:
      its class is the one the energy ratios select, and that one class
      fixes its lifetime range, vertical band, intensity divisor, branch
      shape and palette; it starts at age 0 with intensity at most 1. */
  ghost predicate Spawned(f: Flash, volume: real, bass: real, mid: real, treble: real,
                          width: real, height: real)
    requires bass + mid + treble != 0.0
  {
    var band := ClassOf(bass, mid, treble);
    && f.frequencyType == band
    && f.age == 0
    && f.intensity == Min(Intensity(band, volume, bass, mid, treble), 1.0)
    && (volume >= 0.0 && Dominant(band, bass, mid, treble) >= 0.0 ==> 0.0 <= f.intensity)
    && LifetimeFits(band, f.maxAge)
    && HeightFits(band, f.y, height)
    && (width >= 0.0 ==> 0.0 <= f.x <= width)
    && (width > 0.0 ==> f.x < width)
    && Branching(f.branches, band)
    && f.color.rgb in Palette(band)
    && 0.8 <= f.color.a < 1.0
  }

  lemma SpawnedIntro(f: Flash, volume: real, bass: real, mid: real, treble: real,
                     width: real, height: real)
    requires bass + mid + treble != 0.0
    requires f.frequencyType == ClassOf(bass, mid, treble) && f.age == 0
    requires f.intensity == Min(Intensity(f.frequencyType, volume, bass, mid, treble), 1.0)
    requires LifetimeFits(f.frequencyType, f.maxAge) && HeightFits(f.frequencyType, f.y, height)
    requires width >= 0.0 ==> 0.0 <= f.x <= width
    requires width > 0.0 ==> f.x < width
    requires Branching(f.branches, f.frequencyType)
    requires f.color.rgb in Palette(f.frequencyType) && 0.8 <= f.color.a < 1.0
    ensures Spawned(f, volume, bass, mid, treble, width, height)
  {
  }

  /** The flash record pushed by one iteration of triggerLightning: its
      position and lifetime come from the draws at cursor, cursor + 1 and
      cursor + 2, its colour from the draws at colorCursor on. */
  function Assemble(volume: real, bass: real, mid: real, treble: real, width: real, height: real,
                    rand: nat -> real, cursor: nat, branches: seq<seq<Point>>, colorCursor: nat): (f: Flash)
    requires bass + mid + treble != 0.0
    requires UnitDraws(rand)
    ensures f.age == 0 && f.intensity <= 1.0 && f.branches == branches
    ensures f.frequencyType == ClassOf(bass, mid, treble)
    ensures LifetimeFits(f.frequencyType, f.maxAge)
    ensures f.color.rgb in Palette(f.frequencyType) && 0.8 <= f.color.a < 1.0
  {
    var band := ClassOf(bass, mid, treble);
    var p := Place(band, volume, bass, mid, treble, height, rand(cursor), rand(cursor + 1));
    Flash(rand(cursor + 2) * width, p.y, Min(p.intensity, 1.0), 0, p.duration, branches,
          LightningColor(bass, mid, treble, rand, colorCursor), band)
  }

  /** A flash assembled around branches of its class is Spawned. */
  lemma AssembledIsSpawned(volume: real, bass: real, mid: real, treble: real, width: real, height: real,
                           rand: nat -> real, cursor: nat, branches: seq<seq<Point>>, colorCursor: nat)
    requires bass + mid + treble != 0.0
    requires UnitDraws(rand)
    requires Branching(branches, ClassOf(bass, mid, treble))
    ensures Spawned(Assemble(volume, bass, mid, treble, width, height, rand, cursor, branches, colorCursor),
                    volume, bass, mid, treble, width, height)
  {
    var band := ClassOf(bass, mid, treble);
    PlacementFits(band, volume, bass, mid, treble, width, height, rand, cursor);
    SpawnedIntro(Assemble(volume, bass, mid, treble, width, height, rand, cursor, branches, colorCursor),
                 volume, bass, mid, treble, width, height);
  }

  /** The position and lifetime draws land in the class's ranges. */
  lemma PlacementFits(band: Band, volume: real, bass: real, mid: real, treble: real,
                      width: real, height: real, rand: nat -> real, cursor: nat)
    requires UnitDraws(rand)
    ensures var p := Place(band, volume, bass, mid, treble, height, rand(cursor), rand(cursor + 1));
      LifetimeFits(band, p.duration) && HeightFits(band, p.y, height)
    ensures var x := rand(cursor + 2) * width;
      (width >= 0.0 ==> 0.0 <= x <= width) && (width > 0.0 ==> x < width)
  {
    PlaceFits(band, volume, bass, mid, treble, height, rand(cursor), rand(cursor + 1));
    if width > 0.0 {
      ScaleUnit(rand(cursor + 2), width);
    } else if width == 0.0 {
      assert rand(cursor + 2) * width == 0.0;
    }
  }

  /** f is the flash one iteration of triggerLightning assembles from the
      draws at cursor up to, not including, next: the vertical position,
      the lifetime and the horizontal position from the first three, then
      the branches of the class's shape from cursor + 3 on, then the five
      colour draws. */
  ghost predicate DrawnFlash(f: Flash, volume: real, bass: real, mid: real, treble: real,
                             width: real, height: real, rand: nat -> real, cursor: nat, next: nat)
    requires bass + mid + treble != 0.0
    requires UnitDraws(rand)
  {
    var total := bass + mid + treble;
    var s := BranchShape(bass / total, treble / total, rand(cursor + 3), rand(cursor + 4));
    && next >= cursor + 5
    && f == Assemble(volume, bass, mid, treble, width, height, rand, cursor, f.branches, next - 5)
    && |f.branches| == s.branchCount
    && next - 5 == BranchStart(cursor + 3, s, s.branchCount)
    && forall i :: 0 <= i < |f.branches| ==> DrawnBranch(f.branches[i], s, rand, BranchStart(cursor + 3, s, i))
  }

  /** One iteration of triggerLightning's loop: draws for the vertical
      position, the lifetime and the horizontal position, then the branches
      of the class's shape, then the colour. The flash is the assembly of
      exactly these draws, and its branches are of its class, so it is
      Spawned. */
  method NewFlash(volume: real, bass: real, mid: real, treble: real,
                  width: real, height: real, rand: nat -> real, cursor: nat)
    returns (f: Flash, next: nat)
    requires bass + mid + treble != 0.0
    requires UnitDraws(rand)
    ensures DrawnFlash(f, volume, bass, mid, treble, width, height, rand, cursor, next)
    ensures Spawned(f, volume, bass, mid, treble, width, height)
  {
    var total := bass + mid + treble;
    var band := ClassOf(bass, mid, treble);
    assert band == Classify(bass / total, treble / total);
    var branches, afterBranches := GenerateBranches(bass / total, treble / total, rand, cursor + 3);
    f := Assemble(volume, bass, mid, treble, width, height, rand, cursor, branches, afterBranches);
    next := afterBranches + 5;
    AssembledIsSpawned(volume, bass, mid, treble, width, height, rand, cursor, branches, afterBranches);
    AssembledIsDrawn(volume, bass, mid, treble, width, height, rand, cursor, branches, afterBranches);
  }

  /** A flash assembled around branches drawn from cursor + 3 on, with the
      colour drawn right after them, is DrawnFlash. */
  lemma AssembledIsDrawn(volume: real, bass: real, mid: real, treble: real, width: real, height: real,
                         rand: nat -> real, cursor: nat, branches: seq<seq<Point>>, colorCursor: nat)
    requires bass + mid + treble != 0.0
    requires UnitDraws(rand)
    requires var total := bass + mid + treble;
      var s := BranchShape(bass / total, treble / total, rand(cursor + 3), rand(cursor + 4));
      && |branches| == s.branchCount
      && colorCursor == BranchStart(cursor + 3, s, s.branchCount)
      && forall i :: 0 <= i < |branches| ==> DrawnBranch(branches[i], s, rand, BranchStart(cursor + 3, s, i))
    ensures DrawnFlash(Assemble(volume, bass, mid, treble, width, height, rand, cursor, branches, colorCursor),
                       volume, bass, mid, treble, width, height, rand, cursor, colorCursor + 5)
  {
  }

  /** Two walks drawn with the same shape from the same draws agree up to
      point j. */
  lemma {:induction false} DrawnPointsAgree(b1: seq<Point>, b2: seq<Point>, s: Shape,
                                            rand: nat -> real, start: nat, j: nat)
    requires DrawnBranch(b1, s, rand, start) && DrawnBranch(b2, s, rand, start)
    requires j < |b1|
    ensures b1[j] == b2[j]
    decreases j
  {
    if j > 0 {
      DrawnPointsAgree(b1, b2, s, rand, start, j - 1);
    }
  }

  /** The draws fix the walk: a branch is a function of its shape and of
      the position of its first draw. */
  lemma DrawnBranchUnique(b1: seq<Point>, b2: seq<Point>, s: Shape, rand: nat -> real, start: nat)
    requires DrawnBranch(b1, s, rand, start) && DrawnBranch(b2, s, rand, start)
    ensures b1 == b2
  {
    forall j | 0 <= j < |b1| ensures b1[j] == b2[j] {
      DrawnPointsAgree(b1, b2, s, rand, start, j);
    }
  }

  /** The draws fix the flash: two flashes drawn from the same cursor are
      equal and use the same draws. */
  lemma DrawnFlashUnique(f: Flash, g: Flash, volume: real, bass: real, mid: real, treble: real,
                         width: real, height: real, rand: nat -> real, cursor: nat, n1: nat, n2: nat)
    requires bass + mid + treble != 0.0
    requires UnitDraws(rand)
    requires DrawnFlash(f, volume, bass, mid, treble, width, height, rand, cursor, n1)
    requires DrawnFlash(g, volume, bass, mid, treble, width, height, rand, cursor, n2)
    ensures f == g && n1 == n2
  {
    var total := bass + mid + treble;
    var s := BranchShape(bass / total, treble / total, rand(cursor + 3), rand(cursor + 4));
    forall i | 0 <= i < |f.branches| ensures f.branches[i] == g.branches[i] {
      DrawnBranchUnique(f.branches[i], g.branches[i], s, rand, BranchStart(cursor + 3, s, i));
    }
    assert f.branches == g.branches;
  }

  /** fs are the flashes of consecutive loop iterations of triggerLightning,
      flash k drawn from cursors[k] up to cursors[k + 1]. */
  ghost predicate DrawnFlashes(fs: seq<Flash>, cursors: seq<nat>, volume: real, bass: real, mid: real,
                               treble: real, width: real, height: real, rand: nat -> real)
    requires bass + mid + treble != 0.0
    requires UnitDraws(rand)
  {
    && |cursors| == |fs| + 1
    && forall k :: 0 <= k < |fs| ==>
         DrawnFlash(fs[k], volume, bass, mid, treble, width, height, rand, cursors[k], cursors[k + 1])
  }

  /** One more loop iteration extends the drawn flashes by the flash drawn
      from where the last one stopped. */
  lemma DrawnFlashesSnoc(fs: seq<Flash>, cursors: seq<nat>, f: Flash, next: nat,
                         volume: real, bass: real, mid: real, treble: real,
                         width: real, height: real, rand: nat -> real)
    requires bass + mid + treble != 0.0
    requires UnitDraws(rand)
    requires DrawnFlashes(fs, cursors, volume, bass, mid, treble, width, height, rand)
    requires DrawnFlash(f, volume, bass, mid, treble, width, height, rand, cursors[|fs|], next)
    ensures DrawnFlashes(fs + [f], cursors + [next], volume, bass, mid, treble, width, height, rand)
    ensures (cursors + [next])[0] == cursors[0] && (cursors + [next])[|fs| + 1] == next
  {
    var gs, ds := fs + [f], cursors + [next];
    forall k | 0 <= k < |gs|
      ensures DrawnFlash(gs[k], volume, bass, mid, treble, width, height, rand, ds[k], ds[k + 1])
    {
      if k < |fs| {
        assert gs[k] == fs[k] && ds[k] == cursors[k] && ds[k + 1] == cursors[k + 1];
      }
    }
  }

  lemma {:induction false} DrawnPrefixAgree(fs: seq<Flash>, gs: seq<Flash>, cs: seq<nat>, ds: seq<nat>,
                                            volume: real, bass: real, mid: real, treble: real,
                                            width: real, height: real, rand: nat -> real, n: nat)
    requires bass + mid + treble != 0.0
    requires UnitDraws(rand)
    requires DrawnFlashes(fs, cs, volume, bass, mid, treble, width, height, rand)
    requires DrawnFlashes(gs, ds, volume, bass, mid, treble, width, height, rand)
    requires |fs| == |gs| && cs[0] == ds[0] && n <= |fs|
    ensures forall j :: 0 <= j <= n ==> cs[j] == ds[j]
    ensures forall j :: 0 <= j < n ==> fs[j] == gs[j]
    decreases n
  {
    if n > 0 {
      DrawnPrefixAgree(fs, gs, cs, ds, volume, bass, mid, treble, width, height, rand, n - 1);
      DrawnFlashUnique(fs[n - 1], gs[n - 1], volume, bass, mid, treble, width, height, rand,
                       cs[n - 1], cs[n], ds[n]);
    }
  }

  /** The draws fix a whole trigger: the same number of flashes drawn from
      the same cursor are the same flashes and leave the same cursor. */
  lemma DrawnFlashesUnique(fs: seq<Flash>, gs: seq<Flash>, cs: seq<nat>, ds: seq<nat>,
                           volume: real, bass: real, mid: real, treble: real,
                           width: real, height: real, rand: nat -> real)
    requires bass + mid + treble != 0.0
    requires UnitDraws(rand)
    requires DrawnFlashes(fs, cs, volume, bass, mid, treble, width, height, rand)
    requires DrawnFlashes(gs, ds, volume, bass, mid, treble, width, height, rand)
    requires |fs| == |gs| && cs[0] == ds[0]
    ensures fs == gs && cs == ds
  {
    DrawnPrefixAgree(fs, gs, cs, ds, volume, bass, mid, treble, width, height, rand, |fs|);
  }
}
