/**
 * The text-analysis part of the assignment2 sketch: a source text is
 * tokenized once per "Save", then each of three search terms is scanned
 * for, and every match adds `nCubes` decorative meshes to that term's own
 * group, at a height given by the match's index in the token stream.
 */
module Assignment2 {
  import opened Wrappers
  import opened Tokenizer
  import opened Layout
  import opened SceneGraph

  /** One `uiObj.termN` record (the source spells `emissive` as `emmissive`). */
  datatype TermParams = TermParams(
    term: string,
    color: string,
    diameter: real,
    dynamicScale: bool,
    emissive: bool,
    group: Group,
    nCubes: nat,
    randomized: bool,
    scale: real)

  /** 'lightning' gets a torus knot, 'quest' a torus, every other term a sphere. */
  function GeometryFor(term: string): (g: Geometry)
    ensures g.TorusKnot? <==> term == "lightning"
    ensures g.Torus? <==> term == "quest"
    ensures g.Sphere? <==> term != "lightning" && term != "quest"
    ensures !g.Box?
  {
    if term == "lightning" then TorusKnot(0.5, 0.1, 8, 20, 1, 20)
    else if term == "quest" then Torus(0.4, 0.15, 16, 100)
    else Sphere(0.25, 16, 16)
  }

  /** An emissive term glows in its own colour; any other is plain. */
  function MaterialFor(p: TermParams): (m: Material)
    ensures m.color == p.color
    ensures m.Glowing? <==> p.emissive
  {
    if p.emissive then Glowing(p.color, 100.0, 0.8) else Plain(p.color)
  }

  /** `Math.random` calls made by one drawCube: two for x and z, three more when randomized. */
  function DrawsPerCube(p: TermParams): (r: nat)
    ensures r == 5 <==> p.randomized
    ensures r == 2 <==> !p.randomized
  {
    if p.randomized then 5 else 2
  }

  /**
   * `Math.random` calls made by `calls` drawCube calls, one after the
   * other: `calls` times DrawsPerCube, written with a literal factor so
   * that it stays linear.
   */
  function Draws(p: TermParams, calls: nat): (r: nat)
    ensures r == calls * DrawsPerCube(p)
  {
    if p.randomized then 5 * calls else 2 * calls
  }

  /**
   * The mesh one drawCube(height, p) call adds, when the random draws it
   * makes are rand(at), rand(at + 1), ...: x then z, then the discarded
   * rotation.x, rotation.z and rotation.y draws when randomized.
   */
  function CubeMesh(height: real, p: TermParams, rand: int -> real, at: int): (m: Mesh)
    ensures 0.0 <= rand(at) < 1.0 && p.diameter > 0.0 ==> -p.diameter / 2.0 <= m.position.x < p.diameter / 2.0
    ensures 0.0 <= rand(at + 1) < 1.0 && p.diameter > 0.0 ==> -p.diameter / 2.0 <= m.position.z < p.diameter / 2.0
    ensures p.randomized && 0.0 <= rand(at + 4) < 1.0 ==> 0.0 <= m.rotation.y < 2.0 * Pi
    ensures p.randomized && 0.0 <= rand(at + 3) < 1.0 ==> 0.0 <= m.rotation.z < 2.0 * Pi
    ensures !p.randomized ==> m.rotation.y == 0.0 && m.rotation.z == 0.0
  {
    var position := Vec3(Jitter(rand(at), p.diameter), height - 10.0, Jitter(rand(at + 1), p.diameter));
    var size := if p.dynamicScale then height * 0.05 else p.scale;
    var turnY := if p.randomized then Angle(rand(at + 4)) else 0.0;
    var turnZ := if p.randomized then Angle(rand(at + 3)) else 0.0;
    Mesh(GeometryFor(p.term), MaterialFor(p), position, Vec3(size, size, size), Vec3(Pi / 2.0, turnY, turnZ))
  }

  /** The meshes drawn for a list of calls, each call taking the next DrawsPerCube draws. */
  function Render(ps: seq<Placement>, p: TermParams, rand: int -> real, at: int): (r: seq<Mesh>)
    ensures |r| == |ps|
  {
    seq(|ps|, k requires 0 <= k < |ps| => CubeMesh(ps[k].height, p, rand, at + Draws(p, k)))
  }

  /** The materials pushed onto `flickeringCubes` by `count` drawCube calls. */
  function Glow(p: TermParams, count: nat): (r: seq<Material>)
    ensures |r| == if p.emissive then count else 0
    ensures forall k :: 0 <= k < |r| ==> r[k] == Glowing(p.color, 100.0, 0.8)
  {
    if p.emissive then seq(count, _ => MaterialFor(p)) else []
  }

  // ---------------------------------------------------------------------
  // What drawCube settles
  // ---------------------------------------------------------------------

  /**
   * The deterministic part of one drawCube call: the geometry follows the
   * term, the material the emissive flag, y is height - 10, the scale is
   * `scale` or height * 0.05, rotation.x always ends at Pi / 2; with draws
   * in [0, 1), x and z lie in [-diameter/2, diameter/2) and the other two
   * rotations are angles in [0, 2*Pi) when randomized and 0 otherwise.
   */
  lemma CubeMeshPlacement(height: real, p: TermParams, rand: int -> real, at: int)
    requires InUnitInterval(rand)
    ensures var m := CubeMesh(height, p, rand, at);
      && m.geometry == GeometryFor(p.term)
      && (m.material.Glowing? <==> p.emissive) && m.material.color == p.color
      && m.position.y == height - 10.0
      && (p.diameter > 0.0 ==>
            && -p.diameter / 2.0 <= m.position.x < p.diameter / 2.0
            && -p.diameter / 2.0 <= m.position.z < p.diameter / 2.0)
      && m.scale == (if p.dynamicScale then Vec3(height * 0.05, height * 0.05, height * 0.05)
                     else Vec3(p.scale, p.scale, p.scale))
      && m.rotation.x == Pi / 2.0
      && (p.randomized ==> 0.0 <= m.rotation.y < 2.0 * Pi && 0.0 <= m.rotation.z < 2.0 * Pi)
      && (!p.randomized ==> m.rotation.y == 0.0 && m.rotation.z == 0.0)
  {
    assert 0.0 <= rand(at) < 1.0 && 0.0 <= rand(at + 1) < 1.0;
    assert 0.0 <= rand(at + 3) < 1.0 && 0.0 <= rand(at + 4) < 1.0;
  }

  /**
   * What one findSearchTermInTokenizedText(p) adds to p.group: nCubes
   * meshes per matching token, each of the term's geometry and material,
   * with y in [-10, 10), heights never decreasing along the group, and x, z
   * inside the term's diameter.
   */
  lemma ScanMeshes(tokens: seq<string>, p: TermParams, rand: int -> real, at: int)
    requires |tokens| > 0 && InUnitInterval(rand)
    ensures var ms := Render(Placements(tokens, p.term, p.nCubes), p, rand, at);
      && |ms| == |Occurrences(tokens, p.term)| * p.nCubes
      && (forall k :: 0 <= k < |ms| ==>
            && ms[k].geometry == GeometryFor(p.term)
            && ms[k].material == MaterialFor(p)
            && -10.0 <= ms[k].position.y < 10.0
            && (p.diameter > 0.0 ==>
                  && -p.diameter / 2.0 <= ms[k].position.x < p.diameter / 2.0
                  && -p.diameter / 2.0 <= ms[k].position.z < p.diameter / 2.0)
            && ms[k].rotation.x == Pi / 2.0)
      && (forall a, b :: 0 <= a < b < |ms| ==> ms[a].position.y <= ms[b].position.y)
  {
    var ps := Placements(tokens, p.term, p.nCubes);
    var ms := Render(ps, p, rand, at);
    CallCountLaw(tokens, p.term, p.nCubes);
    HeightsAscend(tokens, p.term, p.nCubes);
    forall k | 0 <= k < |ms|
      ensures && ms[k].geometry == GeometryFor(p.term)
              && ms[k].material == MaterialFor(p)
              && -10.0 <= ms[k].position.y < 10.0
              && (p.diameter > 0.0 ==>
                    && -p.diameter / 2.0 <= ms[k].position.x < p.diameter / 2.0
                    && -p.diameter / 2.0 <= ms[k].position.z < p.diameter / 2.0)
              && ms[k].rotation.x == Pi / 2.0
    {
      CubeMeshPlacement(ps[k].height, p, rand, at + Draws(p, k));
    }
    forall a, b | 0 <= a < b < |ms| ensures ms[a].position.y <= ms[b].position.y {
      assert ms[a].position.y == ps[a].height - 10.0;
      assert ms[b].position.y == ps[b].height - 10.0;
    }
  }

  /**
   * Saving the initial, empty source text gives the single token "": a
   * non-empty term then draws nothing, while the empty term matches it.
   */
  lemma EmptyTextScan(p: TermParams, rand: int -> real, at: int)
    ensures Tokenize("") == [""]
    ensures p.term != "" ==> Render(Placements(Tokenize(""), p.term, p.nCubes), p, rand, at) == []
    ensures p.term == "" ==> |Render(Placements(Tokenize(""), p.term, p.nCubes), p, rand, at)| == p.nCubes
  {
    assert StripPeriods("") == "" && LowerAscii("") == "";
    CallCountLaw([""], p.term, p.nCubes);
    assert Occurrences([""], p.term) == if p.term == "" then [0] else [];
  }

  // ---------------------------------------------------------------------
  // Steps of the loops
  // ---------------------------------------------------------------------

  /** Drawing two lists of calls one after the other: the second starts at the draws the first left. */
  lemma RenderAppend(ps: seq<Placement>, qs: seq<Placement>, p: TermParams, rand: int -> real, at: int)
    ensures Render(ps + qs, p, rand, at)
         == Render(ps, p, rand, at) + Render(qs, p, rand, at + Draws(p, |ps|))
  {
    var lhs := Render(ps + qs, p, rand, at);
    var rhs := Render(ps, p, rand, at) + Render(qs, p, rand, at + Draws(p, |ps|));
    forall k | 0 <= k < |lhs| ensures lhs[k] == rhs[k] {
      if k >= |ps| {
        assert (ps + qs)[k] == qs[k - |ps|];
      }
    }
  }

  lemma GlowAppend(p: TermParams, m: nat, n: nat)
    ensures Glow(p, m + n) == Glow(p, m) + Glow(p, n)
  {
  }

  lemma BatchSnoc(term: string, i: nat, height: real, a: nat)
    ensures Batch(term, i, height, a + 1) == Batch(term, i, height, a) + [Placement(term, i, height, a)]
  {
  }

  /**
   * The state after drawing the calls `ps`, starting from children c0, draw
   * counter at0 and glowing list g0: one mesh per call, DrawsPerCube draws
   * per call, one glowing material per call when emissive.
   */
  ghost predicate Drawn(children: seq<Mesh>, used: int, glowing: seq<Material>,
                        c0: seq<Mesh>, at0: int, g0: seq<Material>,
                        p: TermParams, rand: int -> real, ps: seq<Placement>)
  {
    && children == c0 + Render(ps, p, rand, at0)
    && used == at0 + Draws(p, |ps|)
    && glowing == g0 + Glow(p, |ps|)
  }

  /** Drawing `ps` and then `qs` is drawing `ps + qs`. */
  lemma DrawnAppend(p: TermParams, rand: int -> real,
                    c0: seq<Mesh>, at0: int, g0: seq<Material>, ps: seq<Placement>,
                    c1: seq<Mesh>, at1: int, g1: seq<Material>, qs: seq<Placement>,
                    c2: seq<Mesh>, at2: int, g2: seq<Material>)
    requires Drawn(c1, at1, g1, c0, at0, g0, p, rand, ps)
    requires Drawn(c2, at2, g2, c1, at1, g1, p, rand, qs)
    ensures Drawn(c2, at2, g2, c0, at0, g0, p, rand, ps + qs)
  {
    RenderAppend(ps, qs, p, rand, at0);
    GlowAppend(p, |ps|, |qs|);
  }

  /** One drawCube call is the drawing of a single call. */
  lemma DrawnOne(height: real, p: TermParams, rand: int -> real, i: nat, a: nat,
                 cb: seq<Mesh>, ub: int, gb: seq<Material>, ca: seq<Mesh>, ua: int, ga: seq<Material>)
    requires ca == cb + [CubeMesh(height, p, rand, ub)]
    requires ua == ub + DrawsPerCube(p)
    requires ga == gb + (if p.emissive then [MaterialFor(p)] else [])
    ensures Drawn(ca, ua, ga, cb, ub, gb, p, rand, [Placement(p.term, i, height, a)])
  {
    assert Render([Placement(p.term, i, height, a)], p, rand, ub) == [CubeMesh(height, p, rand, ub)];
  }

  /** One turn of the inner loop: one more drawCube call extends the drawn batch by its next call. */
  lemma ScanStep(i: nat, height: real, a: nat, p: TermParams, rand: int -> real,
                 c0: seq<Mesh>, at0: int, g0: seq<Material>,
                 cb: seq<Mesh>, ub: int, gb: seq<Material>, ca: seq<Mesh>, ua: int, ga: seq<Material>)
    requires Drawn(cb, ub, gb, c0, at0, g0, p, rand, Batch(p.term, i, height, a))
    requires ca == cb + [CubeMesh(height, p, rand, ub)]
    requires ua == ub + DrawsPerCube(p)
    requires ga == gb + (if p.emissive then [MaterialFor(p)] else [])
    ensures Drawn(ca, ua, ga, c0, at0, g0, p, rand, Batch(p.term, i, height, a + 1))
  {
    DrawnOne(height, p, rand, i, a, cb, ub, gb, ca, ua, ga);
    DrawnAppend(p, rand, c0, at0, g0, Batch(p.term, i, height, a), cb, ub, gb,
                [Placement(p.term, i, height, a)], ca, ua, ga);
    BatchSnoc(p.term, i, height, a);
  }

  /**
   * One turn of the outer loop: after the calls for the indices below i,
   * the calls for index i (a batch when its token matches, nothing
   * otherwise) give the calls for the indices below i + 1.
   */
  lemma ScanIndex(tokens: seq<string>, p: TermParams, rand: int -> real, i: nat,
                  c0: seq<Mesh>, at0: int, g0: seq<Material>,
                  c1: seq<Mesh>, at1: int, g1: seq<Material>,
                  c2: seq<Mesh>, at2: int, g2: seq<Material>)
    requires i < |tokens|
    requires Drawn(c1, at1, g1, c0, at0, g0, p, rand, PlacementsBelow(tokens, p.term, p.nCubes, i))
    requires tokens[i] == p.term ==>
      Drawn(c2, at2, g2, c1, at1, g1, p, rand, Batch(p.term, i, Height(i, |tokens|), p.nCubes))
    requires tokens[i] != p.term ==> c2 == c1 && at2 == at1 && g2 == g1
    ensures Drawn(c2, at2, g2, c0, at0, g0, p, rand, PlacementsBelow(tokens, p.term, p.nCubes, i + 1))
  {
    var done := PlacementsBelow(tokens, p.term, p.nCubes, i);
    var batch := BatchAt(tokens, p.term, p.nCubes, i);
    assert PlacementsBelow(tokens, p.term, p.nCubes, i + 1) == done + batch;
    if tokens[i] == p.term {
      DrawnAppend(p, rand, c0, at0, g0, done, c1, at1, g1, batch, c2, at2, g2);
    } else {
      assert done + batch == done;
    }
  }

  /**
   * The module-level state of the sketch that the text analysis touches:
   * the three term records and their groups, the parsed and tokenized text
   * (undefined until the first save), and the list of glowing materials
   * that the animation loop makes flicker.
   */
  class Sketch {
    const rng: Rng
    const group1: Group
    const group2: Group
    const group3: Group
    var term1: TermParams
    var term2: TermParams
    var term3: TermParams
    var sourceText: string
    var parsedText: Option<string>
    var tokenizedText: Option<seq<string>>
    var flickeringCubes: seq<Material>

    ghost predicate Valid()
      reads this
    {
      && rng.Valid()
      && group1 != group2 && group1 != group3 && group2 != group3
      && term1.group == group1 && term2.group == group2 && term3.group == group3
      && (tokenizedText.Some? ==> |tokenizedText.value| > 0)
    }

    /** The initial `uiObj` term records, each bound to its own new group. */
    constructor (rng: Rng)
      requires rng.Valid()
      ensures Valid() && this.rng == rng
      ensures fresh(group1) && fresh(group2) && fresh(group3)
      ensures group1.children == [] && group2.children == [] && group3.children == []
      ensures term1 == TermParams("quest", "#D72638", 5.0, true, false, group1, 50, false, 100.0)
      ensures term2 == TermParams("lightning", "#FFFF33", 10.0, false, true, group2, 50, true, 0.5)
      ensures term3 == TermParams("hero", "#2B65EC", 10.0, false, false, group3, 50, true, 1.0)
      ensures sourceText == "" && parsedText == None && tokenizedText == None && flickeringCubes == []
    {
      this.rng := rng;
      var g1 := new Group();
      var g2 := new Group();
      var g3 := new Group();
      group1, group2, group3 := g1, g2, g3;
      term1 := TermParams("quest", "#D72638", 5.0, true, false, g1, 50, false, 100.0);
      term2 := TermParams("lightning", "#FFFF33", 10.0, false, true, g2, 50, true, 0.5);
      term3 := TermParams("hero", "#2B65EC", 10.0, false, false, g3, 50, true, 1.0);
      sourceText := "";
      parsedText, tokenizedText := None, None;
      flickeringCubes := [];
    }

    /** tokenizedSourceText: overwrites the parsed and tokenized text. */
    method TokenizeSourceText(sourceText: string)
      requires Valid()
      modifies this`parsedText, this`tokenizedText
      ensures Valid()
      ensures parsedText == Some(LowerAscii(StripPeriods(sourceText)))
      ensures tokenizedText == Some(Tokenize(sourceText))
    {
      var parsed := LowerAscii(StripPeriods(sourceText));
      parsedText := Some(parsed);
      tokenizedText := Some(SplitOnDelims(parsed));
    }

    /** saveSourceText: tokenizes the text currently entered in the UI. */
    method SaveSourceText()
      requires Valid()
      modifies this`parsedText, this`tokenizedText
      ensures Valid()
      ensures parsedText == Some(LowerAscii(StripPeriods(sourceText)))
      ensures tokenizedText == Some(Tokenize(sourceText))
    {
      TokenizeSourceText(sourceText);
    }

    /** drawCube(height, p): builds one mesh and adds it to p.group. */
    method DrawCube(height: real, p: TermParams)
      requires rng.Valid()
      modifies p.group, this`flickeringCubes, rng
      ensures p.group.children == old(p.group.children) + [CubeMesh(height, p, rng.stream, old(rng.used))]
      ensures rng.used == old(rng.used) + DrawsPerCube(p)
      ensures flickeringCubes == old(flickeringCubes) + (if p.emissive then [MaterialFor(p)] else [])
    {
      ghost var at := rng.used;
      var geometry;
      if p.term == "lightning" {
        geometry := TorusKnot(0.5, 0.1, 8, 20, 1, 20);
      } else if p.term == "quest" {
        geometry := Torus(0.4, 0.15, 16, 100);
      } else {
        geometry := Sphere(0.25, 16, 16);
      }

      var material;
      if p.emissive {
        material := Glowing(p.color, 100.0, 0.8);
        flickeringCubes := flickeringCubes + [material];
      } else {
        material := Plain(p.color);
      }

      var rx := rng.Next();
      var rz := rng.Next();
      var position := Vec3((rx - 0.5) * p.diameter, height - 10.0, (rz - 0.5) * p.diameter);

      var scale := Vec3(p.scale, p.scale, p.scale);
      if p.dynamicScale {
        scale := Vec3(height * 0.05, height * 0.05, height * 0.05);
      }

      var rotation := Vec3(0.0, 0.0, 0.0);
      if p.randomized {
        var turnX := rng.Next();
        var turnZ := rng.Next();
        var turnY := rng.Next();
        rotation := Vec3(turnX * 2.0 * Pi, turnY * 2.0 * Pi, turnZ * 2.0 * Pi);
      }
      rotation := rotation.(x := Pi / 2.0);

      assert geometry == GeometryFor(p.term) && material == MaterialFor(p);
      assert position.x == Jitter(rng.stream(at), p.diameter);
      assert position.z == Jitter(rng.stream(at + 1), p.diameter);
      assert rotation.y == if p.randomized then Angle(rng.stream(at + 4)) else 0.0;
      assert rotation.z == if p.randomized then Angle(rng.stream(at + 3)) else 0.0;
      var mesh := Mesh(geometry, material, position, scale, rotation);
      assert mesh == CubeMesh(height, p, rng.stream, at);
      p.group.Add(mesh);
    }

    /**
     * The inner loop of findSearchTermInTokenizedText: nCubes drawCube
     * calls at one height, for the matching token at index i.
     */
    method DrawBatch(height: real, p: TermParams, ghost i: nat)
      requires rng.Valid()
      modifies p.group, this`flickeringCubes, rng
      ensures Drawn(p.group.children, rng.used, flickeringCubes,
                    old(p.group.children), old(rng.used), old(flickeringCubes),
                    p, rng.stream, Batch(p.term, i, height, p.nCubes))
    {
      ghost var c0, at0, g0 := p.group.children, rng.used, flickeringCubes;
      var a := 0;
      while a < p.nCubes
        invariant 0 <= a <= p.nCubes
        invariant Drawn(p.group.children, rng.used, flickeringCubes, c0, at0, g0, p, rng.stream,
                        Batch(p.term, i, height, a))
      {
        ghost var cb, ub, gb := p.group.children, rng.used, flickeringCubes;
        DrawCube(height, p);
        ScanStep(i, height, a, p, rng.stream, c0, at0, g0, cb, ub, gb, p.group.children, rng.used, flickeringCubes);
        a := a + 1;
      }
    }

    /**
     * findSearchTermInTokenizedText(p): for every token index i whose token
     * is exactly p.term, nCubes drawCube calls at height (100 / len) * i * 0.2.
     * Reading the length of the undefined token list before the first save
     * throws: that is `ok == false`, with nothing changed.
     */
    method FindTerm(p: TermParams) returns (ok: bool)
      requires Valid()
      modifies p.group, this`flickeringCubes, rng
      ensures Valid()
      ensures ok <==> tokenizedText.Some?
      ensures ok ==>
        var ps := Placements(tokenizedText.value, p.term, p.nCubes);
        && p.group.children == old(p.group.children) + Render(ps, p, rng.stream, old(rng.used))
        && rng.used == old(rng.used) + Draws(p, |ps|)
        && flickeringCubes == old(flickeringCubes) + Glow(p, |ps|)
      ensures !ok ==> unchanged(p.group, rng) && flickeringCubes == old(flickeringCubes)
    {
      if tokenizedText.None? {
        return false;
      }
      ok := true;
      var tokens := tokenizedText.value;
      ghost var c0, g0, at0 := p.group.children, flickeringCubes, rng.used;
      var i := 0;
      while i < |tokens|
        invariant 0 <= i <= |tokens|
        invariant Drawn(p.group.children, rng.used, flickeringCubes, c0, at0, g0, p, rng.stream,
                        PlacementsBelow(tokens, p.term, p.nCubes, i))
      {
        ghost var c1, at1, g1 := p.group.children, rng.used, flickeringCubes;
        if tokens[i] == p.term {
          var height := Height(i, |tokens|);
          DrawBatch(height, p, i);
        }
        ScanIndex(tokens, p, rng.stream, i, c0, at0, g0, c1, at1, g1, p.group.children, rng.used, flickeringCubes);
        i := i + 1;
      }
    }

    /**
     * saveTerms: scans for term1, term2 and term3 in that order, each into
     * its own group; the random draws and the glowing materials follow the
     * same order. A throw on the first scan stops the other two.
     */
    method SaveTerms() returns (ok: bool)
      requires Valid()
      modifies group1, group2, group3, this`flickeringCubes, rng
      ensures Valid()
      ensures ok <==> tokenizedText.Some?
      ensures ok ==>
        var tokens := tokenizedText.value;
        var ps1 := Placements(tokens, term1.term, term1.nCubes);
        var ps2 := Placements(tokens, term2.term, term2.nCubes);
        var ps3 := Placements(tokens, term3.term, term3.nCubes);
        var at1 := old(rng.used);
        var at2 := at1 + Draws(term1, |ps1|);
        var at3 := at2 + Draws(term2, |ps2|);
        && group1.children == old(group1.children) + Render(ps1, term1, rng.stream, at1)
        && group2.children == old(group2.children) + Render(ps2, term2, rng.stream, at2)
        && group3.children == old(group3.children) + Render(ps3, term3, rng.stream, at3)
        && rng.used == at3 + Draws(term3, |ps3|)
        && flickeringCubes == old(flickeringCubes) + Glow(term1, |ps1|) + Glow(term2, |ps2|) + Glow(term3, |ps3|)
      ensures !ok ==> unchanged(group1, group2, group3, rng) && flickeringCubes == old(flickeringCubes)
    {
      ok := FindTerm(term1);
      if !ok {
        return;
      }
      ok := FindTerm(term2);
      ok := FindTerm(term3);
    }
  }
}
