/**
 * The prototype4 sketch: one fixed source text is tokenized, then four
 * terms are scanned for in a fixed order, and every match adds 100 small
 * boxes to the scene at a height given by the match's index.
 */
module Prototype4 {
  import opened Wrappers
  import opened Tokenizer
  import opened Layout
  import opened SceneGraph

  /** The first word of the built-in source text. */
  const OpeningWord: string := "Jinwoo"

  /** The rest of the built-in source text, from the space after the first word. */
  const RestOfText: string := " " + "stood atop a ruined battlefield, his black cloak billowing in the wind. With a single command, his shadow army—thousands of undead warriors—rose behind him, their glowing eyes fixed on the enemy ahead. As his strongest shadows, Beru and Igris, knelt before him, Jinwoo smirked. “Let’s finish this.” The ground trembled as his army charged, darkness swallowing everything in their path."

  /** The built-in source text (the single literal of the sketch, written in two parts). */
  const SourceText: string := OpeningWord + RestOfText

  /** drawCube calls per matching token. */
  const CubesPerMatch: nat := 100

  /** `Math.random` calls per drawCube: x, z, then rotation x, z, y. */
  const DrawsPerCube: nat := 5

  /** The box drawCube(height, color) adds when its draws are rand(at), ..., rand(at + 4). */
  function Cube(height: real, color: string, rand: int -> real, at: int): (m: Mesh)
    ensures 0.0 <= rand(at) < 1.0 ==> -5.0 <= m.position.x < 5.0
    ensures 0.0 <= rand(at + 1) < 1.0 ==> -5.0 <= m.position.z < 5.0
    ensures 0.0 <= rand(at + 2) < 1.0 ==> 0.0 <= m.rotation.x < 2.0 * Pi
    ensures 0.0 <= rand(at + 4) < 1.0 ==> 0.0 <= m.rotation.y < 2.0 * Pi
    ensures 0.0 <= rand(at + 3) < 1.0 ==> 0.0 <= m.rotation.z < 2.0 * Pi
  {
    Mesh(Box(0.5, 0.5, 0.5), Plain(color),
         Vec3(Jitter(rand(at), 10.0), height - 10.0, Jitter(rand(at + 1), 10.0)),
         Vec3(1.0, 1.0, 1.0),
         Vec3(Angle(rand(at + 2)), Angle(rand(at + 4)), Angle(rand(at + 3))))
  }

  /** The boxes drawn for a list of calls, each call taking the next five draws. */
  function Render(ps: seq<Placement>, color: string, rand: int -> real, at: int): (r: seq<Mesh>)
    ensures |r| == |ps|
  {
    seq(|ps|, k requires 0 <= k < |ps| => Cube(ps[k].height, color, rand, at + k * DrawsPerCube))
  }

  /**
   * One drawCube call: a 0.5 box in a plain material of the given colour,
   * y at height - 10, x and z in [-5, 5) and all three rotations angles in
   * [0, 2*Pi) when the draws lie in [0, 1).
   */
  lemma CubePlacement(height: real, color: string, rand: int -> real, at: int)
    requires InUnitInterval(rand)
    ensures var m := Cube(height, color, rand, at);
      && m.geometry == Box(0.5, 0.5, 0.5) && m.material == Plain(color)
      && m.position.y == height - 10.0
      && -5.0 <= m.position.x < 5.0 && -5.0 <= m.position.z < 5.0
      && m.scale == Vec3(1.0, 1.0, 1.0)
      && 0.0 <= m.rotation.x < 2.0 * Pi && 0.0 <= m.rotation.y < 2.0 * Pi && 0.0 <= m.rotation.z < 2.0 * Pi
  {
    assert 0.0 <= rand(at) < 1.0 && 0.0 <= rand(at + 1) < 1.0 && 0.0 <= rand(at + 2) < 1.0;
    assert 0.0 <= rand(at + 3) < 1.0 && 0.0 <= rand(at + 4) < 1.0;
  }

  /**
   * What one findSearchTermInTokenizedText(term, color) adds to the scene:
   * 100 boxes per matching token, all of that colour, with y in [-10, 10)
   * never decreasing along the scene, and x, z in [-5, 5).
   */
  lemma ScanCubes(tokens: seq<string>, term: string, color: string, rand: int -> real, at: int)
    requires |tokens| > 0 && InUnitInterval(rand)
    ensures var ms := Render(Placements(tokens, term, CubesPerMatch), color, rand, at);
      && |ms| == |Occurrences(tokens, term)| * 100
      && (forall k :: 0 <= k < |ms| ==>
            && ms[k].geometry == Box(0.5, 0.5, 0.5) && ms[k].material == Plain(color)
            && -10.0 <= ms[k].position.y < 10.0
            && -5.0 <= ms[k].position.x < 5.0 && -5.0 <= ms[k].position.z < 5.0)
      && (forall a, b :: 0 <= a < b < |ms| ==> ms[a].position.y <= ms[b].position.y)
  {
    var ps := Placements(tokens, term, CubesPerMatch);
    var ms := Render(ps, color, rand, at);
    CallCountLaw(tokens, term, CubesPerMatch);
    HeightsAscend(tokens, term, CubesPerMatch);
    forall k | 0 <= k < |ms|
      ensures && ms[k].geometry == Box(0.5, 0.5, 0.5) && ms[k].material == Plain(color)
              && -10.0 <= ms[k].position.y < 10.0
              && -5.0 <= ms[k].position.x < 5.0 && -5.0 <= ms[k].position.z < 5.0
    {
      CubePlacement(ps[k].height, color, rand, at + k * DrawsPerCube);
    }
    forall a, b | 0 <= a < b < |ms| ensures ms[a].position.y <= ms[b].position.y {
      assert ms[a].position.y == ps[a].height - 10.0;
      assert ms[b].position.y == ps[b].height - 10.0;
    }
  }

  /** A term with an ASCII upper-case letter adds nothing to the scene, whatever the text. */
  lemma UppercaseTermDrawsNothing(sourceText: string, term: string, color: string, rand: int -> real, at: int)
    requires !NoUpperAscii(term)
    ensures Render(Placements(Tokenize(sourceText), term, CubesPerMatch), color, rand, at) == []
  {
    UppercaseTermNeverMatches(sourceText, term, CubesPerMatch);
  }

  lemma OpeningWordLowered()
    ensures AllTokenChars(OpeningWord) && LowerAscii(OpeningWord) == "jinwoo"
  {
    assert LowerAscii(OpeningWord)[0] == 'j';
  }

  /**
   * A text that opens with "Jinwoo" and a space has "jinwoo" as its first
   * token, so the first box drawn for "jinwoo" sits at height 0.
   */
  lemma OpensWithJinwoo(rest: string)
    requires rest != "" && rest[0] == ' '
    ensures Tokenize(OpeningWord + rest)[0] == "jinwoo"
    ensures var ps := Placements(Tokenize(OpeningWord + rest), "jinwoo", CubesPerMatch);
      |ps| > 0 && ps[0] == Placement("jinwoo", 0, 0.0, 0)
  {
    OpeningWordLowered();
    FirstToken(OpeningWord, rest);
    FirstMatchFirstDrawn(Tokenize(OpeningWord + rest), "jinwoo", CubesPerMatch);
  }

  /** The built-in text: its first token is "jinwoo", whose first box sits at height 0. */
  lemma BuiltInTextOpensWithJinwoo()
    ensures Tokenize(SourceText)[0] == "jinwoo"
    ensures var ps := Placements(Tokenize(SourceText), "jinwoo", CubesPerMatch);
      |ps| > 0 && ps[0] == Placement("jinwoo", 0, 0.0, 0)
  {
    OpensWithJinwoo(RestOfText);
  }

  /**
   * The em dash and the curly quotes of the built-in text are not token
   * characters, so they separate words ("army—thousands" gives two tokens,
   * and the curly apostrophe of "Let’s" splits it into "let" and "s").
   */
  lemma DashAndCurlyQuotesAreDelimiters()
    ensures !IsTokenChar('—') && !IsTokenChar('“') && !IsTokenChar('’') && !IsTokenChar('”')
    ensures SplitOnDelims("army—thousands") == ["army", "thousands"]
  {
    var ts, ds := ["army", "thousands"], ["—"];
    assert WellFormedSplit(ts, ds);
    assert Interleave(ts, ds) == "army—thousands" by {
      assert ts[1..] == ["thousands"] && ds[1..] == [];
    }
    InterleaveThenSplit(ts, ds);
  }

  /** The state after drawing the calls `ps` from scene children c0 and draw counter at0. */
  ghost predicate Drawn(children: seq<Mesh>, used: int, c0: seq<Mesh>, at0: int,
                        color: string, rand: int -> real, ps: seq<Placement>)
  {
    && children == c0 + Render(ps, color, rand, at0)
    && used == at0 + |ps| * DrawsPerCube
  }

  lemma RenderSnoc(ps: seq<Placement>, q: Placement, color: string, rand: int -> real, at: int)
    ensures Render(ps + [q], color, rand, at)
         == Render(ps, color, rand, at) + [Cube(q.height, color, rand, at + |ps| * DrawsPerCube)]
  {
    var lhs := Render(ps + [q], color, rand, at);
    var rhs := Render(ps, color, rand, at) + [Cube(q.height, color, rand, at + |ps| * DrawsPerCube)];
    forall k | 0 <= k < |lhs| ensures lhs[k] == rhs[k] {
      if k < |ps| {
        assert (ps + [q])[k] == ps[k];
      }
    }
  }

  /** One turn of the inner loop: one more drawCube call extends the drawn state by the next call. */
  lemma ScanStep(done: seq<Placement>, term: string, i: nat, height: real, a: nat, color: string,
                 rand: int -> real, c0: seq<Mesh>, at0: int,
                 cb: seq<Mesh>, ub: int, ca: seq<Mesh>, ua: int)
    requires Drawn(cb, ub, c0, at0, color, rand, done + Batch(term, i, height, a))
    requires ca == cb + [Cube(height, color, rand, ub)]
    requires ua == ub + DrawsPerCube
    ensures Drawn(ca, ua, c0, at0, color, rand, done + Batch(term, i, height, a + 1))
  {
    var ps := done + Batch(term, i, height, a);
    var q := Placement(term, i, height, a);
    assert Batch(term, i, height, a + 1) == Batch(term, i, height, a) + [q];
    assert ps + [q] == done + Batch(term, i, height, a + 1);
    RenderSnoc(ps, q, color, rand, at0);
  }

  /**
   * The module-level state of the sketch: the scene, the parsed and
   * tokenized text (undefined until tokenizedSourceText runs) and the
   * random generator.
   */
  class Sketch {
    const sourceText: string
    const rng: Rng
    const scene: Group
    var parsedText: Option<string>
    var tokenizedText: Option<seq<string>>

    ghost predicate Valid()
      reads this
    {
      && rng.Valid()
      && (tokenizedText.Some? ==> |tokenizedText.value| > 0)
    }

    /** The state before the script's driver runs: an empty scene, both texts undefined. */
    constructor (rng: Rng)
      requires rng.Valid()
      ensures Valid() && this.rng == rng && sourceText == SourceText
      ensures fresh(scene) && scene.children == []
      ensures parsedText == None && tokenizedText == None
    {
      this.rng := rng;
      sourceText := SourceText;
      scene := new Group();
      parsedText, tokenizedText := None, None;
    }

    /** tokenizedSourceText: parses and tokenizes the source text. */
    method TokenizeSourceText()
      requires Valid()
      modifies this`parsedText, this`tokenizedText
      ensures Valid()
      ensures parsedText == Some(LowerAscii(StripPeriods(sourceText)))
      ensures tokenizedText == Some(Tokenize(sourceText))
    {
      var parsed := LowerAscii(StripPeriods(sourceText));
      parsedText := Some(parsed);
      tokenizedText := Some(SplitOnDelims(parsed));
    }

    /** drawCube(height, color): builds one box and adds it to the scene. */
    method DrawCube(height: real, color: string)
      requires rng.Valid()
      modifies scene, rng
      ensures scene.children == old(scene.children) + [Cube(height, color, rng.stream, old(rng.used))]
      ensures rng.used == old(rng.used) + DrawsPerCube
    {
      ghost var at := rng.used;
      var material := Plain(color);
      var rx := rng.Next();
      var rz := rng.Next();
      var position := Vec3((rx - 0.5) * 10.0, height - 10.0, (rz - 0.5) * 10.0);
      var turnX := rng.Next();
      var turnZ := rng.Next();
      var turnY := rng.Next();
      var rotation := Vec3(turnX * 2.0 * Pi, turnY * 2.0 * Pi, turnZ * 2.0 * Pi);
      assert position.x == Jitter(rng.stream(at), 10.0);
      assert position.z == Jitter(rng.stream(at + 1), 10.0);
      scene.Add(Mesh(Box(0.5, 0.5, 0.5), material, position, Vec3(1.0, 1.0, 1.0), rotation));
    }

    /**
     * findSearchTermInTokenizedText(term, color): for every token index i
     * whose token is exactly `term`, 100 drawCube calls at height
     * (100 / len) * i * 0.2. Before tokenizedSourceText has run, reading the
     * length of the undefined token list throws: that is `ok == false`.
     */
    method FindTerm(term: string, color: string) returns (ok: bool)
      requires Valid()
      modifies scene, rng
      ensures ok <==> tokenizedText.Some?
      ensures ok ==>
        var ps := Placements(tokenizedText.value, term, CubesPerMatch);
        && scene.children == old(scene.children) + Render(ps, color, rng.stream, old(rng.used))
        && rng.used == old(rng.used) + |ps| * DrawsPerCube
      ensures !ok ==> unchanged(scene, rng)
    {
      if tokenizedText.None? {
        return false;
      }
      ok := true;
      var tokens := tokenizedText.value;
      ghost var c0, at0 := scene.children, rng.used;
      var i := 0;
      while i < |tokens|
        invariant 0 <= i <= |tokens|
        invariant rng.Valid()
        invariant Drawn(scene.children, rng.used, c0, at0, color, rng.stream,
                        PlacementsBelow(tokens, term, CubesPerMatch, i))
      {
        ghost var done := PlacementsBelow(tokens, term, CubesPerMatch, i);
        if tokens[i] == term {
          var height := Height(i, |tokens|);
          var a := 0;
          assert done + Batch(term, i, height, 0) == done;
          while a < 100
            invariant 0 <= a <= 100
            invariant rng.Valid()
            invariant Drawn(scene.children, rng.used, c0, at0, color, rng.stream,
                            done + Batch(term, i, height, a))
          {
            ghost var cb, ub := scene.children, rng.used;
            DrawCube(height, color);
            ScanStep(done, term, i, height, a, color, rng.stream, c0, at0, cb, ub, scene.children, rng.used);
            a := a + 1;
          }
          assert Batch(term, i, height, CubesPerMatch) == BatchAt(tokens, term, CubesPerMatch, i);
        } else {
          assert done + BatchAt(tokens, term, CubesPerMatch, i) == done;
        }
        assert PlacementsBelow(tokens, term, CubesPerMatch, i + 1) == done + BatchAt(tokens, term, CubesPerMatch, i);
        i := i + 1;
      }
    }

    /**
     * The script's driver: tokenize, then scan for "jinwoo" (purple),
     * "army" (black), "igris" (red) and "beru" (blue) in that order, each
     * scan's boxes following the previous ones in the scene and taking the
     * next random draws.
     */
    method RunScript()
      requires Valid()
      modifies this`parsedText, this`tokenizedText, scene, rng
      ensures Valid()
      ensures parsedText == Some(LowerAscii(StripPeriods(sourceText)))
      ensures tokenizedText == Some(Tokenize(sourceText))
      ensures
        var tokens := Tokenize(sourceText);
        var ps1 := Placements(tokens, "jinwoo", CubesPerMatch);
        var ps2 := Placements(tokens, "army", CubesPerMatch);
        var ps3 := Placements(tokens, "igris", CubesPerMatch);
        var ps4 := Placements(tokens, "beru", CubesPerMatch);
        var at1 := old(rng.used);
        var at2 := at1 + |ps1| * DrawsPerCube;
        var at3 := at2 + |ps2| * DrawsPerCube;
        var at4 := at3 + |ps3| * DrawsPerCube;
        && scene.children == old(scene.children)
             + Render(ps1, "purple", rng.stream, at1) + Render(ps2, "black", rng.stream, at2)
             + Render(ps3, "red", rng.stream, at3) + Render(ps4, "blue", rng.stream, at4)
        && rng.used == at4 + |ps4| * DrawsPerCube
    {
      TokenizeSourceText();
      ghost var tokens := Tokenize(sourceText);
      ghost var drawn := old(scene.children);
      var ok := FindTerm("jinwoo", "purple");
      drawn := drawn + Render(Placements(tokens, "jinwoo", CubesPerMatch), "purple", rng.stream, old(rng.used));
      assert scene.children == drawn;
      ghost var at := rng.used;
      ok := FindTerm("army", "black");
      drawn := drawn + Render(Placements(tokens, "army", CubesPerMatch), "black", rng.stream, at);
      assert scene.children == drawn;
      at := rng.used;
      ok := FindTerm("igris", "red");
      drawn := drawn + Render(Placements(tokens, "igris", CubesPerMatch), "red", rng.stream, at);
      assert scene.children == drawn;
      at := rng.used;
      ok := FindTerm("beru", "blue");
      drawn := drawn + Render(Placements(tokens, "beru", CubesPerMatch), "blue", rng.stream, at);
      assert scene.children == drawn;
    }
  }
}
