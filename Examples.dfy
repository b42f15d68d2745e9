/**
 * Worked examples of the pipeline on short texts: the tokenizer on a
 * sentence with a capital and a final period, and a scan on a text with a
 * repeated word.
 */
module Examples {
  import opened Tokenizer
  import opened Layout

  /**
   * Two words of token characters separated by one space, optionally
   * followed by periods only, tokenize to the two lower-cased words.
   */
  lemma {:induction false} TwoWords(w1: string, w2: string, tail: string)
    requires AllTokenChars(w1) && AllTokenChars(w2)
    requires forall j :: 0 <= j < |tail| ==> tail[j] == '.'
    ensures Tokenize(w1 + " " + w2 + tail) == [LowerAscii(w1), LowerAscii(w2)]
  {
    var s := w1 + " " + w2;
    var lo1, lo2 := LowerAscii(w1), LowerAscii(w2);
    assert StripPeriods(s + tail) == s by {
      StripPeriodsAppend(s, tail);
      StripPeriodsAppend(w1 + " ", w2);
      StripPeriodsAppend(w1, " ");
      StripPeriodsKeepsTokens(w1);
      StripPeriodsKeepsTokens(w2);
      OnlyPeriods(tail);
      assert StripPeriods(" ") == " ";
    }
    assert LowerAscii(s) == lo1 + " " + lo2 by {
      LowerAsciiAppend(w1 + " ", w2);
      LowerAsciiAppend(w1, " ");
      assert LowerAscii(" ") == " ";
    }
    assert AllTokenChars(lo1) && AllTokenChars(lo2) by {
      LowerAsciiPointwise(w1);
      LowerAsciiPointwise(w2);
    }
    var ts, ds := [lo1, lo2], [" "];
    assert WellFormedSplit(ts, ds);
    assert Interleave(ts, ds) == lo1 + " " + lo2 by {
      assert ts[1..] == [lo2] && ds[1..] == [];
    }
    InterleaveThenSplit(ts, ds);
  }

  lemma {:induction false} OnlyPeriods(tail: string)
    requires forall j :: 0 <= j < |tail| ==> tail[j] == '.'
    ensures StripPeriods(tail) == ""
    decreases |tail|
  {
    if tail != "" {
      OnlyPeriods(tail[1..]);
    }
  }

  lemma HelloLowered()
    ensures AllTokenChars("Hello") && LowerAscii("Hello") == "hello"
  {
    LowerAsciiPointwise("Hello");
  }

  lemma WorldLowered()
    ensures AllTokenChars("World") && LowerAscii("World") == "world"
  {
    LowerAsciiPointwise("World");
  }

  /** "Hello World." tokenizes to ["hello", "world"]: the period goes and the capitals are lowered. */
  lemma HelloWorld()
    ensures Tokenize("Hello World.") == ["hello", "world"]
  {
    HelloLowered();
    WorldLowered();
    assert "Hello World." == "Hello" + " " + "World" + ".";
    TwoWords("Hello", "World", ".");
  }

  lemma {:induction false} StripPeriodsNoPeriod(s: string)
    requires '.' !in s
    ensures StripPeriods(s) == s
    decreases |s|
  {
    if s != "" {
      assert s == [s[0]] + s[1..];
      StripPeriodsNoPeriod(s[1..]);
    }
  }

  lemma {:induction false} LowerAsciiNoUpper(s: string)
    requires NoUpperAscii(s)
    ensures LowerAscii(s) == s
    decreases |s|
  {
    if s != "" {
      assert s == [s[0]] + s[1..];
      LowerAsciiNoUpper(s[1..]);
    }
  }

  /**
   * Words of token characters without capitals, joined by single spaces,
   * are left alone by the period strip and the lower-casing.
   */
  lemma {:induction false} SpacedWordsUnchanged(ts: seq<string>, ds: seq<string>)
    requires |ts| == |ds| + 1
    requires forall k :: 0 <= k < |ts| ==> AllTokenChars(ts[k]) && NoUpperAscii(ts[k])
    requires forall k :: 0 <= k < |ds| ==> ds[k] == " "
    ensures StripPeriods(Interleave(ts, ds)) == Interleave(ts, ds)
    ensures LowerAscii(Interleave(ts, ds)) == Interleave(ts, ds)
    decreases |ds|
  {
    StripPeriodsKeepsTokens(ts[0]);
    LowerAsciiNoUpper(ts[0]);
    if ds != [] {
      var rest := Interleave(ts[1..], ds[1..]);
      SpacedWordsUnchanged(ts[1..], ds[1..]);
      assert Interleave(ts, ds) == ts[0] + (" " + rest);
      StripPeriodsAppend(ts[0], " " + rest);
      StripPeriodsAppend(" ", rest);
      LowerAsciiAppend(ts[0], " " + rest);
      LowerAsciiAppend(" ", rest);
      assert StripPeriods(" ") == " " && LowerAscii(" ") == " ";
    }
  }

  lemma ArmyJoined()
    ensures Interleave(["army", "army", "shadow", "army"], [" ", " ", " "]) == "army army shadow army"
  {
    var ts, ds := ["army", "army", "shadow", "army"], [" ", " ", " "];
    assert ts[1..][1..][1..] == ["army"] && ds[1..][1..][1..] == [];
  }

  lemma {:induction false} SpacedWordsSplit(ts: seq<string>, ds: seq<string>)
    requires |ts| == |ds| + 1
    requires forall k :: 0 <= k < |ts| ==> AllTokenChars(ts[k]) && NoUpperAscii(ts[k]) && ts[k] != ""
    requires forall k :: 0 <= k < |ds| ==> ds[k] == " "
    ensures Tokenize(Interleave(ts, ds)) == ts
  {
    SpacedWordsUnchanged(ts, ds);
    InterleaveThenSplit(ts, ds);
  }

  /** "army army shadow army" tokenizes to its four words. */
  lemma ArmyText()
    ensures Tokenize("army army shadow army") == ["army", "army", "shadow", "army"]
  {
    var ts, ds := ["army", "army", "shadow", "army"], [" ", " ", " "];
    ArmyJoined();
    assert forall k :: 0 <= k < |ts| ==> AllTokenChars(ts[k]) && NoUpperAscii(ts[k]) && ts[k] != "";
    SpacedWordsSplit(ts, ds);
  }

  /** The scan of "army" over the four words of "army army shadow army". */
  lemma ArmyTokenScan()
    ensures var tokens := ["army", "army", "shadow", "army"];
      && Occurrences(tokens, "army") == [0, 1, 3]
      && Height(0, 4) == 0.0 && Height(1, 4) == 5.0 && Height(3, 4) == 15.0
      && |Placements(tokens, "army", 100)| == 300
  {
    var tokens := ["army", "army", "shadow", "army"];
    assert OccurrencesBelow(tokens, "army", 2) == [0, 1];
    assert OccurrencesBelow(tokens, "army", 3) == [0, 1];
    CallCountLaw(tokens, "army", 100);
  }

  /**
   * "army army shadow army": the tokens are its four words, "army" occurs
   * at indices 0, 1 and 3, at heights 0, 5 and 15, and a count of 100
   * gives 300 drawCube calls.
   */
  lemma ArmyScan(tokens: seq<string>)
    requires tokens == Tokenize("army army shadow army")
    ensures tokens == ["army", "army", "shadow", "army"]
    ensures Occurrences(tokens, "army") == [0, 1, 3]
    ensures Height(0, |tokens|) == 0.0 && Height(1, |tokens|) == 5.0 && Height(3, |tokens|) == 15.0
    ensures |Placements(tokens, "army", 100)| == 300
  {
    ArmyText();
    ArmyTokenScan();
  }
}
