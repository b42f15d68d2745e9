/**
 * The text tokenizer shared by the two sketches: strip every '.', lower-case
 * ASCII letters, then split on maximal runs of characters that are neither a
 * regular-expression word character ([A-Za-z0-9_], the class `\w` of a
 * JavaScript regular expression without the `u` flag) nor an apostrophe.
 */
module Tokenizer {

  /** `\w` of a JavaScript regular expression without the `u` flag. */
  predicate IsWordChar(c: char) {
    'a' <= c <= 'z' || 'A' <= c <= 'Z' || '0' <= c <= '9' || c == '_'
  }

  /** Characters that may appear inside a token: the complement of `[^\w']`. */
  predicate IsTokenChar(c: char) {
    IsWordChar(c) || c == '\''
  }

  predicate IsUpperAscii(c: char) {
    'A' <= c <= 'Z'
  }

  predicate AllTokenChars(t: string) {
    forall j :: 0 <= j < |t| ==> IsTokenChar(t[j])
  }

  predicate AllDelimiters(d: string) {
    forall j :: 0 <= j < |d| ==> !IsTokenChar(d[j])
  }

  predicate NoUpperAscii(t: string) {
    forall j :: 0 <= j < |t| ==> !IsUpperAscii(t[j])
  }

  /** `replaceAll(".", "")`: drops every period and keeps everything else. */
  function StripPeriods(s: string): (r: string)
    ensures '.' !in r
    ensures |r| <= |s|
  {
    if s == [] then []
    else
      assert s == [s[0]] + s[1..];
      (if s[0] == '.' then [] else [s[0]]) + StripPeriods(s[1..])
  }

  /**
   * Every character other than '.' keeps its number of occurrences, and the
   * length drops by exactly the number of periods.
   */
  lemma {:induction false} StripPeriodsCounts(s: string)
    ensures forall c :: c != '.' ==> multiset(StripPeriods(s))[c] == multiset(s)[c]
    ensures |StripPeriods(s)| == |s| - multiset(s)['.']
    decreases |s|
  {
    if s != [] {
      StripPeriodsCounts(s[1..]);
      assert s == [s[0]] + s[1..];
      assert multiset(s) == multiset{s[0]} + multiset(s[1..]);
    }
  }

  /** `toLowerCase` on one character, restricted to the ASCII letters. */
  function LowerChar(c: char): (r: char)
    ensures !IsUpperAscii(r)
    ensures IsUpperAscii(c) ==> r as int == c as int + 32
    ensures !IsUpperAscii(c) ==> r == c
    ensures IsTokenChar(r) <==> IsTokenChar(c)
  {
    if IsUpperAscii(c) then (c as int + 32) as char else c
  }

  /** `toLowerCase` on a string, character by character. */
  function LowerAscii(s: string): (r: string)
    ensures |r| == |s|
  {
    if s == [] then [] else [LowerChar(s[0])] + LowerAscii(s[1..])
  }

  /** Lower-casing works in place: each character is lowered on its own, and no ASCII capital is left. */
  lemma {:induction false} LowerAsciiPointwise(s: string)
    ensures forall j :: 0 <= j < |s| ==> LowerAscii(s)[j] == LowerChar(s[j])
    ensures NoUpperAscii(LowerAscii(s))
    decreases |s|
  {
    if s != [] {
      LowerAsciiPointwise(s[1..]);
      var r := LowerAscii(s);
      forall j | 0 <= j < |s| ensures r[j] == LowerChar(s[j]) {
        if j > 0 {
          assert r[j] == LowerAscii(s[1..])[j - 1];
        }
      }
    }
  }

  /**
   * `split(/[^\w']+/)`: the pieces of `s` between maximal runs of
   * delimiters, with an empty first (last) piece when `s` starts (ends)
   * with a delimiter, and `[""]` for the empty string.
   */
  function SplitOnDelims(s: string): (r: seq<string>)
    ensures |r| >= 1
    ensures s != "" && IsTokenChar(s[0]) ==> r[0] != "" && r[0][0] == s[0]
    ensures s != "" && !IsTokenChar(s[0]) ==> r[0] == ""
    decreases |s|
  {
    if s == "" then [""]
    else
      assert s == [s[0]] + s[1..];
      if IsTokenChar(s[0]) then
        var rest := SplitOnDelims(s[1..]);
        [[s[0]] + rest[0]] + rest[1..]
      else if |s| > 1 && !IsTokenChar(s[1]) then
        SplitOnDelims(s[1..])
      else
        [""] + SplitOnDelims(s[1..])
  }

  /** The maximal delimiter runs that `SplitOnDelims` cuts at, in order. */
  function DelimiterRuns(s: string): (r: seq<string>)
    ensures |r| + 1 == |SplitOnDelims(s)|
    ensures s != "" && !IsTokenChar(s[0]) ==> |r| >= 1 && r[0] != "" && r[0][0] == s[0]
    decreases |s|
  {
    if s == "" then []
    else if IsTokenChar(s[0]) then
      DelimiterRuns(s[1..])
    else if |s| > 1 && !IsTokenChar(s[1]) then
      var rest := DelimiterRuns(s[1..]);
      [[s[0]] + rest[0]] + rest[1..]
    else
      [[s[0]]] + DelimiterRuns(s[1..])
  }

  /** t0 + d0 + t1 + d1 + ... + tn: puts the cut-out delimiter runs back. */
  function Interleave(ts: seq<string>, ds: seq<string>): string
    requires |ts| == |ds| + 1
    decreases |ds|
  {
    if ds == [] then ts[0] else ts[0] + ds[0] + Interleave(ts[1..], ds[1..])
  }

  /**
   * A decomposition of a string into tokens and delimiter runs in which
   * every run is maximal: tokens hold only token characters, runs are
   * non-empty and hold only delimiters, and no token between two runs is
   * empty (an empty one would glue two runs into one).
   */
  predicate WellFormedSplit(ts: seq<string>, ds: seq<string>) {
    && |ts| == |ds| + 1
    && (forall k :: 0 <= k < |ts| ==> AllTokenChars(ts[k]))
    && (forall k :: 0 < k < |ts| - 1 ==> ts[k] != "")
    && (forall k :: 0 <= k < |ds| ==> ds[k] != "" && AllDelimiters(ds[k]))
  }

  /** The tokenizer of both sketches: strip periods, lower-case, split. */
  function Tokenize(sourceText: string): (tokens: seq<string>)
    ensures |tokens| >= 1
  {
    SplitOnDelims(LowerAscii(StripPeriods(sourceText)))
  }

  // ---------------------------------------------------------------------
  // Properties of the split
  // ---------------------------------------------------------------------

  lemma InterleaveGrowFirst(c: char, ts: seq<string>, ds: seq<string>)
    requires |ts| == |ds| + 1
    ensures Interleave([[c] + ts[0]] + ts[1..], ds) == [c] + Interleave(ts, ds)
  {
    var ts' := [[c] + ts[0]] + ts[1..];
    assert ts'[1..] == ts[1..];
  }

  /** Putting the delimiter runs back between the tokens gives the input back. */
  lemma {:induction false} SplitThenInterleave(s: string)
    ensures Interleave(SplitOnDelims(s), DelimiterRuns(s)) == s
    decreases |s|
  {
    if s == "" {
    } else if IsTokenChar(s[0]) {
      assert Interleave(SplitOnDelims(s), DelimiterRuns(s)) == s by {
        var ts', ds' := SplitOnDelims(s[1..]), DelimiterRuns(s[1..]);
        SplitThenInterleave(s[1..]);
        InterleaveGrowFirst(s[0], ts', ds');
        assert s == [s[0]] + s[1..];
      }
    } else if |s| > 1 && !IsTokenChar(s[1]) {
      assert Interleave(SplitOnDelims(s), DelimiterRuns(s)) == s by {
        var ts', ds' := SplitOnDelims(s[1..]), DelimiterRuns(s[1..]);
        SplitThenInterleave(s[1..]);
        var ds := [[s[0]] + ds'[0]] + ds'[1..];
        assert ds[1..] == ds'[1..];
        calc {
          Interleave(ts', ds);
          ts'[0] + ds[0] + Interleave(ts'[1..], ds'[1..]);
          [s[0]] + (ts'[0] + ds'[0] + Interleave(ts'[1..], ds'[1..]));
          [s[0]] + Interleave(ts', ds');
        }
        assert s == [s[0]] + s[1..];
      }
    } else {
      assert Interleave(SplitOnDelims(s), DelimiterRuns(s)) == s by {
        var ts', ds' := SplitOnDelims(s[1..]), DelimiterRuns(s[1..]);
        SplitThenInterleave(s[1..]);
        var ts, ds := [""] + ts', [[s[0]]] + ds';
        assert ts[1..] == ts' && ds[1..] == ds';
        assert Interleave(ts, ds) == "" + [s[0]] + Interleave(ts', ds');
        assert s == [s[0]] + s[1..];
      }
    }
  }

  lemma {:induction false} SplitAfterToken(t: string, s: string)
    requires AllTokenChars(t)
    ensures SplitOnDelims(t + s) == [t + SplitOnDelims(s)[0]] + SplitOnDelims(s)[1..]
    ensures DelimiterRuns(t + s) == DelimiterRuns(s)
    decreases |t|
  {
    if t == "" {
      assert t + s == s;
      assert t + SplitOnDelims(s)[0] == SplitOnDelims(s)[0];
      assert SplitOnDelims(s) == [SplitOnDelims(s)[0]] + SplitOnDelims(s)[1..];
    } else {
      assert (t + s)[1..] == t[1..] + s;
      SplitAfterToken(t[1..], s);
      assert [t[0]] + (t[1..] + SplitOnDelims(s)[0]) == t + SplitOnDelims(s)[0];
    }
  }

  lemma {:induction false} SplitAfterRun(d: string, s: string)
    requires d != "" && AllDelimiters(d)
    requires s == "" || IsTokenChar(s[0])
    ensures SplitOnDelims(d + s) == [""] + SplitOnDelims(s)
    ensures DelimiterRuns(d + s) == [d] + DelimiterRuns(s)
    decreases |d|
  {
    assert (d + s)[1..] == d[1..] + s;
    if |d| == 1 {
      assert d[1..] + s == s;
      assert d == [d[0]];
    } else {
      SplitAfterRun(d[1..], s);
      assert [d[0]] + d[1..] == d;
    }
  }

  lemma InterleaveStartsWithFirst(ts: seq<string>, ds: seq<string>)
    requires |ts| == |ds| + 1
    ensures |Interleave(ts, ds)| >= |ts[0]|
    ensures Interleave(ts, ds)[..|ts[0]|] == ts[0]
  {
    if ds != [] {
      var rest := ds[0] + Interleave(ts[1..], ds[1..]);
      assert Interleave(ts, ds) == ts[0] + rest;
    }
  }

  lemma WellFormedTail(ts: seq<string>, ds: seq<string>)
    requires WellFormedSplit(ts, ds) && ds != []
    ensures WellFormedSplit(ts[1..], ds[1..])
    ensures var j := Interleave(ts[1..], ds[1..]); j == "" || IsTokenChar(j[0])
  {
    forall k | 0 < k < |ts[1..]| - 1 ensures ts[1..][k] != "" {
      assert ts[1..][k] == ts[k + 1];
    }
    InterleaveStartsWithFirst(ts[1..], ds[1..]);
    if ts[1] == "" {
      assert |ts| == 2;
      assert ds[1..] == [];
    }
  }

  /**
   * Splitting a well-formed interleaving recovers its tokens and runs:
   * together with SplitThenInterleave, the split is a bijection between
   * strings and well-formed decompositions.
   */
  lemma {:induction false} InterleaveThenSplit(ts: seq<string>, ds: seq<string>)
    requires WellFormedSplit(ts, ds)
    ensures SplitOnDelims(Interleave(ts, ds)) == ts
    ensures DelimiterRuns(Interleave(ts, ds)) == ds
    decreases |ds|
  {
    if ds == [] {
      SplitAfterToken(ts[0], "");
      assert ts[0] + "" == ts[0];
      assert ts == [ts[0]];
    } else {
      var t, d := ts[0], ds[0];
      var j := Interleave(ts[1..], ds[1..]);
      assert SplitOnDelims(j) == ts[1..] && DelimiterRuns(j) == ds[1..] && (j == "" || IsTokenChar(j[0])) by {
        WellFormedTail(ts, ds);
        InterleaveThenSplit(ts[1..], ds[1..]);
      }
      assert AllTokenChars(t) && d != "" && AllDelimiters(d);
      assert SplitOnDelims(d + j) == [""] + ts[1..] && DelimiterRuns(d + j) == [d] + ds[1..] by {
        SplitAfterRun(d, j);
      }
      assert Interleave(ts, ds) == t + (d + j);
      assert SplitOnDelims(t + (d + j)) == [t] + ts[1..] && DelimiterRuns(t + (d + j)) == [d] + ds[1..] by {
        SplitAfterToken(t, d + j);
        assert t + "" == t;
      }
      assert ts == [t] + ts[1..];
      assert ds == [d] + ds[1..];
    }
  }

  /**
   * The pieces of a split hold only token characters taken from the text,
   * and no piece but the first and the last is empty.
   */
  lemma {:induction false} SplitPieces(s: string)
    ensures forall k :: 0 <= k < |SplitOnDelims(s)| ==> AllTokenChars(SplitOnDelims(s)[k])
    ensures forall k :: 0 < k < |SplitOnDelims(s)| - 1 ==> SplitOnDelims(s)[k] != ""
    ensures forall k, c :: 0 <= k < |SplitOnDelims(s)| && c in SplitOnDelims(s)[k] ==> c in s
    decreases |s|
  {
    if s != "" {
      var r, rest := SplitOnDelims(s), SplitOnDelims(s[1..]);
      SplitPieces(s[1..]);
      assert s == [s[0]] + s[1..];
      if IsTokenChar(s[0]) {
        assert r == [[s[0]] + rest[0]] + rest[1..];
        forall k | 0 <= k < |r| ensures AllTokenChars(r[k]) {
          if k > 0 {
            assert r[k] == rest[k];
          }
        }
        forall k, c | 0 <= k < |r| && c in r[k] ensures c in s {
          if k > 0 {
            assert r[k] == rest[k];
          } else if c != s[0] {
            assert c in rest[0];
          }
        }
      } else if !(|s| > 1 && !IsTokenChar(s[1])) {
        assert r == [""] + rest;
        forall k | 0 < k < |r| - 1 ensures r[k] != "" {
          assert r[k] == rest[k - 1];
        }
      }
    }
  }

  /** The runs a split cuts at are non-empty and hold only delimiters. */
  lemma {:induction false} RunsAreDelimiters(s: string)
    ensures forall k :: 0 <= k < |DelimiterRuns(s)| ==> DelimiterRuns(s)[k] != "" && AllDelimiters(DelimiterRuns(s)[k])
    decreases |s|
  {
    if s != "" {
      var r, rest := DelimiterRuns(s), DelimiterRuns(s[1..]);
      RunsAreDelimiters(s[1..]);
      if !IsTokenChar(s[0]) {
        if |s| > 1 && !IsTokenChar(s[1]) {
          assert r == [[s[0]] + rest[0]] + rest[1..];
          forall k | 0 <= k < |r| ensures r[k] != "" && AllDelimiters(r[k]) {
            if k > 0 {
              assert r[k] == rest[k];
            }
          }
        } else {
          assert r == [[s[0]]] + rest;
          forall k | 0 <= k < |r| ensures r[k] != "" && AllDelimiters(r[k]) {
            if k > 0 {
              assert r[k] == rest[k - 1];
            }
          }
        }
      }
    }
  }

  /** A split result is well-formed. */
  lemma SplitIsWellFormed(s: string)
    ensures WellFormedSplit(SplitOnDelims(s), DelimiterRuns(s))
  {
    SplitPieces(s);
    RunsAreDelimiters(s);
  }

  /**
   * What the tokenizer promises: at least one token, each token made of
   * `[A-Za-z0-9_']` only, with no '.', no ASCII upper-case letter, and
   * only the first and last tokens possibly empty.
   */
  lemma TokensAreClean(sourceText: string)
    ensures var tokens := Tokenize(sourceText);
      && |tokens| >= 1
      && (forall k :: 0 <= k < |tokens| ==> AllTokenChars(tokens[k]))
      && (forall k :: 0 <= k < |tokens| ==> '.' !in tokens[k])
      && (forall k :: 0 <= k < |tokens| ==> NoUpperAscii(tokens[k]))
      && (forall k :: 0 < k < |tokens| - 1 ==> tokens[k] != "")
  {
    var parsed := LowerAscii(StripPeriods(sourceText));
    var tokens := Tokenize(sourceText);
    SplitPieces(parsed);
    LowerAsciiPointwise(StripPeriods(sourceText));
    forall k | 0 <= k < |tokens| ensures NoUpperAscii(tokens[k]) {
      forall j | 0 <= j < |tokens[k]| ensures !IsUpperAscii(tokens[k][j]) {
        assert tokens[k][j] in tokens[k];
        assert tokens[k][j] in parsed;
      }
    }
  }

  // ---------------------------------------------------------------------
  // The tokenizer on a text that opens with a word
  // ---------------------------------------------------------------------

  lemma {:induction false} StripPeriodsAppend(a: string, b: string)
    ensures StripPeriods(a + b) == StripPeriods(a) + StripPeriods(b)
    decreases |a|
  {
    if a != [] {
      assert (a + b)[1..] == a[1..] + b;
      StripPeriodsAppend(a[1..], b);
    } else {
      assert a + b == b;
    }
  }

  lemma {:induction false} StripPeriodsKeepsTokens(t: string)
    requires AllTokenChars(t)
    ensures StripPeriods(t) == t
    decreases |t|
  {
    if t != [] {
      StripPeriodsKeepsTokens(t[1..]);
      assert t == [t[0]] + t[1..];
    }
  }

  lemma {:induction false} LowerAsciiAppend(a: string, b: string)
    ensures LowerAscii(a + b) == LowerAscii(a) + LowerAscii(b)
    decreases |a|
  {
    if a == [] {
      assert a + b == b;
    } else {
      assert (a + b)[0] == a[0] && (a + b)[1..] == a[1..] + b;
      LowerAsciiAppend(a[1..], b);
    }
  }

  /**
   * A text that opens with a word followed by a delimiter other than '.'
   * has that word, lower-cased, as its first token.
   */
  lemma FirstToken(word: string, rest: string)
    requires AllTokenChars(word)
    requires rest != "" && !IsTokenChar(rest[0]) && rest[0] != '.'
    ensures Tokenize(word + rest)[0] == LowerAscii(word)
  {
    var stripped := StripPeriods(rest);
    var lowered, parsed := LowerAscii(word), LowerAscii(stripped);
    assert Tokenize(word + rest) == SplitOnDelims(lowered + parsed) by {
      StripPeriodsAppend(word, rest);
      StripPeriodsKeepsTokens(word);
      LowerAsciiAppend(word, stripped);
    }
    assert parsed != "" && parsed[0] == rest[0] by {
      assert rest == [rest[0]] + rest[1..];
      assert stripped == [rest[0]] + StripPeriods(rest[1..]);
    }
    assert AllTokenChars(lowered) by {
      LowerAsciiPointwise(word);
    }
    SplitAfterToken(lowered, parsed);
    assert lowered + "" == lowered;
  }
}
