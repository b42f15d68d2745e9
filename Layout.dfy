/**
 * The occurrence scanner and the height mapping of the two sketches, stated
 * as pure specification functions: which token indices match a term, which
 * height each match gets, and the list of drawCube calls (placements) that
 * the nested loops of findSearchTermInTokenizedText make, in order.
 */
module Layout {
  import opened Tokenizer

  /**
   * `(100 / tokenizedText.length) * i * 0.2`, over the reals: the height of
   * the batch drawn for the token at index i.
   */
  function Height(i: nat, len: nat): (h: real)
    requires len > 0
    ensures h == 20.0 * (i as real) / (len as real)
    ensures i < len ==> 0.0 <= h < 20.0
  {
    (100.0 / len as real) * (i as real) * 0.2
  }

  lemma HeightMonotone(i: nat, j: nat, len: nat)
    requires len > 0 && i <= j
    ensures Height(i, len) <= Height(j, len)
  {
    var l := len as real;
    assert 20.0 * (i as real) <= 20.0 * (j as real);
    assert 20.0 * (i as real) / l <= 20.0 * (j as real) / l;
  }

  /** The indices below `upTo` whose token is exactly `term`, ascending. */
  function OccurrencesBelow(tokens: seq<string>, term: string, upTo: nat): (r: seq<nat>)
    requires upTo <= |tokens|
    ensures |r| <= upTo
  {
    if upTo == 0 then []
    else OccurrencesBelow(tokens, term, upTo - 1) + (if tokens[upTo - 1] == term then [upTo - 1] else [])
  }

  /**
   * The occurrences below `upTo` are exactly the matching indices below
   * `upTo`, in strictly ascending order.
   */
  lemma {:induction false} OccurrencesBelowCharacterized(tokens: seq<string>, term: string, upTo: nat)
    requires upTo <= |tokens|
    ensures var r := OccurrencesBelow(tokens, term, upTo);
      && (forall k :: 0 <= k < |r| ==> r[k] < upTo && tokens[r[k]] == term)
      && (forall i :: 0 <= i < upTo ==> (i in r <==> tokens[i] == term))
      && (forall a, b :: 0 <= a < b < |r| ==> r[a] < r[b])
    decreases upTo
  {
    if upTo > 0 {
      var j := upTo - 1;
      OccurrencesBelowCharacterized(tokens, term, j);
      var prev := OccurrencesBelow(tokens, term, j);
      var r := OccurrencesBelow(tokens, term, upTo);
      if tokens[j] == term {
        assert r == prev + [j];
        forall i | 0 <= i < upTo && tokens[i] == term ensures i in r {
          if i < j {
            var k :| 0 <= k < |prev| && prev[k] == i;
            assert r[k] == i;
          } else {
            assert r[|prev|] == j;
          }
        }
      } else {
        assert r == prev;
      }
    }
  }

  /** Every index whose token is exactly `term`, ascending. */
  function Occurrences(tokens: seq<string>, term: string): (r: seq<nat>)
    ensures forall k :: 0 <= k < |r| ==> r[k] < |tokens| && tokens[r[k]] == term
    ensures forall i :: 0 <= i < |tokens| ==> (i in r <==> tokens[i] == term)
    ensures forall a, b :: 0 <= a < b < |r| ==> r[a] < r[b]
  {
    OccurrencesBelowCharacterized(tokens, term, |tokens|);
    OccurrencesBelow(tokens, term, |tokens|)
  }

  /**
   * One drawCube call: the term it was made for, the index of the matching
   * token, the height passed to drawCube, and the value of the inner loop
   * counter `a` at that call.
   */
  datatype Placement = Placement(term: string, occurrence: nat, height: real, instance: nat)

  /** The inner loop: `count` calls with the same height. */
  function Batch(term: string, i: nat, height: real, count: nat): (r: seq<Placement>)
    ensures |r| == count
    ensures forall a :: 0 <= a < count ==> r[a] == Placement(term, i, height, a)
  {
    seq(count, a requires 0 <= a < count => Placement(term, i, height, a))
  }

  /** Strict order of the calls: by token index, then by inner counter. */
  predicate Before(p: Placement, q: Placement) {
    p.occurrence < q.occurrence || (p.occurrence == q.occurrence && p.instance < q.instance)
  }

  /** The description of a single call made while scanning `tokens`. */
  predicate IsCallFor(tokens: seq<string>, term: string, n: nat, p: Placement)
    requires |tokens| > 0
  {
    && p.term == term
    && p.occurrence < |tokens|
    && tokens[p.occurrence] == term
    && p.instance < n
    && p.height == Height(p.occurrence, |tokens|)
  }

  /** The calls the inner loop makes at index i: n of them if the token matches, none otherwise. */
  function BatchAt(tokens: seq<string>, term: string, n: nat, i: nat): (r: seq<Placement>)
    requires i < |tokens|
    ensures |r| == if tokens[i] == term then n else 0
    ensures forall a :: 0 <= a < |r| ==> r[a] == Placement(term, i, Height(i, |tokens|), a)
  {
    if tokens[i] == term then Batch(term, i, Height(i, |tokens|), n) else []
  }

  /** The calls made by the outer loop while its counter runs below `upTo`. */
  function PlacementsBelow(tokens: seq<string>, term: string, n: nat, upTo: nat): (r: seq<Placement>)
    requires 0 < |tokens| && upTo <= |tokens|
    ensures forall k :: 0 <= k < |r| ==> r[k].term == term && r[k].occurrence < upTo
  {
    if upTo == 0 then []
    else PlacementsBelow(tokens, term, n, upTo - 1) + BatchAt(tokens, term, n, upTo - 1)
  }

  /** The outer loop makes n calls for each matching index below `upTo`. */
  lemma {:induction false} PlacementsBelowLength(tokens: seq<string>, term: string, n: nat, upTo: nat)
    requires 0 < |tokens| && upTo <= |tokens|
    ensures |PlacementsBelow(tokens, term, n, upTo)| == |OccurrencesBelow(tokens, term, upTo)| * n
    decreases upTo
  {
    if upTo > 0 {
      var i := upTo - 1;
      PlacementsBelowLength(tokens, term, n, i);
      var m, k := |OccurrencesBelow(tokens, term, i)|, |PlacementsBelow(tokens, term, n, i)|;
      if tokens[i] == term {
        assert |OccurrencesBelow(tokens, term, upTo)| == m + 1;
        assert |PlacementsBelow(tokens, term, n, upTo)| == k + n;
        OneMoreBatch(m, k, n);
      } else {
        assert |OccurrencesBelow(tokens, term, upTo)| == m;
        assert |PlacementsBelow(tokens, term, n, upTo)| == k;
      }
    }
  }

  /** m batches of n calls, plus one more batch, are m + 1 batches. */
  lemma OneMoreBatch(m: nat, k: nat, n: nat)
    requires k == m * n
    ensures k + n == (m + 1) * n
  {
  }

  /** Every element of `ps` describes a call made for an index below `upTo`. */
  predicate AllCallsBelow(tokens: seq<string>, term: string, n: nat, ps: seq<Placement>, upTo: nat)
    requires |tokens| > 0
  {
    forall k :: 0 <= k < |ps| ==> IsCallFor(tokens, term, n, ps[k]) && ps[k].occurrence < upTo
  }

  /** `ps` is strictly increasing in the call order. */
  predicate Sorted(ps: seq<Placement>) {
    forall a, b :: 0 <= a < b < |ps| ==> Before(ps[a], ps[b])
  }

  lemma {:induction false} PlacementsBelowAreCalls(tokens: seq<string>, term: string, n: nat, upTo: nat)
    requires 0 < |tokens| && upTo <= |tokens|
    ensures AllCallsBelow(tokens, term, n, PlacementsBelow(tokens, term, n, upTo), upTo)
    decreases upTo
  {
    if upTo > 0 {
      var i := upTo - 1;
      PlacementsBelowAreCalls(tokens, term, n, i);
      var prev, batch := PlacementsBelow(tokens, term, n, i), BatchAt(tokens, term, n, i);
      assert AllCallsBelow(tokens, term, n, batch, upTo);
      var r := prev + batch;
      forall k | 0 <= k < |r| ensures IsCallFor(tokens, term, n, r[k]) && r[k].occurrence < upTo {
        if k < |prev| {
          assert r[k] == prev[k];
        } else {
          assert r[k] == batch[k - |prev|];
        }
      }
    }
  }

  lemma {:induction false} PlacementsBelowSorted(tokens: seq<string>, term: string, n: nat, upTo: nat)
    requires 0 < |tokens| && upTo <= |tokens|
    ensures Sorted(PlacementsBelow(tokens, term, n, upTo))
    decreases upTo
  {
    if upTo > 0 {
      var i := upTo - 1;
      PlacementsBelowSorted(tokens, term, n, i);
      PlacementsBelowAreCalls(tokens, term, n, i);
      var prev, batch := PlacementsBelow(tokens, term, n, i), BatchAt(tokens, term, n, i);
      var r := prev + batch;
      forall a, b | 0 <= a < b < |r| ensures Before(r[a], r[b]) {
        if b < |prev| {
          assert r[a] == prev[a] && r[b] == prev[b];
        } else if a < |prev| {
          assert r[a] == prev[a] && r[b] == batch[b - |prev|];
        } else {
          assert r[a] == batch[a - |prev|] && r[b] == batch[b - |prev|];
        }
      }
    }
  }

  /**
   * Every drawCube call of one findSearchTermInTokenizedText, in order: the
   * calls are exactly the (matching index, inner counter) pairs, each
   * carrying its index's height.
   */
  function Placements(tokens: seq<string>, term: string, n: nat): (r: seq<Placement>)
    requires |tokens| > 0
    ensures forall p :: p in r <==> IsCallFor(tokens, term, n, p)
  {
    PlacementsBelowExact(tokens, term, n, |tokens|);
    PlacementsBelow(tokens, term, n, |tokens|)
  }

  // ---------------------------------------------------------------------
  // Properties of the scan
  // ---------------------------------------------------------------------

  /** Number of calls made for the token at index i. */
  function CallsAt(ps: seq<Placement>, i: nat): nat {
    if ps == [] then 0
    else CallsAt(ps[..|ps| - 1], i) + (if ps[|ps| - 1].occurrence == i then 1 else 0)
  }

  lemma {:induction false} CallsAtAppend(ps: seq<Placement>, qs: seq<Placement>, i: nat)
    ensures CallsAt(ps + qs, i) == CallsAt(ps, i) + CallsAt(qs, i)
    decreases |qs|
  {
    if qs == [] {
      assert ps + qs == ps;
    } else {
      var last := |qs| - 1;
      assert (ps + qs)[..|ps + qs| - 1] == ps + qs[..last];
      CallsAtAppend(ps, qs[..last], i);
    }
  }

  lemma {:induction false} CallsAtBatch(term: string, j: nat, height: real, count: nat, i: nat)
    ensures CallsAt(Batch(term, j, height, count), i) == if i == j then count else 0
    decreases count
  {
    if count > 0 {
      assert Batch(term, j, height, count)[..count - 1] == Batch(term, j, height, count - 1);
      CallsAtBatch(term, j, height, count - 1, i);
    }
  }

  lemma {:induction false} CallsAtBelow(tokens: seq<string>, term: string, n: nat, upTo: nat, i: nat)
    requires 0 < |tokens| && upTo <= |tokens|
    ensures CallsAt(PlacementsBelow(tokens, term, n, upTo), i) ==
            if i < upTo && tokens[i] == term then n else 0
    decreases upTo
  {
    if upTo > 0 {
      var j := upTo - 1;
      var batch := BatchAt(tokens, term, n, j);
      CallsAtBelow(tokens, term, n, j, i);
      CallsAtAppend(PlacementsBelow(tokens, term, n, j), batch, i);
      if tokens[j] == term {
        CallsAtBatch(term, j, Height(j, |tokens|), n, i);
      }
    }
  }

  /**
   * The exact call-count law: drawCube is called exactly n times for each
   * index whose token equals the term and never for any other index, so
   * the total number of calls is (number of matching indices) * n.
   */
  lemma CallCountLaw(tokens: seq<string>, term: string, n: nat)
    requires |tokens| > 0
    ensures forall i :: 0 <= i < |tokens| ==>
      CallsAt(Placements(tokens, term, n), i) == if tokens[i] == term then n else 0
    ensures |Placements(tokens, term, n)| == |Occurrences(tokens, term)| * n
  {
    forall i | 0 <= i < |tokens|
      ensures CallsAt(Placements(tokens, term, n), i) == if tokens[i] == term then n else 0
    {
      CallsAtBelow(tokens, term, n, |tokens|, i);
    }
    PlacementsBelowLength(tokens, term, n, |tokens|);
  }

  lemma {:induction false} PlacementsBelowComplete(tokens: seq<string>, term: string, n: nat, upTo: nat, p: Placement)
    requires 0 < |tokens| && upTo <= |tokens|
    requires IsCallFor(tokens, term, n, p) && p.occurrence < upTo
    ensures p in PlacementsBelow(tokens, term, n, upTo)
    decreases upTo
  {
    var j := upTo - 1;
    if p.occurrence == j {
      var batch := BatchAt(tokens, term, n, j);
      assert batch[p.instance] == p;
      assert p in PlacementsBelow(tokens, term, n, j) + batch;
    } else {
      PlacementsBelowComplete(tokens, term, n, j, p);
    }
  }

  /** The calls below `upTo` are exactly the calls for the indices below `upTo`. */
  lemma PlacementsBelowExact(tokens: seq<string>, term: string, n: nat, upTo: nat)
    requires 0 < |tokens| && upTo <= |tokens|
    ensures forall p :: p in PlacementsBelow(tokens, term, n, upTo) <==>
      IsCallFor(tokens, term, n, p) && p.occurrence < upTo
  {
    var r := PlacementsBelow(tokens, term, n, upTo);
    PlacementsBelowAreCalls(tokens, term, n, upTo);
    forall p | IsCallFor(tokens, term, n, p) && p.occurrence < upTo
      ensures p in r
    {
      PlacementsBelowComplete(tokens, term, n, upTo, p);
    }
  }

  /**
   * The calls are strictly ordered by index and then by inner counter, so
   * each (matching index, inner counter) pair is called exactly once.
   */
  lemma PlacementsInOrder(tokens: seq<string>, term: string, n: nat)
    requires |tokens| > 0
    ensures forall a, b :: 0 <= a < b < |Placements(tokens, term, n)| ==>
      Before(Placements(tokens, term, n)[a], Placements(tokens, term, n)[b])
  {
    PlacementsBelowSorted(tokens, term, n, |tokens|);
  }

  /**
   * Heights come out in ascending index order: non-decreasing along the
   * calls and inside [0, 20).
   */
  lemma HeightsAscend(tokens: seq<string>, term: string, n: nat)
    requires |tokens| > 0
    ensures forall a, b :: 0 <= a < b < |Placements(tokens, term, n)| ==>
      Placements(tokens, term, n)[a].height <= Placements(tokens, term, n)[b].height
    ensures forall k :: 0 <= k < |Placements(tokens, term, n)| ==>
      0.0 <= Placements(tokens, term, n)[k].height < 20.0
  {
    var ps := Placements(tokens, term, n);
    PlacementsBelowAreCalls(tokens, term, n, |tokens|);
    PlacementsBelowSorted(tokens, term, n, |tokens|);
    assert ps == PlacementsBelow(tokens, term, n, |tokens|);
    forall a, b | 0 <= a < b < |ps| ensures ps[a].height <= ps[b].height {
      HeightMonotone(ps[a].occurrence, ps[b].occurrence, |tokens|);
    }
  }

  /**
   * The height of a call depends only on the token index and the token
   * count: two scans of the same tokens, for any two terms and counts,
   * give equal heights to calls at the same index.
   */
  lemma HeightIgnoresTerm(tokens: seq<string>, t1: string, n1: nat, t2: string, n2: nat, p: Placement, q: Placement)
    requires |tokens| > 0
    requires p in Placements(tokens, t1, n1) && q in Placements(tokens, t2, n2)
    requires p.occurrence == q.occurrence
    ensures p.height == q.height == Height(p.occurrence, |tokens|)
  {
  }

  /**
   * When the first token matches, the first call is made for index 0, at
   * height 0, with inner counter 0.
   */
  lemma FirstMatchFirstDrawn(tokens: seq<string>, term: string, n: nat)
    requires |tokens| > 0 && tokens[0] == term && n > 0
    ensures var ps := Placements(tokens, term, n);
      |ps| > 0 && ps[0] == Placement(term, 0, 0.0, 0)
  {
    var ps := Placements(tokens, term, n);
    var first := Placement(term, 0, Height(0, |tokens|), 0);
    PlacementsInOrder(tokens, term, n);
    assert IsCallFor(tokens, term, n, first);
    var k :| 0 <= k < |ps| && ps[k] == first;
  }

  lemma {:induction false} NoMatchNoOccurrences(tokens: seq<string>, term: string, upTo: nat)
    requires upTo <= |tokens|
    requires forall i :: 0 <= i < upTo ==> tokens[i] != term
    ensures OccurrencesBelow(tokens, term, upTo) == []
    decreases upTo
  {
    if upTo > 0 {
      NoMatchNoOccurrences(tokens, term, upTo - 1);
    }
  }

  /**
   * A term holding an ASCII upper-case letter never matches a token of the
   * tokenizer's output, since tokens are lower-cased and compared exactly.
   */
  lemma UppercaseTermNeverMatches(sourceText: string, term: string, n: nat)
    requires !NoUpperAscii(term)
    ensures Occurrences(Tokenize(sourceText), term) == []
    ensures Placements(Tokenize(sourceText), term, n) == []
  {
    var tokens := Tokenize(sourceText);
    TokensAreClean(sourceText);
    forall i | 0 <= i < |tokens| ensures tokens[i] != term {
      assert NoUpperAscii(tokens[i]);
    }
    NoMatchNoOccurrences(tokens, term, |tokens|);
    PlacementsBelowLength(tokens, term, n, |tokens|);
  }
}
