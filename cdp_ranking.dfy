/**
 * The order in which a std::map keyed by CUserCDP is walked: ascending by
 * `operator<`, so ascending collateral ratio first. A scan for the most
 * under-collateralised positions is a walk over this order, and the positions
 * below a ratio threshold are a prefix of it.
 */
module CdpRanking {
  import opened CdpRecord

  /** The least key of a non-empty set under `operator<`. */
  ghost function MinKey(s: set<RankKey>): (m: RankKey)
    requires s != {}
    ensures m in s
    ensures forall k :: k in s && k != m ==> KeyLess(m, k)
    decreases |s|
  {
    var x :| x in s;
    if s == {x} then
      x
    else
      var rest := MinKey(s - {x});
      KeyLessTrichotomous(x, rest);
      if KeyLess(x, rest) then
        assert forall k :: k in s - {x} && k != rest ==> KeyLess(x, k) by {
          forall k | k in s - {x} && k != rest
            ensures KeyLess(x, k)
          {
            KeyLessTransitive(x, rest, k);
          }
        }
        x
      else
        rest
  }

  /** Strictly ascending under `operator<`. */
  ghost predicate Ascending(r: seq<RankKey>) {
    forall i, j :: 0 <= i < j < |r| ==> KeyLess(r[i], r[j])
  }

  /** The facts `Ranked` needs to put the least key in front of the rest. */
  lemma RankedConsOfMin(s: set<RankKey>, m: RankKey, tail: seq<RankKey>)
    requires m in s
    requires forall k :: k in s && k != m ==> KeyLess(m, k)
    requires |tail| == |s - {m}|
    requires forall i :: 0 <= i < |tail| ==> tail[i] in s - {m}
    requires forall k :: k in s - {m} ==> k in tail
    requires Ascending(tail)
    ensures |[m] + tail| == |s|
    ensures forall i :: 0 <= i < |[m] + tail| ==> ([m] + tail)[i] in s
    ensures forall k :: k in s ==> k in [m] + tail
    ensures Ascending([m] + tail)
  {
    var r := [m] + tail;
    forall k | k in s ensures k in r {
      if k != m {
        assert k in s - {m};
        var j :| 0 <= j < |tail| && tail[j] == k;
        assert r[j + 1] == k;
      }
    }
    forall i, j | 0 <= i < j < |r| ensures KeyLess(r[i], r[j]) {
      assert r[j] == tail[j - 1];
      if i > 0 {
        assert r[i] == tail[i - 1];
      }
    }
  }

  /** The keys of `s` in the order a std::map walks them. */
  ghost function Ranked(s: set<RankKey>): (r: seq<RankKey>)
    ensures |r| == |s|
    ensures forall i :: 0 <= i < |r| ==> r[i] in s
    ensures forall k :: k in s ==> k in r
    ensures Ascending(r)
    decreases |s|
  {
    if s == {} then
      []
    else
      var m := MinKey(s);
      var tail := Ranked(s - {m});
      RankedConsOfMin(s, m, tail);
      [m] + tail
  }

  /**
   * The walk is determined: any strictly ascending listing of exactly the
   * keys of `s` is the walk.
   */
  lemma {:induction false} RankedIsUnique(s: set<RankKey>, r: seq<RankKey>)
    requires Ascending(r)
    requires forall i :: 0 <= i < |r| ==> r[i] in s
    requires forall k :: k in s ==> k in r
    ensures r == Ranked(s)
    decreases |s|
  {
    if r == [] {
      assert forall k :: k !in s;
      assert s == {};
    } else {
      assert r[0] in s;
      var m := MinKey(s);
      assert r[0] == m by {
        if r[0] != m {
          var j :| 0 <= j < |r| && r[j] == m;
          assert j != 0;
          assert KeyLess(r[0], m);
          assert KeyLess(m, r[0]);
          KeyLessTrichotomous(m, r[0]);
        }
      }
      var tail := r[1..];
      forall i | 0 <= i < |tail| ensures tail[i] in s - {m} {
        assert KeyLess(r[0], r[i + 1]);
        KeyLessIrreflexive(m);
      }
      forall k | k in s - {m} ensures k in tail {
        var j :| 0 <= j < |r| && r[j] == k;
        assert j != 0;
        assert tail[j - 1] == k;
      }
      RankedIsUnique(s - {m}, tail);
      assert r == [m] + tail;
    }
  }

  /** The walk visits ratios in ascending order. */
  lemma RankedRatiosAscend(s: set<RankKey>, i: int, j: int)
    requires 0 <= i <= j < |Ranked(s)|
    ensures Ranked(s)[i].ratio <= Ranked(s)[j].ratio
  {
    if i < j {
      KeyLessOrdersRatios(Ranked(s)[i], Ranked(s)[j]);
    }
  }

  /** The first key walked has the lowest collateral ratio of all. */
  lemma FirstRankedIsMostUndercollateralised(s: set<RankKey>, k: RankKey)
    requires k in s
    ensures |Ranked(s)| > 0
    ensures Ranked(s)[0].ratio <= k.ratio
  {
    var r := Ranked(s);
    var j :| 0 <= j < |r| && r[j] == k;
    RankedRatiosAscend(s, 0, j);
  }

  /**
   * The keys whose ratio is strictly below a threshold are exactly a prefix
   * of the walk: once one key is at or above the threshold, every later key
   * is too.
   */
  lemma BelowThresholdIsPrefix(s: set<RankKey>, threshold: real, i: int, j: int)
    requires 0 <= i <= j < |Ranked(s)|
    requires Ranked(s)[j].ratio < threshold
    ensures Ranked(s)[i].ratio < threshold
  {
    RankedRatiosAscend(s, i, j);
  }
}
