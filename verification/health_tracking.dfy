/**
 * The vital-signs cards: each card draws its recent history as a row of
 * bars rescaled between the history's minimum and maximum, with a 10% floor,
 * the last bar highlighted; and the status badge under a measurement.
 */
module HealthTracking {
  import opened Wrappers
  import opened Display

  /** `Math.max(...s)` on a non-empty history. */
  function MaxOf(s: seq<real>): (m: real)
    requires s != []
    ensures forall i :: 0 <= i < |s| ==> s[i] <= m
    ensures exists i :: 0 <= i < |s| && s[i] == m
  {
    if |s| == 1 then s[0]
    else
      var rest := MaxOf(s[1..]);
      if s[0] >= rest then s[0] else rest
  }

  /** `Math.min(...s)` on a non-empty history. */
  function MinOf(s: seq<real>): (m: real)
    requires s != []
    ensures forall i :: 0 <= i < |s| ==> m <= s[i]
    ensures exists i :: 0 <= i < |s| && s[i] == m
  {
    if |s| == 1 then s[0]
    else
      var rest := MinOf(s[1..]);
      if s[0] <= rest then s[0] else rest
  }

  /** `maxVal - minVal || 1`: the spread of the history, 1 when it is flat. */
  function Range(s: seq<real>): (r: real)
    requires s != []
    ensures r > 0.0
    ensures r == 1.0 || r == MaxOf(s) - MinOf(s)
    ensures MaxOf(s) != MinOf(s) ==> r == MaxOf(s) - MinOf(s)
  {
    if MaxOf(s) - MinOf(s) == 0.0 then 1.0 else MaxOf(s) - MinOf(s)
  }

  /**
   * The drawn height, in percent, of a bar for value `v` of history `s`:
   * never below 10, and exactly 10 within the lowest tenth of the spread.
   */
  function Height(s: seq<real>, v: real): (h: real)
    requires s != []
    ensures h >= 10.0
    ensures (v - MinOf(s)) * 10.0 <= Range(s) ==> h == 10.0
  {
    Scale(v, MinOf(s), Range(s))
  }

  /** `Math.max((v - lo) / range * 100, 10)`: the larger of the share and the floor. */
  function Scale(v: real, lo: real, range: real): (r: real)
    requires range > 0.0
    ensures r >= 10.0 && r >= (v - lo) / range * 100.0
    ensures r == 10.0 || r == (v - lo) / range * 100.0
    ensures (v - lo) * 10.0 <= range ==> r == 10.0
  {
    var q := (v - lo) / range;
    assert (v - lo) * 10.0 <= range ==> q * 10.0 <= 1.0 by {
      if (v - lo) * 10.0 <= range {
        assert q * range * 10.0 <= 1.0 * range;
      }
    }
    var h := (v - lo) / range * 100.0;
    if h >= 10.0 then h else 10.0
  }

  /** A quotient `a / b` with `0 <= a <= b` lies in [0, 1], and grows with `a`. */
  lemma ShareBounds(a: real, a': real, b: real)
    requires 0.0 <= a <= a' <= b && b > 0.0
    ensures 0.0 <= a / b <= a' / b <= 1.0
  {
    assert a / b * b == a && a' / b * b == a';
  }

  /** One bar: its height in percent and whether it has the highlighted colour. */
  datatype Bar = Bar(height: real, highlighted: bool)

  /**
   * The bars of a card: one per history value, each between the 10% floor
   * and full height, a larger value never lower, and exactly the last one
   * highlighted.
   */
  function Bars(s: seq<real>): (bars: seq<Bar>)
    ensures |bars| == |s|
    ensures forall i :: 0 <= i < |bars| ==> 10.0 <= bars[i].height <= 100.0
    ensures forall i :: 0 <= i < |bars| ==> (bars[i].highlighted <==> i == |s| - 1)
    ensures forall i, j :: 0 <= i < |s| && 0 <= j < |s| && s[i] <= s[j] ==> bars[i].height <= bars[j].height
  {
    if s == [] then []
    else
      var bars := seq(|s|, i requires 0 <= i < |s| => Bar(Height(s, s[i]), i == |s| - 1));
      forall i, j | 0 <= i < |s| && 0 <= j < |s| && s[i] <= s[j]
        ensures 10.0 <= bars[i].height <= bars[j].height <= 100.0
      {
        HeightInRange(s, i, j);
      }
      bars
  }

  /** The height of a bar is in [10, 100] and follows the value's order. */
  lemma HeightInRange(s: seq<real>, i: int, j: int)
    requires 0 <= i < |s| && 0 <= j < |s| && s[i] <= s[j]
    ensures 10.0 <= Height(s, s[i]) <= Height(s, s[j]) <= 100.0
  {
    var lo, hi := MinOf(s), MaxOf(s);
    if hi - lo == 0.0 {
      assert s[i] - lo == 0.0 && s[j] - lo == 0.0;
    } else {
      ShareBounds(s[i] - lo, s[j] - lo, Range(s));
    }
  }

  /** A flat history draws every bar at the 10% floor. */
  lemma FlatHistoryAtFloor(s: seq<real>)
    requires s != [] && forall i :: 0 <= i < |s| ==> s[i] == s[0]
    ensures forall i :: 0 <= i < |s| ==> Bars(s)[i].height == 10.0
  {
    var lo, hi := MinOf(s), MaxOf(s);
    assert lo == s[0] && hi == s[0];
  }

  /** In a history that moves, its maximum draws at full height and its minimum at the floor. */
  lemma ExtremesDrawnFullAndFloor(s: seq<real>, i: int, j: int)
    requires 0 <= i < |s| && 0 <= j < |s| && s[i] != s[j]
    ensures forall k :: 0 <= k < |s| && s[k] == MaxOf(s) ==> Bars(s)[k].height == 100.0
    ensures forall k :: 0 <= k < |s| && s[k] == MinOf(s) ==> Bars(s)[k].height == 10.0
  {
    assert MinOf(s) <= s[i] <= MaxOf(s) && MinOf(s) <= s[j] <= MaxOf(s);
    forall k | 0 <= k < |s|
      ensures Bars(s)[k].height == Height(s, s[k])
    {
      BarIsHeight(s, k);
    }
    HeightAtExtremes(s);
  }

  lemma BarIsHeight(s: seq<real>, k: int)
    requires 0 <= k < |s|
    ensures Bars(s)[k].height == Height(s, s[k])
  {
  }

  lemma HeightAtExtremes(s: seq<real>)
    requires s != [] && MaxOf(s) != MinOf(s)
    ensures Height(s, MaxOf(s)) == 100.0 && Height(s, MinOf(s)) == 10.0
  {
    var lo, hi := MinOf(s), MaxOf(s);
    assert lo <= s[0] <= hi;
    assert Range(s) == hi - lo;
    ScaleEnds(lo, hi);
  }

  lemma ScaleEnds(lo: real, hi: real)
    requires lo < hi
    ensures Scale(hi, lo, hi - lo) == 100.0 && Scale(lo, lo, hi - lo) == 10.0
  {
    assert (hi - lo) / (hi - lo) == 1.0;
  }

  /**
   * `getStatusBadge`: the badge under a measurement for the three known
   * statuses, and none for any other string.
   */
  function StatusBadge(status: string): (b: Option<Badge>)
    ensures b.None? <==> status !in {"normal", "warning", "critical"}
    ensures b == Some(Badge("Норма", Default)) <==> status == "normal"
    ensures b == Some(Badge("Внимание", Default)) <==> status == "warning"
    ensures b == Some(Badge("Критично", Destructive)) <==> status == "critical"
  {
    if status == "normal" then Some(Badge("Норма", Default))
    else if status == "warning" then Some(Badge("Внимание", Default))
    else if status == "critical" then Some(Badge("Критично", Destructive))
    else None
  }
}
