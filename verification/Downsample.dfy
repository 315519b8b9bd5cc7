/** packages/chat-component/src/charts/chartTypes.ts, lines 317-357: long series are thinned out to 200
    points, in exact arithmetic. */
module Downsample {
  import opened JsonTree

  const MAX_DATA_POINTS := 200

  // Math.round(x / 199).
  function Rounded(x: nat): nat {
    (2 * x + 199) / 398
  }

  lemma RoundedNearest(x: nat)
    ensures -199 <= 398 * Rounded(x) - 2 * x <= 199
  {
  }

  lemma {:induction false} Spread(i: nat, j: nat, d: nat)
    requires i < j
    ensures i * d + d <= j * d
    decreases j
  {
    assert (j - 1) * d + d == j * d;
    if i < j - 1 {
      Spread(i, j - 1, d);
    }
  }

  // Math.round(i * (n - 1) / 199) for a series of `n` points.
  function Position(i: nat, n: nat): nat
    requires n > 0
  {
    Rounded(i * (n - 1))
  }

  /** downsampleArray. */
  method DownsampleArray<T>(arr: seq<T>) returns (result: seq<T>)
    ensures result == Thinned(arr)
  {
    if |arr| <= MAX_DATA_POINTS {
      return arr;
    }
    result := [];
    for i := 0 to MAX_DATA_POINTS - 1
      invariant |result| == i
      invariant forall k :: 0 <= k < i ==> result[k] == arr[PositionIn(k, |arr|)]
    {
      result := result + [arr[PositionIn(i, |arr|)]];
    }
    Ends(|arr|);
    result := result + [arr[|arr| - 1]];
  }

  // A position of a long series is one of its indices.
  function PositionIn(i: nat, n: nat): (p: nat)
    requires i < MAX_DATA_POINTS < n
    ensures p < n
  {
    Nearest(i, n);
    Position(i, n)
  }

  function Thinned<T>(arr: seq<T>): seq<T> {
    if |arr| <= MAX_DATA_POINTS then arr
    else seq(MAX_DATA_POINTS, i requires 0 <= i < MAX_DATA_POINTS => arr[PositionIn(i, |arr|)])
  }

  /** Each position is the index nearest to where an even spacing would fall. */
  lemma Nearest(i: nat, n: nat)
    requires i < MAX_DATA_POINTS < n
    ensures -199 <= 398 * Position(i, n) - 2 * (i * (n - 1)) <= 199
    ensures Position(i, n) < n
  {
    RoundedNearest(i * (n - 1));
    if i < MAX_DATA_POINTS - 1 {
      Spread(i, MAX_DATA_POINTS - 1, n - 1);
    }
  }

  /** The first and the last point are kept. */
  lemma Ends(n: nat)
    requires n > MAX_DATA_POINTS
    ensures Position(0, n) == 0 && Position(MAX_DATA_POINTS - 1, n) == n - 1
  {
  }

  /** The points that are kept are distinct and in order. */
  lemma PositionsIncrease(i: nat, j: nat, n: nat)
    requires i < j < MAX_DATA_POINTS < n
    ensures Position(i, n) < Position(j, n)
  {
    Nearest(i, n);
    Nearest(j, n);
    Spread(i, j, n - 1);
  }

  /** Exactly 200 points of a long series are kept, a short one is unchanged, and so thinning twice is
      thinning once. */
  lemma ThinnedSize<T>(arr: seq<T>)
    ensures |Thinned(arr)| == if |arr| <= 200 then |arr| else 200
    ensures Thinned(Thinned(arr)) == Thinned(arr)
    ensures |arr| > 200 ==> Thinned(arr)[0] == arr[0] && Thinned(arr)[199] == arr[|arr| - 1]
    ensures |arr| > 200 ==> forall i :: 0 <= i < 200 ==> Thinned(arr)[i] == arr[PositionIn(i, |arr|)]
  {
    if |arr| > MAX_DATA_POINTS {
      Ends(|arr|);
    }
  }

  // ----- panels -----

  class Panel {
    const kind: string
    var data: Option<seq<Json>>

    constructor (kind: string, data: Option<seq<Json>>)
      ensures this.kind == kind && this.data == data
    {
      this.kind, this.data := kind, data;
    }

    /** downsamplePanel: charts and sparklines with a long array of data have it thinned out in place. */
    method Downsample()
      modifies this`data
      ensures data == if old(data).Some? && kind in {"area", "bar", "sparkline"} then Some(Thinned(old(data).value))
                      else old(data)
    {
      if kind in {"area", "bar", "sparkline"} && data.Some? && |data.value| > MAX_DATA_POINTS {
        var thinned := DownsampleArray(data.value);
        data := Some(thinned);
      }
    }
  }
}
