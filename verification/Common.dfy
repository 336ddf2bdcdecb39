/** Values shared by the models of the services. */
module Common {
  datatype Option<+T> = None | Some(value: T)

  datatype Result<+T, +E> = Success(value: T) | Failure(error: E)

  /** Identifiers; `NIL` is the all-zero one that filters read as "any". */
  type Uuid = nat
  const NIL: Uuid := 0

  function Max(a: int, b: int): int {
    if a < b then b else a
  }

  function RemoveAt<T>(s: seq<T>, i: nat): seq<T>
    requires i < |s|
  {
    s[..i] + s[i + 1..]
  }

  lemma RemoveAtTakesOne<T>(s: seq<T>, i: nat)
    requires i < |s|
    ensures multiset(s) == multiset{s[i]} + multiset(RemoveAt(s, i))
  {
    assert s == s[..i] + [s[i]] + s[i + 1..];
  }

  function Swap<T>(s: seq<T>, i: nat, j: nat): (r: seq<T>)
    requires i < |s| && j < |s|
    ensures |r| == |s| && multiset(r) == multiset(s)
    ensures forall k | 0 <= k < |s| :: r[k] == if k == i then s[j] else if k == j then s[i] else s[k]
  {
    s[i := s[j]][j := s[i]]
  }

  /** Rounds half away from zero, as Go's math.Round does. */
  function Round(x: real): int {
    if x >= 0.0 then (x + 0.5).Floor else -((0.5 - x).Floor)
  }

  /** To the nearest whole number, and from halfway to the one further from zero. */
  lemma RoundsToNearestWhole(x: real)
    ensures -0.5 <= Round(x) as real - x <= 0.5
    ensures x >= 0.0 ==> -0.5 < Round(x) as real - x
    ensures Round(-x) == -Round(x)
  {
  }

  /** Rounds to two decimals, as the services round prices and scores. */
  function TwoDecimals(x: real): real {
    Round(x * 100.0) as real / 100.0
  }

  /** The result is a whole number of hundredths, and none is nearer. */
  lemma TwoDecimalsAreNearest(x: real)
    ensures exists n :: TwoDecimals(x) == Hundredths(n)
    ensures -0.005 <= TwoDecimals(x) - x <= 0.005
  {
    var n := Round(x * 100.0);
    RoundsToNearestWhole(x * 100.0);
    assert TwoDecimals(x) == Hundredths(n);
  }

  function Hundredths(n: int): real {
    n as real / 100.0
  }

  // Times are nanoseconds; 0 is the time that was never set.
  const UNSET_TIME := 0
  const HOUR := 3_600_000_000_000
  const DAY := 24 * HOUR

  // Named products and quotients, so that proofs can treat them as terms.

  function Times(a: real, b: real): real {
    a * b
  }

  function Ratio(a: real, b: real): real
    requires b != 0.0
  {
    a / b
  }

  lemma ProductIsNonNegative(x: real, y: real)
    requires x >= 0.0 && y >= 0.0
    ensures x * y >= 0.0
  {
  }

  lemma SignOfFactor(x: real, w: real)
    requires w > 0.0
    ensures x * w <= 0.0 ==> x <= 0.0
  {
  }

  /** A total between w times low and w times high has its mean between them. */
  lemma MeanIsBetween(total: real, w: real, low: real, high: real)
    requires w > 0.0 && w * low <= total <= w * high
    ensures low <= Ratio(total, w) <= high
  {
    var q := Ratio(total, w);
    assert q * w == total;
    SignOfFactor(low - q, w);
    SignOfFactor(q - high, w);
  }
}
