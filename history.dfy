/**
 * The finished-game records kept in `history["games"]` and the averages
 * that `calculate_averages` derives from them.
 */
module History {
  import opened Wrappers

  /**
   * One entry of `history["games"]`.  Records appended by the tracker carry
   * every key; records loaded from the history file may lack some, and a
   * missing key is a None.
   */
  datatype Record = Record(timestamp: Option<int>, ult: Option<int>, cs: Option<int>, kills: Option<int>)

  /** The three averaged keys: "ult", "cs" and "kills". */
  datatype Field = Ult | Cs | Kills

  /** The averages shown next to the live counters. */
  datatype Averages = Averages(ult: real, cs: real, kills: real)

  /** `game.get(key, 0)`. */
  function Get(game: Record, f: Field): int
  {
    match f
    case Ult => game.ult.GetOr(0)
    case Cs => game.cs.GetOr(0)
    case Kills => game.kills.GetOr(0)
  }

  /** The sum of one field over the records, a missing key counting 0. */
  function Total(games: seq<Record>, f: Field): int
    decreases |games|
  {
    if games == [] then 0 else Get(games[0], f) + Total(games[1..], f)
  }

  /** The arithmetic mean of one field; 0 when there are no records. */
  function Mean(games: seq<Record>, f: Field): (m: real)
    ensures |games| == 0 ==> m == 0.0
    ensures |games| > 0 ==> m * |games| as real == Total(games, f) as real
  {
    if |games| == 0 then 0.0 else Total(games, f) as real / |games| as real
  }

  /** What `calculate_averages` returns for a history. */
  function AveragesOf(games: seq<Record>): Averages
  {
    Averages(Mean(games, Ult), Mean(games, Cs), Mean(games, Kills))
  }

  /** Adding a record at the end adds its value to the total. */
  lemma {:induction false} TotalAppend(games: seq<Record>, game: Record, f: Field)
    ensures Total(games + [game], f) == Total(games, f) + Get(game, f)
    decreases |games|
  {
    if games != [] {
      assert (games + [game])[1..] == games[1..] + [game];
      TotalAppend(games[1..], game, f);
    }
  }

  /** When every record's value lies in [lo, hi], the total lies in [n * lo, n * hi]. */
  lemma {:induction false} TotalBounds(games: seq<Record>, f: Field, lo: int, hi: int)
    requires forall i :: 0 <= i < |games| ==> lo <= Get(games[i], f) <= hi
    ensures |games| * lo <= Total(games, f) <= |games| * hi
    decreases |games|
  {
    if games != [] {
      assert forall i :: 0 <= i < |games[1..]| ==> games[1..][i] == games[i + 1];
      TotalBounds(games[1..], f, lo, hi);
      assert lo <= Get(games[0], f) <= hi;
    }
  }

  /** The mean of a non-empty history lies between the smallest and the largest value. */
  lemma MeanBounds(games: seq<Record>, f: Field, lo: int, hi: int)
    requires |games| > 0
    requires forall i :: 0 <= i < |games| ==> lo <= Get(games[i], f) <= hi
    ensures lo as real <= Mean(games, f) <= hi as real
  {
    TotalBounds(games, f, lo, hi);
    var n := |games| as real;
    var m := Mean(games, f);
    assert m * n == Total(games, f) as real;
    assert lo as real * n <= m * n <= hi as real * n;
  }

  /**
   * The running averages can be recomputed incrementally: the mean after
   * one more record, times the new count, is the old mean times the old
   * count plus the new record's value.
   */
  lemma MeanAppend(games: seq<Record>, game: Record, f: Field)
    ensures Mean(games + [game], f) * (|games| + 1) as real == Mean(games, f) * |games| as real + Get(game, f) as real
  {
    TotalAppend(games, game, f);
  }

  /**
   * `int(x)` on a float: truncation toward zero, as `int(time.time())` does
   * for the record's timestamp.
   */
  function TruncateToInt(x: real): (n: int)
    ensures 0.0 <= x ==> n as real <= x < n as real + 1.0
    ensures x < 0.0 ==> n as real - 1.0 < x <= n as real
  {
    if x >= 0.0 then x.Floor else -((-x).Floor)
  }
}
