/** `demo_trends_dataframe`: synthetic rows shown when no credential is set or
    demo mode is chosen. The clock `int(time.time())` is the parameter `now`. */
module Demo {
  import Guard

  const DemoMin: int := 5
  const DemoMax: int := 20
  /** Seconds between the timestamps of consecutive rows. */
  const Spacing: int := 60

  datatype DemoRow = DemoRow(rank: nat, sampleTrend: string, score: real, exampleText: string, fetchedAt: int)

  /** Number of demo rows: `max(5, min(max_results, 20))`. */
  function DemoCount(requested: int): (n: nat)
    ensures DemoMin <= n <= DemoMax
    ensures DemoMin <= requested <= DemoMax ==> n == requested
    ensures requested < DemoMin ==> n == DemoMin
    ensures DemoMax < requested ==> n == DemoMax
  {
    Guard.Clamp(DemoMin, DemoMax, requested)
  }

  function DigitChar(d: nat): char
    requires d < 10
  {
    "0123456789"[d]
  }

  /** Decimal digits of n, as `str(n)` / an f-string writes them. */
  function DecimalString(n: nat): (s: string)
    ensures |s| >= 1
    ensures forall i :: 0 <= i < |s| ==> '0' <= s[i] <= '9'
    ensures |s| > 1 ==> s[0] != '0'
  {
    if n < 10 then [DigitChar(n)] else DecimalString(n / 10) + [DigitChar(n % 10)]
  }

  /** The number a string of decimal digits denotes. */
  function DecimalValue(s: string): nat
    requires forall i :: 0 <= i < |s| ==> '0' <= s[i] <= '9'
  {
    if s == [] then 0 else 10 * DecimalValue(s[..|s| - 1]) + (s[|s| - 1] - '0') as nat
  }

  /** The digits written for n read back as n. */
  lemma {:induction false} DecimalRoundTrip(n: nat)
    ensures DecimalValue(DecimalString(n)) == n
  {
    if n >= 10 {
      var s := DecimalString(n);
      assert s[..|s| - 1] == DecimalString(n / 10);
      DecimalRoundTrip(n / 10);
    }
  }

  /** `round(100 - i * 3 + (i % 3) * 1.5, 2)`: 100 - 3i plus 0, 1.5 or 3. The
      value is a multiple of 0.5, which binary floating point holds exactly,
      so the rounding changes nothing. */
  function Score(i: nat): (r: real)
    ensures var base := (100 - 3 * i) as real; r == base || r == base + 1.5 || r == base + 3.0
    ensures i % 3 == 0 ==> r == (100 - 3 * i) as real
  {
    100.0 - (i * 3) as real + (i % 3) as real * 1.5
  }

  /** Scores strictly fall from each row to the next. */
  lemma ScoreDecreases(i: nat)
    ensures Score(i + 1) < Score(i)
  {
    if i % 3 == 2 {
      assert (i + 1) % 3 == 0;
    } else {
      assert (i + 1) % 3 == i % 3 + 1;
    }
  }

  /** Row i of the demo table. */
  function DemoRowAt(query: string, i: nat, now: int): DemoRow {
    var tag := DecimalString(i + 1);
    DemoRow(i + 1, query + " #" + tag, Score(i),
            "Example post about " + query + " \U{2014} generated demo #" + tag,
            now - i * Spacing)
  }

  /** The loop of `demo_trends_dataframe`, appending one row per index. */
  method DemoTrends(query: string, maxResults: int, now: int) returns (rows: seq<DemoRow>)
    ensures |rows| == DemoCount(maxResults)
    ensures forall i :: 0 <= i < |rows| ==> rows[i] == DemoRowAt(query, i, now)
    ensures forall i :: 0 <= i < |rows| ==> rows[i].rank == i + 1 && rows[i].fetchedAt == now - Spacing * i
    ensures forall i :: 0 < i < |rows| ==> rows[i].fetchedAt == rows[i - 1].fetchedAt - Spacing
    ensures forall i :: 0 < i < |rows| ==> rows[i].score < rows[i - 1].score
  {
    var n := Guard.Max(DemoMin, Guard.Min(maxResults, DemoMax));
    rows := [];
    for i := 0 to n
      invariant |rows| == i
      invariant forall k :: 0 <= k < i ==> rows[k] == DemoRowAt(query, k, now)
    {
      var tag := DecimalString(i + 1);
      rows := rows + [DemoRow(i + 1, query + " #" + tag, 100.0 - (i * 3) as real + (i % 3) as real * 1.5,
                              "Example post about " + query + " \U{2014} generated demo #" + tag,
                              now - i * 60)];
    }
    forall i | 0 < i < |rows| ensures rows[i].score < rows[i - 1].score {
      ScoreDecreases(i - 1);
    }
  }
}
