/** The context meter: how much of the model's context window the
    conversation and the shelf take, and the colour band shown. */
module Meter {
  import opened Wrappers
  import opened Text

  const MAX_CONTEXT_TOKENS: nat := 1000000

  /** The percentage shown, capped at 100, computed exactly. */
  function Percentage(tokens: nat): (p: real)
    ensures 0.0 <= p <= 100.0
    ensures tokens >= MAX_CONTEXT_TOKENS ==> p == 100.0
    ensures tokens <= MAX_CONTEXT_TOKENS ==> p * (MAX_CONTEXT_TOKENS as real) == (tokens as real) * 100.0
  {
    var p := (tokens as real) / (MAX_CONTEXT_TOKENS as real) * 100.0;
    if p < 100.0 then p else 100.0
  }

  datatype Band = Green | Yellow | Red

  /** The band of a percentage: green below 50, yellow below 80, red above. */
  function BandOf(p: real): (b: Band)
    ensures b == Green <==> p < 50.0
    ensures b == Red <==> p >= 80.0
  {
    if p < 50.0 then Green else if p < 80.0 then Yellow else Red
  }

  /** The bands restated on the token count, without fractions: green
      below half of the window, red from four fifths on. */
  lemma BandByTokens(tokens: nat)
    ensures BandOf(Percentage(tokens)) == Green <==> 2 * tokens < MAX_CONTEXT_TOKENS
    ensures BandOf(Percentage(tokens)) == Yellow <==> MAX_CONTEXT_TOKENS <= 2 * tokens && 5 * tokens < 4 * MAX_CONTEXT_TOKENS
    ensures BandOf(Percentage(tokens)) == Red <==> 4 * MAX_CONTEXT_TOKENS <= 5 * tokens
  {
    var p := Percentage(tokens);
    var m := MAX_CONTEXT_TOKENS as real;
    var t := tokens as real;
    if tokens <= MAX_CONTEXT_TOKENS {
      assert p * m == t * 100.0;
      assert p < 50.0 <==> p * m < 50.0 * m;
      assert p < 80.0 <==> p * m < 80.0 * m;
    } else {
      assert p == 100.0;
    }
  }

  /** What the meter shows: the gauge with the count, its fraction of the
      window and its band, or, when counting failed, the number of files. */
  datatype Display =
    | Gauge(tokens: nat, fraction: real, band: Band)
    | FilesLoaded(caption: string)

  /** The meter after a count attempt on a shelf of `fileCount` files. */
  function Reading(count: Result<nat, string>, fileCount: nat): (d: Display)
    ensures count.Ok? ==> d.Gauge? && d.tokens == count.value && 0.0 <= d.fraction <= 1.0
    ensures count.Ok? && count.value <= MAX_CONTEXT_TOKENS ==>
              d.fraction * (MAX_CONTEXT_TOKENS as real) == count.value as real
    ensures count.Ok? && count.value >= MAX_CONTEXT_TOKENS ==> d.fraction == 1.0
    ensures count.Ok? ==> d.band == BandOf(Percentage(count.value))
    ensures count.Ok? ==> (d.band == Green <==> 2 * count.value < MAX_CONTEXT_TOKENS)
    ensures count.Ok? ==> (d.band == Red <==> 4 * MAX_CONTEXT_TOKENS <= 5 * count.value)
    ensures count.Err? ==> d == FilesLoaded(NatToString(fileCount) + " files loaded")
  {
    match count
    case Ok(t) =>
      BandByTokens(t);
      var p := Percentage(t);
      assert t <= MAX_CONTEXT_TOKENS ==> (p / 100.0) * (MAX_CONTEXT_TOKENS as real) == p * (MAX_CONTEXT_TOKENS as real) / 100.0;
      Gauge(t, p / 100.0, BandOf(p))
    case Err(_) => FilesLoaded(NatToString(fileCount) + " files loaded")
  }

  /** A fuller window never shows a lower band. */
  lemma BandMonotone(t1: nat, t2: nat)
    requires t1 <= t2
    ensures BandOf(Percentage(t1)) == Red ==> BandOf(Percentage(t2)) == Red
    ensures BandOf(Percentage(t2)) == Green ==> BandOf(Percentage(t1)) == Green
  {
    BandByTokens(t1);
    BandByTokens(t2);
  }
}
