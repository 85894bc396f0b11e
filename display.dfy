/** What `render` of src/stock/chart.js computes itself, besides handing the
    data to the charting library: the initial visible window and the colours
    of the price and volume bars. */
module Display {
  import opened Wrappers

  /** The number of most recent bars shown when the chart opens. */
  const WINDOW := 150

  /** One daily record as the chart reads it. */
  datatype Quote = Quote(open: real, high: real, low: real, close: real, volume: int)

  /** The ordinals of the first and the last bar of the initial window of a
      series of `n` bars: `[last, data[max(0, n - 150)]]`. An empty series
      has no last record, and the window is undefined. */
  function VisibleWindow(n: nat): (r: Option<(nat, nat)>)
    ensures r.None? <==> n == 0
    ensures r.Some? ==> r.value.0 == n - 1
    ensures r.Some? ==> 0 <= r.value.1 <= r.value.0 < n
    ensures r.Some? ==> r.value.0 - r.value.1 + 1 == if n < WINDOW then n else WINDOW
  {
    if n == 0 then None
    else Some((n - 1, if n - WINDOW > 0 then n - WINDOW else 0))
  }

  /** `xExtents`: the time-scale coordinates `xAccessor` gives the two
      records that bound the initial window. */
  function XExtents<T>(data: seq<T>, xAccessor: T -> int): (r: Option<(int, int)>)
    ensures r.None? <==> data == []
  {
    match VisibleWindow(|data|)
    case None => None
    case Some((start, end)) => Some((xAccessor(data[start]), xAccessor(data[end])))
  }

  /** The discontinuous time scale gives each record its ordinal, so the
      extents span the last `min(n, 150)` bars and never reach below 0. */
  lemma XExtentsOfOrdinals<T>(data: seq<T>, xAccessor: T -> int)
    requires forall i :: 0 <= i < |data| ==> xAccessor(data[i]) == i
    requires data != []
    ensures XExtents(data, xAccessor).Some?
    ensures
      var (start, end) := XExtents(data, xAccessor).value;
      && start == |data| - 1
      && 0 <= end <= start
      && start - end + 1 == if |data| < WINDOW then |data| else WINDOW
  {
  }

  datatype Colour = Green | Red | Blue

  /** The stroke of an OHLC bar: green when it closed up, red when it closed
      down, blue when it closed where it opened. */
  function OhlcStroke(q: Quote): (c: Colour)
    ensures c == Green <==> q.close > q.open
    ensures c == Red <==> q.open > q.close
    ensures c == Blue <==> q.open == q.close
  {
    if q.close > q.open then Green else if q.open > q.close then Red else Blue
  }

  /** The fill of a volume bar: green when the day closed up, red otherwise. */
  function VolumeFill(q: Quote): (c: Colour)
    ensures c == Green <==> q.close > q.open
    ensures c != Blue
  {
    if q.close > q.open then Green else Red
  }

  /** The two panels agree on up days; a day that closed where it opened is
      blue on the price chart and red on the volume chart. */
  lemma VolumeFillMatchesStroke(q: Quote)
    ensures VolumeFill(q) == Green <==> OhlcStroke(q) == Green
    ensures VolumeFill(q) == Red <==> OhlcStroke(q) in {Red, Blue}
  {
  }
}
