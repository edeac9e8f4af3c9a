/** The pure parts of the WebSocket chart data feed (DataFeedWs.ts): option
    validation and defaults in the constructor, the resolution-to-interval
    chain shared by `getBars` and `subscribeBars`, the price scale, and the
    window of a history request. Bars are counted, not converted: the
    `parseFloat` conversion of rows is not part of this model. */
module DataFeedWs {
  import opened Js
  import StrId

  /** `DEFAULT_RESOLUTIONS`. */
  const DefaultResolutions: seq<string> := ["1", "5", "15", "60", "240", "1D", "1W", "1M"]

  /** `resolutions.every(r => DEFAULT_RESOLUTIONS.includes(r))`. */
  predicate Supported(resolutions: seq<string>)
  {
    forall i :: 0 <= i < |resolutions| ==> resolutions[i] in DefaultResolutions
  }

  /** The fields the constructor sets. */
  datatype Config = Config(strId: string, symbol: string, kind: Option<string>, resolutions: seq<string>, scale: int)

  /** The constructor: `resolutions` defaults to `DEFAULT_RESOLUTIONS` and
      `scale` to 2 (destructuring defaults apply only to undefined); it throws
      (None) when a resolution is not a default one. */
  function Configure(strId: string, resolutions: Option<seq<string>>, scale: Option<int>): (r: Option<Config>)
    ensures r.None? <==> resolutions.Some? && !Supported(resolutions.value)
    ensures r.Some? ==> Supported(r.value.resolutions)
    ensures r.Some? ==> r.value.symbol == StrId.Symbol(strId) && r.value.kind == StrId.Kind(strId)
    ensures r.Some? && resolutions.None? ==> r.value.resolutions == DefaultResolutions
    ensures r.Some? && scale.None? ==> r.value.scale == 2
    ensures r.Some? && scale.Some? ==> r.value.scale == scale.value
  {
    var rs := if resolutions.Some? then resolutions.value else DefaultResolutions;
    if !Supported(rs) then None
    else Some(Config(strId, StrId.Symbol(strId), StrId.Kind(strId), rs, if scale.Some? then scale.value else 2))
  }

  /** The if / else-if chain of `getBars` and `subscribeBars`; anything else is "1m". */
  function Interval(resolution: string): string
  {
    if resolution == "1" then "1m"
    else if resolution == "5" then "5m"
    else if resolution == "15" then "15m"
    else if resolution == "60" then "1h"
    else if resolution == "240" then "4h"
    else if resolution == "1D" then "1d"
    else if resolution == "1W" then "1w"
    else if resolution == "1M" then "1M"
    else "1m"
  }

  /** The intervals the chain produces, in the order of `DEFAULT_RESOLUTIONS`. */
  const DefaultIntervals: seq<string> := ["1m", "5m", "15m", "1h", "4h", "1d", "1w", "1M"]

  /** The chain maps the default resolutions one-to-one onto the eight
      intervals, and sends every other resolution to "1m". */
  lemma IntervalChain(resolution: string)
    ensures forall i :: 0 <= i < |DefaultResolutions| ==> Interval(DefaultResolutions[i]) == DefaultIntervals[i]
    ensures resolution !in DefaultResolutions ==> Interval(resolution) == "1m"
    ensures Interval(resolution) in DefaultIntervals
  {
  }

  function Pow10(n: nat): (r: nat)
    ensures r >= 1
  {
    if n == 0 then 1 else 10 * Pow10(n - 1)
  }

  /** `Math.pow(10, this.scale || 2)`: a zero scale counts as unset. */
  function PriceScale(scale: nat): (r: nat)
    ensures scale == 0 ==> r == 100
  {
    Pow10(if scale == 0 then 2 else scale)
  }

  /** A set price scale is 10 to that power, written as a 1 followed by
      as many zeros as the scale asks for. */
  lemma {:induction false} PriceScaleDigits(scale: nat)
    requires scale >= 1
    ensures PriceScale(scale) == Pow10(scale)
    ensures IntToString(PriceScale(scale)) == ['1'] + seq(scale, _ => '0')
    decreases scale
  {
    if scale > 1 {
      PriceScaleDigits(scale - 1);
      assert PriceScale(scale) == 10 * PriceScale(scale - 1);
      assert PriceScale(scale) / 10 == PriceScale(scale - 1) && PriceScale(scale) % 10 == 0;
      assert ['1'] + seq(scale, _ => '0') == ['1'] + seq(scale - 1, _ => '0') + ['0'];
    }
  }

  /** `startTime = from * 1000`, `endTime = firstDataRequest ? Date.now() : to * 1000`:
      seconds become milliseconds, and a first request runs up to now. */
  function Window(from: int, to: int, firstDataRequest: bool, now: int): (w: (int, int))
    ensures w.0 % 1000 == 0 && w.0 / 1000 == from
    ensures !firstDataRequest ==> w.1 % 1000 == 0 && w.1 / 1000 == to
    ensures firstDataRequest ==> w.1 == now
  {
    (from * 1000, if firstDataRequest then now else to * 1000)
  }

  /** `{ noData: bars.length === 0 }` for the rows a history call returned. */
  function NoData<T>(rows: seq<T>): (r: bool)
    ensures r <==> rows == []
  {
    |rows| == 0
  }
}
