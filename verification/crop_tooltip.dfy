/**
 * The time labels of the crop timer's tooltip: how a target instant is
 * rendered against the clock, when the wilt and wither rows say "never",
 * and when the finish time is marked as an upper bound. The formatting of
 * a duration (`TimeSpanString`) lives outside this file and is a
 * parameter here.
 */
module CropTooltip {
  import opened Clock
  import opened ConfigGeneral

  /** `TimeSpanString(span, 3)`: the text of a non-negative duration in ticks. */
  type SpanText = int -> string

  /**
   * `TimeSpanString2`: the three sentinel instants have fixed words, checked
   * before the clock is consulted; a real instant reads "Already" once past
   * and as the time remaining otherwise.
   */
  function TimeSpanString2(target: int, now: int, spanText: SpanText): (r: string)
    ensures target == MinValue ==> r == "已经"
    ensures target == UnixEpoch ==> r == "未知"
    ensures target == MaxValue ==> r == "永不"
    ensures !IsSentinel(target) && target < now ==> r == "Already"
    ensures !IsSentinel(target) && target >= now ==> r == spanText(target - now)
  {
    if target == MinValue then "已经"
    else if target == UnixEpoch then "未知"
    else if target == MaxValue then "永不"
    else if target < now then "Already"
    else spanText(target - now)
  }

  /**
   * The label of a real instant depends only on how far it lies from the
   * clock; the label of a sentinel does not depend on the clock at all.
   */
  lemma TimeSpanString2ShiftInvariant(target: int, now: int, d: int, spanText: SpanText)
    ensures IsSentinel(target) ==> TimeSpanString2(target, now, spanText) == TimeSpanString2(target, now + d, spanText)
    ensures !IsSentinel(target) && !IsSentinel(target + d) ==>
      TimeSpanString2(target + d, now + d, spanText) == TimeSpanString2(target, now, spanText)
  {
  }

  /** The wilt or wither row: "never" when the crop finishes before that instant. */
  function LaterRow(fin: int, at: int, now: int, spanText: SpanText): (r: string)
    ensures fin < at ==> r == "永不"
    ensures fin >= at ==> r == TimeSpanString2(at, now, spanText)
  {
    if fin < at then "永不" else TimeSpanString2(at, now, spanText)
  }

  /**
   * A crop that never wilts, or finishes before it would, reads "never"
   * whatever the sentinels; otherwise a still-pending real instant shows
   * its remaining time.
   */
  lemma LaterRowNever(fin: int, at: int, now: int, spanText: SpanText)
    ensures at == MaxValue || fin < at ==> LaterRow(fin, at, now, spanText) == "永不"
    ensures fin >= at && !IsSentinel(at) && at >= now ==> LaterRow(fin, at, now, spanText) == spanText(at - now)
  {
  }

  // ----------------------------------------------------- the finish marker

  /**
   * The finish marker as the tooltip computes it: "<" when the finish time
   * is real and later than `DateTime.Now`, which is the local wall clock,
   * `utcOffset` ticks ahead of UTC, while `fin` is a UTC instant.
   */
  function FinishMarkerAsWritten(fin: int, utcNow: int, utcOffset: int): (m: string)
    ensures m == "<" <==> fin != MaxValue && fin > utcNow + utcOffset
    ensures m != "<" ==> m == "  "
  {
    if fin != MaxValue && fin > utcNow + utcOffset then "<" else "  "
  }

  /** The finish marker against the same UTC clock the finish row uses. */
  function FinishMarker(fin: int, utcNow: int): (m: string)
    ensures m == "<" <==> fin != MaxValue && fin > utcNow
    ensures m != "<" ==> m == "  "
  {
    if fin != MaxValue && fin > utcNow then "<" else "  "
  }

  /**
   * East of Greenwich the written marker disappears during the last
   * `utcOffset` ticks before the crop finishes, although the finish row
   * still counts down.
   */
  lemma FinishMarkerAsWrittenLags(fin: int, utcNow: int, utcOffset: int, spanText: SpanText)
    requires 0 < utcOffset
    requires UnixEpoch <= utcNow < fin <= utcNow + utcOffset && fin != MaxValue
    ensures FinishMarkerAsWritten(fin, utcNow, utcOffset) == "  "
    ensures FinishMarker(fin, utcNow) == "<"
    ensures TimeSpanString2(fin, utcNow, spanText) == spanText(fin - utcNow)
  {
  }

  /** A concrete instance: UTC+8, one hour before the crop finishes. */
  lemma FinishMarkerAsWrittenExample(spanText: SpanText)
    ensures var utcNow := 638_000_000_000_000_000;
      var fin := utcNow + 36_000_000_000;
      && FinishMarkerAsWritten(fin, utcNow, 288_000_000_000) == "  "
      && FinishMarker(fin, utcNow) == "<"
      && TimeSpanString2(fin, utcNow, spanText) == spanText(36_000_000_000)
  {
    FinishMarkerAsWrittenLags(638_000_036_000_000_000, 638_000_000_000_000_000, 288_000_000_000, spanText);
  }

  /**
   * With one clock, the marker flags exactly the finish rows that count a
   * positive remaining time.
   */
  lemma FinishMarkerMatchesRow(fin: int, utcNow: int, spanText: SpanText)
    requires utcNow >= UnixEpoch
    ensures FinishMarker(fin, utcNow) == "<" <==> !IsSentinel(fin) && fin > utcNow
    ensures FinishMarker(fin, utcNow) == "<" ==> TimeSpanString2(fin, utcNow, spanText) == spanText(fin - utcNow)
  {
  }

  /**
   * The column left of the times: with an inaccurate plant time, "<" beside
   * the plant row and the finish marker beside the finish row; otherwise
   * blank.
   */
  function MarkerColumn(accuratePlantTime: bool, fin: int, utcNow: int): (c: seq<string>)
    ensures accuratePlantTime ==> c == ["  "]
    ensures !accuratePlantTime ==> |c| == 3 && c[0] == "<" && (c[2] == "<" <==> fin != MaxValue && fin > utcNow)
  {
    if accuratePlantTime then ["  "] else ["<", "", FinishMarker(fin, utcNow)]
  }

  // -------------------------------------------------------------- ordering

  /** The two layouts of the crop cache. */
  datatype CropLayout = ByCrop | ByOwner

  /** `UpdateInternal`: group by plant when the configuration asks for it, by owner otherwise. */
  function UpdateInternal(config: Config): (layout: CropLayout)
    ensures layout == ByCrop <==> config.orderByCrop
    ensures layout == ByOwner <==> !config.orderByCrop
  {
    if config.orderByCrop then ByCrop else ByOwner
  }

  /** Flipping the crop-ordering switch resets the crop cache, whose rebuild then uses the chosen layout. */
  lemma OrderSwitchSelectsLayout(config: Config, toggle: bool)
    ensures var e := SetOrderByCrop(config, toggle);
      CropCache in e.resets && (UpdateInternal(e.config) == ByCrop <==> toggle)
  {
  }

  /**
   * The indoor-plant switch also resets the crop cache, but its rebuild keeps
   * the layout it had: only the ordering switch chooses the layout.
   */
  lemma IndoorSwitchKeepsLayout(config: Config, toggle: bool)
    ensures var e := SetIgnoreIndoorPlants(config, toggle);
      CropCache in e.resets && UpdateInternal(e.config) == UpdateInternal(config)
  {
  }
}
