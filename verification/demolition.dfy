/**
 * The records the demolition tracker keeps per housing plot. They are
 * defined by the plugin's `DemolitionManager` and `PlotInfo`, which the
 * timer and configuration windows read and edit.
 */
module Demolition {

  /**
   * `DemolitionManager.DefaultDisplayMax`: the number of days without a
   * visit after which the game demolishes a house.
   */
  const DefaultDisplayMax: int := 45

  /** The unsigned byte that `DisplayFrom` and `DisplayWarningFrom` are stored in. */
  type Byte = x: int | 0 <= x < 256

  /** A housing plot: zone, ward, plot number and world. `default(PlotInfo)` is all zeros. */
  datatype PlotInfo = PlotInfo(zone: nat, ward: nat, plot: nat, serverId: nat)

  const DefaultPlot: PlotInfo := PlotInfo(0, 0, 0, 0)

  /** A character whose presence inside the house resets its timer. */
  datatype PlayerInfo = PlayerInfo(name: string, serverId: nat)

  /**
   * `DemolitionManager.DemolitionInfo`. `lastVisit` is a `DateTime` in ticks;
   * `lastVisitDays` is the whole number of days since then, which the manager
   * derives from the clock and the configuration window shows.
   */
  datatype DemolitionInfo = DemolitionInfo(
    name: string,
    tracked: bool,
    displayFrom: Byte,
    displayWarningFrom: Byte,
    lastVisit: int,
    lastVisitDays: int,
    checkedPlayers: set<PlayerInfo>)
}
