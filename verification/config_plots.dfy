/**
 * The decisions of the demolition tab of the configuration window: which
 * plot's data is shown, how the two day thresholds are edited and saved,
 * what the last-visit button says, and when the buttons that add and
 * remove players and plots are enabled. Each frame's widget results (a
 * drag that changed a value, a click, the Ctrl key) are inputs, and each
 * decision returns the new data together with whether it was saved.
 */
module ConfigPlots {
  import opened Wrappers
  import opened Decimal
  import opened Demolition

  /** The result of an edit: the (possibly) new record and whether `Save()` was called. */
  datatype Edit<T> = Edit(value: T, saved: bool)

  // ------------------------------------------------------------ selection

  /**
   * The data panel shows the selected plot's record; when the selection is
   * not in the manager's dictionary, the selection is reset and nothing is shown.
   */
  function SelectedData(data: map<PlotInfo, DemolitionInfo>, selected: PlotInfo): (r: (Option<DemolitionInfo>, PlotInfo))
    ensures selected in data ==> r == (Some(data[selected]), selected)
    ensures selected !in data ==> r == (None, DefaultPlot)
  {
    if selected in data then (Some(data[selected]), selected) else (None, DefaultPlot)
  }

  /**
   * The panel shows data iff the selection is in the dictionary, and what it
   * shows is the record of the selection it keeps; that selection is settled:
   * the next frame keeps it again.
   */
  lemma SelectedDataSettles(data: map<PlotInfo, DemolitionInfo>, selected: PlotInfo)
    ensures var (shown, next) := SelectedData(data, selected);
      && (shown.Some? <==> selected in data)
      && (shown.Some? ==> next in data && shown.value == data[next])
      && SelectedData(data, next).1 == next
      && (shown.Some? ==> SelectedData(data, next) == (shown, next))
  {
  }

  // ---------------------------------------------------------- thresholds

  /** `Math.Clamp(v, 0, DefaultDisplayMax)`. */
  function ClampDays(v: int): (r: Byte)
    ensures 0 <= r <= DefaultDisplayMax
    ensures 0 <= v <= DefaultDisplayMax ==> r == v
    ensures v < 0 ==> r == 0
    ensures v > DefaultDisplayMax ==> r == DefaultDisplayMax
  {
    if v < 0 then 0 else if v > DefaultDisplayMax then DefaultDisplayMax else v
  }

  /** Which of the two thresholds a drag widget edits. */
  datatype Threshold = DisplayFrom | DisplayWarningFrom

  function ThresholdOf(info: DemolitionInfo, which: Threshold): Byte {
    match which
    case DisplayFrom => info.displayFrom
    case DisplayWarningFrom => info.displayWarningFrom
  }

  function WithThreshold(info: DemolitionInfo, which: Threshold, v: Byte): DemolitionInfo {
    match which
    case DisplayFrom => info.(displayFrom := v)
    case DisplayWarningFrom => info.(displayWarningFrom := v)
  }

  /**
   * A drag on a threshold: the dragged value is clamped to the valid day
   * range and written, and saved, only when it differs from the stored one.
   */
  function EditThreshold(info: DemolitionInfo, which: Threshold, dragged: bool, value: int): (r: Edit<DemolitionInfo>)
    ensures r.saved <==> dragged && ClampDays(value) != ThresholdOf(info, which)
    ensures r.saved ==> ThresholdOf(r.value, which) == ClampDays(value)
    ensures !r.saved ==> r.value == info
    ensures 0 <= ThresholdOf(r.value, which) <= DefaultDisplayMax || r.value == info
    ensures WithThreshold(r.value, which, ThresholdOf(info, which)) == info
  {
    if !dragged then Edit(info, false)
    else
      var days := ClampDays(value);
      if days != ThresholdOf(info, which) then Edit(WithThreshold(info, which, days), true)
      else Edit(info, false)
  }

  /** Repeating an edit changes nothing more and saves nothing. */
  lemma EditThresholdIdempotent(info: DemolitionInfo, which: Threshold, value: int)
    ensures var once := EditThreshold(info, which, true, value);
      EditThreshold(once.value, which, true, value) == Edit(once.value, false)
  {
  }

  // ---------------------------------------------------------- last visit

  const LastVisitPrefix: string := "上次访问: "

  /** The caption of the last-visit button, from the record's whole days since the last visit. */
  function LastVisitLabel(info: DemolitionInfo): (caption: string)
    ensures LastVisitPrefix <= caption
  {
    var days := info.lastVisitDays;
    if days <= 1 then LastVisitPrefix + "24 小时内"
    else if days > DefaultDisplayMax then LastVisitPrefix + (NatToString(DefaultDisplayMax) + " 天前")
    else LastVisitPrefix + (NatToString(days) + " 天前")
  }

  /** A day count capped at the demolition limit. */
  function CappedDays(days: int): int {
    if days < DefaultDisplayMax then days else DefaultDisplayMax
  }

  /**
   * Past the first day, the button shows the day count capped at the
   * demolition limit, so two captions agree exactly when the capped counts do.
   */
  lemma LastVisitLabelCapped(i1: DemolitionInfo, i2: DemolitionInfo)
    requires i1.lastVisitDays > 1 && i2.lastVisitDays > 1
    ensures LastVisitLabel(i1) == LastVisitPrefix + (NatToString(CappedDays(i1.lastVisitDays)) + " 天前")
    ensures LastVisitLabel(i1) == LastVisitLabel(i2) <==> CappedDays(i1.lastVisitDays) == CappedDays(i2.lastVisitDays)
  {
    var c1: nat := CappedDays(i1.lastVisitDays);
    var c2: nat := CappedDays(i2.lastVisitDays);
    var t1 := NatToString(c1) + " 天前";
    var t2 := NatToString(c2) + " 天前";
    assert LastVisitLabel(i1) == LastVisitPrefix + t1;
    assert LastVisitLabel(i2) == LastVisitPrefix + t2;
    if LastVisitLabel(i1) == LastVisitLabel(i2) {
      assert t1 == (LastVisitPrefix + t1)[|LastVisitPrefix|..];
      assert t2 == (LastVisitPrefix + t2)[|LastVisitPrefix|..];
      NatToStringSuffixInjective(c1, c2, " 天前");
    }
  }

  /** Within the first day the button says so, in words no later count produces. */
  lemma LastVisitLabelWithinDay(recent: DemolitionInfo, later: DemolitionInfo)
    requires recent.lastVisitDays <= 1 < later.lastVisitDays
    ensures LastVisitLabel(recent) == LastVisitPrefix + "24 小时内"
    ensures LastVisitLabel(recent) != LastVisitLabel(later)
  {
    LastVisitLabelCapped(later, later);
    var l := LastVisitLabel(later);
    assert l[|l| - 1] == '前';
  }

  /** Ctrl-clicking the last-visit button stamps the visit with the current time and saves. */
  function ResetLastVisit(info: DemolitionInfo, ctrl: bool, clicked: bool, now: int): (r: Edit<DemolitionInfo>)
    ensures r.value.(lastVisit := info.lastVisit) == info
    ensures r.saved <==> ctrl && clicked
    ensures r.value.lastVisit == (if r.saved then now else info.lastVisit)
  {
    if ctrl && clicked then Edit(info.(lastVisit := now), true) else Edit(info, false)
  }

  /**
   * Stamping is idempotent: a second Ctrl-click at the same instant leaves
   * the record as the first one left it (though it saves again).
   */
  lemma ResetLastVisitIdempotent(info: DemolitionInfo, ctrl: bool, clicked: bool, now: int)
    ensures var first := ResetLastVisit(info, ctrl, clicked, now).value;
      ResetLastVisit(first, ctrl, clicked, now).value == first
  {
  }

  // ------------------------------------------------------------- players

  /** The "add new player" button is enabled for a non-empty name on a known world not yet listed. */
  function CanAddPlayer(name: string, worldId: nat, players: set<PlayerInfo>): (enabled: bool)
    ensures enabled <==> name != [] && worldId != 0 && PlayerInfo(name, worldId) !in players
  {
    !(|name| == 0 || worldId == 0 || PlayerInfo(name, worldId) in players)
  }

  /** Clicking the enabled button adds the player and saves. */
  function AddPlayer(players: set<PlayerInfo>, name: string, worldId: nat, clicked: bool): (r: Edit<set<PlayerInfo>>)
    ensures r.saved <==> clicked && CanAddPlayer(name, worldId, players)
    ensures r.saved ==> r.value == players + {PlayerInfo(name, worldId)} && |r.value| == |players| + 1
    ensures !r.saved ==> r.value == players
    ensures r.saved ==> !CanAddPlayer(name, worldId, r.value)
  {
    if clicked && CanAddPlayer(name, worldId, players) then Edit(players + {PlayerInfo(name, worldId)}, true)
    else Edit(players, false)
  }

  /** The "add current player" button: enabled when logged in and that character is not yet listed. */
  function AddCurrentPlayer(players: set<PlayerInfo>, local: Option<PlayerInfo>, clicked: bool): (r: Edit<set<PlayerInfo>>)
    ensures r.saved <==> clicked && local.Some? && local.value !in players
    ensures players <= r.value && |r.value| == |players| + (if r.saved then 1 else 0)
    ensures r.value - players <= (if local.Some? then {local.value} else {})
    ensures clicked && local.Some? ==> local.value in r.value
  {
    if clicked && local.Some? && local.value !in players then Edit(players + {local.value}, true)
    else Edit(players, false)
  }

  /** Deleting the character just added undoes the addition, and both steps save. */
  lemma AddCurrentPlayerUndone(players: set<PlayerInfo>, p: PlayerInfo)
    requires p !in players
    ensures var added := AddCurrentPlayer(players, Some(p), true);
      added.saved && DeletePlayer(added.value, Some(p)) == Edit(players, true)
  {
    var added := AddCurrentPlayer(players, Some(p), true);
    assert added.value - {p} == players;
  }

  /** The trash button of a listed player: the save happens only when something was removed. */
  function DeletePlayer(players: set<PlayerInfo>, delete: Option<PlayerInfo>): (r: Edit<set<PlayerInfo>>)
    ensures r.saved <==> |r.value| < |players|
    ensures r.value <= players
    ensures delete.Some? ==> r.value == players - {delete.value}
    ensures delete.None? ==> r.value == players
  {
    if delete.Some? && delete.value in players then Edit(players - {delete.value}, true)
    else Edit(players, false)
  }

  // ------------------------------------------------------- the plot table

  /** A button in the table is enabled exactly when its tooltip starts with the button's first character. */
  predicate StartsWith(tooltip: string, c: char) {
    |tooltip| > 0 && tooltip[0] == c
  }

  /** The tooltip of the "add current plot" button; the button is enabled when it starts with '添'. */
  function AddCurrentPlotTooltip(valid: bool, canAdd: bool, plotName: string, worldName: string): (tt: string)
    ensures |tt| > 0
    ensures StartsWith(tt, '添') <==> valid && canAdd
  {
    if valid && canAdd then "添加当前房屋 " + plotName + " on " + worldName + "."
    else if !valid then "你不在可识别的房屋."
    else "当前房屋 " + plotName + " on " + worldName + " 已经添加过了"
  }

  /**
   * Clicking "add current plot" adds the current plot when the button is
   * enabled; the click handler checks validity once more.
   */
  function AddCurrentPlot(valid: bool, canAdd: bool, current: PlotInfo, clicked: bool,
                          plotName: string, worldName: string): (added: Option<PlotInfo>)
    ensures added.Some? <==> clicked && valid && canAdd
    ensures added.Some? ==> added.value == current
  {
    var tt := AddCurrentPlotTooltip(valid, canAdd, plotName, worldName);
    if clicked && StartsWith(tt, '添') && valid then Some(current) else None
  }

  /** The tooltip of the "add plot" button for the plot typed into the inputs. */
  function AddTypedPlotTooltip(canAdd: bool): (tt: string)
    ensures |tt| > 0
    ensures StartsWith(tt, '添') <==> canAdd
  {
    if canAdd then "添加你输入的房屋到追踪器." else "输入的地块已经添加过了."
  }

  /**
   * The "add plot" button for the plot typed into the inputs is enabled when
   * the manager can add it, which is when its tooltip offers the addition;
   * a click then adds exactly the typed plot.
   */
  function AddTypedPlot(canAdd: bool, typed: PlotInfo, clicked: bool): (added: Option<PlotInfo>)
    ensures added.Some? <==> clicked && StartsWith(AddTypedPlotTooltip(canAdd), '添')
    ensures added.Some? ==> added.value == typed
  {
    if clicked && canAdd then Some(typed) else None
  }

  /** The tooltip of the "delete selected plot" button; the button is enabled when it starts with '删'. */
  function DeleteTooltip(ctrl: bool, hasSelection: bool): (tt: string)
    ensures |tt| > 0
    ensures StartsWith(tt, '删') <==> ctrl && hasSelection
  {
    match (ctrl, hasSelection)
    case (true, true) => "删除选中的房屋"
    case (true, false) => "请选择要删除的房屋"
    case (false, false) => "选择一个房屋并且按住 ctrl 即可删除"
    case (false, true) => "按住 ctrl 即可删除选中的房屋"
  }

  /**
   * Clicking the enabled delete button removes the selected plot from the
   * manager's dictionary and saves; nothing else is removed.
   */
  function DeleteSelectedPlot(data: map<PlotInfo, DemolitionInfo>, selected: PlotInfo, ctrl: bool, clicked: bool)
    : (r: Edit<map<PlotInfo, DemolitionInfo>>)
    ensures r.saved <==> clicked && ctrl && selected in data
    ensures r.saved ==> r.value.Keys == data.Keys - {selected}
    ensures forall p :: p in r.value ==> p in data && r.value[p] == data[p]
    ensures !r.saved ==> r.value == data
  {
    var enabled := StartsWith(DeleteTooltip(ctrl, selected in data), '删');
    if enabled && clicked && selected in data then Edit(data - {selected}, true) else Edit(data, false)
  }
}
