/**
 * The demolition warning engine of the timer window: on a framework tick it
 * recomputes, for every tracked plot, the status line shown in the timer
 * window, the colour of that line and of the section header, the toast
 * notification that warns about the plot, and the instant at which the
 * next recompute is due. Clock reads, the day count of each plot and the
 * creation of notifications are inputs; a notification is identified by a
 * handle number that the engine hands out.
 */
module DemolitionWarning {
  import opened Clock
  import opened Decimal
  import opened Demolition

  // ---------------------------------------------------------------- colours

  /** How close a plot is to demolition, in increasing order of urgency. */
  datatype Severity = Growing | Wilted | Withered

  function Rank(s: Severity): nat {
    match s
    case Growing => 0
    case Wilted => 1
    case Withered => 2
  }

  function MaxSeverity(a: Severity, b: Severity): (m: Severity)
    ensures Rank(m) >= Rank(a) && Rank(m) >= Rank(b)
    ensures m == a || m == b
  {
    if Rank(a) >= Rank(b) then a else b
  }

  /** The crop colours of the plugin's `ColorId` that the engine uses. */
  datatype ColorId =
    | TextCropGrowing | TextCropWilted | TextCropWithered
    | HeaderCropGrowing | HeaderCropWilted | HeaderCropWithered
  {
    predicate IsText() {
      TextCropGrowing? || TextCropWilted? || TextCropWithered?
    }
    predicate IsHeader() {
      !IsText()
    }
    function Severity(): Severity {
      match this
      case TextCropGrowing | HeaderCropGrowing => Growing
      case TextCropWilted | HeaderCropWilted => Wilted
      case TextCropWithered | HeaderCropWithered => Withered
    }
  }

  function HeaderColor(s: Severity): (c: ColorId)
    ensures c.IsHeader() && c.Severity() == s
  {
    match s
    case Growing => HeaderCropGrowing
    case Wilted => HeaderCropWilted
    case Withered => HeaderCropWithered
  }

  /**
   * The header colour after a line of colour `color` is added (the nine-case
   * table): a header stays a header, never loses severity, and takes on the
   * line's severity when that is higher.
   */
  function JoinHeader(header: ColorId, color: ColorId): (r: ColorId)
    ensures header.IsHeader() ==> r.IsHeader() && Rank(r.Severity()) >= Rank(header.Severity())
    ensures header.IsHeader() && color.IsText() ==> Rank(r.Severity()) >= Rank(color.Severity())
    ensures r == header || r.Severity() == color.Severity()
  {
    match (header, color)
    case (HeaderCropWithered, TextCropWithered) => HeaderCropWithered
    case (HeaderCropWilted, TextCropWithered) => HeaderCropWithered
    case (HeaderCropGrowing, TextCropWithered) => HeaderCropWithered
    case (HeaderCropWithered, TextCropWilted) => HeaderCropWithered
    case (HeaderCropWilted, TextCropWilted) => HeaderCropWilted
    case (HeaderCropGrowing, TextCropWilted) => HeaderCropWilted
    case (HeaderCropWithered, TextCropGrowing) => HeaderCropWithered
    case (HeaderCropWilted, TextCropGrowing) => HeaderCropWilted
    case (HeaderCropGrowing, TextCropGrowing) => HeaderCropGrowing
    case _ => header
  }

  /**
   * The table is the join of the severity lattice Growing < Wilted < Withered:
   * a header colour absorbs a text colour by taking the larger severity, and
   * anything else leaves the header as it was.
   */
  lemma JoinHeaderIsMax(header: ColorId, color: ColorId)
    ensures header.IsHeader() && color.IsText() ==>
      JoinHeader(header, color) == HeaderColor(MaxSeverity(header.Severity(), color.Severity()))
    ensures !(header.IsHeader() && color.IsText()) ==> JoinHeader(header, color) == header
  {
  }

  /** Each join step is monotone, idempotent, and two steps commute. */
  lemma JoinHeaderLaws(h: ColorId, c1: ColorId, c2: ColorId)
    requires h.IsHeader()
    ensures JoinHeader(h, c1).IsHeader()
    ensures Rank(JoinHeader(h, c1).Severity()) >= Rank(h.Severity())
    ensures JoinHeader(JoinHeader(h, c1), c1) == JoinHeader(h, c1)
    ensures JoinHeader(JoinHeader(h, c1), c2) == JoinHeader(JoinHeader(h, c2), c1)
  {
  }

  // ------------------------------------------------------ one plot's status

  /**
   * The status text of a plot that has gone `days` days without a visit:
   * "demolished" exactly past the limit, "under a day" on the demolition day
   * itself, and otherwise a count of days.
   */
  function StatusLabel(days: int): (status: string)
    ensures status == "已拆除" <==> days > DefaultDisplayMax
    ensures status == "<1 天" <==> days == DefaultDisplayMax
    ensures days <= DefaultDisplayMax ==> |status| >= 2 && status[|status| - 1] == '天'
  {
    if days > DefaultDisplayMax then "已拆除"
    else if days == DefaultDisplayMax then "<1 天"
    else if days == DefaultDisplayMax - 1 then "1 天"
    else
      var count := NatToString(DefaultDisplayMax - days) + " 天";
      assert count[|count| - 1] == '天';
      assert count[0] == NatToString(DefaultDisplayMax - days)[0] && IsDigit(count[0]);
      assert count[0] != "<1 天"[0];
      count
  }

  /**
   * Below the limit the label is the number of days left; the special case
   * for one day left agrees with the general one.
   */
  lemma StatusLabelCountsDown(days: int)
    requires days < DefaultDisplayMax
    ensures StatusLabel(days) == NatToString(DefaultDisplayMax - days) + " 天"
    ensures IsDigit(StatusLabel(days)[0])
  {
    if days == DefaultDisplayMax - 1 {
      assert NatToString(1) == "1";
    }
    var count := NatToString(DefaultDisplayMax - days);
    assert (count + " 天")[0] == count[0];
  }

  /** Up to the demolition day itself, distinct day counts give distinct labels. */
  lemma StatusLabelInjective(d1: int, d2: int)
    requires d1 <= DefaultDisplayMax && d2 <= DefaultDisplayMax
    ensures StatusLabel(d1) == StatusLabel(d2) ==> d1 == d2
  {
    if StatusLabel(d1) == StatusLabel(d2) {
      if d1 == DefaultDisplayMax || d2 == DefaultDisplayMax {
        var other := if d1 == DefaultDisplayMax then d2 else d1;
        if other < DefaultDisplayMax {
          StatusLabelCountsDown(other);
        }
      } else {
        StatusLabelCountsDown(d1);
        StatusLabelCountsDown(d2);
        assert StatusLabel(d1) == NatToString(DefaultDisplayMax - d1) + " 天";
        assert StatusLabel(d2) == NatToString(DefaultDisplayMax - d2) + " 天";
        NatToStringSuffixInjective(DefaultDisplayMax - d1, DefaultDisplayMax - d2, " 天");
      }
    }
  }

  /** The colour of a plot's line: withered once demolished, wilted past the warning threshold. */
  function LineColor(days: int, displayWarningFrom: int): (c: ColorId)
    ensures c.IsText()
    ensures c.Severity() == Withered <==> days > DefaultDisplayMax
    ensures c.Severity() == Wilted <==> displayWarningFrom < days <= DefaultDisplayMax
  {
    if days > DefaultDisplayMax then TextCropWithered
    else if days > displayWarningFrom then TextCropWilted
    else TextCropGrowing
  }

  /** The line colour only grows more urgent as days pass, and is withered exactly when the label says demolished. */
  lemma LineColorMonotone(d1: int, d2: int, warnFrom: int)
    requires d1 <= d2
    ensures Rank(LineColor(d1, warnFrom).Severity()) <= Rank(LineColor(d2, warnFrom).Severity())
    ensures LineColor(d2, warnFrom) == TextCropWithered <==> StatusLabel(d2) == "已拆除"
  {
    if d2 <= DefaultDisplayMax && d2 < DefaultDisplayMax - 1 {
      StatusLabelCountsDown(d2);
      assert StatusLabel(d2)[0] != "已拆除"[0];
    }
  }

  /** How every notification text begins, before the plot's name. */
  const NoticeHead: string := "你的房屋 "

  /** How the notification for a demolished plot ends. */
  const DemolishedEnd: string := ". 请使用房屋主人角色进入房屋室内，如果你不再拥有该房屋，请在设置界面移除。"

  /** How the notifications on the last two days end. */
  const ResetEnd: string := ". 请使用房屋主人角色进入房屋室内以重置计时器."

  /** How the count-down notification continues after the number of days. */
  const CountdownEnd: string := " 天后被自动拆除. 请使用房屋主人角色进入房屋室内以重置计时器。"

  /**
   * What the notification says after the plot's name: demolished past the
   * limit, "within 24 hours" on the demolition day, "tomorrow" the day
   * before, and otherwise the number of days left.
   */
  function NoticeTail(days: int): (tail: string)
    ensures days < DefaultDisplayMax - 1 ==> tail == " 将会在 " + (NatToString(DefaultDisplayMax - days) + CountdownEnd)
  {
    if days > DefaultDisplayMax then " 可能已经被拆除了" + DemolishedEnd
    else if days == DefaultDisplayMax then " 将在 24 小时内被自动拆除" + ResetEnd
    else if days == DefaultDisplayMax - 1 then " 明天将会被自动拆除" + ResetEnd
    else " 将会在 " + (NatToString(DefaultDisplayMax - days) + CountdownEnd)
  }

  /** The text of the toast notification for a plot; it always opens by naming the plot. */
  function NoticeText(name: string, days: int): (text: string)
    ensures NoticeHead + name <= text
    ensures days < DefaultDisplayMax - 1 ==>
      NoticeHead + name + " 将会在 " + NatToString(DefaultDisplayMax - days) + CountdownEnd == text
  {
    NoticeHead + name + NoticeTail(days)
  }

  /** The second and third characters of a tail tell its four messages apart. */
  lemma NoticeTailMarks(days: int)
    ensures |NoticeTail(days)| > 2
    ensures NoticeTail(days)[1] == '可' <==> days > DefaultDisplayMax
    ensures NoticeTail(days)[1] == '明' <==> days == DefaultDisplayMax - 1
    ensures NoticeTail(days)[1] == '将' && NoticeTail(days)[2] == '在' <==> days == DefaultDisplayMax
    ensures NoticeTail(days)[1] == '将' && NoticeTail(days)[2] == '会' <==> days < DefaultDisplayMax - 1
  {
    var t := NoticeTail(days);
    if days > DefaultDisplayMax {
      var head := " 可能已经被拆除了";
      assert t == head + DemolishedEnd && t[1] == head[1];
    } else if days == DefaultDisplayMax {
      var head := " 将在 24 小时内被自动拆除";
      assert t == head + ResetEnd && t[1] == head[1] && t[2] == head[2];
    } else if days == DefaultDisplayMax - 1 {
      var head := " 明天将会被自动拆除";
      assert t == head + ResetEnd && t[1] == head[1];
    } else {
      var lead := " 将会在 ";
      assert t == lead + (NatToString(DefaultDisplayMax - days) + CountdownEnd);
      assert t[1] == lead[1] && t[2] == lead[2];
    }
  }

  /** Equal sequences with a common prefix have equal remainders. */
  lemma CancelPrefix<T>(a: seq<T>, b: seq<T>, c: seq<T>)
    requires a + b == a + c
    ensures b == c
  {
    assert b == (a + b)[|a|..];
    assert c == (a + c)[|a|..];
  }

  /** The count-down tail determines the number of days left. */
  lemma CountdownTailInjective(d1: int, d2: int)
    requires d1 < DefaultDisplayMax - 1 && d2 < DefaultDisplayMax - 1
    ensures NoticeTail(d1) == NoticeTail(d2) ==> d1 == d2
  {
    if NoticeTail(d1) == NoticeTail(d2) {
      var n1, n2 := NatToString(DefaultDisplayMax - d1), NatToString(DefaultDisplayMax - d2);
      CancelPrefix(" 将会在 ", n1 + CountdownEnd, n2 + CountdownEnd);
      NatToStringSuffixInjective(DefaultDisplayMax - d1, DefaultDisplayMax - d2, CountdownEnd);
    }
  }

  /** Two tails agree only for the same day count, or for two counts both past the limit. */
  lemma NoticeTailDistinguishes(d1: int, d2: int)
    ensures NoticeTail(d1) == NoticeTail(d2) ==> d1 == d2 || (d1 > DefaultDisplayMax && d2 > DefaultDisplayMax)
  {
    NoticeTailMarks(d1);
    NoticeTailMarks(d2);
    if d1 < DefaultDisplayMax - 1 && d2 < DefaultDisplayMax - 1 {
      CountdownTailInjective(d1, d2);
    }
  }

  /**
   * The notification text tells the day counts apart: two texts for the same
   * plot agree exactly when the counts agree, or when both are past the
   * limit, where the text only says the house may be gone.
   */
  lemma NoticeTextDistinguishes(name: string, d1: int, d2: int)
    ensures NoticeText(name, d1) == NoticeText(name, d2) <==>
      d1 == d2 || (d1 > DefaultDisplayMax && d2 > DefaultDisplayMax)
  {
    var h := NoticeHead + name;
    if NoticeText(name, d1) == NoticeText(name, d2) {
      assert NoticeTail(d1) == NoticeText(name, d1)[|h|..];
      assert NoticeTail(d2) == NoticeText(name, d2)[|h|..];
      NoticeTailDistinguishes(d1, d2);
    }
  }

  // ------------------------------------------------------------ scheduling

  /**
   * The instant at which a plot last visited `span` ticks ago completes its
   * next whole day: `now` plus what is left of the current day of `span`.
   */
  function NextDayBoundary(now: int, span: int): (r: int)
    ensures span >= 0 ==> now < r <= now + TicksPerDay
    ensures span < 0 ==> now + TicksPerDay <= r < now + 2 * TicksPerDay
    ensures r - now == TicksPerDay - TruncRem(span, TicksPerDay)
  {
    now + (TicksPerDay - TruncRem(span, TicksPerDay))
  }

  /**
   * For a past visit, the boundary is the first instant after `now` at which
   * the time since the visit is a whole number of days.
   */
  lemma NextDayBoundaryIsFirstWholeDay(now: int, span: int, t: int)
    requires span >= 0
    ensures (span + (NextDayBoundary(now, span) - now)) % TicksPerDay == 0
    ensures now < t < NextDayBoundary(now, span) ==> (span + (t - now)) % TicksPerDay != 0
  {
    var q := TruncDiv(span, TicksPerDay);
    var rem := TruncRem(span, TicksPerDay);
    var r := NextDayBoundary(now, span);
    assert span + (r - now) == TicksPerDay * (q + 1);
    if now < t < r {
      var x := span + (t - now);
      assert TicksPerDay * q < x < TicksPerDay * (q + 1);
    }
  }

  /** `UpdateNextUpdate`: the pending recompute instant can only move earlier. */
  function LowerNextChange(nextChange: int, now: int, span: int): (r: int)
    ensures r <= nextChange && r <= NextDayBoundary(now, span)
    ensures r == nextChange || r == NextDayBoundary(now, span)
  {
    var candidate := NextDayBoundary(now, span);
    if candidate < nextChange then candidate else nextChange
  }

  // ------------------------------------------------------------ a recompute

  /** One entry of the manager's plot dictionary, with the day count this tick computed for it. */
  datatype Observation = Observation(plot: PlotInfo, name: string, info: DemolitionInfo, days: int)

  /** A line of the timer window: plot name, status text and colour. */
  datatype Warning = Warning(name: string, status: string, color: ColorId)

  /** A live toast notification: its identity and its current text. */
  datatype Note = Note(handle: nat, content: string)

  /**
   * The state of the loop in `OnFramework`: `pending` is the `_notifications`
   * field, from which each reused entry is taken out, and `rebuilt` the
   * dictionary being built; `nextHandle` is the identity the next created
   * notification receives.
   */
  datatype Scan = Scan(
    nextChange: int,
    warnings: seq<Warning>,
    header: ColorId,
    pending: map<PlotInfo, Note>,
    rebuilt: map<PlotInfo, Note>,
    nextHandle: nat)

  /** The keys of a dictionary are distinct. */
  predicate DistinctPlots(obs: seq<Observation>) {
    forall i, j :: 0 <= i < j < |obs| ==> obs[i].plot != obs[j].plot
  }

  predicate Shown(o: Observation) {
    o.info.tracked && o.days >= o.info.displayFrom
  }

  predicate Warned(o: Observation) {
    o.info.tracked && o.days >= o.info.displayWarningFrom
  }

  function WarningFor(o: Observation): Warning {
    Warning(o.name, StatusLabel(o.days), LineColor(o.days, o.info.displayWarningFrom))
  }

  /** The instant a tracked plot asks to be recomputed at. */
  function Candidate(now: int, o: Observation): int {
    NextDayBoundary(now, now - o.info.lastVisit)
  }

  /** The lines a recompute should show: one per shown plot, in dictionary order. */
  function ShownLines(obs: seq<Observation>): seq<Warning> {
    if obs == [] then []
    else (if Shown(obs[0]) then [WarningFor(obs[0])] else []) + ShownLines(obs[1..])
  }

  /** The plots a recompute should hold a notification for. */
  function WarnedPlots(obs: seq<Observation>): set<PlotInfo> {
    set o | o in obs && Warned(o) :: o.plot
  }

  function Handles(m: map<PlotInfo, Note>): set<nat> {
    set p | p in m :: m[p].handle
  }

  /**
   * `UpdateDisplay`: a plot at or past its display threshold appends one
   * line, which the header colour then covers; plots below it add no line.
   * The notifications and the scheduled instant are not touched.
   */
  function UpdateDisplay(s: Scan, o: Observation): (r: Scan)
    ensures r.(warnings := s.warnings, header := s.header) == s
    ensures s.warnings <= r.warnings
    ensures |r.warnings| == |s.warnings| + (if o.days >= o.info.displayFrom then 1 else 0)
    ensures o.days >= o.info.displayFrom ==> r.warnings[|s.warnings|].name == o.name && r.warnings[|s.warnings|].color.IsText()
    ensures s.header.IsHeader() ==> r.header.IsHeader() && Rank(r.header.Severity()) >= Rank(s.header.Severity())
    ensures s.header.IsHeader() && o.days >= o.info.displayFrom ==>
      Rank(r.header.Severity()) >= Rank(r.warnings[|s.warnings|].color.Severity())
  {
    if o.days < o.info.displayFrom then s
    else
      var color := LineColor(o.days, o.info.displayWarningFrom);
      s.(warnings := s.warnings + [Warning(o.name, StatusLabel(o.days), color)],
         header := JoinHeader(s.header, color))
  }

  /**
   * `UpdateNotifications`: a plot at or past its warning threshold keeps the
   * notification it already had, with new text, or gets a new one.
   */
  function UpdateNotifications(s: Scan, o: Observation): (r: Scan)
    ensures r.(pending := s.pending, rebuilt := s.rebuilt, nextHandle := s.nextHandle) == s
    ensures o.days < o.info.displayWarningFrom ==> r == s
    ensures o.days >= o.info.displayWarningFrom ==>
      && o.plot in r.rebuilt && o.plot !in r.pending
      && r.rebuilt[o.plot].content == NoticeText(o.name, o.days)
      && r.rebuilt[o.plot].handle == (if o.plot in s.pending then s.pending[o.plot].handle else s.nextHandle)
    ensures r.pending.Keys <= s.pending.Keys && r.rebuilt.Keys >= s.rebuilt.Keys && r.nextHandle >= s.nextHandle
    ensures forall p :: p in r.pending ==> r.pending[p] == s.pending[p]
  {
    if o.days < o.info.displayWarningFrom then s
    else
      var content := NoticeText(o.name, o.days);
      if o.plot in s.pending then
        s.(pending := s.pending - {o.plot},
           rebuilt := s.rebuilt[o.plot := s.pending[o.plot].(content := content)])
      else
        s.(rebuilt := s.rebuilt[o.plot := Note(s.nextHandle, content)],
           nextHandle := s.nextHandle + 1)
  }

  /** The body of the loop over the manager's plots: untracked plots are skipped. */
  function Visit(s: Scan, now: int, o: Observation): Scan {
    if !o.info.tracked then s
    else
      var s1 := s.(nextChange := LowerNextChange(s.nextChange, now, now - o.info.lastVisit));
      UpdateNotifications(UpdateDisplay(s1, o), o)
  }

  function ScanPlots(s: Scan, now: int, obs: seq<Observation>): Scan
    decreases |obs|
  {
    if obs == [] then s else Visit(ScanPlots(s, now, obs[..|obs| - 1]), now, obs[|obs| - 1])
  }

  /** The tracked entries of a dictionary, in order. */
  function TrackedOnly(obs: seq<Observation>): (r: seq<Observation>)
    ensures forall o :: o in r <==> o in obs && o.info.tracked
    decreases |obs|
  {
    if obs == [] then []
    else
      var init := obs[..|obs| - 1];
      var last := obs[|obs| - 1];
      assert obs == init + [last];
      TrackedOnly(init) + (if last.info.tracked then [last] else [])
  }

  /** Untracked plots are skipped outright: dropping them changes nothing a scan computes. */
  lemma {:induction false} ScanIgnoresUntracked(s: Scan, now: int, obs: seq<Observation>)
    ensures ScanPlots(s, now, TrackedOnly(obs)) == ScanPlots(s, now, obs)
    decreases |obs|
  {
    if obs != [] {
      var init := obs[..|obs| - 1];
      var last := obs[|obs| - 1];
      ScanIgnoresUntracked(s, now, init);
      var prev := ScanPlots(s, now, init);
      assert ScanPlots(s, now, obs) == Visit(prev, now, last);
      if last.info.tracked {
        var t := TrackedOnly(init) + [last];
        assert TrackedOnly(obs) == t;
        assert t[..|t| - 1] == TrackedOnly(init);
        assert ScanPlots(s, now, t) == Visit(ScanPlots(s, now, TrackedOnly(init)), now, last);
      } else {
        assert TrackedOnly(obs) == TrackedOnly(init);
        assert Visit(prev, now, last) == prev;
      }
    }
  }

  lemma ShownLinesSnoc(obs: seq<Observation>, o: Observation)
    ensures ShownLines(obs + [o]) == ShownLines(obs) + (if Shown(o) then [WarningFor(o)] else [])
  {
    if obs != [] {
      assert (obs + [o])[1..] == obs[1..] + [o];
      ShownLinesSnoc(obs[1..], o);
    }
  }

  lemma ShownLinesColors(obs: seq<Observation>, w: Warning)
    requires w in ShownLines(obs)
    ensures w.color.IsText()
    ensures exists o :: o in obs && Shown(o) && w == WarningFor(o)
  {
    if Shown(obs[0]) && w == WarningFor(obs[0]) {
    } else {
      ShownLinesColors(obs[1..], w);
      var o :| o in obs[1..] && Shown(o) && w == WarningFor(o);
      assert o in obs;
    }
  }

  /** The scan lowers `nextChange` to the earliest candidate of the tracked plots, and to nothing else. */
  lemma {:induction false} ScanNextChange(s: Scan, now: int, obs: seq<Observation>)
    ensures ScanPlots(s, now, obs).nextChange <= s.nextChange
    ensures forall o :: o in obs && o.info.tracked ==> ScanPlots(s, now, obs).nextChange <= Candidate(now, o)
    ensures ScanPlots(s, now, obs).nextChange == s.nextChange
         || exists o :: o in obs && o.info.tracked && ScanPlots(s, now, obs).nextChange == Candidate(now, o)
    decreases |obs|
  {
    if obs != [] {
      var init := obs[..|obs| - 1];
      var last := obs[|obs| - 1];
      assert obs == init + [last];
      ScanNextChange(s, now, init);
      var prev := ScanPlots(s, now, init);
      if prev.nextChange != s.nextChange {
        var o :| o in init && o.info.tracked && prev.nextChange == Candidate(now, o);
        assert o in obs;
      }
    }
  }

  /** One visit appends the plot's line when it is shown, and nothing otherwise. */
  lemma VisitWarnings(s: Scan, now: int, o: Observation)
    ensures Visit(s, now, o).warnings == s.warnings + (if Shown(o) then [WarningFor(o)] else [])
  {
  }

  /** The scan appends exactly the lines of the shown plots, in order. */
  lemma {:induction false} ScanWarnings(s: Scan, now: int, obs: seq<Observation>)
    ensures ScanPlots(s, now, obs).warnings == s.warnings + ShownLines(obs)
    decreases |obs|
  {
    if obs != [] {
      var init := obs[..|obs| - 1];
      var last := obs[|obs| - 1];
      assert obs == init + [last];
      var prev := ScanPlots(s, now, init);
      assert ScanPlots(s, now, obs) == Visit(prev, now, last);
      ScanWarnings(s, now, init);
      VisitWarnings(prev, now, last);
      ShownLinesSnoc(init, last);
      var line := if Shown(last) then [WarningFor(last)] else [];
      assert (s.warnings + ShownLines(init)) + line == s.warnings + (ShownLines(init) + line);
    }
  }

  /**
   * The header ends as the most severe of its starting colour and the
   * colours of the lines added.
   */
  lemma {:induction false} ScanHeader(s: Scan, now: int, obs: seq<Observation>)
    requires s.header.IsHeader()
    ensures ScanPlots(s, now, obs).header.IsHeader()
    ensures Rank(ScanPlots(s, now, obs).header.Severity()) >= Rank(s.header.Severity())
    ensures forall w :: w in ShownLines(obs) ==>
      Rank(ScanPlots(s, now, obs).header.Severity()) >= Rank(w.color.Severity())
    ensures ScanPlots(s, now, obs).header == s.header
         || exists w :: w in ShownLines(obs) && ScanPlots(s, now, obs).header.Severity() == w.color.Severity()
    decreases |obs|
  {
    if obs != [] {
      var init := obs[..|obs| - 1];
      var last := obs[|obs| - 1];
      assert obs == init + [last];
      ScanHeader(s, now, init);
      ShownLinesSnoc(init, last);
      var prev := ScanPlots(s, now, init);
      var r := ScanPlots(s, now, obs);
      if last.info.tracked && Shown(last) {
        var c := LineColor(last.days, last.info.displayWarningFrom);
        JoinHeaderIsMax(prev.header, c);
        assert r.header == JoinHeader(prev.header, c);
        assert WarningFor(last) in ShownLines(obs);
        forall w | w in ShownLines(obs)
          ensures Rank(r.header.Severity()) >= Rank(w.color.Severity())
        {
          if w in ShownLines(init) {
          } else {
            assert w == WarningFor(last);
          }
        }
        if r.header != s.header && r.header.Severity() != c.Severity() {
          assert r.header == prev.header;
          var w :| w in ShownLines(init) && prev.header.Severity() == w.color.Severity();
          assert w in ShownLines(obs);
        }
      } else {
        assert r.header == prev.header;
        if r.header != s.header {
          var w :| w in ShownLines(init) && prev.header.Severity() == w.color.Severity();
          assert w in ShownLines(obs);
        }
      }
    }
  }

  /** Splitting the last plot off a dictionary's entries keeps the rest distinct and without it. */
  lemma DistinctPlotsInit(obs: seq<Observation>)
    requires DistinctPlots(obs) && obs != []
    ensures DistinctPlots(obs[..|obs| - 1])
    ensures forall o :: o in obs[..|obs| - 1] ==> o.plot != obs[|obs| - 1].plot
  {
    var init := obs[..|obs| - 1];
    forall i, j | 0 <= i < j < |init| ensures init[i].plot != init[j].plot {
      assert init[i] == obs[i] && init[j] == obs[j];
    }
    forall o | o in init ensures o.plot != obs[|obs| - 1].plot {
      var i :| 0 <= i < |init| && init[i] == o;
      assert obs[i] == o;
    }
  }

  /** What one visit does to the notification dictionaries. */
  lemma VisitNotifications(s: Scan, now: int, o: Observation)
    ensures var r := Visit(s, now, o);
      if !Warned(o) then
        r.pending == s.pending && r.rebuilt == s.rebuilt && r.nextHandle == s.nextHandle
      else if o.plot in s.pending then
        && r.pending == s.pending - {o.plot}
        && r.rebuilt == s.rebuilt[o.plot := Note(s.pending[o.plot].handle, NoticeText(o.name, o.days))]
        && r.nextHandle == s.nextHandle
      else
        && r.pending == s.pending
        && r.rebuilt == s.rebuilt[o.plot := Note(s.nextHandle, NoticeText(o.name, o.days))]
        && r.nextHandle == s.nextHandle + 1
  {
  }

  /** One visit adds the plot to the rebuilt map and takes it out of the old one exactly when it is warned. */
  lemma VisitKeys(s: Scan, now: int, o: Observation)
    requires o.plot !in s.rebuilt
    ensures Visit(s, now, o).rebuilt.Keys == s.rebuilt.Keys + (if Warned(o) then {o.plot} else {})
    ensures Visit(s, now, o).pending == s.pending - (if Warned(o) then {o.plot} else {})
    ensures Visit(s, now, o).nextHandle >= s.nextHandle
    ensures forall p :: p in s.rebuilt ==> Visit(s, now, o).rebuilt[p] == s.rebuilt[p]
  {
    VisitNotifications(s, now, o);
  }

  lemma WarnedPlotsSnoc(obs: seq<Observation>, o: Observation)
    ensures WarnedPlots(obs + [o]) == WarnedPlots(obs) + (if Warned(o) then {o.plot} else {})
  {
    assert forall x :: x in obs + [o] <==> x in obs || x == o;
  }

  /** The scan keeps a notification for exactly the warned plots, and the ones already rebuilt stay as they were. */
  lemma {:induction false} ScanNotificationKeys(s: Scan, now: int, obs: seq<Observation>)
    requires DistinctPlots(obs)
    requires forall o :: o in obs ==> o.plot !in s.rebuilt
    ensures ScanPlots(s, now, obs).rebuilt.Keys == s.rebuilt.Keys + WarnedPlots(obs)
    ensures forall p :: p in s.rebuilt ==> ScanPlots(s, now, obs).rebuilt[p] == s.rebuilt[p]
    decreases |obs|
  {
    if obs != [] {
      var init := obs[..|obs| - 1];
      var last := obs[|obs| - 1];
      assert obs == init + [last];
      DistinctPlotsInit(obs);
      ScanNotificationKeys(s, now, init);
      var prev := ScanPlots(s, now, init);
      assert last.plot !in prev.rebuilt;
      VisitKeys(prev, now, last);
      WarnedPlotsSnoc(init, last);
    }
  }

  lemma RemoveTwice<K, V>(m: map<K, V>, a: set<K>, b: set<K>)
    ensures m - a - b == m - (a + b)
  {
  }

  /** What is left of the old notifications is what the warned plots did not claim; the counter only grows. */
  lemma {:induction false} ScanPending(s: Scan, now: int, obs: seq<Observation>)
    requires DistinctPlots(obs)
    requires forall o :: o in obs ==> o.plot !in s.rebuilt
    ensures ScanPlots(s, now, obs).pending == s.pending - WarnedPlots(obs)
    ensures ScanPlots(s, now, obs).nextHandle >= s.nextHandle
    decreases |obs|
  {
    if obs != [] {
      var init := obs[..|obs| - 1];
      var last := obs[|obs| - 1];
      assert obs == init + [last];
      DistinctPlotsInit(obs);
      ScanPending(s, now, init);
      ScanNotificationKeys(s, now, init);
      var prev := ScanPlots(s, now, init);
      assert ScanPlots(s, now, obs) == Visit(prev, now, last);
      assert last.plot !in prev.rebuilt;
      VisitKeys(prev, now, last);
      WarnedPlotsSnoc(init, last);
      RemoveTwice(s.pending, WarnedPlots(init), if Warned(last) then {last.plot} else {});
    }
  }

  /** One visit gives a warned plot its text and either its old identity or the counter's next one. */
  lemma VisitEntry(s: Scan, now: int, o: Observation)
    requires Warned(o)
    ensures var r := Visit(s, now, o);
      && o.plot in r.rebuilt
      && r.rebuilt[o.plot].content == NoticeText(o.name, o.days)
      && (o.plot in s.pending ==> r.rebuilt[o.plot].handle == s.pending[o.plot].handle)
      && (o.plot !in s.pending ==> r.rebuilt[o.plot].handle == s.nextHandle)
  {
    VisitNotifications(s, now, o);
  }

  /**
   * Each warned plot's notification carries its new text; an old one is
   * moved over with its identity kept, a missing one is created with an
   * identity not used before.
   */
  lemma {:induction false} ScanNotificationEntries(s: Scan, now: int, obs: seq<Observation>)
    requires DistinctPlots(obs)
    requires forall o :: o in obs ==> o.plot !in s.rebuilt
    ensures forall o :: o in obs && Warned(o) ==>
      && o.plot in ScanPlots(s, now, obs).rebuilt
      && ScanPlots(s, now, obs).rebuilt[o.plot].content == NoticeText(o.name, o.days)
      && (o.plot in s.pending ==> ScanPlots(s, now, obs).rebuilt[o.plot].handle == s.pending[o.plot].handle)
      && (o.plot !in s.pending ==> ScanPlots(s, now, obs).rebuilt[o.plot].handle >= s.nextHandle)
    decreases |obs|
  {
    if obs != [] {
      var init := obs[..|obs| - 1];
      var last := obs[|obs| - 1];
      assert obs == init + [last];
      DistinctPlotsInit(obs);
      ScanNotificationEntries(s, now, init);
      ScanPending(s, now, init);
      ScanNotificationKeys(s, now, init);
      var prev := ScanPlots(s, now, init);
      var r := ScanPlots(s, now, obs);
      assert r == Visit(prev, now, last);
      assert last.plot !in prev.rebuilt;
      VisitKeys(prev, now, last);
      if Warned(last) {
        VisitEntry(prev, now, last);
        assert last.plot !in WarnedPlots(init);
        assert (last.plot in prev.pending) == (last.plot in s.pending);
      }
      forall o | o in obs && Warned(o)
        ensures o.plot in r.rebuilt
        ensures r.rebuilt[o.plot].content == NoticeText(o.name, o.days)
        ensures o.plot in s.pending ==> r.rebuilt[o.plot].handle == s.pending[o.plot].handle
        ensures o.plot !in s.pending ==> r.rebuilt[o.plot].handle >= s.nextHandle
      {
        if o != last {
          assert o in init;
          assert o.plot in prev.rebuilt;
        }
      }
    }
  }

  /** Every live notification has its own identity, drawn below the counter. */
  predicate Identified(m: map<PlotInfo, Note>, nextHandle: nat) {
    && (forall p :: p in m ==> m[p].handle < nextHandle)
    && (forall p, q :: p in m && q in m && p != q ==> m[p].handle != m[q].handle)
  }

  predicate HandlesUnique(s: Scan) {
    s.pending.Keys !! s.rebuilt.Keys && Identified(s.pending + s.rebuilt, s.nextHandle)
  }

  lemma UnionMove(pending: map<PlotInfo, Note>, rebuilt: map<PlotInfo, Note>, k: PlotInfo, v: Note)
    requires k in pending && k !in rebuilt
    ensures (pending - {k}) + rebuilt[k := v] == (pending + rebuilt)[k := v]
  {
  }

  lemma UnionAdd(pending: map<PlotInfo, Note>, rebuilt: map<PlotInfo, Note>, k: PlotInfo, v: Note)
    requires k !in pending
    ensures pending + rebuilt[k := v] == (pending + rebuilt)[k := v]
  {
  }

  lemma IdentifiedMove(m: map<PlotInfo, Note>, k: PlotInfo, content: string, n: nat)
    requires Identified(m, n) && k in m
    ensures Identified(m[k := m[k].(content := content)], n)
  {
  }

  lemma IdentifiedAdd(m: map<PlotInfo, Note>, k: PlotInfo, content: string, n: nat)
    requires Identified(m, n) && k !in m
    ensures Identified(m[k := Note(n, content)], n + 1)
  {
  }

  /** A visit moves or creates one notification without giving two of them the same identity. */
  lemma VisitKeepsHandlesUnique(s: Scan, now: int, o: Observation)
    requires HandlesUnique(s)
    requires o.plot !in s.rebuilt
    ensures HandlesUnique(Visit(s, now, o))
  {
    VisitNotifications(s, now, o);
    var r := Visit(s, now, o);
    var content := NoticeText(o.name, o.days);
    if Warned(o) && o.plot in s.pending {
      var v := Note(s.pending[o.plot].handle, content);
      UnionMove(s.pending, s.rebuilt, o.plot, v);
      IdentifiedMove(s.pending + s.rebuilt, o.plot, content, s.nextHandle);
      assert (s.pending + s.rebuilt)[o.plot].(content := content) == v;
    } else if Warned(o) {
      UnionAdd(s.pending, s.rebuilt, o.plot, Note(s.nextHandle, content));
      IdentifiedAdd(s.pending + s.rebuilt, o.plot, content, s.nextHandle);
    }
  }

  lemma {:induction false} ScanHandles(s: Scan, now: int, obs: seq<Observation>)
    requires DistinctPlots(obs)
    requires forall o :: o in obs ==> o.plot !in s.rebuilt
    requires HandlesUnique(s)
    ensures HandlesUnique(ScanPlots(s, now, obs))
    decreases |obs|
  {
    if obs != [] {
      var init := obs[..|obs| - 1];
      var last := obs[|obs| - 1];
      assert obs == init + [last];
      DistinctPlotsInit(obs);
      ScanHandles(s, now, init);
      ScanNotificationKeys(s, now, init);
      var prev := ScanPlots(s, now, init);
      assert last.plot !in prev.rebuilt;
      VisitKeepsHandlesUnique(prev, now, last);
    }
  }

  /**
   * The loop only takes notifications out of the old map, never alters one
   * left there, and never lowers the handle counter.
   */
  lemma {:induction false} ScanShrinksPending(s: Scan, now: int, obs: seq<Observation>)
    ensures ScanPlots(s, now, obs).pending.Keys <= s.pending.Keys
    ensures forall p :: p in ScanPlots(s, now, obs).pending ==> ScanPlots(s, now, obs).pending[p] == s.pending[p]
    ensures ScanPlots(s, now, obs).nextHandle >= s.nextHandle
    decreases |obs|
  {
    if obs != [] {
      ScanShrinksPending(s, now, obs[..|obs| - 1]);
    }
  }

  // ------------------------------------------------------------ the engine

  /**
   * The fields of `DemolitionWarning`: the instant of the next recompute,
   * the lines and header colour on display, the live notifications by plot,
   * and the identity the next notification will get.
   */
  datatype WarningState = WarningState(
    nextChange: int,
    warnings: seq<Warning>,
    header: ColorId,
    notifications: map<PlotInfo, Note>,
    nextHandle: nat)

  /** A state and the identities of the notifications dismissed on the way to it. */
  datatype Tick = Tick(state: WarningState, dismissed: set<nat>)

  const Initial: WarningState := WarningState(MinValue, [], HeaderCropGrowing, map[], 0)

  /** The recompute half of `OnFramework`, from the reset of the fields to `DismissAll`. */
  function Recompute(st: WarningState, now: int, obs: seq<Observation>): (t: Tick)
    ensures t.state.nextChange <= MaxValue
    ensures t.state.warnings == ShownLines(obs)
    ensures t.state.header.IsHeader()
    ensures t.state.nextHandle >= st.nextHandle
    ensures t.dismissed <= Handles(st.notifications)
  {
    var s0 := Scan(MaxValue, [], HeaderCropGrowing, st.notifications, map[], st.nextHandle);
    var r := ScanPlots(s0, now, obs);
    ScanNextChange(s0, now, obs);
    ScanWarnings(s0, now, obs);
    ScanHeader(s0, now, obs);
    ScanShrinksPending(s0, now, obs);
    Tick(WarningState(r.nextChange, r.warnings, r.header, r.rebuilt, r.nextHandle), Handles(r.pending))
  }

  /** `OnFramework`: nothing happens before the scheduled instant. */
  function OnFramework(st: WarningState, now: int, obs: seq<Observation>): (t: Tick)
    ensures st.nextChange > now ==> t == Tick(st, {})
    ensures st.nextChange <= now ==> t.state.header.IsHeader() && t.state.nextChange <= MaxValue
  {
    if st.nextChange > now then Tick(st, {})
    else Recompute(st, now, obs)
  }

  /** `OnChange`: a change to the plot data makes the next tick recompute. */
  function OnChange(st: WarningState, now: int): (r: WarningState)
    ensures r.nextChange <= now
    ensures r.(nextChange := st.nextChange) == st
  {
    st.(nextChange := now)
  }

  /**
   * After a recompute the next one is due at the earliest day boundary of a
   * tracked plot, or never (`MaxValue`) when no plot is tracked; the lines
   * are those of the shown plots, in order; and the header colour is the
   * most severe colour among them, Growing when there is none.
   */
  lemma RecomputeDisplay(st: WarningState, now: int, obs: seq<Observation>)
    ensures var t := Recompute(st, now, obs).state;
      && t.nextChange <= MaxValue
      && (forall o :: o in obs && o.info.tracked ==> t.nextChange <= Candidate(now, o))
      && (t.nextChange == MaxValue || exists o :: o in obs && o.info.tracked && t.nextChange == Candidate(now, o))
      && ((forall o :: o in obs ==> !o.info.tracked) ==> t.nextChange == MaxValue)
      && t.warnings == ShownLines(obs)
      && t.header.IsHeader()
      && (forall w :: w in t.warnings ==> Rank(t.header.Severity()) >= Rank(w.color.Severity()))
      && (t.header == HeaderCropGrowing || exists w :: w in t.warnings && t.header.Severity() == w.color.Severity())
  {
    var s0 := Scan(MaxValue, [], HeaderCropGrowing, st.notifications, map[], st.nextHandle);
    ScanNextChange(s0, now, obs);
    ScanWarnings(s0, now, obs);
    ScanHeader(s0, now, obs);
  }

  /**
   * After a recompute the notifications are keyed by exactly the warned
   * plots, each with its text; a plot that had one keeps its identity, a
   * plot that had none gets a never-used identity.
   */
  lemma RecomputeNotifications(st: WarningState, now: int, obs: seq<Observation>)
    requires DistinctPlots(obs)
    ensures var t := Recompute(st, now, obs).state;
      && t.notifications.Keys == WarnedPlots(obs)
      && (forall o :: o in obs && Warned(o) ==> t.notifications[o.plot].content == NoticeText(o.name, o.days))
      && (forall p :: p in t.notifications && p in st.notifications ==>
            t.notifications[p].handle == st.notifications[p].handle)
      && (forall p :: p in t.notifications && p !in st.notifications ==>
            t.notifications[p].handle >= st.nextHandle)
  {
    var s0 := Scan(MaxValue, [], HeaderCropGrowing, st.notifications, map[], st.nextHandle);
    ScanNotificationKeys(s0, now, obs);
    ScanNotificationEntries(s0, now, obs);
    var t := Recompute(st, now, obs).state;
    forall p | p in t.notifications
      ensures p in st.notifications ==> t.notifications[p].handle == st.notifications[p].handle
      ensures p !in st.notifications ==> t.notifications[p].handle >= st.nextHandle
    {
      var o :| o in obs && Warned(o) && o.plot == p;
    }
  }

  /**
   * A recompute dismisses exactly the old notifications of plots no longer
   * warned about, none of the ones it keeps, and leaves every live
   * notification with its own identity.
   */
  lemma RecomputeDismisses(st: WarningState, now: int, obs: seq<Observation>)
    requires DistinctPlots(obs)
    requires Identified(st.notifications, st.nextHandle)
    ensures var t := Recompute(st, now, obs);
      && t.dismissed == (set p | p in st.notifications && p !in WarnedPlots(obs) :: st.notifications[p].handle)
      && t.dismissed !! Handles(t.state.notifications)
      && Identified(t.state.notifications, t.state.nextHandle)
  {
    var s0 := Scan(MaxValue, [], HeaderCropGrowing, st.notifications, map[], st.nextHandle);
    assert s0.pending + s0.rebuilt == st.notifications;
    ScanPending(s0, now, obs);
    ScanNotificationKeys(s0, now, obs);
    ScanHandles(s0, now, obs);
    var r := ScanPlots(s0, now, obs);
    var t := Recompute(st, now, obs);
    assert (r.pending + r.rebuilt).Keys == r.pending.Keys + r.rebuilt.Keys;
    forall h | h in t.dismissed ensures h !in Handles(t.state.notifications) {
      var p :| p in r.pending && r.pending[p].handle == h;
      assert (r.pending + r.rebuilt)[p] == r.pending[p];
    }
    forall p, q | p in r.rebuilt && q in r.rebuilt && p != q
      ensures r.rebuilt[p].handle != r.rebuilt[q].handle
    {
      assert (r.pending + r.rebuilt)[p] == r.rebuilt[p];
      assert (r.pending + r.rebuilt)[q] == r.rebuilt[q];
    }
  }

  /**
   * Once a recompute has run at `now`, further ticks do nothing until the
   * earliest day boundary it scheduled; a change notice brings the recompute
   * forward to the next tick.
   */
  lemma RecomputeWaitsForBoundary(st: WarningState, now: int, later: int, obs: seq<Observation>, obs2: seq<Observation>)
    requires st.nextChange <= now < MaxValue
    requires now <= later < OnFramework(st, now, obs).state.nextChange
    ensures OnFramework(st, now, obs).state.nextChange > now
    ensures OnFramework(OnFramework(st, now, obs).state, later, obs2) == Tick(OnFramework(st, now, obs).state, {})
    ensures OnFramework(OnChange(OnFramework(st, now, obs).state, later), later, obs2)
         == Recompute(OnFramework(st, now, obs).state, later, obs2)
  {
    RecomputeDisplay(st, now, obs);
  }
}
