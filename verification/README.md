# Accountant: demolition warnings, configuration rules, crop labels and localisation bootstrap

This project models the decision logic at the core of the Accountant plugin, a
timer overlay for a housing-and-crafting MMO client, and proves properties of
it. It covers five parts:

- **Localisation bootstrap** (`Localization`). This is the one-shot
  `Initialize` of the game-data library. It reads strings from the game's data
  sheets and registers one matcher descriptor per string identifier. The
  descriptors are:
  - plain names;
  - text comparers with their match mode;
  - rich-text payload comparers with their C# `System.Index` selectors;
  - the fixed-offset patch/bed parser;
  - the per-language regular-expression tables with their exported group names;
  - letter matchers.

  Sheet reads are a function from a data source to an optional string. A missing
  value stands for a read that throws.
- **Demolition warning engine** (`DemolitionWarning`). On each framework tick it
  decides whether a recompute is due. A recompute folds over the tracked plots
  and builds:
  - the status lines of the timer window and their colours;
  - the section header colour;
  - the next recompute instant;
  - the reconciled map from plot to live toast notification, together with the
    notifications to dismiss.

  The clock and each plot's day count are inputs. Creating a notification hands
  out a fresh handle number.
- **Demolition tab of the configuration window** (`ConfigPlots`):
  - clamp-then-commit edits of the two day thresholds;
  - the last-visit button caption and its Ctrl-click reset;
  - the add and delete player and plot buttons. Their enablement is encoded in
    the first character of a tooltip.
- **General tab of the configuration window** (`ConfigGeneral`):
  - the clamp/no-op/commit allowance inputs;
  - the timer switches and the table that maps each configuration flag to the
    timer cache it resets.
- **Crop tooltip** (`CropTooltip`):
  - the sentinel-aware time labels of `TimeSpanString2`;
  - the "never" overrides of the wilt and wither rows;
  - the finish-time marker;
  - the `UpdateInternal` layout switch.

Supporting modules:

- `Wrappers` provides `Option`.
- `Decimal` renders non-negative integers the way C# interpolation does, and proves that the
  rendering parses back.
- `Clock` holds the `DateTime` tick constants and C#'s truncating `%` for
  `long`.
- `Demolition` holds the plot, player and demolition records shared by the
  engine and the configuration window.

`Initialize` sets its `_initialized` flag *before* it registers anything
(`Localization.cs:107-110`) and before it obtains the four data sheets
(`Localization.cs:111-114`). A first run that cannot obtain a sheet, or whose
data read throws, therefore leaves the flag set and the registry empty or
partial, and every later call returns at once (`Localization.Initialize`,
`Localization.InitializeOnce`, `Localization.InitializeRegisters`).

## Model

| member | source | states |
|---|---|---|
| Localization.PatchParse | Accountant.GameData/Internal/Localization.cs:33-51 | The per-language (bed, patch) offsets. A prompt no longer than the larger offset yields the empty list, and only then. Otherwise the result is exactly the one-character strings at the patch and the bed offset, patch first, so no index leaves the string. |
| Localization.PatchParseRecovers | Accountant.GameData/Internal/Localization.cs:44-51 | Write two digits at a language's offsets into a long enough prompt and parse it: the parser returns those digits, patch first. In every language the two offsets differ. |
| Localization.Resolve | Accountant.GameData/Internal/Localization.cs:70-79 | A C# index `k` is in range iff k < n and denotes k. A from-end index `^k` is in range iff 1 ≤ k ≤ n and denotes n−k. A resolved position always lies inside the sequence. |
| Localization.ResolveFromEndStable | Accountant.GameData/Internal/Localization.cs:70-79 | A from-end selector keeps denoting the same segment when segments are put in front of the rich text. |
| Localization.PayloadSelectorsResolve | Accountant.GameData/Internal/Localization.cs:70-79 | All four selectors of the growth-state tuple (^1,^1,^1,0) resolve iff the text has at least one segment. The ready tuple (^1,^3,^1,0) needs three, and its `^3` is segment n−3. The prepare-bed tuple (0,0,^1,^1) needs one. |
| Localization.GroupNames | Accountant.GameData/Internal/Localization.cs:83-84 | A name is among a pattern's group names iff one of its pieces is a named group of that name. |
| Localization.PlantingPatternsDefineGroups | Accountant.GameData/Internal/Localization.cs:20-29 | Each of the five planting patterns defines both groups the seed matcher exports, `seeds` and `soil`. |
| Localization.JumboPatternsDefineGroup | Accountant.GameData/Internal/Localization.cs:97-104 | Each of the five jumbo-ticket patterns defines the exported group `ticket`. |
| Localization.WheelPatternsAsWrittenMissJapanese | Accountant.GameData/Internal/Localization.cs:87-95 | As written, a language's wheel pattern defines `wheel` iff the language is not Japanese. The Japanese pattern defines no group at all. |
| Localization.WheelPatternsDefineGroup | Accountant.GameData/Internal/Localization.cs:87-95 | With the Japanese group named, every language's wheel pattern defines `wheel`. The other four languages' patterns are unchanged. |
| Localization.NoNamedGroups | Accountant.GameData/Internal/Localization.cs:94 | A pattern with no named piece exports no group name. |
| Localization.FromText | Accountant.GameData/Internal/Localization.cs:62-79 | A registration that reads game data builds its matcher around exactly the text it read, whatever the matcher kind. |
| Localization.Fixed | Accountant.GameData/Internal/Localization.cs:136-158 | A registration that reads nothing installs a name, a specific-payload parser, the offset parser or a regex parser. It installs a name iff the identifier is one of those given five fixed spellings. |
| Localization.ComparerModes | Accountant.GameData/Internal/Localization.cs:62-68 | Exactly the six crop commands become text comparers, and among them exactly the dispose command matches by prefix. |
| Localization.PayloadSelectorsOf | Accountant.GameData/Internal/Localization.cs:70-79 | The selectors of a payload comparer resolve against a rich text iff it has at least three segments for the ready state and at least one for the others. |
| Localization.RegexGroupsDefined | Accountant.GameData/Internal/Localization.cs:83-84 | Every group name that a regex parser exports, for the wheel filter, the jumbo-ticket filter and the seed matcher, is defined by that language's pattern. |
| Localization.SubmersibleRowByLanguage | Accountant.GameData/Internal/Localization.cs:153-154 | The Submersible label reads `Addon` row 6881 on the Japanese client and row 6888 otherwise, and registers that text as a name. |
| Localization.OnlyDisposeMatchesPrefix | Accountant.GameData/Internal/Localization.cs:62-68 | An identifier is registered as a prefix (`StartsWith`) comparer iff it is the dispose-crop command and its first-payload text was read. Every other comparer is registered without a match mode, so the library's default mode applies. |
| Localization.RegistrationOrderCovers | Accountant.GameData/Internal/Localization.cs:116-166 | Every string identifier is registered by one of the calls of `Initialize` or `SetCropCommands`. |
| Localization.ReadablePrefix | Accountant.GameData/Internal/Localization.cs:116-166 | The number of calls that run: every registration before it succeeds, and the one at it (if any) throws. |
| Localization.Populate | Accountant.GameData/Internal/Localization.cs:116-166 | Running the calls in order and stopping at the first throw registers exactly the identifiers before it, each with its own entry. Every other key keeps its value, and the run completes iff nothing threw. |
| Localization.Read | Accountant.GameData/Internal/Localization.cs:57-68 | A row read of the gardening sheet throws when that sheet cannot be obtained. Any other read, and any read once the sheet is obtained, gives the data's own answer. |
| Localization.Spelling | Accountant.GameData/Internal/Localization.cs:136-152 | Each of the fourteen identifiers given fixed spellings has a non-empty spelling in each of the five languages, in `RegisterName`'s En, Jp, De, Fr, Cn order. |
| Localization.Entry | Accountant.GameData/Internal/Localization.cs:62-166 | One registration call, of `SetCropCommands` or of `Initialize` itself, fails iff it reads a row and that read throws. A call that reads builds its matcher around exactly the text read. A call that reads nothing always succeeds. |
| Localization.ReadsExceptNamesAndParsers | Accountant.GameData/Internal/Localization.cs:116-166 | A call reads nothing iff it registers one of the fixed spellings or one of the five parsers. |
| Localization.ReadsRowsOnly | Accountant.GameData/Internal/Localization.cs:111-166 | No call reads a whole sheet. The four sheets of `Initialize` are obtained before the first call, and the gardening sheet of `SetCropCommands` is folded into the reads of its rows. |
| Localization.Bootstrap | Accountant.GameData/Internal/Localization.cs:105-114 | A call on an initialised state returns it unchanged, without an exception. A first call sets the flag before anything else. When it cannot obtain the sheets it throws and registers nothing. No earlier registration is lost. |
| Localization.BootstrapRegisters | Accountant.GameData/Internal/Localization.cs:116-166 | For any order of calls, a first run with its sheets obtained registers exactly the identifiers before the first failing call, each with its own entry. It throws iff it stopped early. |
| Localization.Initialize | Accountant.GameData/Internal/Localization.cs:105-114 | An initialised state is returned unchanged, with no exception. Afterwards the flag is always set, and no earlier registration is lost. A first call that cannot obtain one of its four sheets throws and registers nothing. |
| Localization.InitializeOnce | Accountant.GameData/Internal/Localization.cs:105-110 | Every call after the first is a no-op, whatever the language or the data, even when the first call threw part-way. |
| Localization.InitializeRegisters | Accountant.GameData/Internal/Localization.cs:105-166 | From an empty state and with the four sheets obtained, the first call throws iff some row read fails. The registry then holds exactly the identifiers registered before that read, each mapped to its entry. |
| DemolitionWarning.MaxSeverity | Accountant/Gui/Timer/DemolitionWarning.cs:60-72 | The larger of two severities in the order Growing < Wilted < Withered, and one of the two. |
| DemolitionWarning.JoinHeader | Accountant/Gui/Timer/DemolitionWarning.cs:60-72 | A header colour stays a header colour and never loses severity. Joined with a line colour, it becomes at least as severe as the line. It is either unchanged or takes the line's severity. |
| DemolitionWarning.JoinHeaderIsMax | Accountant/Gui/Timer/DemolitionWarning.cs:60-72 | The nine-case header table is the join of the severity order: a header colour meeting a line colour becomes the header colour of the larger severity. Every other pair falls to the default arm and keeps the header. |
| DemolitionWarning.JoinHeaderLaws | Accountant/Gui/Timer/DemolitionWarning.cs:60-72 | Each join step keeps a header colour and never lowers its severity. It is idempotent, and two steps commute. |
| DemolitionWarning.StatusLabel | Accountant/Gui/Timer/DemolitionWarning.cs:47-53 | The label reads "已拆除" iff the day count is past the limit, and "<1 天" iff it is the demolition day itself. Otherwise it is a count that ends in "天". |
| DemolitionWarning.StatusLabelCountsDown | Accountant/Gui/Timer/DemolitionWarning.cs:47-53 | Below the limit the status label is the number of days left followed by " 天". The special "1 天" case agrees with that form. |
| DemolitionWarning.StatusLabelInjective | Accountant/Gui/Timer/DemolitionWarning.cs:47-53 | Up to and including the demolition day, different day counts give different labels. |
| DemolitionWarning.LineColor | Accountant/Gui/Timer/DemolitionWarning.cs:54-58 | A line always has a text colour. It is Withered iff the count is past the limit, and Wilted iff the count is past the warning threshold but not past the limit. |
| DemolitionWarning.LineColorMonotone | Accountant/Gui/Timer/DemolitionWarning.cs:47-58 | A line's severity never decreases as days pass. A line is Withered iff its label says "已拆除". |
| DemolitionWarning.NoticeText | Accountant/Gui/Timer/DemolitionWarning.cs:81-90 | Every notification text opens with "你的房屋 " followed by the plot's name, whatever the day count. Before the last two days it goes on with the number of days left as decimal text. |
| DemolitionWarning.NoticeTailMarks | Accountant/Gui/Timer/DemolitionWarning.cs:81-90 | The four messages are told apart by the words after the name: "可能" iff the plot is past the limit, "将在" iff it is the demolition day, "明天" iff it is the day before, and "将会" iff more days are left. |
| DemolitionWarning.NoticeTextDistinguishes | Accountant/Gui/Timer/DemolitionWarning.cs:81-90 | For one plot, two notification texts agree iff the day counts agree or both are past the limit. |
| DemolitionWarning.UpdateDisplay | Accountant/Gui/Timer/DemolitionWarning.cs:42-73 | A plot at or past its display threshold appends exactly one line, with its name and a text colour, to the lines so far. Plots below it append nothing. The header stays a header, loses no severity and covers the new line. The notifications and the schedule are untouched. |
| DemolitionWarning.UpdateNotifications | Accountant/Gui/Timer/DemolitionWarning.cs:75-114 | Below its warning threshold a plot changes nothing. Otherwise the plot leaves the old map and enters the new one with its text. It keeps its old handle or takes the counter's. Old entries are only removed, never altered, new entries are only added, and the counter never decreases. Lines, header and schedule are untouched. |
| DemolitionWarning.VisitWarnings | Accountant/Gui/Timer/DemolitionWarning.cs:126-136 | One loop step appends the plot's line iff the plot is tracked and at or past its display threshold. |
| DemolitionWarning.ScanShrinksPending | Accountant/Gui/Timer/DemolitionWarning.cs:92-113 | The loop only takes notifications out of the old map. The ones left keep their value, and the handle counter never decreases. |
| DemolitionWarning.Recompute | Accountant/Gui/Timer/DemolitionWarning.cs:116-139 | A recompute shows exactly the lines of the shown plots, keeps a header colour and schedules no later than `DateTime.MaxValue`. It only dismisses notifications that existed before, and never lowers the handle counter. |
| Clock.TruncRem | Accountant/Gui/Timer/DemolitionWarning.cs:36 | C#'s `long` remainder: it lies strictly between −b and b, takes the dividend's sign, and with the truncated quotient rebuilds the dividend. |
| DemolitionWarning.NextDayBoundary | Accountant/Gui/Timer/DemolitionWarning.cs:36-37 | For a visit in the past the candidate lies in (now, now + one day]. For a visit in the future it lies in [now + one day, now + two days). It is always now plus one day minus the C# remainder. |
| DemolitionWarning.NextDayBoundaryIsFirstWholeDay | Accountant/Gui/Timer/DemolitionWarning.cs:36-37 | For a visit in the past, the candidate is the first instant after now at which the time since the visit is a whole number of days. |
| DemolitionWarning.LowerNextChange | Accountant/Gui/Timer/DemolitionWarning.cs:38-39 | `UpdateNextUpdate` only lowers the scheduled instant, to the minimum of the old instant and the candidate. |
| DemolitionWarning.TrackedOnly | Accountant/Gui/Timer/DemolitionWarning.cs:128-129 | The entries kept are exactly the tracked ones. |
| DemolitionWarning.ScanIgnoresUntracked | Accountant/Gui/Timer/DemolitionWarning.cs:126-129 | Dropping the untracked plots changes nothing a recompute computes: no line, no notification, no candidate comes from them. |
| DemolitionWarning.ShownLinesColors | Accountant/Gui/Timer/DemolitionWarning.cs:44-59 | Every line on display has a text colour and belongs to a plot at or past its display threshold. |
| DemolitionWarning.ScanNextChange | Accountant/Gui/Timer/DemolitionWarning.cs:122-136 | The loop's instant is at most its start and at most every tracked plot's candidate. It equals the start or one of those candidates. |
| DemolitionWarning.ScanWarnings | Accountant/Gui/Timer/DemolitionWarning.cs:44-59 | The loop appends one line per shown plot, in dictionary order, and no other line. |
| DemolitionWarning.ScanHeader | Accountant/Gui/Timer/DemolitionWarning.cs:60-72 | The header stays a header colour, at least as severe as at the start and as every appended line. It is the start colour or the severity of an appended line. |
| DemolitionWarning.VisitNotifications | Accountant/Gui/Timer/DemolitionWarning.cs:75-113 | One plot's effect on the notifications. Below its warning threshold it changes nothing. Otherwise an existing notification is moved over with new text and its identity kept, or a new one is created with the next handle. |
| DemolitionWarning.VisitKeys | Accountant/Gui/Timer/DemolitionWarning.cs:92-113 | One plot's visit adds that plot to the rebuilt map and removes it from the old map iff it is warned. Other rebuilt entries are kept, and the handle counter never decreases. |
| DemolitionWarning.ScanNotificationKeys | Accountant/Gui/Timer/DemolitionWarning.cs:92-113 | The rebuilt map gains exactly the warned plots, and entries already rebuilt stay as they were. |
| DemolitionWarning.VisitEntry | Accountant/Gui/Timer/DemolitionWarning.cs:92-113 | A warned plot's visit gives its notification the plot's text. It keeps the old handle when the plot had one, and otherwise takes the counter's next handle. |
| DemolitionWarning.ScanPending | Accountant/Gui/Timer/DemolitionWarning.cs:92-113 | After the loop, the old map has lost exactly the warned plots, which are the notifications left to dismiss, and the handle counter has not decreased. |
| DemolitionWarning.ScanNotificationEntries | Accountant/Gui/Timer/DemolitionWarning.cs:81-113 | Each warned plot's notification carries that plot's text. It keeps its old handle if it had one; otherwise its handle was never used before. |
| DemolitionWarning.VisitKeepsHandlesUnique | Accountant/Gui/Timer/DemolitionWarning.cs:92-113 | Moving or creating one notification keeps all handles in the old and the rebuilt map distinct and below the counter. |
| DemolitionWarning.ScanHandles | Accountant/Gui/Timer/DemolitionWarning.cs:124-136 | Across the whole loop, handles stay distinct and below the counter. |
| DemolitionWarning.OnFramework | Accountant/Gui/Timer/DemolitionWarning.cs:116-140 | Before the scheduled instant a tick changes nothing and dismisses nothing. A recompute leaves a header colour and an instant no later than `DateTime.MaxValue`. |
| DemolitionWarning.OnChange | Accountant/Gui/Timer/DemolitionWarning.cs:142-143 | A change notice schedules the recompute for now and touches nothing else. |
| DemolitionWarning.RecomputeDisplay | Accountant/Gui/Timer/DemolitionWarning.cs:122-136 | After a recompute, the next one is due at the minimum candidate over tracked plots, or at `DateTime.MaxValue` when none is tracked. The lines are exactly those of the shown plots, in order. The header is the most severe colour among them, Growing when there are none. |
| DemolitionWarning.RecomputeNotifications | Accountant/Gui/Timer/DemolitionWarning.cs:75-139 | After a recompute, the notifications are keyed by exactly the tracked plots at or past their warning threshold, each with its text. An existing notification is reused with its identity, and a new one gets an identity at or above the old counter. |
| DemolitionWarning.RecomputeDismisses | Accountant/Gui/Timer/DemolitionWarning.cs:138-157 | When the old notifications have distinct handles below the counter, a recompute dismisses exactly the handles of old plots no longer warned. None of them stays among the live notifications, and the live ones keep distinct handles below the counter. |
| DemolitionWarning.RecomputeWaitsForBoundary | Accountant/Gui/Timer/DemolitionWarning.cs:116-143 | After a recompute, ticks before the scheduled instant are no-ops. A change notice makes the next tick recompute. |
| Decimal.NatToStringRoundTrip | Accountant/Gui/Timer/DemolitionWarning.cs:52 | The decimal text of a day count reads back as that count. |
| Decimal.NatToStringSuffixInjective | Accountant/Gui/Timer/DemolitionWarning.cs:52 | A rendered count followed by a digit-free unit still determines the count. |
| ConfigPlots.SelectedDataSettles | Accountant/Gui/Config/ConfigWindow.Plots.cs:45-49 | The panel shows data iff the selection is in the plot dictionary, and what it shows is the record of the selection it keeps. The selection left after a frame is kept by the next frame, which shows the same record. |
| ConfigPlots.ClampDays | Accountant/Gui/Config/ConfigWindow.Plots.cs:64-78 | The dragged day count is clamped into [0, DefaultDisplayMax] and is unchanged when already inside. |
| ConfigPlots.EditThreshold | Accountant/Gui/Config/ConfigWindow.Plots.cs:64-84 | A threshold is written and saved iff the drag reported a change and the clamped value differs from the stored one. Otherwise the record is untouched. No other field changes. |
| ConfigPlots.EditThresholdIdempotent | Accountant/Gui/Config/ConfigWindow.Plots.cs:64-84 | Repeating the same drag writes nothing and saves nothing. |
| ConfigPlots.LastVisitLabel | Accountant/Gui/Config/ConfigWindow.Plots.cs:87-92 | The caption always opens with "上次访问: ". |
| ConfigPlots.LastVisitLabelCapped | Accountant/Gui/Config/ConfigWindow.Plots.cs:87-92 | Past the first day, the caption is the day count capped at DefaultDisplayMax followed by "天前". Two captions agree iff the capped counts agree. |
| ConfigPlots.LastVisitLabelWithinDay | Accountant/Gui/Config/ConfigWindow.Plots.cs:87-92 | Within one day the caption reads "24 小时内", which no later day count produces. |
| ConfigPlots.ResetLastVisit | Accountant/Gui/Config/ConfigWindow.Plots.cs:93-99 | Only the visit instant can change, and the edit saves iff Ctrl is held and the button clicked. A saved edit stamps the current time, and an unsaved one leaves the instant alone. |
| ConfigPlots.ResetLastVisitIdempotent | Accountant/Gui/Config/ConfigWindow.Plots.cs:93-99 | A second stamp at the same instant leaves the record as the first one left it. |
| ConfigPlots.CanAddPlayer | Accountant/Gui/Config/ConfigWindow.Plots.cs:112-114 | Add-player is enabled iff the name is non-empty, the world is non-zero and the (name, world) pair is not yet listed. |
| ConfigPlots.AddPlayer | Accountant/Gui/Config/ConfigWindow.Plots.cs:112-120 | A click on the enabled button adds exactly that player and saves. Afterwards the button is disabled. |
| ConfigPlots.AddCurrentPlayer | Accountant/Gui/Config/ConfigWindow.Plots.cs:128-136 | The edit saves iff the button is clicked while a character is logged in and not yet listed. No player is lost, at most the logged-in character is added, the set grows by one exactly when it saves, and after a click the character is listed. |
| ConfigPlots.AddCurrentPlayerUndone | Accountant/Gui/Config/ConfigWindow.Plots.cs:128-167 | Adding an unlisted character and then deleting it gives back the original players, and both steps save. |
| ConfigPlots.DeletePlayer | Accountant/Gui/Config/ConfigWindow.Plots.cs:145-167 | Deleting a player removes at most that player, and saves iff the set actually shrank. |
| ConfigPlots.AddTypedPlotTooltip | Accountant/Gui/Config/ConfigWindow.Plots.cs:202-206 | The tooltip of the typed-plot button offers the addition (starts with '添') iff the manager can add the plot. |
| ConfigPlots.AddTypedPlot | Accountant/Gui/Config/ConfigWindow.Plots.cs:202-210 | A click adds a plot iff the tooltip offers the addition, and the plot it adds is the typed one. |
| ConfigPlots.AddCurrentPlotTooltip | Accountant/Gui/Config/ConfigWindow.Plots.cs:217-223 | The add-current-plot tooltip starts with '添', which enables the button, iff the current plot is valid and can be added. |
| ConfigPlots.AddCurrentPlot | Accountant/Gui/Config/ConfigWindow.Plots.cs:217-231 | A click adds the current plot iff it is valid and can be added. Nothing else is added. |
| ConfigPlots.DeleteTooltip | Accountant/Gui/Config/ConfigWindow.Plots.cs:237-244 | The delete tooltip starts with '删', which enables the button, iff Ctrl is held and the selection is in the dictionary. |
| ConfigPlots.DeleteSelectedPlot | Accountant/Gui/Config/ConfigWindow.Plots.cs:237-248 | The selected plot is removed and saved iff Ctrl is held, it is present and the button is clicked. No other entry is removed or altered. |
| ConfigGeneral.ClampAllowance | Accountant/Gui/Config/ConfigWindow.General.cs:109-112 | The two `if`s raise a negative value to 0 and lower one above the cap to the cap, leaving values inside [0, cap] alone. |
| ConfigGeneral.EditLeveWarning | Accountant/Gui/Config/ConfigWindow.General.cs:102-119 | An unchanged clamped leve value does nothing: no write, no save, no reset. A changed one is stored and saved, and only the task cache is reset. |
| ConfigGeneral.EditTribesFinished | Accountant/Gui/Config/ConfigWindow.General.cs:121-138 | The tribe value follows the same clamp, no-op and commit pattern, resetting only the task cache. |
| ConfigGeneral.EditAllowanceIdempotent | Accountant/Gui/Config/ConfigWindow.General.cs:102-138 | Entering the same allowance value twice commits it once. |
| ConfigGeneral.CacheForPartition | Accountant/Gui/Config/ConfigWindow.General.cs:159-196 | Each flag resets a cache iff the flag belongs to that cache's group. |
| ConfigGeneral.SharedCaches | Accountant/Gui/Config/ConfigWindow.General.cs:159-196 | Seven flags share the task cache, and two flags (airships and submersibles) share the machine cache. |
| ConfigGeneral.EnableCache | Accountant/Gui/Config/ConfigWindow.General.cs:152-157 | Exactly the given flag becomes the toggle value. The timers re-read their settings, and exactly the flag's own cache is reset. |
| ConfigGeneral.SetOrderByCrop | Accountant/Gui/Config/ConfigWindow.General.cs:140-144 | The crop-ordering switch stores its value, changes nothing else and resets the crop cache. |
| ConfigGeneral.SetIgnoreIndoorPlants | Accountant/Gui/Config/ConfigWindow.General.cs:146-150 | The indoor-plant switch takes the toggled value, every other setting keeps its value, and only the crop cache is reset, without a save. |
| CropTooltip.TimeSpanString2 | Accountant/Gui/Timer/Cache/TimerWindow.CropCache.cs:43-53 | `DateTime.MinValue`, the Unix epoch and `DateTime.MaxValue` read "已经", "未知" and "永不", before the clock is consulted. Any other instant reads "Already" once past, and the remaining time otherwise. |
| CropTooltip.TimeSpanString2ShiftInvariant | Accountant/Gui/Timer/Cache/TimerWindow.CropCache.cs:43-53 | A sentinel's label ignores the clock. A real instant's label depends only on its distance from the clock. |
| CropTooltip.LaterRow | Accountant/Gui/Timer/Cache/TimerWindow.CropCache.cs:103-104 | A wilt or wither row reads "永不" whenever the crop finishes before that instant. Otherwise it shows `TimeSpanString2` of it. |
| CropTooltip.LaterRowNever | Accountant/Gui/Timer/Cache/TimerWindow.CropCache.cs:103-104 | A row whose instant is `DateTime.MaxValue`, or later than the finish, reads "永不". A pending real instant shows its remaining time. |
| CropTooltip.FinishMarkerAsWritten | Accountant/Gui/Timer/Cache/TimerWindow.CropCache.cs:90 | The marker as written is "<" iff the finish is not `DateTime.MaxValue` and lies after the local wall clock. |
| CropTooltip.FinishMarkerAsWrittenLags | Accountant/Gui/Timer/Cache/TimerWindow.CropCache.cs:90-102 | East of UTC, during the last offset's worth of ticks before the finish, the written marker is blank. Meanwhile the finish row on the line below still counts down. |
| CropTooltip.FinishMarkerAsWrittenExample | Accountant/Gui/Timer/Cache/TimerWindow.CropCache.cs:90 | At UTC+8, one hour before the finish, the written marker is blank where the UTC marker shows "<". |
| CropTooltip.FinishMarker | Accountant/Gui/Timer/Cache/TimerWindow.CropCache.cs:85-92 | The marker is "<" iff the finish is not `DateTime.MaxValue` and lies after now. |
| CropTooltip.FinishMarkerMatchesRow | Accountant/Gui/Timer/Cache/TimerWindow.CropCache.cs:90-102 | With one clock, the marker shows exactly when the finish row counts a positive remaining time. |
| CropTooltip.MarkerColumn | Accountant/Gui/Timer/Cache/TimerWindow.CropCache.cs:85-96 | With an inaccurate plant time, the column marks the plant row and shows the finish marker on the finish row. With an accurate one, it is blank. |
| CropTooltip.UpdateInternal | Accountant/Gui/Timer/Cache/TimerWindow.CropCache.cs:112-118 | The crop cache is laid out by crop iff `OrderByCrop` is set, and by owner otherwise. |
| CropTooltip.OrderSwitchSelectsLayout | Accountant/Gui/Timer/Cache/TimerWindow.CropCache.cs:112-118 | Flipping the ordering switch resets the crop cache, and its rebuild uses the chosen layout. |
| CropTooltip.IndoorSwitchKeepsLayout | Accountant/Gui/Config/ConfigWindow.General.cs:146-150 | The indoor-plant switch also resets the crop cache, but the rebuild keeps the layout it had. |

## Left out

- The matcher library behind `LocalizationDict`, `StringParser.FromRegex`, `SeStringMatcher` and `StringMatcherLetters` is not part of this model. Registrations are descriptors of what is handed to it, and the registry is a map from identifier to descriptor for the one client language.
- The .NET regular-expression engine is not modelled. Patterns are sequences of literal text, named groups and unnamed groups, enough to state which group names each defines.
- Lumina sheet acquisition and row lookups are a function from data source to optional text, where a missing value is an exception. The four sheets of `Initialize` are sources of their own, obtained before the first registration. The gardening sheet of `SetCropCommands` is obtained just before the first crop command is registered, so its failure shows up as a failing read of that command. A territory read and its place-name read form one source. The second acquisition of the `Addon` sheet in `SetCropCommands` is not a separate source: it already succeeded in `Initialize`.
- Localization.PatchParse: Dafny strings are sequences of Unicode scalar values, while C# `string.Length` and `Substring` count UTF-16 code units. On prompts with characters outside the Basic Multilingual Plane the source's offsets pick different characters than the model's.
- Localization.RegexGroupsDefined: holds of the wheel patterns with the Japanese group named. With the Japanese pattern as written in `Localization.cs:94`, the Japanese wheel filter exports a group its pattern does not define (`Localization.WheelPatternsAsWrittenMissJapanese`).
- Localization.OnlyDisposeMatchesPrefix: the mode a comparer gets when no match mode is passed is decided by the matcher library, which is not part of this model. The model names it `Default` and claims nothing about how it compares.
- CropTooltip.MarkerColumn: shows the finish marker compared with the UTC clock, the corrected one. The marker as written compares with the local wall clock (`CropTooltip.FinishMarkerAsWritten`), as recorded under Findings.
- Localization.Fixed: the wheel filter is registered with the corrected Japanese pattern, as recorded under Findings.
- The rich-text decoding of a sheet cell (`ToDalamudString`, `ExtractText`, the cast of the first payload to a text payload) is folded into the data source. A cell without a text payload counts as a failing read.
- The `Math.Ceiling` day count of `OnFramework` uses floating point. The day count of each plot is an input.
- DemolitionWarning.NextDayBoundary: `DateTime.AddTicks` throws past `DateTime.MaxValue`. The model adds unbounded integers instead.
- The Dalamud notification API (titles, icons, expiry) is not modelled. A notification is a handle number and its text, and dismissal is the set of handles dismissed.
- `DemolitionWarning.Initial` starts the header at Growing. Before the first recompute the source's `HeaderColor` holds the enum's default, which no tick observes because the first tick always recomputes.
- The manager's plot dictionary is a sequence of entries. The notification lemmas require its plots to be distinct, as dictionary keys are.
- `DemolitionManager` is not part of this model. `DefaultDisplayMax` is taken as 45 days, the game's demolition limit.
- `Leve.AllowanceError` and `Tribe.AllowanceCap` are not part of this model. They are the `cap` parameter of the allowance inputs.
- ImGui drawing, widget layout, float widths, icons, colours of the config pickers and the Vector3 position rows are not modelled. Widget results (dragged, clicked, Ctrl held) are inputs.
- Persistence is not modelled. `Save()` is the `saved` flag of an edit, and a cache reset is an entry in `resets`.
- The plot name input and the Tracked check-box (`ConfigWindow.Plots.cs:51-59`) are plain assignments followed by a save. They are not modelled.
- `CheckSettings`, `CanAddPlot`, `AddPlot`, `PlotInfo.Valid` and the world-name lookup belong to other classes. Their results are inputs.
- `TimeSpanString` belongs to another file. It is an uninterpreted function from a tick span to text.
- Event subscription, `Dispose` and the native hook in `UpdateGoldSaucerData.cs` have no decision logic and are not modelled.

## Findings

| source | as written | input that shows it | evidently intended | confidence | as-written member | corrected member |
|---|---|---|---|---|---|---|
| Accountant.GameData/Internal/Localization.cs:94 | The Japanese wheel pattern writes its group as `(<?wheel>.*?)`. That is an unnamed group around an optional '<', so the pattern defines no group called `wheel`, although the parser is registered with the group name `wheel`. | Japanese client, the wheel-stand prompt | `(?<wheel>.*?)`, as in the other four languages | not executed | Localization.WheelPatternsAsWrittenMissJapanese | Localization.WheelPatternsDefineGroup |
| Accountant/Gui/Timer/Cache/TimerWindow.CropCache.cs:90 | The finish marker compares the UTC finish time with `DateTime.Now`, the local wall clock. The finish row below it uses `DateTime.UtcNow`. | UTC+8, one hour before the crop finishes: the row counts down one hour while the marker is blank | compare with `DateTime.UtcNow` | not executed | CropTooltip.FinishMarkerAsWrittenExample | CropTooltip.FinishMarkerMatchesRow |
