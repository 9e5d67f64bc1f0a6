/**
 * The localisation bootstrap of the game-data library: the per-language
 * matcher descriptors it builds (fixed-offset digit extractor, regular
 * expression tables, rich-text payload comparers with from-end indices,
 * text comparers and names) and the one-shot `Initialize` that reads the
 * game's data sheets and registers one descriptor per string identifier.
 * The matchers themselves and the regular-expression engine belong to an
 * external library; here they are described by the data handed to them.
 */
module Localization {
  import opened Wrappers

  /** The client languages; the Chinese client reports the value 4, which has no name in the enum the code switches on. */
  datatype Language = Japanese | English | German | French | ChineseSimplified

  // ------------------------------------------------- the fixed-offset parser

  /** Where the bed digit and the patch digit sit in the plant prompt. */
  datatype Offsets = Offsets(bed: nat, patch: nat)

  function PatchOffsets(lang: Language): Offsets {
    match lang
    case German => Offsets(15, 5)
    case French => Offsets(23, 8)
    case Japanese => Offsets(1, 4)
    case ChineseSimplified => Offsets(6, 2)
    case English => Offsets(0, 9)
  }

  function MaxOffset(o: Offsets): nat {
    if o.bed > o.patch then o.bed else o.patch
  }

  /**
   * `PatchParser`: a string too short to hold both offsets yields nothing;
   * otherwise the one-character strings at the patch and the bed offset, in
   * that order.
   */
  function PatchParse(lang: Language, s: string): (r: seq<string>)
    ensures r == [] <==> |s| <= MaxOffset(PatchOffsets(lang))
    ensures r != [] ==> r == [[s[PatchOffsets(lang).patch]], [s[PatchOffsets(lang).bed]]]
  {
    var o := PatchOffsets(lang);
    if |s| <= MaxOffset(o) then []
    else
      assert s[o.patch..o.patch + 1] == [s[o.patch]] && s[o.bed..o.bed + 1] == [s[o.bed]];
      [s[o.patch..o.patch + 1], s[o.bed..o.bed + 1]]
  }

  /**
   * Writing a patch digit and a bed digit into any long-enough prompt at the
   * language's offsets and parsing it back returns those digits, patch
   * first: the two offsets never coincide.
   */
  lemma PatchParseRecovers(lang: Language, s: string, patchDigit: char, bedDigit: char)
    requires |s| > MaxOffset(PatchOffsets(lang))
    ensures var o := PatchOffsets(lang);
      PatchParse(lang, s[o.patch := patchDigit][o.bed := bedDigit]) == [[patchDigit], [bedDigit]]
  {
    var o := PatchOffsets(lang);
    assert o.patch != o.bed;
  }

  // ------------------------------------------------------ from-end indices

  /** A C# `System.Index`: `k` counts from the start, `^k` from the end. */
  datatype Index = FromStart(k: nat) | FromEnd(k: nat)

  /** The position an index denotes in a sequence of length `n`, if it lies inside. */
  function Resolve(i: Index, n: nat): (r: Option<nat>)
    ensures r.Some? ==> r.value < n
    ensures i.FromStart? ==> (r.Some? <==> i.k < n) && (r.Some? ==> r.value == i.k)
    ensures i.FromEnd? ==> (r.Some? <==> 1 <= i.k <= n) && (r.Some? ==> r.value == n - i.k)
  {
    match i
    case FromStart(k) => if k < n then Some(k) else None
    case FromEnd(k) => if 1 <= k <= n then Some(n - k) else None
  }

  /**
   * A from-end index keeps pointing at the same segment when segments are
   * inserted in front of it, which is why the payload comparers use them.
   */
  lemma ResolveFromEndStable<T>(k: nat, front: seq<T>, rest: seq<T>)
    requires Resolve(FromEnd(k), |rest|).Some?
    ensures Resolve(FromEnd(k), |front + rest|).Some?
    ensures (front + rest)[Resolve(FromEnd(k), |front + rest|).value] == rest[Resolve(FromEnd(k), |rest|).value]
  {
  }

  /** The four segment selectors handed to `SinglePayloadComparer`. */
  datatype Selectors = Selectors(first: Index, second: Index, third: Index, fourth: Index)

  // ------------------------------------------------- regular expressions

  /**
   * A regular expression, as a sequence of literal text, named groups
   * `(?<name>body)` and unnamed groups `(body)`, with the options it is
   * compiled with.
   */
  datatype Piece = Text(text: string) | Named(name: string, body: string) | Unnamed(body: string)

  datatype Pattern = Pattern(pieces: seq<Piece>, explicitCapture: bool, singleline: bool)

  /** The names of the groups a pattern defines, in order. */
  function GroupNames(pieces: seq<Piece>): (names: seq<string>)
    ensures forall n :: n in names <==> exists i :: 0 <= i < |pieces| && pieces[i].Named? && pieces[i].name == n
  {
    if pieces == [] then []
    else
      var rest := GroupNames(pieces[1..]);
      assert forall i :: 0 < i < |pieces| ==> pieces[i] == pieces[1..][i - 1];
      (if pieces[0].Named? then [pieces[0].name] else []) + rest
  }

  predicate Defines(p: Pattern, name: string) {
    name in GroupNames(p.pieces)
  }

  /** One value per language, in the order `FromRegex` takes its patterns: En, Fr, Jp, De, Cn. */
  datatype PerLanguage<T> = PerLanguage(en: T, fr: T, jp: T, de: T, cn: T) {
    function For(lang: Language): T {
      match lang
      case English => en
      case French => fr
      case Japanese => jp
      case German => de
      case ChineseSimplified => cn
    }
  }

  const Lazy: string := ".*?"

  /** `(?<soil>…)` and `(?<seeds>…)` of the "prepare the bed" prompt; the Japanese one carries two U+0003 control characters. */
  const PlantingPatterns: PerLanguage<Pattern> := PerLanguage(
    Pattern([Text("Prepare the bed with "), Named("soil", Lazy), Text(" and "), Unnamed("a |an "), Text("?"),
             Named("seeds", Lazy), Text("\\?")], true, false),
    Pattern([Text("Planter "), Unnamed("un |une "), Text("?"), Named("seeds", Lazy), Text(" avec "),
             Named("soil", Lazy), Text(".\\?")], true, false),
    Pattern([Named("soil", Lazy), Text("に\U{0003}"), Named("seeds", Lazy), Text("を植えます。\U{0003}よろしいですか？")], true, false),
    Pattern([Named("soil", Lazy), Text(" verteilen und "), Unnamed("einer |einem "), Text("?"),
             Named("seeds", Lazy), Text(" aussäen\\?")], true, false),
    Pattern([Text("确定要将"), Named("seeds", Lazy), Text("种植在"), Named("soil", Lazy), Text("中吗？")], true, false))

  /** The wheel-stand prompt, as the Japanese pattern is written: `「(<?wheel>.*?)」…`. */
  const WheelPatternsAsWritten: PerLanguage<Pattern> := PerLanguage(
    Pattern([Text("Place "), Unnamed("the "), Text("?"), Named("wheel", Lazy), Text(" on the wheel stand\\?")], true, false),
    Pattern([Text("Installer "), Unnamed("la |le "), Text("?"), Named("wheel", Lazy), Text(".\\?")], true, false),
    Pattern([Text("「"), Unnamed("<?wheel>" + Lazy), Text("」を.*ホイールスタンドに設置します。.*よろしいですか？")], true, true),
    Pattern([Unnamed("Das "), Text("? "), Named("wheel", Lazy), Text(" wirklich in den Ätherrad-Ständer einsetzen\\?")], true, false),
    Pattern([Text("确定要将“"), Named("wheel", Lazy), Text("”设置到转轮台上吗？")], true, true))

  /** The wheel-stand prompt with the Japanese group named as in the other four languages. */
  const WheelPatterns: PerLanguage<Pattern> :=
    WheelPatternsAsWritten.(jp := Pattern([Text("「"), Named("wheel", Lazy),
                                           Text("」を.*ホイールスタンドに設置します。.*よろしいですか？")], true, true))

  /** The four-digit `(?<ticket>\d{4})` of the jumbo ticket purchase text. */
  const JumboPatterns: PerLanguage<Pattern> := PerLanguage(
    Pattern([Text("number\\s+"), Named("ticket", "\\d{4}")], true, false),
    Pattern([Named("ticket", "\\d{4}"), Text("\\s+pour")], true, false),
    Pattern([Named("ticket", "\\d{4}"), Text("番を")], true, false),
    Pattern([Text("Nummer\\s+"), Named("ticket", "\\d{4}")], false, false),
    Pattern([Named("ticket", "\\d{4}"), Text("号仙人仙彩吗？")], true, false))

  /** Every language's planting pattern defines both exported groups. */
  lemma PlantingPatternsDefineGroups(lang: Language)
    ensures Defines(PlantingPatterns.For(lang), "seeds") && Defines(PlantingPatterns.For(lang), "soil")
  {
    var p := PlantingPatterns.For(lang).pieces;
    match lang
    case English => assert p[5] == Named("seeds", Lazy) && p[1] == Named("soil", Lazy);
    case French => assert p[3] == Named("seeds", Lazy) && p[5] == Named("soil", Lazy);
    case Japanese => assert p[2] == Named("seeds", Lazy) && p[0] == Named("soil", Lazy);
    case German => assert p[4] == Named("seeds", Lazy) && p[0] == Named("soil", Lazy);
    case ChineseSimplified => assert p[1] == Named("seeds", Lazy) && p[3] == Named("soil", Lazy);
  }

  /** Every language's jumbo pattern defines the exported group. */
  lemma JumboPatternsDefineGroup(lang: Language)
    ensures Defines(JumboPatterns.For(lang), "ticket")
  {
    var p := JumboPatterns.For(lang).pieces;
    match lang
    case English => assert p[1] == Named("ticket", "\\d{4}");
    case French => assert p[0] == Named("ticket", "\\d{4}");
    case Japanese => assert p[0] == Named("ticket", "\\d{4}");
    case German => assert p[1] == Named("ticket", "\\d{4}");
    case ChineseSimplified => assert p[0] == Named("ticket", "\\d{4}");
  }

  /** A pattern without named pieces defines no group names. */
  lemma NoNamedGroups(pieces: seq<Piece>)
    requires forall i :: 0 <= i < |pieces| ==> !pieces[i].Named?
    ensures GroupNames(pieces) == []
  {
  }

  /**
   * As written, the Japanese wheel pattern defines no group at all, since
   * `(<?` opens an unnamed group around an optional '<'; the other four
   * languages define `wheel`.
   */
  lemma WheelPatternsAsWrittenMissJapanese(lang: Language)
    ensures Defines(WheelPatternsAsWritten.For(lang), "wheel") <==> lang != Japanese
    ensures GroupNames(WheelPatternsAsWritten.jp.pieces) == []
  {
    var jp := WheelPatternsAsWritten.jp.pieces;
    assert !jp[0].Named? && !jp[1].Named? && !jp[2].Named?;
    NoNamedGroups(jp);
    var p := WheelPatternsAsWritten.For(lang).pieces;
    match lang
    case English => assert p[3] == Named("wheel", Lazy);
    case French => assert p[3] == Named("wheel", Lazy);
    case Japanese =>
    case German => assert p[2] == Named("wheel", Lazy);
    case ChineseSimplified => assert p[1] == Named("wheel", Lazy);
  }

  /** With the group named, every language's wheel pattern defines `wheel`, and nothing else changes. */
  lemma WheelPatternsDefineGroup(lang: Language)
    ensures Defines(WheelPatterns.For(lang), "wheel")
    ensures lang != Japanese ==> WheelPatterns.For(lang) == WheelPatternsAsWritten.For(lang)
  {
    if lang == Japanese {
      assert WheelPatterns.jp.pieces[1] == Named("wheel", Lazy);
    } else {
      WheelPatternsAsWrittenMissJapanese(lang);
    }
  }

  // ------------------------------------------------------------ descriptors

  /**
   * The comparison a text comparer applies: `StartsWith` when the call passes
   * it, `Default` (whatever the matcher library applies when no mode is
   * passed) otherwise.
   */
  datatype MatchType = Default | StartsWith

  /** What `Initialize` registers for an identifier. */
  datatype Strategy =
    | Name(text: string)                                     // a plain localised string
    | Comparer(reference: string, mode: MatchType)           // `RegisterComparer`
    | SinglePayload(template: string, selectors: Selectors)  // `SeStringMatcher.SinglePayloadComparer`
    | SpecificPayload(a: nat, b: nat, c: nat, d: nat)        // `SeStringParser.SpecificPayload`
    | OffsetParser(offsets: Offsets)                         // `PatchParser`
    | RegexParser(pattern: Pattern, groups: seq<string>)     // `StringParser.FromRegex`
    | Letters(reference: string)                             // `StringMatcherLetters`

  /** The string identifiers `Initialize` registers. */
  datatype StringId =
    | Mist | LavenderBeds | Goblet | Shirogane | Empyreum
    | Unknown | CropPatch | CropPot | CropBed
    | Cottage | House | Mansion | Apartment | Chambers | Completed | Available | Machines | Retainers
    | Airship | Submersible | Retainer
    | WheelFilter | BuyMiniCactpotTicket | BuyJumboCactpotTicket | FilterJumboCactpotTicket
    | HarvestCrop | TendCrop | FertilizeCrop | RemoveCrop | DisposeCrop | PlantCrop
    | CropBeyondHope | CropDoingWell | CropBetterDays | CropReady | CropPrepareBed
    | PlantMatcher | PatchMatcher | SeedMatcher

  /** The housing districts whose place names are registered. */
  datatype HousingZone = MistZone | LavenderBedsZone | GobletZone | ShiroganeZone | EmpyreumZone

  /** The data sheets the bootstrap obtains before it reads their rows. */
  datatype SheetName = TerritorySheet | PlaceNameSheet | AddonSheet | GoldSaucerTalkSheet | GardeningSheet

  /**
   * What the bootstrap asks of the game's data: a whole sheet, whose text is
   * irrelevant and whose absence is an exception, or a string read from a
   * sheet's row.
   */
  datatype Source =
    | Sheet(name: SheetName)                // `GetSheet`, which throws when the sheet cannot be obtained
    | PlaceName(zone: HousingZone)          // the zone's territory row, then its place-name row
    | AddonText(row: nat)                   // the `Addon` sheet's text
    | GardeningText(row: nat)               // `cmndefhousinggardeningplant_00151`, column 1
    | GardeningFirstText(row: nat)          // the same, its first payload read as a text payload
    | GoldSaucerTalk(row: nat, column: nat) // the `goldsaucertalk` sheet

  /** The data sheets of the active language; `None` is a read that throws. */
  type GameData = Source -> Option<string>

  /** The sheets `Initialize` obtains before its first registration. */
  const InitialSheets: seq<SheetName> := [TerritorySheet, PlaceNameSheet, AddonSheet, GoldSaucerTalkSheet]

  predicate SheetsObtained(data: GameData) {
    forall i :: 0 <= i < |InitialSheets| ==> data(Sheet(InitialSheets[i])).Some?
  }

  /**
   * A row read: the gardening sheet is obtained by `SetCropCommands` just
   * before its first registration, so when it cannot be obtained each of its
   * rows reads as an exception.
   */
  function Read(data: GameData, src: Source): (r: Option<string>)
    ensures r.Some? ==> r == data(src)
    ensures (src.GardeningText? || src.GardeningFirstText?) && data(Sheet(GardeningSheet)).None? ==> r.None?
    ensures !(src.GardeningText? || src.GardeningFirstText?) ==> r == data(src)
  {
    if (src.GardeningText? || src.GardeningFirstText?) && data(Sheet(GardeningSheet)).None? then None else data(src)
  }

  /** The five spellings handed to `RegisterName`, in its order: En, Jp, De, Fr, Cn. */
  datatype Names = Names(en: string, jp: string, de: string, fr: string, cn: string) {
    function For(lang: Language): string {
      match lang
      case English => en
      case Japanese => jp
      case German => de
      case French => fr
      case ChineseSimplified => cn
    }
  }

  const CropSelectors: Selectors := Selectors(FromEnd(1), FromEnd(1), FromEnd(1), FromStart(0))
  const CropReadySelectors: Selectors := Selectors(FromEnd(1), FromEnd(3), FromEnd(1), FromStart(0))
  const PrepareBedSelectors: Selectors := Selectors(FromStart(0), FromStart(0), FromEnd(1), FromEnd(1))

  /** Every selector of a tuple points inside a rich text of `n` segments. */
  predicate Resolves(sel: Selectors, n: nat) {
    Resolve(sel.first, n).Some? && Resolve(sel.second, n).Some? &&
    Resolve(sel.third, n).Some? && Resolve(sel.fourth, n).Some?
  }

  /**
   * The growth-state tuples need one segment, the "ready" tuple three
   * (its second selector is the third segment from the end), and the
   * prepare-bed tuple one; where they resolve, the from-end selectors
   * denote the segments counted back from the last.
   */
  lemma PayloadSelectorsResolve(n: nat)
    ensures Resolves(CropSelectors, n) <==> n >= 1
    ensures Resolves(CropReadySelectors, n) <==> n >= 3
    ensures Resolves(PrepareBedSelectors, n) <==> n >= 1
    ensures n >= 3 ==>
      Resolve(CropReadySelectors.second, n) == Some(n - 3) && Resolve(CropReadySelectors.first, n) == Some(n - 1)
    ensures n >= 1 ==>
      Resolve(PrepareBedSelectors.fourth, n) == Some(n - 1) && Resolve(PrepareBedSelectors.first, n) == Some(0)
  {
  }

  /** The Submersible label's `Addon` row, which differs on the Japanese client. */
  function SubmersibleRow(lang: Language): nat {
    if lang == Japanese then 6881 else 6888
  }

  /** The identifiers registered with a parser that reads nothing. */
  const ParserIds: set<StringId> := {WheelFilter, FilterJumboCactpotTicket, PlantMatcher, PatchMatcher, SeedMatcher}

  /** The data read behind an identifier's registration, if it needs one. */
  function ReadOf(id: StringId, lang: Language): Option<Source> {
    match id
    case Mist => Some(PlaceName(MistZone))
    case LavenderBeds => Some(PlaceName(LavenderBedsZone))
    case Goblet => Some(PlaceName(GobletZone))
    case Shirogane => Some(PlaceName(ShiroganeZone))
    case Empyreum => Some(PlaceName(EmpyreumZone))
    case Submersible => Some(AddonText(SubmersibleRow(lang)))
    case Retainer => Some(AddonText(6163))
    case BuyMiniCactpotTicket => Some(GoldSaucerTalk(16, 17))
    case BuyJumboCactpotTicket => Some(AddonText(9276))
    case HarvestCrop => Some(GardeningText(6))
    case TendCrop => Some(GardeningText(4))
    case FertilizeCrop => Some(GardeningText(3))
    case RemoveCrop => Some(GardeningText(5))
    case DisposeCrop => Some(GardeningFirstText(11))
    case PlantCrop => Some(GardeningText(2))
    case CropBeyondHope => Some(GardeningText(7))
    case CropDoingWell => Some(GardeningText(8))
    case CropBetterDays => Some(GardeningText(9))
    case CropReady => Some(GardeningText(10))
    case CropPrepareBed => Some(AddonText(6413))
    case _ => None
  }

  /** The strategy is built around the text `t` read from the game data. */
  predicate Carries(strategy: Strategy, t: string) {
    match strategy
    case Name(text) => text == t
    case Comparer(reference, _) => reference == t
    case SinglePayload(template, _) => template == t
    case Letters(reference) => reference == t
    case _ => false
  }

  /** The strategy a registration builds around the text it read from the game data. */
  function FromText(id: StringId, t: string): (r: Strategy)
    ensures Carries(r, t)
  {
    match id
    case HarvestCrop | TendCrop | FertilizeCrop | RemoveCrop | PlantCrop => Comparer(t, Default)
    case DisposeCrop => Comparer(t, StartsWith)
    case CropBeyondHope | CropDoingWell | CropBetterDays => SinglePayload(t, CropSelectors)
    case CropReady => SinglePayload(t, CropReadySelectors)
    case CropPrepareBed => SinglePayload(t, PrepareBedSelectors)
    case BuyMiniCactpotTicket | BuyJumboCactpotTicket => Letters(t)
    case _ => Name(t)
  }

  /** The identifiers `RegisterName` registers with five fixed spellings. */
  const SpelledIds: set<StringId> :=
    {Unknown, CropPatch, CropPot, CropBed, Cottage, House, Mansion, Apartment, Chambers, Completed, Available,
     Machines, Retainers, Airship}

  /** The five spellings `RegisterName` is given for an identifier. */
  function Spelling(id: StringId): (names: Names)
    requires id in SpelledIds
    ensures forall lang :: names.For(lang) != []
  {
    match id
    case Unknown => Names("Unknown", "不明", "Unbekannt", "Inconnu", "未知")
    case CropPatch => Names("Patch", "畑", "Beet", "Potager", "园圃")
    case CropPot => Names("Flower Pot", "プランター", "Blumentopf", "Pot de Fleurs", "花盆")
    case CropBed => Names("Bed", "の畝", "Furche", "Emplacement", "地垄")
    case Cottage => Names("Cottage", "コテージ", "Hütte", "Maisonnette", "小屋")
    case House => Names("House", "ハウス", "Haus", "Pavillon", "房屋")
    case Mansion => Names("Mansion", "レジデンス", "Residenz", "Villa", "别墅")
    case Apartment => Names("Apartment", "部屋", "Wohnung", "Appartement", "公寓")
    case Chambers => Names("Chambers", "ルーム", "Zimmer", "Chambre", "休息室")
    case Completed => Names("Completed", "完成", "Abgeschlossen", "Complété", "已完成")
    case Available => Names("Available", "利用可能", "Verfügbar", "Disponible", "可用")
    case Machines => Names("Machines", "マシン", "Maschinen", "Machines", "装置")
    case Retainers => Names("Retainers", "リテイナー", "Gehilfen", "Servants", "雇员")
    case Airship => Names("Airship", "飛行船", "Luftschiff", "Aéronef", "飞空艇")
    case _ => assert false; Names([], [], [], [], [])
  }

  /** The strategy of a registration that reads nothing: a name in five spellings, or a parser. */
  function Fixed(id: StringId, lang: Language): (r: Strategy)
    requires ReadOf(id, lang).None?
    ensures r.Name? || r.SpecificPayload? || r.OffsetParser? || r.RegexParser?
    ensures r.Name? <==> id in SpelledIds
  {
    match id
    case Unknown | CropPatch | CropPot | CropBed | Cottage | House | Mansion | Apartment | Chambers | Completed
       | Available | Machines | Retainers | Airship => Name(Spelling(id).For(lang))
    case WheelFilter => RegexParser(WheelPatterns.For(lang), ["wheel"])
    case FilterJumboCactpotTicket => RegexParser(JumboPatterns.For(lang), ["ticket"])
    case PlantMatcher => SpecificPayload(2, 3, 2, 3)
    case PatchMatcher => OffsetParser(PatchOffsets(lang))
    case SeedMatcher => RegexParser(PlantingPatterns.For(lang), ["seeds", "soil"])
    case _ => assert false; Name([])
  }

  /**
   * What one registration call installs: a registration that reads the game
   * data builds its strategy around the text read, or fails when the read
   * throws; the others install a fixed strategy.
   */
  function Entry(id: StringId, lang: Language, data: GameData): (r: Option<Strategy>)
    ensures r.None? <==> ReadOf(id, lang).Some? && Read(data, ReadOf(id, lang).value).None?
    ensures ReadOf(id, lang).Some? && r.Some? ==> Carries(r.value, Read(data, ReadOf(id, lang).value).value)
    ensures ReadOf(id, lang).None? ==> r.Some?
  {
    match ReadOf(id, lang)
    case None => Some(Fixed(id, lang))
    case Some(src) =>
      match Read(data, src)
      case None => None
      case Some(t) => Some(FromText(id, t))
  }

  /**
   * Every registration reads a row of a sheet already obtained, except the
   * fixed names and the parsers, which read nothing.
   */
  lemma ReadsExceptNamesAndParsers(id: StringId, lang: Language)
    ensures ReadOf(id, lang).None? <==> id in SpelledIds || id in ParserIds
  {
  }

  /** No registration reads a whole sheet: the sheets are obtained before the first registration. */
  lemma ReadsRowsOnly(id: StringId, lang: Language)
    ensures ReadOf(id, lang).Some? ==> !ReadOf(id, lang).value.Sheet?
  {
  }

  /** The Submersible label is read from a different `Addon` row on the Japanese client. */
  lemma SubmersibleRowByLanguage(lang: Language, data: GameData)
    ensures ReadOf(Submersible, lang) == Some(AddonText(if lang == Japanese then 6881 else 6888))
    ensures Read(data, AddonText(SubmersibleRow(lang))).Some? ==>
      Entry(Submersible, lang, data) == Some(Name(Read(data, AddonText(SubmersibleRow(lang))).value))
  {
  }

  /** The crop commands `SetCropCommands` registers as text comparers. */
  const CropCommands: set<StringId> := {HarvestCrop, TendCrop, FertilizeCrop, RemoveCrop, DisposeCrop, PlantCrop}

  /**
   * Of the registrations built from game text, exactly the crop commands are
   * comparers, and only the dispose command compares by prefix.
   */
  lemma ComparerModes(id: StringId, t: string)
    ensures FromText(id, t).Comparer? <==> id in CropCommands
    ensures FromText(id, t).Comparer? ==> (FromText(id, t).mode == StartsWith <==> id == DisposeCrop)
  {
  }

  /** Of all registrations, only the dispose command compares by prefix, and it does once its text is read. */
  lemma OnlyDisposeMatchesPrefix(id: StringId, lang: Language, data: GameData)
    ensures (Entry(id, lang, data).Some? && Entry(id, lang, data).value.Comparer? &&
             Entry(id, lang, data).value.mode == StartsWith)
      <==> id == DisposeCrop && Read(data, GardeningFirstText(11)).Some?
  {
    var e := Entry(id, lang, data);
    if id == DisposeCrop {
      assert ReadOf(id, lang) == Some(GardeningFirstText(11));
    } else if ReadOf(id, lang).None? {
      assert e == Some(Fixed(id, lang));
    } else if Read(data, ReadOf(id, lang).value).Some? {
      var t := Read(data, ReadOf(id, lang).value).value;
      assert e == Some(FromText(id, t));
      ComparerModes(id, t);
    } else {
      assert e.None?;
    }
  }

  /**
   * A payload comparer resolves all four of its selectors in a rich text of
   * `n` segments exactly when the text has three segments for the "ready"
   * prompt and one for the others.
   */
  lemma PayloadSelectorsOf(id: StringId, t: string, n: nat)
    requires FromText(id, t).SinglePayload?
    ensures Resolves(FromText(id, t).selectors, n) <==> n >= (if id == CropReady then 3 else 1)
  {
    PayloadSelectorsResolve(n);
  }

  /** Every group a regular-expression parser exports is defined by its pattern, in every language. */
  lemma RegexGroupsDefined(id: StringId, lang: Language)
    requires ReadOf(id, lang).None? && Fixed(id, lang).RegexParser?
    ensures forall g :: g in Fixed(id, lang).groups ==> Defines(Fixed(id, lang).pattern, g)
  {
    match id
    case WheelFilter => WheelPatternsDefineGroup(lang);
    case FilterJumboCactpotTicket => JumboPatternsDefineGroup(lang);
    case SeedMatcher => PlantingPatternsDefineGroups(lang);
    case _ =>
  }

  /** The registration calls `Initialize` makes itself, in order. */
  const InitializeCalls: seq<StringId> := [
    Mist, LavenderBeds, Goblet, Shirogane, Empyreum,
    Unknown, CropPatch, CropPot, CropBed,
    Cottage, House, Mansion, Apartment, Chambers, Completed, Available, Machines, Retainers,
    Airship, Submersible, Retainer,
    WheelFilter, BuyMiniCactpotTicket, BuyJumboCactpotTicket, FilterJumboCactpotTicket]

  /** The registration calls of `SetCropCommands`, which `Initialize` makes next, in order. */
  const CropCalls: seq<StringId> := [
    HarvestCrop, TendCrop, FertilizeCrop, RemoveCrop, DisposeCrop, PlantCrop,
    CropBeyondHope, CropDoingWell, CropBetterDays, CropReady, CropPrepareBed,
    PlantMatcher, PatchMatcher, SeedMatcher]

  /** The order of all the registration calls. */
  const RegistrationOrder: seq<StringId> := InitializeCalls + CropCalls

  /** Every identifier is registered by some call. */
  lemma RegistrationOrderCovers(id: StringId)
    ensures id in RegistrationOrder
  {
  }

  // ------------------------------------------------------------- bootstrap

  /** What the registration calls install for each identifier, `None` where the data read throws. */
  type Entries = StringId -> Option<Strategy>

  /** The registrations of one client language over one set of data sheets. */
  function EntriesFor(lang: Language, data: GameData): Entries {
    id => Entry(id, lang, data)
  }

  /** How many registrations, in order, go through before the first data read that throws. */
  function ReadablePrefix(ids: seq<StringId>, entry: Entries): (k: nat)
    ensures k <= |ids|
    ensures forall i :: 0 <= i < k ==> entry(ids[i]).Some?
    ensures k < |ids| ==> entry(ids[k]).None?
  {
    if ids == [] || entry(ids[0]).None? then 0
    else 1 + ReadablePrefix(ids[1..], entry)
  }

  /**
   * The registration calls in order, stopping at the first read that throws:
   * every identifier before it is registered with its entry, and nothing else
   * changes. The flag says whether the run got to the end.
   */
  function Populate(ids: seq<StringId>, entry: Entries, registry: map<StringId, Strategy>)
    : (r: (map<StringId, Strategy>, bool))
    ensures r.1 <==> ReadablePrefix(ids, entry) == |ids|
    ensures forall id :: id in r.0 <==> id in registry || id in ids[..ReadablePrefix(ids, entry)]
    ensures forall id :: id in ids[..ReadablePrefix(ids, entry)] ==> entry(id).Some? && r.0[id] == entry(id).value
    ensures forall id :: id in registry && id !in ids[..ReadablePrefix(ids, entry)] ==> r.0[id] == registry[id]
  {
    if ids == [] then (registry, true)
    else match entry(ids[0])
      case None => (registry, false)
      case Some(strategy) =>
        var k := ReadablePrefix(ids, entry);
        assert ids[..k] == [ids[0]] + ids[1..][..k - 1];
        Populate(ids[1..], entry, registry[ids[0] := strategy])
  }

  /** The process-wide `_initialized` flag and the dictionary the registrations fill. */
  datatype LocState = LocState(initialized: bool, registry: map<StringId, Strategy>)

  /** The state after a call, and whether the call ended in an exception. */
  datatype InitResult = InitResult(state: LocState, threw: bool)

  /**
   * The steps of `Initialize` over a registration order and a table of
   * entries: a call after the first returns at once; the first sets the flag
   * before it obtains the sheets and registers anything, so a run that throws
   * part-way leaves the flag set and the registrations made so far.
   */
  function Bootstrap(st: LocState, ids: seq<StringId>, entry: Entries, sheets: bool): (r: InitResult)
    ensures st.initialized ==> r == InitResult(st, false)
    ensures r.state.initialized
    ensures r.state.registry.Keys >= st.registry.Keys
    ensures !st.initialized && !sheets ==> r.threw && r.state.registry == st.registry
  {
    if st.initialized then InitResult(st, false)
    else if !sheets then InitResult(LocState(true, st.registry), true)
    else
      var (registry, complete) := Populate(ids, entry, st.registry);
      InitResult(LocState(true, registry), !complete)
  }

  /**
   * From an uninitialised, empty state with its sheets obtained, a run
   * registers exactly the identifiers before the first read that throws,
   * each with its entry, and throws iff it stopped early.
   */
  lemma BootstrapRegisters(ids: seq<StringId>, entry: Entries)
    ensures var r := Bootstrap(LocState(false, map[]), ids, entry, true);
      var done := ids[..ReadablePrefix(ids, entry)];
      && (r.threw <==> |done| < |ids|)
      && (forall id :: id in r.state.registry <==> id in done)
      && (forall id :: id in done ==> entry(id).Some? && r.state.registry[id] == entry(id).value)
  {
  }

  /** `Initialize`, over the registration calls of the client language. */
  function Initialize(st: LocState, lang: Language, data: GameData): (r: InitResult)
    ensures st.initialized ==> r == InitResult(st, false)
    ensures r.state.initialized
    ensures r.state.registry.Keys >= st.registry.Keys
    ensures !st.initialized && !SheetsObtained(data) ==> r.threw && r.state.registry == st.registry
  {
    Bootstrap(st, RegistrationOrder, EntriesFor(lang, data), SheetsObtained(data))
  }

  /** Every call after the first changes nothing, even when the first one threw. */
  lemma InitializeOnce(st: LocState, lang: Language, data: GameData, lang2: Language, data2: GameData)
    ensures var first := Initialize(st, lang, data).state;
      Initialize(first, lang2, data2) == InitResult(first, false)
  {
  }

  /**
   * Once the sheets are obtained, a first run whose data reads all succeed
   * registers every identifier, each with its entry; one whose read throws
   * registers exactly the identifiers before that read, and reports the
   * exception. (A first run that cannot obtain a sheet throws with nothing
   * registered, as `Initialize` states.)
   */
  lemma InitializeRegisters(lang: Language, data: GameData)
    ensures var r := Initialize(LocState(false, map[]), lang, data);
      var done := RegistrationOrder[..ReadablePrefix(RegistrationOrder, EntriesFor(lang, data))];
      SheetsObtained(data) ==>
        && (r.threw <==> |done| < |RegistrationOrder|)
        && (forall id :: id in r.state.registry <==> id in done)
        && (forall id :: id in done ==> Entry(id, lang, data).Some? && r.state.registry[id] == Entry(id, lang, data).value)
  {
    if SheetsObtained(data) {
      BootstrapRegisters(RegistrationOrder, EntriesFor(lang, data));
    }
  }
}
