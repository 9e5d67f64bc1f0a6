/**
 * The decisions of the general tab of the configuration window: the two
 * allowance inputs, which clamp, store, save and reset the task timers only
 * on a real change, and the timer check-boxes, which set one configuration
 * flag and reset the one timer cache that displays it.
 */
module ConfigGeneral {

  /** The timer-window caches a setting can invalidate. */
  datatype CacheType = BaseCache | RetainerCache | MachineCache | WheelCache | CropCache | TaskCache

  /** The `ConfigFlags` bits driven by the timer check-boxes. */
  datatype ConfigFlag =
    | Enabled | Retainers | Airships | Submersibles | AetherialWheels | Crops
    | LeveAllowances | Squadron | MapAllowance | MiniCactpot | JumboCactpot | CustomDelivery | Tribes

  /** The part of the plugin configuration these controls read and write. */
  datatype Config = Config(
    flags: set<ConfigFlag>,
    leveWarning: int,
    tribesFinished: int,
    orderByCrop: bool,
    ignoreIndoorPlants: bool)

  /**
   * What a control did: the new configuration, whether it was saved, whether
   * the timers re-read their settings, and the caches it reset, in order.
   */
  datatype Effect = Effect(config: Config, saved: bool, checkedSettings: bool, resets: seq<CacheType>)

  function NoEffect(config: Config): Effect {
    Effect(config, false, false, [])
  }

  // ------------------------------------------------------ allowance inputs

  /** The two `if`s after the drag: raise a negative value to 0, lower one above `cap` to `cap`. */
  function ClampAllowance(v: int, cap: int): (r: int)
    ensures 0 <= cap ==> 0 <= r <= cap
    ensures 0 <= v <= cap ==> r == v
    ensures v < 0 && 0 <= cap ==> r == 0
    ensures v > cap && v >= 0 ==> r == cap
  {
    var raised := if v < 0 then 0 else v;
    if raised > cap then cap else raised
  }

  /**
   * `DrawLeveAllowancesWarningInput`, with `cap` standing for
   * `Leve.AllowanceError`: an unchanged clamped value is a no-op; a changed
   * one is stored and saved, and only the task cache is reset.
   */
  function EditLeveWarning(config: Config, dragged: bool, value: int, cap: int): (e: Effect)
    ensures !dragged || ClampAllowance(value, cap) == config.leveWarning ==> e == NoEffect(config)
    ensures dragged && ClampAllowance(value, cap) != config.leveWarning ==>
      && e.config == config.(leveWarning := ClampAllowance(value, cap))
      && e.saved && !e.checkedSettings && e.resets == [TaskCache]
    ensures 0 <= cap && 0 <= config.leveWarning <= cap ==> 0 <= e.config.leveWarning <= cap
  {
    if !dragged then NoEffect(config)
    else
      var v := ClampAllowance(value, cap);
      if v == config.leveWarning then NoEffect(config)
      else Effect(config.(leveWarning := v), true, false, [TaskCache])
  }

  /** `DrawTribeAllowancesFinishedInput`, the same pattern with `cap` standing for `Tribe.AllowanceCap`. */
  function EditTribesFinished(config: Config, dragged: bool, value: int, cap: int): (e: Effect)
    ensures !dragged || ClampAllowance(value, cap) == config.tribesFinished ==> e == NoEffect(config)
    ensures dragged && ClampAllowance(value, cap) != config.tribesFinished ==>
      && e.config == config.(tribesFinished := ClampAllowance(value, cap))
      && e.saved && !e.checkedSettings && e.resets == [TaskCache]
    ensures 0 <= cap && 0 <= config.tribesFinished <= cap ==> 0 <= e.config.tribesFinished <= cap
  {
    if !dragged then NoEffect(config)
    else
      var v := ClampAllowance(value, cap);
      if v == config.tribesFinished then NoEffect(config)
      else Effect(config.(tribesFinished := v), true, false, [TaskCache])
  }

  /** Entering the same value twice commits it once. */
  lemma EditAllowanceIdempotent(config: Config, value: int, cap: int)
    ensures var once := EditLeveWarning(config, true, value, cap).config;
      EditLeveWarning(once, true, value, cap) == NoEffect(once)
    ensures var once := EditTribesFinished(config, true, value, cap).config;
      EditTribesFinished(once, true, value, cap) == NoEffect(once)
  {
  }

  // ------------------------------------------------------- timer switches

  /** The cache each timer check-box resets, as its `Enable…` handler passes it. */
  function CacheFor(flag: ConfigFlag): CacheType {
    match flag
    case Retainers => RetainerCache
    case Airships => MachineCache
    case Submersibles => MachineCache
    case AetherialWheels => WheelCache
    case Crops => CropCache
    case LeveAllowances => TaskCache
    case Squadron => TaskCache
    case MapAllowance => TaskCache
    case MiniCactpot => TaskCache
    case JumboCactpot => TaskCache
    case CustomDelivery => TaskCache
    case Tribes => TaskCache
    case Enabled => BaseCache
  }

  /** The seven allowance and task timers, which the task cache displays. */
  const TaskFlags: set<ConfigFlag> :=
    {LeveAllowances, Squadron, MapAllowance, MiniCactpot, JumboCactpot, CustomDelivery, Tribes}

  /** The flags whose switch resets a given cache. */
  function FlagsFor(cache: CacheType): set<ConfigFlag> {
    match cache
    case BaseCache => {Enabled}
    case RetainerCache => {Retainers}
    case MachineCache => {Airships, Submersibles}
    case WheelCache => {AetherialWheels}
    case CropCache => {Crops}
    case TaskCache => TaskFlags
  }

  /**
   * The dispatch table partitions the flags: each flag resets exactly the
   * cache whose flag group it belongs to.
   */
  lemma CacheForPartition(flag: ConfigFlag, cache: CacheType)
    ensures CacheFor(flag) == cache <==> flag in FlagsFor(cache)
  {
  }

  /** Both machine kinds share one cache, and the seven task flags share another. */
  lemma SharedCaches()
    ensures |FlagsFor(TaskCache)| == 7 && |FlagsFor(MachineCache)| == 2
  {
    assert |FlagsFor(MachineCache)| == 2 by {
      assert FlagsFor(MachineCache) == {Airships} + {Submersibles};
    }
    assert |TaskFlags| == 7 by {
      var a := {LeveAllowances, Squadron, MapAllowance};
      var b := {MiniCactpot, JumboCactpot, CustomDelivery, Tribes};
      assert |a| == 3;
      assert |b| == 4;
      assert a !! b;
      assert TaskFlags == a + b;
    }
  }

  /**
   * `EnableCache`: the flag becomes `toggle`, every other flag keeps its
   * value, the timers re-read their settings, and exactly the flag's cache
   * is reset.
   */
  function EnableCache(config: Config, toggle: bool, flag: ConfigFlag): (e: Effect)
    ensures flag in e.config.flags <==> toggle
    ensures forall f :: f != flag ==> (f in e.config.flags <==> f in config.flags)
    ensures e.config.(flags := config.flags) == config
    ensures e.checkedSettings && !e.saved
    ensures e.resets == [CacheFor(flag)] && flag in FlagsFor(e.resets[0])
  {
    CacheForPartition(flag, CacheFor(flag));
    var flags := if toggle then config.flags + {flag} else config.flags - {flag};
    Effect(config.(flags := flags), false, true, [CacheFor(flag)])
  }

  /** The crop-ordering and indoor-plant switches store their value and reset the crop cache. */
  function SetOrderByCrop(config: Config, toggle: bool): (e: Effect)
    ensures e.config == config.(orderByCrop := toggle)
    ensures e.resets == [CropCache] && !e.saved
  {
    Effect(config.(orderByCrop := toggle), false, false, [CropCache])
  }

  function SetIgnoreIndoorPlants(config: Config, toggle: bool): (e: Effect)
    ensures e.config.ignoreIndoorPlants == toggle
    ensures e.config.(ignoreIndoorPlants := config.ignoreIndoorPlants) == config
    ensures e.resets == [CropCache] && !e.saved
  {
    Effect(config.(ignoreIndoorPlants := toggle), false, false, [CropCache])
  }
}
