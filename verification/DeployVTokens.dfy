/** The deployment of markets and their rate models: a loop over pools and markets that reuses a rate
    model already deployed under the same name. */
module DeployVTokens {
  import opened FixedPoint
  import opened Outcomes
  import RateModels
  import opened RateModelNames
  import opened NameRegistry

  datatype VTokenConfig = VTokenConfig(
    symbol: string,
    rateModel: string,
    baseRatePerYear: int,
    multiplierPerYear: int,
    jumpMultiplierPerYear: int,
    kink: int,
    baseRatePerYear2: int,
    multiplierPerYear2: int,
    kink2: int)

  /// A deployed rate model is known by its constructor's arguments.
  datatype RateModel = RateModel(params: RateModelParams, time: TimeBase)

  type Deployments = Registry<RateModel>

  function GetRateModelParams(config: VTokenConfig): Outcome<RateModelParams> {
    if config.rateModel == "WhitePaper" then
      Done(WhitePaper(config.baseRatePerYear, config.multiplierPerYear))
    else if config.rateModel == "JumpRate" then
      Done(JumpRate(config.baseRatePerYear, config.multiplierPerYear, config.jumpMultiplierPerYear, config.kink))
    else if config.rateModel == "TwoKinks" then
      Done(TwoKinks(config.baseRatePerYear, config.multiplierPerYear, config.kink, config.multiplierPerYear2,
                    config.baseRatePerYear2, config.kink2, config.jumpMultiplierPerYear))
    else Revert(UnsupportedRateModel)
  }

  function ItemOf(config: VTokenConfig, t: TimeBase): Outcome<Item<RateModel>> {
    match GetRateModelParams(config)
    case Revert(e) => Revert(e)
    case Done(params) => Done(Item(RateModelName(params, t), config.symbol, RateModel(params, t)))
  }

  /// How far the loop got; what was deployed before an error stays deployed.
  datatype Progress = Progress(registry: Deployments, failed: bool)

  function DeployAll(r: Deployments, configs: seq<VTokenConfig>, t: TimeBase): Progress
    decreases |configs|
  {
    if |configs| == 0 then Progress(r, false)
    else match ItemOf(configs[0], t)
      case Revert(_) => Progress(r, true)
      case Done(item) => DeployAll(DeployItem(r, item), configs[1..], t)
  }

  function Flatten(pools: seq<seq<VTokenConfig>>): seq<VTokenConfig>
    decreases |pools|
  {
    if |pools| == 0 then [] else pools[0] + Flatten(pools[1..])
  }

  lemma {:induction false} DeployAppend(r: Deployments, a: seq<VTokenConfig>, b: seq<VTokenConfig>, t: TimeBase)
    ensures var p := DeployAll(r, a, t);
      DeployAll(r, a + b, t) == if p.failed then p else DeployAll(p.registry, b, t)
    decreases |a|
  {
    if |a| == 0 {
      assert a + b == b;
    } else {
      assert (a + b)[0] == a[0] && (a + b)[1..] == a[1..] + b;
      if ItemOf(a[0], t).Done? {
        DeployAppend(DeployItem(r, ItemOf(a[0], t).value), a[1..], b, t);
      }
    }
  }

  /// The markets of one pool.
  method DeployPool(r: Deployments, pool: seq<VTokenConfig>, t: TimeBase) returns (p: Progress)
    ensures p == DeployAll(r, pool, t)
  {
    var rateModels, vTokens := r.rateModels, r.vTokens;
    for i := 0 to |pool|
      invariant DeployAll(r, pool, t) == DeployAll(Registry(rateModels, vTokens), pool[i..], t)
    {
      assert pool[i..][1..] == pool[i + 1..];
      var resolved := ItemOf(pool[i], t);
      if resolved.Revert? {
        return Progress(Registry(rateModels, vTokens), true);
      }
      var item := resolved.value;
      if item.name !in rateModels {
        rateModels := rateModels[item.name := item.model];
      }
      var rateModel := rateModels[item.name];
      if item.symbol !in vTokens {
        vTokens := vTokens[item.symbol := rateModel];
      }
    }
    p := Progress(Registry(rateModels, vTokens), false);
  }

  /// The deployment script.
  method Deploy(r: Deployments, pools: seq<seq<VTokenConfig>>, t: TimeBase) returns (p: Progress)
    ensures p == DeployAll(r, Flatten(pools), t)
  {
    p := Progress(r, false);
    for i := 0 to |pools|
      invariant !p.failed
      invariant DeployAll(r, Flatten(pools), t) == DeployAll(p.registry, Flatten(pools[i..]), t)
    {
      assert pools[i..][1..] == pools[i + 1..];
      DeployAppend(p.registry, pools[i], Flatten(pools[i + 1..]), t);
      p := DeployPool(p.registry, pools[i], t);
      if p.failed {
        return;
      }
    }
  }

  // ---------- what a configured market charges ----------

  /// A market configured with the jump rate charges, over a year of slots, its base rate and its multiplier up to the
  /// kink and its jump multiplier beyond it, less than five units for each slot and two down.
  lemma JumpRateCharged(config: VTokenConfig, slots: nat, util: nat)
    requires config.rateModel == "JumpRate" && 0 < slots && util <= EXP_SCALE
    requires 0 <= config.baseRatePerYear && 0 <= config.multiplierPerYear && 0 <= config.jumpMultiplierPerYear && 0 <= config.kink
    ensures GetRateModelParams(config).Done? && GetRateModelParams(config).value.JumpRate?
    ensures var p := GetRateModelParams(config).value;
      && 0 <= p.base && 0 <= p.slope && 0 <= p.jump && 0 <= p.kink
      && var perSlot := RateModels.JumpRate(RateModels.JumpPerBlock(p.base, p.slope, p.jump, p.kink, slots), util);
         var year := config.baseRatePerYear * EXP_SCALE
           + (if util <= config.kink then util * config.multiplierPerYear
              else config.kink * config.multiplierPerYear + (util - config.kink) * config.jumpMultiplierPerYear);
         perSlot * slots * EXP_SCALE <= year < (perSlot * slots + 5 * slots + 2) * EXP_SCALE
  {
    var p := GetRateModelParams(config).value;
    RateModels.YearOfSlots(p.base, p.slope, p.jump, p.kink, slots, util);
    TruncatedSlope(util, config.multiplierPerYear);
    TruncatedSlope(config.kink, config.multiplierPerYear);
    if config.kink < util {
      TruncatedSlope(util - config.kink, config.jumpMultiplierPerYear);
    }
  }

  lemma TruncatedSlope(util: nat, slope: nat)
    ensures MulTruncate(util, slope) * EXP_SCALE <= util * slope < (MulTruncate(util, slope) + 1) * EXP_SCALE
  {
    DivBounds(util * slope, EXP_SCALE, MulTruncate(util, slope));
    DivBounds(util * slope, EXP_SCALE, MulTruncate(util, slope) + 1);
  }

  /// The constructor's arguments of a two-kinks model, in its order.
  function TwoKinksOf(p: RateModelParams): RateModels.TwoKinks
    requires p.TwoKinks?
  {
    RateModels.TwoKinks(p.base, p.slope, p.kink, p.base2, p.slope2, p.kink2, p.jump)
  }

  /// A market configured with two kinks charges, over a year of slots and before the cap, the line of its configuration:
  /// the base rate and multiplier up to the first kink, from there the second base rate and multiplier on top, and
  /// beyond the second kink the jump multiplier; to within six units for each slot.
  lemma TwoKinksCharged(config: VTokenConfig, slots: nat, util: nat, m: RateModels.TwoKinks)
    requires config.rateModel == "TwoKinks" && 0 < slots && util <= EXP_SCALE
    requires GetRateModelParams(config).Done? && GetRateModelParams(config).value.TwoKinks?
    requires RateModels.Construct(TwoKinksOf(GetRateModelParams(config).value), slots) == RateModels.Built(m)
    ensures var year :=
        if util < config.kink then config.baseRatePerYear * EXP_SCALE + util * config.multiplierPerYear
        else (config.baseRatePerYear + config.baseRatePerYear2) * EXP_SCALE + config.kink * config.multiplierPerYear
             + (if util < config.kink2 then (util - config.kink) * config.multiplierPerYear2
                else (config.kink2 - config.kink) * config.multiplierPerYear2 + (util - config.kink2) * config.jumpMultiplierPerYear);
      year - 6 * slots * EXP_SCALE <= RateModels.RawRate(m, util) * slots * EXP_SCALE <= year + 6 * slots * EXP_SCALE
  {
    RateModels.TwoKinksYear(TwoKinksOf(GetRateModelParams(config).value), m, slots, util);
    RateModels.NoStretch(config.multiplierPerYear2);
    RateModels.NoStretch(config.jumpMultiplierPerYear);
  }

  /// A white paper model is deployed with its base rate and multiplier; and each kind of model by its own name.
  lemma ConfiguredKinds(config: VTokenConfig)
    ensures config.rateModel == "WhitePaper" ==>
      GetRateModelParams(config) == Done(WhitePaper(config.baseRatePerYear, config.multiplierPerYear))
    ensures config.rateModel == "TwoKinks" ==> GetRateModelParams(config).Done? && GetRateModelParams(config).value.TwoKinks?
    ensures GetRateModelParams(config).Done? <==> config.rateModel in {"WhitePaper", "JumpRate", "TwoKinks"}
  {
  }

  // ---------- what it leaves behind ----------

  predicate AllSupported(configs: seq<VTokenConfig>) {
    forall i :: 0 <= i < |configs| ==> GetRateModelParams(configs[i]).Done?
  }

  lemma ItemExists(config: VTokenConfig, t: TimeBase)
    ensures ItemOf(config, t).Done? <==> GetRateModelParams(config).Done?
  {
  }

  function Items(configs: seq<VTokenConfig>, t: TimeBase): (items: seq<Item<RateModel>>)
    requires AllSupported(configs)
    ensures |items| == |configs|
    ensures forall i :: 0 <= i < |configs| ==> ItemOf(configs[i], t) == Done(items[i])
    decreases |configs|
  {
    if |configs| == 0 then []
    else
      ItemExists(configs[0], t);
      [ItemOf(configs[0], t).value] + Items(configs[1..], t)
  }

  /// The loop stops exactly at an unsupported rate model, and otherwise deploys every item in turn.
  lemma {:induction false} LoopDeploys(r: Deployments, configs: seq<VTokenConfig>, t: TimeBase)
    ensures DeployAll(r, configs, t).failed <==> !AllSupported(configs)
    ensures AllSupported(configs) ==> DeployAll(r, configs, t).registry == DeployItems(r, Items(configs, t))
    decreases |configs|
  {
    if |configs| > 0 {
      ItemExists(configs[0], t);
      if ItemOf(configs[0], t).Done? {
        LoopDeploys(DeployItem(r, ItemOf(configs[0], t).value), configs[1..], t);
        assert AllSupported(configs) <==> AllSupported(configs[1..]);
        if AllSupported(configs) {
          assert Items(configs, t)[1..] == Items(configs[1..], t);
        }
      }
    }
  }

  /// An item's name is its model's.
  ghost predicate WellNamed(item: Item<RateModel>) {
    item.name == RateModelName(item.model.params, item.model.time)
  }

  lemma ItemIsWellNamed(config: VTokenConfig, t: TimeBase)
    requires ItemOf(config, t).Done?
    ensures WellNamed(ItemOf(config, t).value)
    ensures ItemOf(config, t).value.model == RateModel(GetRateModelParams(config).value, t)
  {
  }

  /// Every registered rate model has the name it is registered under, in whole basis points.
  ghost predicate HonestlyNamed(r: Deployments) {
    forall n :: n in r.rateModels ==>
      WellNamed(Item(n, "", r.rateModels[n])) && WholeBps(r.rateModels[n].params)
  }

  predicate AllWhole(configs: seq<VTokenConfig>)
    requires AllSupported(configs)
  {
    forall i :: 0 <= i < |configs| ==> WholeBps(GetRateModelParams(configs[i]).value)
  }

  lemma WellNamedApart(a: Item<RateModel>, b: Item<RateModel>)
    requires WellNamed(a) && WellNamed(b) && a.name == b.name
    requires WholeBps(a.model.params) && WholeBps(b.model.params)
    ensures a.model == b.model
  {
    WholeNamesAreUnique(a.model.params, a.model.time, b.model.params, b.model.time);
  }

  ghost predicate WholeAndNamed(item: Item<RateModel>) {
    WellNamed(item) && WholeBps(item.model.params)
  }

  lemma WholeItemsSeparate(r: Deployments, items: seq<Item<RateModel>>)
    requires HonestlyNamed(r) && forall i :: 0 <= i < |items| ==> WholeAndNamed(items[i])
    ensures NamesSeparate(r, items)
  {
    forall i | 0 <= i < |items| && items[i].name in r.rateModels
      ensures r.rateModels[items[i].name] == items[i].model
    {
      WellNamedApart(Item(items[i].name, "", r.rateModels[items[i].name]), items[i]);
    }
    forall i, j | 0 <= i < |items| && 0 <= j < |items| && items[i].name == items[j].name
      ensures items[i].model == items[j].model
    {
      WellNamedApart(items[i], items[j]);
    }
  }

  lemma StaysHonest(r: Deployments, items: seq<Item<RateModel>>)
    requires HonestlyNamed(r) && forall i :: 0 <= i < |items| ==> WholeAndNamed(items[i])
    ensures HonestlyNamed(DeployItems(r, items))
  {
    var after := DeployItems(r, items);
    ItemsTraced(r, items);
    forall n | n in after.rateModels
      ensures WellNamed(Item(n, "", after.rateModels[n])) && WholeBps(after.rateModels[n].params)
    {
      if n !in r.rateModels {
        var j :| 0 <= j < |items| && items[j].name == n && after.rateModels[n] == items[j].model;
        assert WholeAndNamed(items[j]);
      }
    }
  }

  lemma ItemsWholeAndNamed(configs: seq<VTokenConfig>, t: TimeBase, i: nat)
    requires AllSupported(configs) && AllWhole(configs) && i < |configs|
    ensures WholeAndNamed(Items(configs, t)[i])
    ensures Items(configs, t)[i].symbol == configs[i].symbol
    ensures Items(configs, t)[i].model == RateModel(GetRateModelParams(configs[i]).value, t)
  {
    ItemIsWellNamed(configs[i], t);
  }

  /// With parameters in whole basis points every new market gets exactly its configured rate model, and the
  /// registry stays honestly named for the next deployment.
  lemma WholeBpsDeploys(r: Deployments, configs: seq<VTokenConfig>, t: TimeBase)
    requires AllSupported(configs) && AllWhole(configs) && HonestlyNamed(r) && FreshSymbols(r, Items(configs, t))
    ensures var p := DeployAll(r, configs, t);
      && !p.failed && HonestlyNamed(p.registry)
      && forall i :: 0 <= i < |configs| ==>
           && configs[i].symbol in p.registry.vTokens
           && p.registry.vTokens[configs[i].symbol] == RateModel(GetRateModelParams(configs[i]).value, t)
  {
    var items := Items(configs, t);
    forall i | 0 <= i < |items|
      ensures WholeAndNamed(items[i]) && items[i].symbol == configs[i].symbol
      ensures items[i].model == RateModel(GetRateModelParams(configs[i]).value, t)
    {
      ItemsWholeAndNamed(configs, t, i);
    }
    LoopDeploys(r, configs, t);
    WholeItemsSeparate(r, items);
    StaysHonest(r, items);
    ReuseIsRight(r, items);
  }

  /// Two markets half a basis point apart share the first one's rate model.
  lemma SecondMarketGetsFirstModel()
    ensures var a := VTokenConfig("vA", "WhitePaper", 0, 5 * BPS, 0, 0, 0, 0, 0);
      var b := VTokenConfig("vB", "WhitePaper", 0, 5 * BPS + BPS / 2, 0, 0, 0, 0, 0);
      && AllSupported([a, b])
      && GetRateModelParams(a) != GetRateModelParams(b)
      && !AsConfigured(Items([a, b], TimeBased), DeployAll(Registry(map[], map[]), [a, b], TimeBased).registry)
  {
    var a := VTokenConfig("vA", "WhitePaper", 0, 5 * BPS, 0, 0, 0, 0, 0);
    var b := VTokenConfig("vB", "WhitePaper", 0, 5 * BPS + BPS / 2, 0, 0, 0, 0, 0);
    var items := Items([a, b], TimeBased);
    HalfBpsCollides();
    assert ItemOf(a, TimeBased) == Done(items[0]) && ItemOf(b, TimeBased) == Done(items[1]);
    assert items[0].name == items[1].name && items[0].model != items[1].model;
    assert items[0].symbol == "vA" && items[1].symbol == "vB" && "vA"[1] != "vB"[1];
    LoopDeploys(Registry(map[], map[]), [a, b], TimeBased);
    ReuseIsRight(Registry(map[], map[]), items);
  }

  // ---------- the check afterwards ----------

  const SECONDS_PER_YEAR: nat := 31_536_000

  function Slots(t: TimeBase): (slots: nat)
    ensures t.TimeBased? ==> slots == 365 * 24 * 60 * 60
  {
    match t
    case TimeBased => SECONDS_PER_YEAR
    case BlockBased(blocksPerYear) => blocksPerYear
  }

  /// What a contract keeps of its yearly parameters: the rates of one slot, and the kinks as they are.
  function PerSlot(p: RateModelParams, slots: nat): RateModelParams
    requires 0 < slots
  {
    match p
    case WhitePaper(base, slope) => WhitePaper(RateModels.TruncDiv(base, slots), RateModels.TruncDiv(slope, slots))
    case JumpRate(base, slope, jump, kink) =>
      JumpRate(RateModels.TruncDiv(base, slots), RateModels.TruncDiv(slope, slots), RateModels.TruncDiv(jump, slots), kink)
    case TwoKinks(base, slope, kink, slope2, base2, kink2, jump) =>
      TwoKinks(RateModels.TruncDiv(base, slots), RateModels.TruncDiv(slope, slots), kink, RateModels.TruncDiv(slope2, slots), RateModels.TruncDiv(base2, slots),
               kink2, RateModels.TruncDiv(jump, slots))
  }

  /// The comparisons made for one market, in turn: what the deployed contract `chain` answers against the
  /// configuration divided by the slots. A question the contract does not know fails.
  predicate CheckPasses(chain: RateModelParams, params: RateModelParams, slots: nat)
    requires 0 < slots
  {
    match params
    case WhitePaper(base, slope) =>
      chain.WhitePaper? && chain.base == RateModels.TruncDiv(base, slots) && chain.slope == RateModels.TruncDiv(slope, slots)
    case JumpRate(base, slope, jump, kink) =>
      && chain.JumpRate? && chain.base == RateModels.TruncDiv(base, slots) && chain.slope == RateModels.TruncDiv(slope, slots)
      && chain.jump == RateModels.TruncDiv(jump, slots) && chain.kink == kink
    case TwoKinks(base, slope, kink, slope2, base2, kink2, jump) =>
      && chain.TwoKinks? && chain.base == RateModels.TruncDiv(base, slots) && chain.slope == RateModels.TruncDiv(slope, slots)
      && chain.kink == kink && chain.base2 == RateModels.TruncDiv(base2, slots) && chain.slope2 == RateModels.TruncDiv(slope2, slots)
      && chain.kink2 == kink2 && chain.jump == RateModels.TruncDiv(jump, slots)
  }

  lemma CheckComparesPerSlot(chain: RateModelParams, params: RateModelParams, slots: nat)
    requires 0 < slots
    ensures CheckPasses(chain, params, slots) <==> chain == PerSlot(params, slots)
  {
  }

  /// The market's deployed rates of one slot, and kinks, are the configured ones.
  predicate RightPerSlot(r: Deployments, config: VTokenConfig, t: TimeBase)
    requires 0 < Slots(t) && forall s :: s in r.vTokens ==> 0 < Slots(r.vTokens[s].time)
  {
    && config.symbol in r.vTokens && GetRateModelParams(config).Done?
    && PerSlot(r.vTokens[config.symbol].params, Slots(r.vTokens[config.symbol].time))
         == PerSlot(GetRateModelParams(config).value, Slots(t))
  }

  predicate AllPass(r: Deployments, configs: seq<VTokenConfig>, t: TimeBase)
    requires 0 < Slots(t) && forall s :: s in r.vTokens ==> 0 < Slots(r.vTokens[s].time)
  {
    forall i :: 0 <= i < |configs| ==> RightPerSlot(r, configs[i], t)
  }

  /// One market of the script.
  method CheckRateModel(r: Deployments, config: VTokenConfig, t: TimeBase) returns (passed: bool)
    requires 0 < Slots(t) && forall s :: s in r.vTokens ==> 0 < Slots(r.vTokens[s].time)
    ensures passed <==> RightPerSlot(r, config, t)
  {
    var params := GetRateModelParams(config);
    if params.Revert? || config.symbol !in r.vTokens {
      return false;
    }
    var deployed := r.vTokens[config.symbol];
    var chain := PerSlot(deployed.params, Slots(deployed.time));
    CheckComparesPerSlot(chain, params.value, Slots(t));
    passed := CheckPasses(chain, params.value, Slots(t));
  }

  /// The script over all configured markets: it passes exactly when every market's contract answers the
  /// configured rates, divided by the slots, and the configured kinks.
  method CheckRateModels(r: Deployments, configs: seq<VTokenConfig>, t: TimeBase) returns (passed: bool)
    requires 0 < Slots(t) && forall s :: s in r.vTokens ==> 0 < Slots(r.vTokens[s].time)
    ensures passed <==> AllPass(r, configs, t)
  {
    for i := 0 to |configs|
      invariant forall j :: 0 <= j < i ==> RightPerSlot(r, configs[j], t)
    {
      var right := CheckRateModel(r, configs[i], t);
      if !right {
        return false;
      }
    }
    passed := true;
  }

  /// After a deployment in whole basis points the check passes.
  lemma WholeBpsPassTheCheck(r: Deployments, configs: seq<VTokenConfig>, t: TimeBase)
    requires AllSupported(configs) && AllWhole(configs) && HonestlyNamed(r) && FreshSymbols(r, Items(configs, t))
    requires 0 < Slots(t) && forall s :: s in r.vTokens ==> 0 < Slots(r.vTokens[s].time)
    ensures var after := DeployAll(r, configs, t).registry;
      && (forall s :: s in after.vTokens ==> 0 < Slots(after.vTokens[s].time))
      && AllPass(after, configs, t)
  {
    WholeBpsDeploys(r, configs, t);
    LoopDeploys(r, configs, t);
    var items := Items(configs, t);
    var after := DeployItems(r, items);
    forall s | s in after.vTokens
      ensures 0 < Slots(after.vTokens[s].time)
    {
      if s in r.vTokens {
        VTokensStay(r, items, s);
      } else {
        VTokenFromItem(r, items, s);
        var i :| 0 <= i < |items| && items[i].symbol == s;
        assert configs[i].symbol == s by { ItemsWholeAndNamed(configs, t, i); }
      }
    }
  }

  lemma RatesOfOneSlotDiffer(x: nat, y: nat, slots: nat)
    requires 0 < slots && x + slots <= y
    ensures x / slots < y / slots
  {
    DivBounds(y, slots, x / slots + 1);
    assert (x / slots + 1) * slots == x / slots * slots + slots;
  }

  /// A market that got another rate model is found out when a yearly rate differs by a unit for each slot,
  /// and is not when the rates of one slot agree.
  lemma CheckFindsOut(base: int, slope: nat, configured: nat, slots: nat)
    requires 0 < slots
    ensures slope + slots <= configured || configured + slots <= slope ==>
      !CheckPasses(PerSlot(WhitePaper(base, slope), slots), WhitePaper(base, configured), slots)
    ensures slope / slots == configured / slots ==>
      CheckPasses(PerSlot(WhitePaper(base, slope), slots), WhitePaper(base, configured), slots)
  {
    if slope + slots <= configured {
      RatesOfOneSlotDiffer(slope, configured, slots);
    } else if configured + slots <= slope {
      RatesOfOneSlotDiffer(configured, slope, slots);
    }
  }
}
