/** The rule-based attribute extractor (`simulate_llm_extract_features`).

    The rules are written down twice. `Table` states them as data: an ordered
    list of if/elif chains, each an ordered list of rules (patterns, key,
    value). `Step` runs one chain: when its guard holds, the first rule that
    fires sets its key. `Features` runs the chains in order from the empty
    map. The methods at the end are the source's straight-line code, which
    updates a local map rule by rule; their postconditions say that they
    compute what the table says. */
module Extractor {
  import opened Text
  import opened Values

  /** The attribute names the extractor can set. */
  datatype Key =
    | Electric | Quietness | Wireless | Waterproof | Compact | Portable | Durable
    | Cpu | Ram | Storage | StorageType | Gpu | ScreenSize | Touchscreen | Resolution | BatteryLife
    | BinSize | OdorControl | SubscriptionRequired

  /** The dictionary key the source uses for `k`. */
  function KeyName(k: Key): string
  {
    match k
    case Electric => "electric"
    case Quietness => "quietness"
    case Wireless => "wireless"
    case Waterproof => "waterproof"
    case Compact => "compact"
    case Portable => "portable"
    case Durable => "durable"
    case Cpu => "cpu"
    case Ram => "ram"
    case Storage => "storage"
    case StorageType => "storage_type"
    case Gpu => "gpu"
    case ScreenSize => "screen_size"
    case Touchscreen => "touchscreen"
    case Resolution => "resolution"
    case BatteryLife => "battery_life"
    case BinSize => "bin_size"
    case OdorControl => "odor_control"
    case SubscriptionRequired => "subscription_required"
  }

  /** The key named `s`, if `s` names one. */
  function ParseKey(s: string): (r: Option<Key>)
    ensures r.Some? ==> KeyName(r.value) == s
    ensures r.None? ==> forall k :: KeyName(k) != s
  {
    if s == "electric" then Some(Electric)
    else if s == "quietness" then Some(Quietness)
    else if s == "wireless" then Some(Wireless)
    else if s == "waterproof" then Some(Waterproof)
    else if s == "compact" then Some(Compact)
    else if s == "portable" then Some(Portable)
    else if s == "durable" then Some(Durable)
    else if s == "cpu" then Some(Cpu)
    else if s == "ram" then Some(Ram)
    else if s == "storage" then Some(Storage)
    else if s == "storage_type" then Some(StorageType)
    else if s == "gpu" then Some(Gpu)
    else if s == "screen_size" then Some(ScreenSize)
    else if s == "touchscreen" then Some(Touchscreen)
    else if s == "resolution" then Some(Resolution)
    else if s == "battery_life" then Some(BatteryLife)
    else if s == "bin_size" then Some(BinSize)
    else if s == "odor_control" then Some(OdorControl)
    else if s == "subscription_required" then Some(SubscriptionRequired)
    else None
  }

  /** Every key's name reads back as that key. */
  lemma KeyNameParses(k: Key)
    ensures ParseKey(KeyName(k)) == Some(k)
  {
    match k
    case Electric =>
    case Quietness =>
    case Wireless =>
    case Waterproof =>
    case Compact =>
    case Portable =>
    case Durable =>
    case Cpu =>
    case Ram =>
    case Storage =>
    case StorageType =>
    case Gpu =>
    case ScreenSize =>
    case Touchscreen =>
    case Resolution =>
    case BatteryLife =>
    case BinSize =>
    case OdorControl =>
    case SubscriptionRequired =>
  }

  /** An extracted attribute map. */
  type Attributes = map<Key, Value>

  /** `attributes.get(name)` for a key given by its name. */
  function Lookup(attributes: Attributes, name: string): (r: Option<Value>)
    ensures r.Some? <==> exists k :: k in attributes && KeyName(k) == name
    ensures r.Some? ==> exists k :: k in attributes && KeyName(k) == name && r.value == attributes[k]
  {
    match ParseKey(name)
    case None => None
    case Some(k) => if k in attributes then Some(attributes[k]) else None
  }

  /** Which lowercased text a pattern is searched in. */
  datatype Source = Title | Description

  datatype Pattern = Pattern(source: Source, text: string)

  /** A clause holds when ANY of its patterns occurs. */
  type Clause = seq<Pattern>

  /** A rule fires when EVERY clause of `when` holds; it then sets `key`. */
  datatype Rule = Rule(when: seq<Clause>, key: Key, value: Value)

  /** An if/elif chain under a guard: when every clause of `guard` holds, the
      first rule that fires is the only one applied. Most chains have no guard. */
  datatype Chain = Chain(guard: seq<Clause>, rules: seq<Rule>)

  function Unguarded(rules: seq<Rule>): Chain
  {
    Chain([], rules)
  }

  function InTitle(text: string): Pattern { Pattern(Title, text) }
  function InDescription(text: string): Pattern { Pattern(Description, text) }

  /** Which patterns occur, given the lowercased title `t` and description `d`. */
  function Occurs(t: string, d: string): Pattern -> bool
  {
    (p: Pattern) => Contains(if p.source == Title then t else d, p.text)
  }

  /** The rules are interpreted against `holds`, the set of patterns that
      occur; `Occurs` gives the one the extractor uses. */
  predicate AnyFrom(c: Clause, i: nat, holds: Pattern -> bool)
    decreases |c| - i
  {
    i < |c| && (holds(c[i]) || AnyFrom(c, i + 1, holds))
  }

  predicate AllFrom(cs: seq<Clause>, i: nat, holds: Pattern -> bool)
    decreases |cs| - i
  {
    i >= |cs| || (AnyFrom(cs[i], 0, holds) && AllFrom(cs, i + 1, holds))
  }

  predicate Fires(r: Rule, holds: Pattern -> bool)
  {
    AllFrom(r.when, 0, holds)
  }

  /** The index of the first rule at or after `i` that fires. */
  function FirstFrom(chain: seq<Rule>, i: nat, holds: Pattern -> bool): (r: Option<nat>)
    decreases |chain| - i
    ensures r.Some? ==> i <= r.value < |chain|
  {
    if i >= |chain| then None
    else if Fires(chain[i], holds) then Some(i)
    else FirstFrom(chain, i + 1, holds)
  }

  /** `FirstFrom` finds the first rule that fires, and `None` means none does. */
  lemma {:induction false} FirstFromIsFirst(chain: seq<Rule>, i: nat, holds: Pattern -> bool)
    ensures var r := FirstFrom(chain, i, holds);
      && (r.Some? ==> Fires(chain[r.value], holds) && forall j :: i <= j < r.value ==> !Fires(chain[j], holds))
      && (r.None? ==> forall j :: i <= j < |chain| ==> !Fires(chain[j], holds))
    decreases |chain| - i
  {
    if i < |chain| && !Fires(chain[i], holds) {
      FirstFromIsFirst(chain, i + 1, holds);
    }
  }

  /** Runs one chain on the map built so far. */
  function Step(m: Attributes, chain: Chain, holds: Pattern -> bool): Attributes
  {
    if !AllFrom(chain.guard, 0, holds) then m
    else match FirstFrom(chain.rules, 0, holds)
      case None => m
      case Some(j) => m[chain.rules[j].key := chain.rules[j].value]
  }

  /** Runs the first `n` chains of `chains`, in order, on the map `m`. */
  function Apply(m: Attributes, chains: seq<Chain>, n: nat, holds: Pattern -> bool): Attributes
    requires n <= |chains|
  {
    if n == 0 then m else Step(Apply(m, chains, n - 1, holds), chains[n - 1], holds)
  }

  function ApplyAll(m: Attributes, chains: seq<Chain>, holds: Pattern -> bool): Attributes
  {
    Apply(m, chains, |chains|, holds)
  }

  /** Running the first `n` chains only looks at those chains. */
  lemma {:induction false} ApplySamePrefix(m: Attributes, a: seq<Chain>, b: seq<Chain>, n: nat, holds: Pattern -> bool)
    requires n <= |a| && n <= |b| && a[..n] == b[..n]
    ensures Apply(m, a, n, holds) == Apply(m, b, n, holds)
  {
    if n > 0 {
      assert a[..n - 1] == a[..n][..n - 1] && b[..n - 1] == b[..n][..n - 1];
      ApplySamePrefix(m, a, b, n - 1, holds);
      assert a[n - 1] == a[..n][n - 1] == b[..n][n - 1] == b[n - 1];
    }
  }

  lemma {:induction false} ApplyAppendUpTo(m: Attributes, a: seq<Chain>, b: seq<Chain>, n: nat, holds: Pattern -> bool)
    requires n <= |b|
    ensures Apply(m, a + b, |a| + n, holds) == Apply(ApplyAll(m, a, holds), b, n, holds)
  {
    if n == 0 {
      assert (a + b)[..|a|] == a[..|a|];
      ApplySamePrefix(m, a + b, a, |a|, holds);
    } else {
      ApplyAppendUpTo(m, a, b, n - 1, holds);
      assert (a + b)[|a| + n - 1] == b[n - 1];
    }
  }

  /** Running `a + b` is running `a`, then `b`. */
  lemma ApplyAppend(m: Attributes, a: seq<Chain>, b: seq<Chain>, holds: Pattern -> bool)
    ensures ApplyAll(m, a + b, holds) == ApplyAll(ApplyAll(m, a, holds), b, holds)
  {
    ApplyAppendUpTo(m, a, b, |b|, holds);
  }

  /** A chain applies when its guard holds and one of its rules fires. */
  predicate Applies(c: Chain, holds: Pattern -> bool)
  {
    AllFrom(c.guard, 0, holds) && FirstFrom(c.rules, 0, holds).Some?
  }

  /** The map stays empty exactly when no chain applies. */
  lemma {:induction false} ApplyEmpty(chains: seq<Chain>, n: nat, holds: Pattern -> bool)
    requires n <= |chains|
    ensures Apply(map[], chains, n, holds) == map[] <==> forall j :: 0 <= j < n ==> !Applies(chains[j], holds)
  {
    if n > 0 {
      ApplyEmpty(chains, n - 1, holds);
      var before := Apply(map[], chains, n - 1, holds);
      var c := chains[n - 1];
      if Applies(c, holds) {
        var j := FirstFrom(c.rules, 0, holds).value;
        assert c.rules[j].key in Apply(map[], chains, n, holds);
      } else if before != map[] {
        var k :| k in before;
        assert k in Apply(map[], chains, n, holds);
      }
    }
  }

  /** No rule of `c` sets `k`. */
  predicate KeyFree(c: Chain, k: Key)
  {
    forall j :: 0 <= j < |c.rules| ==> c.rules[j].key != k
  }

  /** Every rule of `c` sets `k`. */
  predicate KeyOnly(c: Chain, k: Key)
  {
    forall j :: 0 <= j < |c.rules| ==> c.rules[j].key == k
  }

  /** No chain of `chains` other than `chains[i]` has a rule setting `k`. */
  predicate OwnedBy(chains: seq<Chain>, i: nat, k: Key)
  {
    forall x :: 0 <= x < |chains| && x != i ==> KeyFree(chains[x], k)
  }

  /** A chain none of whose rules sets `k` leaves `k` as it was. */
  lemma StepKeyFree(m: Attributes, c: Chain, k: Key, holds: Pattern -> bool)
    requires KeyFree(c, k)
    ensures k in Step(m, c, holds) <==> k in m
    ensures k in m ==> Step(m, c, holds)[k] == m[k]
  {
  }

  /** When only `chains[i]` sets `k`, the run gives `k` the value that chain
      gives it on its own, once that chain has run. */
  lemma {:induction false} ApplyOwned(m: Attributes, chains: seq<Chain>, n: nat, i: nat, k: Key, holds: Pattern -> bool)
    requires n <= |chains| && i < |chains| && OwnedBy(chains, i, k) && k !in m
    ensures var r := Apply(m, chains, n, holds);
      var alone := Step(map[], chains[i], holds);
      && (k in r ==> k in alone && r[k] == alone[k])
      && (i < n ==> (k in r <==> k in alone))
  {
    if n > 0 {
      ApplyOwned(m, chains, n - 1, i, k, holds);
      if n - 1 != i {
        StepKeyFree(Apply(m, chains, n - 1, holds), chains[n - 1], k, holds);
      }
    }
  }

  /** First match wins: an unguarded chain whose rules all set `k` gives `k`
      the value of the first rule that fires, and no value when none fires. */
  lemma FirstRuleWins(c: Chain, k: Key, holds: Pattern -> bool)
    requires c.guard == [] && KeyOnly(c, k)
    ensures var r := Step(map[], c, holds);
      && (k in r <==> exists j :: 0 <= j < |c.rules| && Fires(c.rules[j], holds))
      && (k in r ==> exists j :: 0 <= j < |c.rules| && Fires(c.rules[j], holds) && r[k] == c.rules[j].value
                       && forall i :: 0 <= i < j ==> !Fires(c.rules[i], holds))
  {
    FirstFromIsFirst(c.rules, 0, holds);
  }

  // ---------------------------------------------------------------------
  // The rule table, in the source's order.

  const ElectricChain: Chain := Unguarded([Rule([[InTitle("electric"), InDescription("электрический")]], Electric, Bool(true))])
  const QuietChain: Chain := Unguarded([Rule([[InTitle("quiet"), InDescription("бесшумный"), InDescription("silent")]], Quietness, Bool(true))])
  const WirelessChain: Chain := Unguarded([Rule([[InTitle("wireless"), InDescription("беспроводной")]], Wireless, Bool(true))])
  const WaterproofChain: Chain := Unguarded([Rule([[InTitle("waterproof"), InDescription("водонепроницаемый")]], Waterproof, Bool(true))])
  const CompactChain: Chain := Unguarded([Rule([[InTitle("compact"), InDescription("компактный")]], Compact, Bool(true))])
  const PortableChain: Chain := Unguarded([Rule([[InTitle("portable"), InDescription("портативный")]], Portable, Bool(true))])
  const DurableChain: Chain := Unguarded([Rule([[InTitle("durable"), InDescription("долговечный")]], Durable, Bool(true))])

  /** The two `any(...)` guards of the processor rule. */
  const CpuBrands: Clause := [InTitle("intel"), InTitle("amd")]
  const CpuModelPatterns: Clause := [
    InTitle("i3"), InTitle("i5"), InTitle("i7"), InTitle("i9"),
    InTitle("ryzen 3"), InTitle("ryzen 5"), InTitle("ryzen 7"), InTitle("ryzen 9")]

  const CpuChain: Chain := Chain([CpuBrands, CpuModelPatterns], [
    Rule([[InTitle("i3")]], Cpu, Str("intel i3")),
    Rule([[InTitle("i5")]], Cpu, Str("intel i5")),
    Rule([[InTitle("i7")]], Cpu, Str("intel i7")),
    Rule([[InTitle("i9")]], Cpu, Str("intel i9")),
    Rule([[InTitle("ryzen 3")]], Cpu, Str("amd ryzen 3")),
    Rule([[InTitle("ryzen 5")]], Cpu, Str("amd ryzen 5")),
    Rule([[InTitle("ryzen 7")]], Cpu, Str("amd ryzen 7")),
    Rule([[InTitle("ryzen 9")]], Cpu, Str("amd ryzen 9")),
    Rule([[InTitle("ryzen")]], Cpu, Str("amd ryzen")),
    Rule([[InTitle("intel")]], Cpu, Str("intel"))])

  const RamChain: Chain := Unguarded([
    Rule([[InTitle("4gb ram"), InDescription("4гб озу")]], Ram, Str("4gb")),
    Rule([[InTitle("8gb ram"), InDescription("8гб озу")]], Ram, Str("8gb")),
    Rule([[InTitle("16gb ram"), InDescription("16гб озу")]], Ram, Str("16gb")),
    Rule([[InTitle("32gb ram"), InDescription("32гб озу")]], Ram, Str("32gb"))])

  const StorageChain: Chain := Unguarded([
    Rule([[InTitle("128gb ssd"), InDescription("128гб ssd")]], Storage, Str("128gb ssd")),
    Rule([[InTitle("256gb ssd"), InDescription("256гб ssd")]], Storage, Str("256gb ssd")),
    Rule([[InTitle("512gb ssd"), InDescription("512гб ssd")]], Storage, Str("512gb ssd")),
    Rule([[InTitle("1tb ssd"), InDescription("1тб ssd")]], Storage, Str("1tb ssd")),
    Rule([[InTitle("hdd"), InDescription("жесткий диск")]], StorageType, Str("hdd"))])

  const GpuChain: Chain := Unguarded([
    Rule([[InTitle("nvidia"), InTitle("geforce"), InTitle("rtx"), InTitle("radeon")]], Gpu, Str("dedicated")),
    Rule([[InDescription("integrated graphics"), InDescription("intel iris")]], Gpu, Str("integrated"))])

  const ScreenChain: Chain := Unguarded([
    Rule([[InTitle("13 inch"), InTitle("13\"")]], ScreenSize, Str("13 inch")),
    Rule([[InTitle("14 inch"), InTitle("14\"")]], ScreenSize, Str("14 inch")),
    Rule([[InTitle("15 inch"), InTitle("15\"")]], ScreenSize, Str("15 inch")),
    Rule([[InTitle("17 inch"), InTitle("17\"")]], ScreenSize, Str("17 inch"))])

  const TouchscreenChain: Chain := Unguarded([Rule([[InTitle("touchscreen"), InDescription("сенсорный экран")]], Touchscreen, Bool(true))])

  const ResolutionChain: Chain := Unguarded([
    Rule([[InTitle("4k"), InDescription("uhd")]], Resolution, Str("4k")),
    Rule([[InTitle("full hd"), InDescription("fhd")]], Resolution, Str("full hd"))])

  const BatteryChain: Chain := Unguarded([Rule([[InDescription("long battery life"), InDescription("10+ hours")]], BatteryLife, Str("long"))])

  const BinSizeChain: Chain := Unguarded([
    Rule([[InTitle("large capacity"), InDescription("большая емкость"), InDescription("10l")]], BinSize, Str("large")),
    Rule([[InTitle("compact"), InTitle("маленький"), InTitle("small")]], BinSize, Str("small"))])

  const OdorChain: Chain := Unguarded([Rule([[InTitle("odor control"), InDescription("контроль запаха"), InDescription("odorless")]], OdorControl, Bool(true))])

  const SubscriptionChain: Chain := Unguarded([Rule([[InTitle("no subscription"), InDescription("без подписки")]], SubscriptionRequired, Bool(false))])

  /** The source's three groups of rules: general, laptop, composter. */
  const General: seq<Chain> :=
    [ElectricChain, QuietChain, WirelessChain, WaterproofChain, CompactChain, PortableChain, DurableChain]
  const Laptop: seq<Chain> :=
    [CpuChain, RamChain, StorageChain, GpuChain, ScreenChain, TouchscreenChain, ResolutionChain, BatteryChain]
  const Composter: seq<Chain> := [BinSizeChain, OdorChain, SubscriptionChain]

  /** The whole table, in the source's order: `General + Laptop + Composter`. */
  const Table: seq<Chain> := [
    ElectricChain, QuietChain, WirelessChain, WaterproofChain, CompactChain, PortableChain, DurableChain,
    CpuChain, RamChain, StorageChain, GpuChain, ScreenChain, TouchscreenChain, ResolutionChain, BatteryChain,
    BinSizeChain, OdorChain, SubscriptionChain]

  lemma TableSections()
    ensures Table == General + Laptop + Composter
  {
  }

  /** The map the table builds when exactly the patterns in `holds` occur. */
  function FeaturesOf(holds: Pattern -> bool): Attributes
  {
    ApplyAll(map[], Table, holds)
  }

  /** What the extractor returns for a product title and description. */
  function Features(productTitle: string, description: string): Attributes
  {
    FeaturesOf(Occurs(Lower(productTitle), Lower(description)))
  }

  /** Running three chains is running the first, then the second, and so on. */
  lemma ApplyThree(m: Attributes, cs: seq<Chain>, holds: Pattern -> bool)
    requires |cs| == 3
    ensures ApplyAll(m, cs, holds) == Step(Step(Step(m, cs[0], holds), cs[1], holds), cs[2], holds)
  {
    assert Apply(m, cs, 1, holds) == Step(m, cs[0], holds);
    assert Apply(m, cs, 2, holds) == Step(Step(m, cs[0], holds), cs[1], holds);
  }

  /** Running seven chains is running the first, then the second, and so on. */
  lemma ApplySeven(m: Attributes, cs: seq<Chain>, holds: Pattern -> bool)
    requires |cs| == 7
    ensures ApplyAll(m, cs, holds) == Step(Step(Step(Step(Step(Step(Step(m, cs[0], holds), cs[1], holds), cs[2], holds), cs[3], holds), cs[4], holds), cs[5], holds), cs[6], holds)
  {
    assert Apply(m, cs, 1, holds) == Step(m, cs[0], holds);
    assert Apply(m, cs, 2, holds) == Step(Step(m, cs[0], holds), cs[1], holds);
    assert Apply(m, cs, 3, holds) == Step(Step(Step(m, cs[0], holds), cs[1], holds), cs[2], holds);
    assert Apply(m, cs, 4, holds) == Step(Step(Step(Step(m, cs[0], holds), cs[1], holds), cs[2], holds), cs[3], holds);
    assert Apply(m, cs, 5, holds) == Step(Step(Step(Step(Step(m, cs[0], holds), cs[1], holds), cs[2], holds), cs[3], holds), cs[4], holds);
    assert Apply(m, cs, 6, holds) == Step(Step(Step(Step(Step(Step(m, cs[0], holds), cs[1], holds), cs[2], holds), cs[3], holds), cs[4], holds), cs[5], holds);
  }

  /** Running eight chains is running the first, then the second, and so on. */
  lemma ApplyEight(m: Attributes, cs: seq<Chain>, holds: Pattern -> bool)
    requires |cs| == 8
    ensures ApplyAll(m, cs, holds) == Step(Step(Step(Step(Step(Step(Step(Step(m, cs[0], holds), cs[1], holds), cs[2], holds), cs[3], holds), cs[4], holds), cs[5], holds), cs[6], holds), cs[7], holds)
  {
    assert Apply(m, cs, 1, holds) == Step(m, cs[0], holds);
    assert Apply(m, cs, 2, holds) == Step(Step(m, cs[0], holds), cs[1], holds);
    assert Apply(m, cs, 3, holds) == Step(Step(Step(m, cs[0], holds), cs[1], holds), cs[2], holds);
    assert Apply(m, cs, 4, holds) == Step(Step(Step(Step(m, cs[0], holds), cs[1], holds), cs[2], holds), cs[3], holds);
    assert Apply(m, cs, 5, holds) == Step(Step(Step(Step(Step(m, cs[0], holds), cs[1], holds), cs[2], holds), cs[3], holds), cs[4], holds);
    assert Apply(m, cs, 6, holds) == Step(Step(Step(Step(Step(Step(m, cs[0], holds), cs[1], holds), cs[2], holds), cs[3], holds), cs[4], holds), cs[5], holds);
    assert Apply(m, cs, 7, holds) == Step(Step(Step(Step(Step(Step(Step(m, cs[0], holds), cs[1], holds), cs[2], holds), cs[3], holds), cs[4], holds), cs[5], holds), cs[6], holds);
  }

  /** The general rules, chain by chain. */
  lemma GeneralInOrder(m: Attributes, holds: Pattern -> bool)
    ensures ApplyAll(m, General, holds) == Step(Step(Step(Step(Step(Step(Step(m, ElectricChain, holds), QuietChain, holds), WirelessChain, holds), WaterproofChain, holds), CompactChain, holds), PortableChain, holds), DurableChain, holds)
  {
    ApplySeven(m, General, holds);
  }

  /** The laptop rules, chain by chain. */
  lemma LaptopInOrder(m: Attributes, holds: Pattern -> bool)
    ensures ApplyAll(m, Laptop, holds) == Step(Step(Step(Step(Step(Step(Step(Step(m, CpuChain, holds), RamChain, holds), StorageChain, holds), GpuChain, holds), ScreenChain, holds), TouchscreenChain, holds), ResolutionChain, holds), BatteryChain, holds)
  {
    ApplyEight(m, Laptop, holds);
  }

  /** The composter rules, chain by chain. */
  lemma ComposterInOrder(m: Attributes, holds: Pattern -> bool)
    ensures ApplyAll(m, Composter, holds) == Step(Step(Step(m, BinSizeChain, holds), OdorChain, holds), SubscriptionChain, holds)
  {
    ApplyThree(m, Composter, holds);
  }

  // ---------------------------------------------------------------------
  // Running the table chain by chain gives the source's branches.

  lemma ElectricRule(m: Attributes, holds: Pattern -> bool)
    ensures Step(m, ElectricChain, holds) == if holds(InTitle("electric")) || holds(InDescription("электрический")) then m[Electric := Bool(true)] else m
  {
  }

  lemma QuietRule(m: Attributes, holds: Pattern -> bool)
    ensures Step(m, QuietChain, holds) == if holds(InTitle("quiet")) || holds(InDescription("бесшумный")) || holds(InDescription("silent")) then m[Quietness := Bool(true)] else m
  {
  }

  lemma WirelessRule(m: Attributes, holds: Pattern -> bool)
    ensures Step(m, WirelessChain, holds) == if holds(InTitle("wireless")) || holds(InDescription("беспроводной")) then m[Wireless := Bool(true)] else m
  {
  }

  lemma WaterproofRule(m: Attributes, holds: Pattern -> bool)
    ensures Step(m, WaterproofChain, holds) == if holds(InTitle("waterproof")) || holds(InDescription("водонепроницаемый")) then m[Waterproof := Bool(true)] else m
  {
  }

  lemma CompactRule(m: Attributes, holds: Pattern -> bool)
    ensures Step(m, CompactChain, holds) == if holds(InTitle("compact")) || holds(InDescription("компактный")) then m[Compact := Bool(true)] else m
  {
  }

  lemma PortableRule(m: Attributes, holds: Pattern -> bool)
    ensures Step(m, PortableChain, holds) == if holds(InTitle("portable")) || holds(InDescription("портативный")) then m[Portable := Bool(true)] else m
  {
  }

  lemma DurableRule(m: Attributes, holds: Pattern -> bool)
    ensures Step(m, DurableChain, holds) == if holds(InTitle("durable")) || holds(InDescription("долговечный")) then m[Durable := Bool(true)] else m
  {
  }

  /** The two `any(...)` guards of the processor rule. */
  lemma CpuGuard(holds: Pattern -> bool)
    ensures AllFrom(CpuChain.guard, 0, holds) <==>
      (holds(InTitle("intel")) || holds(InTitle("amd")))
      && (holds(InTitle("i3")) || holds(InTitle("i5")) || holds(InTitle("i7")) || holds(InTitle("i9"))
          || holds(InTitle("ryzen 3")) || holds(InTitle("ryzen 5")) || holds(InTitle("ryzen 7")) || holds(InTitle("ryzen 9")))
  {
    assert AllFrom(CpuChain.guard, 2, holds);
  }

  /** The processor model chain after `i3`, `i5`, `i7` and `i9`. */
  lemma CpuAmdPick(holds: Pattern -> bool)
    ensures FirstFrom(CpuChain.rules, 4, holds) ==
      if holds(InTitle("ryzen 3")) then Some(4)
      else if holds(InTitle("ryzen 5")) then Some(5)
      else if holds(InTitle("ryzen 7")) then Some(6)
      else if holds(InTitle("ryzen 9")) then Some(7)
      else if holds(InTitle("ryzen")) then Some(8)
      else if holds(InTitle("intel")) then Some(9)
      else None
  {
  }

  lemma CpuPick(holds: Pattern -> bool)
    ensures FirstFrom(CpuChain.rules, 0, holds) ==
      if holds(InTitle("i3")) then Some(0)
      else if holds(InTitle("i5")) then Some(1)
      else if holds(InTitle("i7")) then Some(2)
      else if holds(InTitle("i9")) then Some(3)
      else FirstFrom(CpuChain.rules, 4, holds)
  {
  }

  /** Under the guard, the first model named in the title decides. */
  lemma CpuModelRule(m: Attributes, holds: Pattern -> bool)
    requires AllFrom(CpuChain.guard, 0, holds)
    ensures Step(m, CpuChain, holds) ==
      if holds(InTitle("i3")) then m[Cpu := Str("intel i3")]
      else if holds(InTitle("i5")) then m[Cpu := Str("intel i5")]
      else if holds(InTitle("i7")) then m[Cpu := Str("intel i7")]
      else if holds(InTitle("i9")) then m[Cpu := Str("intel i9")]
      else if holds(InTitle("ryzen 3")) then m[Cpu := Str("amd ryzen 3")]
      else if holds(InTitle("ryzen 5")) then m[Cpu := Str("amd ryzen 5")]
      else if holds(InTitle("ryzen 7")) then m[Cpu := Str("amd ryzen 7")]
      else if holds(InTitle("ryzen 9")) then m[Cpu := Str("amd ryzen 9")]
      else if holds(InTitle("ryzen")) then m[Cpu := Str("amd ryzen")]
      else if holds(InTitle("intel")) then m[Cpu := Str("intel")]
      else m
  {
    CpuPick(holds);
    if !(holds(InTitle("i3")) || holds(InTitle("i5")) || holds(InTitle("i7")) || holds(InTitle("i9"))) {
      CpuAmdPick(holds);
    }
  }

  lemma CpuRule(m: Attributes, holds: Pattern -> bool)
    ensures Step(m, CpuChain, holds) ==
      if (holds(InTitle("intel")) || holds(InTitle("amd")))
        && (holds(InTitle("i3")) || holds(InTitle("i5")) || holds(InTitle("i7")) || holds(InTitle("i9"))
            || holds(InTitle("ryzen 3")) || holds(InTitle("ryzen 5")) || holds(InTitle("ryzen 7")) || holds(InTitle("ryzen 9")))
      then
        if holds(InTitle("i3")) then m[Cpu := Str("intel i3")]
        else if holds(InTitle("i5")) then m[Cpu := Str("intel i5")]
        else if holds(InTitle("i7")) then m[Cpu := Str("intel i7")]
        else if holds(InTitle("i9")) then m[Cpu := Str("intel i9")]
        else if holds(InTitle("ryzen 3")) then m[Cpu := Str("amd ryzen 3")]
        else if holds(InTitle("ryzen 5")) then m[Cpu := Str("amd ryzen 5")]
        else if holds(InTitle("ryzen 7")) then m[Cpu := Str("amd ryzen 7")]
        else if holds(InTitle("ryzen 9")) then m[Cpu := Str("amd ryzen 9")]
        else if holds(InTitle("ryzen")) then m[Cpu := Str("amd ryzen")]
        else if holds(InTitle("intel")) then m[Cpu := Str("intel")]
        else m
      else m
  {
    CpuGuard(holds);
    if AllFrom(CpuChain.guard, 0, holds) {
      CpuModelRule(m, holds);
    }
  }

  lemma RamRule(m: Attributes, holds: Pattern -> bool)
    ensures Step(m, RamChain, holds) == if holds(InTitle("4gb ram")) || holds(InDescription("4гб озу")) then m[Ram := Str("4gb")] else if holds(InTitle("8gb ram")) || holds(InDescription("8гб озу")) then m[Ram := Str("8gb")] else if holds(InTitle("16gb ram")) || holds(InDescription("16гб озу")) then m[Ram := Str("16gb")] else if holds(InTitle("32gb ram")) || holds(InDescription("32гб озу")) then m[Ram := Str("32gb")] else m
  {
  }

  lemma StorageRule(m: Attributes, holds: Pattern -> bool)
    ensures Step(m, StorageChain, holds) == if holds(InTitle("128gb ssd")) || holds(InDescription("128гб ssd")) then m[Storage := Str("128gb ssd")] else if holds(InTitle("256gb ssd")) || holds(InDescription("256гб ssd")) then m[Storage := Str("256gb ssd")] else if holds(InTitle("512gb ssd")) || holds(InDescription("512гб ssd")) then m[Storage := Str("512gb ssd")] else if holds(InTitle("1tb ssd")) || holds(InDescription("1тб ssd")) then m[Storage := Str("1tb ssd")] else if holds(InTitle("hdd")) || holds(InDescription("жесткий диск")) then m[StorageType := Str("hdd")] else m
  {
  }

  lemma GpuRule(m: Attributes, holds: Pattern -> bool)
    ensures Step(m, GpuChain, holds) == if holds(InTitle("nvidia")) || holds(InTitle("geforce")) || holds(InTitle("rtx")) || holds(InTitle("radeon")) then m[Gpu := Str("dedicated")] else if holds(InDescription("integrated graphics")) || holds(InDescription("intel iris")) then m[Gpu := Str("integrated")] else m
  {
  }

  lemma ScreenRule(m: Attributes, holds: Pattern -> bool)
    ensures Step(m, ScreenChain, holds) == if holds(InTitle("13 inch")) || holds(InTitle("13\"")) then m[ScreenSize := Str("13 inch")] else if holds(InTitle("14 inch")) || holds(InTitle("14\"")) then m[ScreenSize := Str("14 inch")] else if holds(InTitle("15 inch")) || holds(InTitle("15\"")) then m[ScreenSize := Str("15 inch")] else if holds(InTitle("17 inch")) || holds(InTitle("17\"")) then m[ScreenSize := Str("17 inch")] else m
  {
  }

  lemma TouchscreenRule(m: Attributes, holds: Pattern -> bool)
    ensures Step(m, TouchscreenChain, holds) == if holds(InTitle("touchscreen")) || holds(InDescription("сенсорный экран")) then m[Touchscreen := Bool(true)] else m
  {
  }

  lemma ResolutionRule(m: Attributes, holds: Pattern -> bool)
    ensures Step(m, ResolutionChain, holds) == if holds(InTitle("4k")) || holds(InDescription("uhd")) then m[Resolution := Str("4k")] else if holds(InTitle("full hd")) || holds(InDescription("fhd")) then m[Resolution := Str("full hd")] else m
  {
  }

  lemma BatteryRule(m: Attributes, holds: Pattern -> bool)
    ensures Step(m, BatteryChain, holds) == if holds(InDescription("long battery life")) || holds(InDescription("10+ hours")) then m[BatteryLife := Str("long")] else m
  {
  }

  lemma BinSizeRule(m: Attributes, holds: Pattern -> bool)
    ensures Step(m, BinSizeChain, holds) == if holds(InTitle("large capacity")) || holds(InDescription("большая емкость")) || holds(InDescription("10l")) then m[BinSize := Str("large")] else if holds(InTitle("compact")) || holds(InTitle("маленький")) || holds(InTitle("small")) then m[BinSize := Str("small")] else m
  {
  }

  lemma OdorRule(m: Attributes, holds: Pattern -> bool)
    ensures Step(m, OdorChain, holds) == if holds(InTitle("odor control")) || holds(InDescription("контроль запаха")) || holds(InDescription("odorless")) then m[OdorControl := Bool(true)] else m
  {
  }

  lemma SubscriptionRule(m: Attributes, holds: Pattern -> bool)
    ensures Step(m, SubscriptionChain, holds) == if holds(InTitle("no subscription")) || holds(InDescription("без подписки")) then m[SubscriptionRequired := Bool(false)] else m
  {
  }

  // ---------------------------------------------------------------------
  // The source's code, one group of rules at a time.

  /** The general attributes: one flag per rule. */
  method GeneralAttributes(has: Pattern -> bool, before: Attributes) returns (features: Attributes)
    ensures features == ApplyAll(before, General, has)
  {
    features := before;
    ElectricRule(features, has);
    if has(InTitle("electric")) || has(InDescription("электрический")) {
      features := features[Electric := Bool(true)];
    }
    QuietRule(features, has);
    if has(InTitle("quiet")) || has(InDescription("бесшумный")) || has(InDescription("silent")) {
      features := features[Quietness := Bool(true)];
    }
    WirelessRule(features, has);
    if has(InTitle("wireless")) || has(InDescription("беспроводной")) {
      features := features[Wireless := Bool(true)];
    }
    WaterproofRule(features, has);
    if has(InTitle("waterproof")) || has(InDescription("водонепроницаемый")) {
      features := features[Waterproof := Bool(true)];
    }
    CompactRule(features, has);
    if has(InTitle("compact")) || has(InDescription("компактный")) {
      features := features[Compact := Bool(true)];
    }
    PortableRule(features, has);
    if has(InTitle("portable")) || has(InDescription("портативный")) {
      features := features[Portable := Bool(true)];
    }
    DurableRule(features, has);
    if has(InTitle("durable")) || has(InDescription("долговечный")) {
      features := features[Durable := Bool(true)];
    }
    GeneralInOrder(before, has);
  }

  /** The laptop attributes: processor, memory, storage, graphics, screen, battery. */
  method LaptopAttributes(has: Pattern -> bool, before: Attributes) returns (features: Attributes)
    ensures features == ApplyAll(before, Laptop, has)
  {
    features := before;
    CpuRule(features, has);
    if (has(InTitle("intel")) || has(InTitle("amd")))
      && (has(InTitle("i3")) || has(InTitle("i5")) || has(InTitle("i7")) || has(InTitle("i9"))
          || has(InTitle("ryzen 3")) || has(InTitle("ryzen 5")) || has(InTitle("ryzen 7")) || has(InTitle("ryzen 9")))
    {
      if has(InTitle("i3")) { features := features[Cpu := Str("intel i3")]; }
      else if has(InTitle("i5")) { features := features[Cpu := Str("intel i5")]; }
      else if has(InTitle("i7")) { features := features[Cpu := Str("intel i7")]; }
      else if has(InTitle("i9")) { features := features[Cpu := Str("intel i9")]; }
      else if has(InTitle("ryzen 3")) { features := features[Cpu := Str("amd ryzen 3")]; }
      else if has(InTitle("ryzen 5")) { features := features[Cpu := Str("amd ryzen 5")]; }
      else if has(InTitle("ryzen 7")) { features := features[Cpu := Str("amd ryzen 7")]; }
      else if has(InTitle("ryzen 9")) { features := features[Cpu := Str("amd ryzen 9")]; }
      else if has(InTitle("ryzen")) { features := features[Cpu := Str("amd ryzen")]; }
      else if has(InTitle("intel")) { features := features[Cpu := Str("intel")]; }
    }
    RamRule(features, has);
    if has(InTitle("4gb ram")) || has(InDescription("4гб озу")) { features := features[Ram := Str("4gb")]; }
    else if has(InTitle("8gb ram")) || has(InDescription("8гб озу")) { features := features[Ram := Str("8gb")]; }
    else if has(InTitle("16gb ram")) || has(InDescription("16гб озу")) { features := features[Ram := Str("16gb")]; }
    else if has(InTitle("32gb ram")) || has(InDescription("32гб озу")) { features := features[Ram := Str("32gb")]; }
    StorageRule(features, has);
    if has(InTitle("128gb ssd")) || has(InDescription("128гб ssd")) { features := features[Storage := Str("128gb ssd")]; }
    else if has(InTitle("256gb ssd")) || has(InDescription("256гб ssd")) { features := features[Storage := Str("256gb ssd")]; }
    else if has(InTitle("512gb ssd")) || has(InDescription("512гб ssd")) { features := features[Storage := Str("512gb ssd")]; }
    else if has(InTitle("1tb ssd")) || has(InDescription("1тб ssd")) { features := features[Storage := Str("1tb ssd")]; }
    else if has(InTitle("hdd")) || has(InDescription("жесткий диск")) { features := features[StorageType := Str("hdd")]; }
    GpuRule(features, has);
    if has(InTitle("nvidia")) || has(InTitle("geforce")) || has(InTitle("rtx")) || has(InTitle("radeon")) {
      features := features[Gpu := Str("dedicated")];
    } else if has(InDescription("integrated graphics")) || has(InDescription("intel iris")) {
      features := features[Gpu := Str("integrated")];
    }
    ScreenRule(features, has);
    if has(InTitle("13 inch")) || has(InTitle("13\"")) { features := features[ScreenSize := Str("13 inch")]; }
    else if has(InTitle("14 inch")) || has(InTitle("14\"")) { features := features[ScreenSize := Str("14 inch")]; }
    else if has(InTitle("15 inch")) || has(InTitle("15\"")) { features := features[ScreenSize := Str("15 inch")]; }
    else if has(InTitle("17 inch")) || has(InTitle("17\"")) { features := features[ScreenSize := Str("17 inch")]; }
    TouchscreenRule(features, has);
    if has(InTitle("touchscreen")) || has(InDescription("сенсорный экран")) { features := features[Touchscreen := Bool(true)]; }
    ResolutionRule(features, has);
    if has(InTitle("4k")) || has(InDescription("uhd")) { features := features[Resolution := Str("4k")]; }
    else if has(InTitle("full hd")) || has(InDescription("fhd")) { features := features[Resolution := Str("full hd")]; }
    BatteryRule(features, has);
    if has(InDescription("long battery life")) || has(InDescription("10+ hours")) { features := features[BatteryLife := Str("long")]; }
    LaptopInOrder(before, has);
  }

  /** The composter attributes: bin size, odour control, subscription. */
  method ComposterAttributes(has: Pattern -> bool, before: Attributes) returns (features: Attributes)
    ensures features == ApplyAll(before, Composter, has)
  {
    features := before;
    BinSizeRule(features, has);
    if has(InTitle("large capacity")) || has(InDescription("большая емкость")) || has(InDescription("10l")) {
      features := features[BinSize := Str("large")];
    } else if has(InTitle("compact")) || has(InTitle("маленький")) || has(InTitle("small")) {
      features := features[BinSize := Str("small")];
    }
    OdorRule(features, has);
    if has(InTitle("odor control")) || has(InDescription("контроль запаха")) || has(InDescription("odorless")) {
      features := features[OdorControl := Bool(true)];
    }
    SubscriptionRule(features, has);
    if has(InTitle("no subscription")) || has(InDescription("без подписки")) {
      features := features[SubscriptionRequired := Bool(false)];
    }
    ComposterInOrder(before, has);
  }

  /** `simulate_llm_extract_features(product_title, description)`: lowercases
      both texts and applies the rules one after another to a local map. */
  method ExtractFeatures(productTitle: string, description: string) returns (features: Attributes)
    ensures features == Features(productTitle, description)
  {
    var t := Lower(productTitle);
    var d := Lower(description);
    var has := Occurs(t, d);
    features := GeneralAttributes(has, map[]);
    features := LaptopAttributes(has, features);
    features := ComposterAttributes(has, features);
    TableSections();
    ApplyAppend(map[], General, Laptop, Occurs(t, d));
    ApplyAppend(map[], General + Laptop, Composter, Occurs(t, d));
  }
}
