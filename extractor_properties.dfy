/** What the attribute extractor promises: which keys and values it can
    produce, when it returns `{}`, and how each if/elif chain picks its value.
    Each property is proved for any set of occurring patterns (`...Of`) and
    then for the lowercased title and description (`...Feature`). */
module ExtractorProperties {
  import opened Text
  import opened Values
  import opened Extractor

  /** The value each key can take: flags are `True`, the descriptive keys a
      string, and `subscription_required` is `False`. */
  predicate Allowed(k: Key, v: Value)
  {
    match k
    case Electric | Quietness | Wireless | Waterproof | Compact | Portable | Durable | Touchscreen | OdorControl =>
      v == Bool(true)
    case SubscriptionRequired => v == Bool(false)
    case _ => v.Str?
  }

  /** Every rule of `c` sets an allowed entry. */
  predicate RulesAllowed(c: Chain)
  {
    forall j :: 0 <= j < |c.rules| ==> Allowed(c.rules[j].key, c.rules[j].value)
  }

  /** Every entry of `m` is allowed. */
  predicate AllAllowed(m: Attributes)
  {
    forall k :: k in m ==> Allowed(k, m[k])
  }

  /** Chains whose rules only set allowed entries keep a map allowed. */
  lemma {:induction false} ApplyAllowed(m: Attributes, chains: seq<Chain>, n: nat, holds: Pattern -> bool)
    requires n <= |chains| && forall x :: 0 <= x < |chains| ==> RulesAllowed(chains[x])
    requires AllAllowed(m)
    ensures AllAllowed(Apply(m, chains, n, holds))
  {
    if n > 0 {
      ApplyAllowed(m, chains, n - 1, holds);
      var c := chains[n - 1];
      assert RulesAllowed(c);
      if AllFrom(c.guard, 0, holds) && FirstFrom(c.rules, 0, holds).Some? {
        var j := FirstFrom(c.rules, 0, holds).value;
        assert Allowed(c.rules[j].key, c.rules[j].value);
      }
    }
  }

  lemma GeneralAllowed()
    ensures forall x :: 0 <= x < 7 ==> RulesAllowed(Table[x])
  {
  }

  lemma LaptopAllowed()
    ensures forall x :: 7 <= x < 15 ==> RulesAllowed(Table[x])
  {
  }

  lemma ComposterAllowed()
    ensures forall x :: 15 <= x < 18 ==> RulesAllowed(Table[x])
  {
  }

  /** Extraction only sets keys of the vocabulary: flags to `True`, the
      descriptive keys to a string, and `subscription_required` to `False`. */
  lemma FeaturesAllowed(productTitle: string, description: string)
    ensures AllAllowed(Features(productTitle, description))
  {
    GeneralAllowed();
    LaptopAllowed();
    ComposterAllowed();
    assert forall x :: 0 <= x < |Table| ==> RulesAllowed(Table[x]);
    var holds := Occurs(Lower(productTitle), Lower(description));
    ApplyAllowed(map[], Table, |Table|, holds);
    assert Features(productTitle, description) == Apply(map[], Table, |Table|, holds);
  }

  /** Extraction returns `{}` exactly when no chain of the table applies. */
  lemma FeaturesEmpty(productTitle: string, description: string)
    ensures Features(productTitle, description) == map[] <==>
      forall j :: 0 <= j < |Table| ==> !Applies(Table[j], Occurs(Lower(productTitle), Lower(description)))
  {
    ApplyEmpty(Table, |Table|, Occurs(Lower(productTitle), Lower(description)));
  }

  /** Every rule of `c` needs one of the non-empty patterns of its first clause. */
  predicate Silent(c: Chain)
  {
    forall j :: 0 <= j < |c.rules| ==>
      |c.rules[j].when| > 0 && forall b :: 0 <= b < |c.rules[j].when[0]| ==> c.rules[j].when[0][b].text != []
  }

  lemma {:induction false} AnyFromNone(c: Clause, i: nat, holds: Pattern -> bool)
    requires forall b :: i <= b < |c| ==> !holds(c[b])
    ensures !AnyFrom(c, i, holds)
    decreases |c| - i
  {
    if i < |c| {
      AnyFromNone(c, i + 1, holds);
    }
  }

  /** When no non-empty pattern occurs, a silent chain does not apply. */
  lemma SilentChain(c: Chain, holds: Pattern -> bool)
    requires Silent(c)
    requires forall p: Pattern :: p.text != [] ==> !holds(p)
    ensures !Applies(c, holds)
  {
    forall j | 0 <= j < |c.rules|
      ensures !Fires(c.rules[j], holds)
    {
      AnyFromNone(c.rules[j].when[0], 0, holds);
    }
    FirstFromIsFirst(c.rules, 0, holds);
  }

  lemma GeneralSilent()
    ensures forall x :: 0 <= x < 7 ==> Silent(Table[x])
  {
  }

  lemma LaptopSilent()
    ensures forall x :: 7 <= x < 15 ==> Silent(Table[x])
  {
  }

  lemma ComposterSilent()
    ensures forall x :: 15 <= x < 18 ==> Silent(Table[x])
  {
  }

  /** An empty title and description yield no attributes at all. */
  lemma NoTextNoFeatures()
    ensures Features("", "") == map[]
  {
    GeneralSilent();
    LaptopSilent();
    ComposterSilent();
    var holds := Occurs(Lower(""), Lower(""));
    assert Lower("") == "";
    forall p: Pattern | p.text != []
      ensures !holds(p)
    {
      ContainsEmptyText(p.text);
    }
    forall x | 0 <= x < |Table|
      ensures !Applies(Table[x], holds)
    {
      SilentChain(Table[x], holds);
    }
    ApplyEmpty(Table, |Table|, holds);
  }

  /** A key set by a single chain of the table is set by the whole table
      exactly when that chain, run alone, sets it, and to the same value. */
  lemma OwnedOf(holds: Pattern -> bool, i: nat, k: Key)
    requires i < |Table| && OwnedBy(Table, i, k)
    ensures var alone := Step(map[], Table[i], holds);
      && (k in FeaturesOf(holds) <==> k in alone)
      && (k in FeaturesOf(holds) ==> FeaturesOf(holds)[k] == alone[k])
  {
    ApplyOwned(map[], Table, |Table|, i, k, holds);
  }

  // Which chain of the table owns each key that is not a plain flag.
  lemma CpuOwned() ensures OwnedBy(Table, 7, Cpu) {}
  lemma RamOwned() ensures OwnedBy(Table, 8, Ram) {}
  lemma StorageOwned() ensures OwnedBy(Table, 9, Storage) {}
  lemma StorageTypeOwned() ensures OwnedBy(Table, 9, StorageType) {}
  lemma GpuOwned() ensures OwnedBy(Table, 10, Gpu) {}
  lemma ScreenSizeOwned() ensures OwnedBy(Table, 11, ScreenSize) {}
  lemma ResolutionOwned() ensures OwnedBy(Table, 13, Resolution) {}
  lemma BinSizeOwned() ensures OwnedBy(Table, 15, BinSize) {}

  /** `cpu` is set exactly when the lowercased title names a brand and a
      model. Its value is the first model named, in the order i3, i5, i7, i9,
      ryzen 3, 5, 7, 9, so the `"amd ryzen"` and `"intel"` fallbacks are never
      used. */
  lemma CpuOf(holds: Pattern -> bool)
    ensures var f := FeaturesOf(holds);
      && (Cpu in f <==>
            (holds(InTitle("intel")) || holds(InTitle("amd")))
            && (holds(InTitle("i3")) || holds(InTitle("i5")) || holds(InTitle("i7")) || holds(InTitle("i9"))
                || holds(InTitle("ryzen 3")) || holds(InTitle("ryzen 5")) || holds(InTitle("ryzen 7")) || holds(InTitle("ryzen 9"))))
      && (Cpu in f ==>
            f[Cpu] == (if holds(InTitle("i3")) then Str("intel i3")
            else if holds(InTitle("i5")) then Str("intel i5")
            else if holds(InTitle("i7")) then Str("intel i7")
            else if holds(InTitle("i9")) then Str("intel i9")
            else if holds(InTitle("ryzen 3")) then Str("amd ryzen 3")
            else if holds(InTitle("ryzen 5")) then Str("amd ryzen 5")
            else if holds(InTitle("ryzen 7")) then Str("amd ryzen 7")
            else Str("amd ryzen 9")))
  {
    CpuOwned();
    OwnedOf(holds, 7, Cpu);
    assert Table[7] == CpuChain;
    CpuRule(map[], holds);
  }

  lemma CpuFeature(productTitle: string, description: string)
    ensures var t := Lower(productTitle);
      var f := Features(productTitle, description);
      && (Cpu in f <==>
            (Contains(t, "intel") || Contains(t, "amd"))
            && (Contains(t, "i3") || Contains(t, "i5") || Contains(t, "i7") || Contains(t, "i9")
                || Contains(t, "ryzen 3") || Contains(t, "ryzen 5") || Contains(t, "ryzen 7") || Contains(t, "ryzen 9")))
      && (Cpu in f ==>
            f[Cpu] == (if Contains(t, "i3") then Str("intel i3")
            else if Contains(t, "i5") then Str("intel i5")
            else if Contains(t, "i7") then Str("intel i7")
            else if Contains(t, "i9") then Str("intel i9")
            else if Contains(t, "ryzen 3") then Str("amd ryzen 3")
            else if Contains(t, "ryzen 5") then Str("amd ryzen 5")
            else if Contains(t, "ryzen 7") then Str("amd ryzen 7")
            else Str("amd ryzen 9")))
  {
    CpuOf(Occurs(Lower(productTitle), Lower(description)));
  }

  /** `storage` is the first SSD size named; `storage_type = "hdd"` is set
      only when no SSD size is named. */
  lemma StorageOf(holds: Pattern -> bool)
    ensures var f := FeaturesOf(holds);
      var ssd128 := holds(InTitle("128gb ssd")) || holds(InDescription("128гб ssd"));
      var ssd256 := holds(InTitle("256gb ssd")) || holds(InDescription("256гб ssd"));
      var ssd512 := holds(InTitle("512gb ssd")) || holds(InDescription("512гб ssd"));
      var ssd1tb := holds(InTitle("1tb ssd")) || holds(InDescription("1тб ssd"));
      var ssd := ssd128 || ssd256 || ssd512 || ssd1tb;
      && (Storage in f <==> ssd)
      && (Storage in f ==>
            f[Storage] == (if ssd128 then Str("128gb ssd") else if ssd256 then Str("256gb ssd")
            else if ssd512 then Str("512gb ssd") else Str("1tb ssd")))
      && (StorageType in f <==> !ssd && (holds(InTitle("hdd")) || holds(InDescription("жесткий диск"))))
      && (StorageType in f ==> f[StorageType] == Str("hdd"))
  {
    StorageOwned();
    StorageTypeOwned();
    OwnedOf(holds, 9, Storage);
    OwnedOf(holds, 9, StorageType);
    assert Table[9] == StorageChain;
    StorageRule(map[], holds);
  }

  lemma StorageFeature(productTitle: string, description: string)
    ensures var t := Lower(productTitle);
      var d := Lower(description);
      var f := Features(productTitle, description);
      var ssd128 := Contains(t, "128gb ssd") || Contains(d, "128гб ssd");
      var ssd256 := Contains(t, "256gb ssd") || Contains(d, "256гб ssd");
      var ssd512 := Contains(t, "512gb ssd") || Contains(d, "512гб ssd");
      var ssd1tb := Contains(t, "1tb ssd") || Contains(d, "1тб ssd");
      var ssd := ssd128 || ssd256 || ssd512 || ssd1tb;
      && (Storage in f <==> ssd)
      && (Storage in f ==>
            f[Storage] == (if ssd128 then Str("128gb ssd") else if ssd256 then Str("256gb ssd")
            else if ssd512 then Str("512gb ssd") else Str("1tb ssd")))
      && (StorageType in f <==> !ssd && (Contains(t, "hdd") || Contains(d, "жесткий диск")))
      && (StorageType in f ==> f[StorageType] == Str("hdd"))
  {
    StorageOf(Occurs(Lower(productTitle), Lower(description)));
  }

  /** `ram` is the first memory size named, smallest first. */
  lemma RamOf(holds: Pattern -> bool)
    ensures var f := FeaturesOf(holds);
      var gb4 := holds(InTitle("4gb ram")) || holds(InDescription("4гб озу"));
      var gb8 := holds(InTitle("8gb ram")) || holds(InDescription("8гб озу"));
      var gb16 := holds(InTitle("16gb ram")) || holds(InDescription("16гб озу"));
      var gb32 := holds(InTitle("32gb ram")) || holds(InDescription("32гб озу"));
      && (Ram in f <==> gb4 || gb8 || gb16 || gb32)
      && (Ram in f ==>
            f[Ram] == (if gb4 then Str("4gb") else if gb8 then Str("8gb") else if gb16 then Str("16gb") else Str("32gb")))
  {
    RamOwned();
    OwnedOf(holds, 8, Ram);
    assert Table[8] == RamChain;
    RamRule(map[], holds);
  }

  lemma RamFeature(productTitle: string, description: string)
    ensures var t := Lower(productTitle);
      var d := Lower(description);
      var f := Features(productTitle, description);
      var gb4 := Contains(t, "4gb ram") || Contains(d, "4гб озу");
      var gb8 := Contains(t, "8gb ram") || Contains(d, "8гб озу");
      var gb16 := Contains(t, "16gb ram") || Contains(d, "16гб озу");
      var gb32 := Contains(t, "32gb ram") || Contains(d, "32гб озу");
      && (Ram in f <==> gb4 || gb8 || gb16 || gb32)
      && (Ram in f ==>
            f[Ram] == (if gb4 then Str("4gb") else if gb8 then Str("8gb") else if gb16 then Str("16gb") else Str("32gb")))
  {
    RamOf(Occurs(Lower(productTitle), Lower(description)));
  }

  /** `screen_size` is the first diagonal the title names, smallest first. */
  lemma ScreenSizeOf(holds: Pattern -> bool)
    ensures var f := FeaturesOf(holds);
      var in13 := holds(InTitle("13 inch")) || holds(InTitle("13\""));
      var in14 := holds(InTitle("14 inch")) || holds(InTitle("14\""));
      var in15 := holds(InTitle("15 inch")) || holds(InTitle("15\""));
      var in17 := holds(InTitle("17 inch")) || holds(InTitle("17\""));
      && (ScreenSize in f <==> in13 || in14 || in15 || in17)
      && (ScreenSize in f ==>
            f[ScreenSize] == (if in13 then Str("13 inch") else if in14 then Str("14 inch") else if in15 then Str("15 inch") else Str("17 inch")))
  {
    ScreenSizeOwned();
    OwnedOf(holds, 11, ScreenSize);
    assert Table[11] == ScreenChain;
    ScreenRule(map[], holds);
  }

  lemma ScreenSizeFeature(productTitle: string, description: string)
    ensures var t := Lower(productTitle);
      var f := Features(productTitle, description);
      var in13 := Contains(t, "13 inch") || Contains(t, "13\"");
      var in14 := Contains(t, "14 inch") || Contains(t, "14\"");
      var in15 := Contains(t, "15 inch") || Contains(t, "15\"");
      var in17 := Contains(t, "17 inch") || Contains(t, "17\"");
      && (ScreenSize in f <==> in13 || in14 || in15 || in17)
      && (ScreenSize in f ==>
            f[ScreenSize] == (if in13 then Str("13 inch") else if in14 then Str("14 inch") else if in15 then Str("15 inch") else Str("17 inch")))
  {
    ScreenSizeOf(Occurs(Lower(productTitle), Lower(description)));
  }

  /** `resolution` is `"4k"` when 4K or UHD is mentioned, even next to full HD. */
  lemma ResolutionOf(holds: Pattern -> bool)
    ensures var f := FeaturesOf(holds);
      var uhd := holds(InTitle("4k")) || holds(InDescription("uhd"));
      var fhd := holds(InTitle("full hd")) || holds(InDescription("fhd"));
      && (Resolution in f <==> uhd || fhd)
      && (uhd ==> f[Resolution] == Str("4k"))
      && (!uhd && fhd ==> f[Resolution] == Str("full hd"))
  {
    ResolutionOwned();
    OwnedOf(holds, 13, Resolution);
    assert Table[13] == ResolutionChain;
    ResolutionRule(map[], holds);
  }

  lemma ResolutionFeature(productTitle: string, description: string)
    ensures var t := Lower(productTitle);
      var d := Lower(description);
      var f := Features(productTitle, description);
      var uhd := Contains(t, "4k") || Contains(d, "uhd");
      var fhd := Contains(t, "full hd") || Contains(d, "fhd");
      && (Resolution in f <==> uhd || fhd)
      && (uhd ==> f[Resolution] == Str("4k"))
      && (!uhd && fhd ==> f[Resolution] == Str("full hd"))
  {
    ResolutionOf(Occurs(Lower(productTitle), Lower(description)));
  }

  /** A graphics card named in the title makes `gpu` `"dedicated"`, whatever
      the description says about integrated graphics. */
  lemma GpuOf(holds: Pattern -> bool)
    ensures var f := FeaturesOf(holds);
      var dedicated := holds(InTitle("nvidia")) || holds(InTitle("geforce")) || holds(InTitle("rtx")) || holds(InTitle("radeon"));
      var integrated := holds(InDescription("integrated graphics")) || holds(InDescription("intel iris"));
      && (Gpu in f <==> dedicated || integrated)
      && (dedicated ==> f[Gpu] == Str("dedicated"))
      && (!dedicated && integrated ==> f[Gpu] == Str("integrated"))
  {
    GpuOwned();
    OwnedOf(holds, 10, Gpu);
    assert Table[10] == GpuChain;
    GpuRule(map[], holds);
  }

  lemma GpuFeature(productTitle: string, description: string)
    ensures var t := Lower(productTitle);
      var d := Lower(description);
      var f := Features(productTitle, description);
      var dedicated := Contains(t, "nvidia") || Contains(t, "geforce") || Contains(t, "rtx") || Contains(t, "radeon");
      var integrated := Contains(d, "integrated graphics") || Contains(d, "intel iris");
      && (Gpu in f <==> dedicated || integrated)
      && (dedicated ==> f[Gpu] == Str("dedicated"))
      && (!dedicated && integrated ==> f[Gpu] == Str("integrated"))
  {
    GpuOf(Occurs(Lower(productTitle), Lower(description)));
  }

  /** A large capacity makes `bin_size` `"large"`, even for a title that also
      says compact or small. */
  lemma BinSizeOf(holds: Pattern -> bool)
    ensures var f := FeaturesOf(holds);
      var large := holds(InTitle("large capacity")) || holds(InDescription("большая емкость")) || holds(InDescription("10l"));
      var small := holds(InTitle("compact")) || holds(InTitle("маленький")) || holds(InTitle("small"));
      && (BinSize in f <==> large || small)
      && (large ==> f[BinSize] == Str("large"))
      && (!large && small ==> f[BinSize] == Str("small"))
  {
    BinSizeOwned();
    OwnedOf(holds, 15, BinSize);
    assert Table[15] == BinSizeChain;
    BinSizeRule(map[], holds);
  }

  lemma BinSizeFeature(productTitle: string, description: string)
    ensures var t := Lower(productTitle);
      var d := Lower(description);
      var f := Features(productTitle, description);
      var large := Contains(t, "large capacity") || Contains(d, "большая емкость") || Contains(d, "10l");
      var small := Contains(t, "compact") || Contains(t, "маленький") || Contains(t, "small");
      && (BinSize in f <==> large || small)
      && (large ==> f[BinSize] == Str("large"))
      && (!large && small ==> f[BinSize] == Str("small"))
  {
    BinSizeOf(Occurs(Lower(productTitle), Lower(description)));
  }

  /** A title such as "Lenovo Laptop Intel i7 16GB RAM 512GB SSD 15 inch",
      described by the substrings its lowercase form contains and lacks, with
      the empty description the ranking uses. */
  lemma LenovoExample(productTitle: string)
    requires var t := Lower(productTitle);
      && Contains(t, "intel") && Contains(t, "i7") && !Contains(t, "i3") && !Contains(t, "i5")
      && Contains(t, "16gb ram") && !Contains(t, "4gb ram") && !Contains(t, "8gb ram")
      && Contains(t, "512gb ssd") && !Contains(t, "128gb ssd") && !Contains(t, "256gb ssd")
      && Contains(t, "15 inch") && !Contains(t, "13 inch") && !Contains(t, "13\"")
      && !Contains(t, "14 inch") && !Contains(t, "14\"")
    ensures var f := Features(productTitle, "");
      && Cpu in f && f[Cpu] == Str("intel i7")
      && Ram in f && f[Ram] == Str("16gb")
      && Storage in f && f[Storage] == Str("512gb ssd") && StorageType !in f
      && ScreenSize in f && f[ScreenSize] == Str("15 inch")
  {
    assert Lower("") == "";
    ContainsEmptyText("4гб озу");
    ContainsEmptyText("8гб озу");
    ContainsEmptyText("16гб озу");
    ContainsEmptyText("128гб ssd");
    ContainsEmptyText("256гб ssd");
    ContainsEmptyText("512гб ssd");
    CpuFeature(productTitle, "");
    RamFeature(productTitle, "");
    StorageFeature(productTitle, "");
    ScreenSizeFeature(productTitle, "");
  }
}
