/** The names `discover` prints for the devices it found. */
module Discover {
  import opened Wrappers
  import opened Text
  import opened Homewizard
  import Config

  function DeviceName(productType: string): string {
    if productType == ProductP1 then "p1"
    else if productType in {ProductKWh1, ProductKWh3, ProductSDM230, ProductSDM630} then "kwh"
    else if productType == ProductSocket then "socket"
    else if productType == ProductWater then "water"
    else if productType == ProductBattery then "battery"
    else "device"
  }

  /** How many of the devices share this base name. */
  function Count(products: seq<string>, base: string): nat {
    if products == [] then 0
    else
      Count(products[..|products| - 1], base) + if DeviceName(products[|products| - 1]) == base then 1 else 0
  }

  /** The first device of a kind has the bare name, later ones their number behind it. */
  function Numbered(base: string, n: nat): string {
    if n == 1 then base else base + Decimal(n)
  }

  function NameAt(products: seq<string>, i: nat): string
    requires i < |products|
  {
    var base := DeviceName(products[i]);
    Numbered(base, Count(products[..i + 1], base))
  }

  /** The counts kept so far; a name not in the map was not used. */
  ghost predicate Counts(used: map<string, nat>, products: seq<string>) {
    forall base :: Count(products, base) == if base in used then used[base] else 0
  }

  method UniqueName(name: string, used: map<string, nat>) returns (unique: string, now: map<string, nat>)
    ensures now == used[name := (if name in used then used[name] else 0) + 1]
    ensures unique == Numbered(name, now[name])
  {
    now := used[name := (if name in used then used[name] else 0) + 1];
    if now[name] == 1 {
      unique := name;
    } else {
      unique := name + Decimal(now[name]);
    }
  }

  lemma {:induction false} CountMonotone(products: seq<string>, i: nat, j: nat, base: string)
    requires i <= j <= |products|
    ensures Count(products[..i], base) <= Count(products[..j], base)
    decreases j
  {
    if i < j {
      assert products[..j][..j - 1] == products[..j - 1];
      CountMonotone(products, i, j - 1, base);
    }
  }

  lemma {:induction false} CountGrows(products: seq<string>, i: nat, j: nat)
    requires i < j < |products|
    ensures var base := DeviceName(products[j]);
            Count(products[..i + 1], base) < Count(products[..j + 1], base)
    ensures Count(products[..j + 1], DeviceName(products[j])) > 0
  {
    var base := DeviceName(products[j]);
    assert products[..j + 1][..j] == products[..j];
    CountMonotone(products, i + 1, j, base);
  }

  lemma CountsItself(products: seq<string>, i: nat)
    requires i < |products|
    ensures Count(products[..i + 1], DeviceName(products[i])) > 0
  {
  }

  /** The base name of every product, and what later devices of a kind are called. */
  lemma BaseNames()
    ensures DeviceName("HWE-P1") == "p1" && DeviceName("HWE-SKT") == "socket"
    ensures DeviceName("HWE-WTR") == "water" && DeviceName("HWE-BAT") == "battery"
    ensures DeviceName("HWE-KWH1") == DeviceName("HWE-KWH3") == "kwh"
    ensures DeviceName("SDM230-wifi") == DeviceName("SDM630-wifi") == "kwh"
    ensures forall p |
              && p != "HWE-P1" && p != "HWE-SKT" && p != "HWE-WTR" && p != "HWE-BAT" && p != "HWE-KWH1"
              && p != "HWE-KWH3" && p != "SDM230-wifi" && p != "SDM630-wifi" :: DeviceName(p) == "device"
    ensures forall base :: Numbered(base, 1) == base
    ensures forall base, n: nat | n > 1 :: Numbered(base, n) == base + Decimal(n)
  {
  }

  lemma FirstLetters(p: string, q: string)
    ensures DeviceName(p) != "" && DeviceName(q) != ""
    ensures DeviceName(p)[0] == DeviceName(q)[0] ==> DeviceName(p) == DeviceName(q)
  {
  }

  /** No base name with a number behind it is another base name, with or without one. */
  lemma NumberedInjective(p: string, m: nat, q: string, n: nat)
    requires Numbered(DeviceName(p), m) == Numbered(DeviceName(q), n) && m > 0 && n > 0
    ensures DeviceName(p) == DeviceName(q) && m == n
  {
    var a, b := DeviceName(p), DeviceName(q);
    assert Numbered(a, m)[0] == a[0] && Numbered(b, n)[0] == b[0];
    FirstLetters(p, q);
    if m != 1 && n != 1 {
      assert Numbered(a, m)[|a|..] == Decimal(m) && Numbered(b, n)[|b|..] == Decimal(n);
      DecimalInjective(m, n);
    } else {
      assert |Decimal(m)| > 0 && |Decimal(n)| > 0;
    }
  }

  /** Any two devices get different names. */
  lemma NamesDiffer(products: seq<string>, i: nat, j: nat)
    requires i < j < |products|
    ensures NameAt(products, i) != NameAt(products, j)
  {
    CountsItself(products, i);
    CountsItself(products, j);
    if NameAt(products, i) == NameAt(products, j) {
      var a, b := DeviceName(products[i]), DeviceName(products[j]);
      NumberedInjective(products[i], Count(products[..i + 1], a), products[j], Count(products[..j + 1], b));
      CountGrows(products, i, j);
    }
  }

  lemma CountsStep(used: map<string, nat>, products: seq<string>, i: nat)
    requires i < |products| && Counts(used, products[..i])
    ensures var base := DeviceName(products[i]);
            var now := used[base := (if base in used then used[base] else 0) + 1];
            Counts(now, products[..i + 1]) && Numbered(base, now[base]) == NameAt(products, i)
  {
    assert products[..i + 1][..i] == products[..i];
  }

  function NamesOf(products: seq<string>): (names: seq<string>)
    ensures |names| == |products|
  {
    seq(|products|, i requires 0 <= i < |products| => NameAt(products, i))
  }

  lemma NamesStep(products: seq<string>, i: nat)
    requires i < |products|
    ensures NamesOf(products)[..i + 1] == NamesOf(products)[..i] + [NameAt(products, i)]
  {
    hide NameAt;
  }

  /** The printed names are pairwise different. */
  lemma NamesAreDistinct(products: seq<string>)
    ensures forall i, j | 0 <= i < j < |NamesOf(products)| :: NamesOf(products)[i] != NamesOf(products)[j]
  {
    hide NameAt;
    forall i, j | 0 <= i < j < |products| ensures NameAt(products, i) != NameAt(products, j) {
      NamesDiffer(products, i, j);
    }
  }

  method Names(products: seq<string>) returns (names: seq<string>)
    ensures names == NamesOf(products)
  {
    names := [];
    var used: map<string, nat> := map[];
    assert Counts(used, products[..0]);
    hide Counts, Count, DeviceName, Numbered, NameAt, NamesOf;
    for i := 0 to |products|
      invariant Counts(used, products[..i])
      invariant names == NamesOf(products)[..i]
    {
      CountsStep(used, products, i);
      NamesStep(products, i);
      var name, now := UniqueName(DeviceName(products[i]), used);
      names, used := names + [name], now;
    }
  }

  /** A printed name survives normalising as it is. */
  lemma NameIsTrimmed(productType: string, n: nat)
    ensures Config.TrimSpace(Numbered(DeviceName(productType), n)) == Numbered(DeviceName(productType), n)
    ensures Numbered(DeviceName(productType), n) != ""
  {
  }

  /** A configuration with the printed names is never refused for a duplicate name. */
  lemma PrintedNamesPass(products: seq<string>, devices: seq<Config.Device>, poll: Config.Poll)
    requires |devices| == |products|
    requires forall i | 0 <= i < |devices| :: devices[i].name == NameAt(products, i)
    ensures forall i, first ::
              Config.DuplicateName(i, first) !in Config.Problems(Config.NormalisedAll(devices, poll), poll)
  {
    var ready := Config.NormalisedAll(devices, poll);
    forall i | 0 <= i < |ready| ensures ready[i].name == NameAt(products, i) {
      var base := DeviceName(products[i]);
      NameIsTrimmed(products[i], Count(products[..i + 1], base));
    }
    forall i, j | 0 <= i < j < |ready| ensures ready[i].name != ready[j].name { NamesDiffer(products, i, j); }
    Config.DistinctNamesPass(ready, poll);
  }
}
