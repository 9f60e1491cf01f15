/** The affinity masks that start-spdk-tgt writes, as text the kernel reads back. */
module Affinity {
  import opened Wrappers
  import opened Text
  import opened Bits
  import opened CpuMask

  const GROUP: nat := 0x1_0000_0000

  lemma GroupIsPowerOfTwo()
    ensures Pow2(32) == GROUP && Power(16, 8) == GROUP
  {
    assert Pow2(8) == 256;
    assert Pow2(16) == 256 * Pow2(8);
    assert Pow2(24) == 256 * Pow2(16);
    assert Pow2(32) == 256 * Pow2(24);
    assert Power(16, 4) == 65536;
    assert Power(16, 8) == 65536 * Power(16, 4);
  }

  /** The 32-bit groups of m, lowest first. */
  function GroupsOf(m: nat): seq<string> {
    if m == 0 then [] else [Pad(m % GROUP, 8)] + GroupsOf(m / GROUP)
  }

  function Reversed(s: seq<string>): seq<string> { if s == [] then [] else Reversed(s[1..]) + [s[0]] }

  /** The kernel's reading: comma-separated hexadecimal groups of at most 32 bits, highest first. */
  function ReadGroups(parts: seq<string>): Option<nat> {
    if parts == [] then Some(0)
    else
      var n := |parts| - 1;
      var hi, lo := ReadGroups(parts[..n]), Parse(parts[n], 16);
      if hi.Some? && lo.Some? && |parts[n]| <= 8 then Some(hi.value * GROUP + lo.value) else None
  }

  function KernelMask(text: string): Option<nat> { ReadGroups(Split(text, ',')) }

  lemma GroupText(g: nat)
    requires g < GROUP
    ensures Parse(Pad(g, 8), 16) == Some(g) && ',' !in Pad(g, 8)
  {
    GroupIsPowerOfTwo();
    ParsePad(g, 8);
    hide Pad, Power, Parse, Pow2;
  }

  lemma ReadGroupsLast(parts: seq<string>, last: string, hi: nat, lo: nat)
    requires ReadGroups(parts) == Some(hi) && Parse(last, 16) == Some(lo) && |last| <= 8
    ensures ReadGroups(parts + [last]) == Some(hi * GROUP + lo)
  {
    hide Parse;
    assert (parts + [last])[..|parts|] == parts;
  }

  lemma {:induction false} GroupsRoundTrip(m: nat)
    ensures ReadGroups(Reversed(GroupsOf(m))) == Some(m)
    ensures forall p :: p in Reversed(GroupsOf(m)) ==> ',' !in p
    ensures m > 0 ==> Reversed(GroupsOf(m)) != []
  {
    hide Pad, Parse;
    if m > 0 {
      var lo, hi := m % GROUP, m / GROUP;
      GroupsRoundTrip(hi);
      GroupText(lo);
      var q := Reversed(GroupsOf(hi));
      assert Reversed(GroupsOf(m)) == q + [Pad(lo, 8)] by { assert GroupsOf(m)[1..] == GroupsOf(hi); }
      hide ReadGroups, GroupsOf, Reversed;
      ReadGroupsLast(q, Pad(lo, 8), hi, lo);
    }
  }

  lemma ZeroText()
    ensures KernelMask("0") == Some(0)
  {
    SplitPlain("0", ',');
    assert ["0"][..0] == [];
  }

  lemma LowGroup(m: nat)
    ensures And(m, GROUP - 1) == m % GROUP
  {
    hide And, Pow2;
    GroupIsPowerOfTwo();
    AndLow(m, 32);
  }

  /** The kernel takes the first of two groups for the high 32 bits. */
  lemma HighGroupFirst(hi: nat, lo: nat)
    requires hi < 0x1_0000_0000 && lo < 0x1_0000_0000
    ensures KernelMask(Pad(hi, 8) + "," + Pad(lo, 8)) == Some(hi * 0x1_0000_0000 + lo)
  {
    GroupText(hi);
    GroupText(lo);
    var a, b := Pad(hi, 8), Pad(lo, 8);
    SplitPlain(b, ',');
    SplitAt(a, b, ',');
    SplitPlain(a, ',');
    hide Pad, Parse, Split;
    hide ReadGroups;
    assert ReadGroups([]) == Some(0) by { NoGroups(); }
    ReadGroupsLast([], a, 0, hi);
    ReadGroupsLast([a], b, hi, lo);
    assert [] + [a] == [a];
  }

  lemma NoGroups()
    ensures ReadGroups([]) == Some(0)
  {
  }

  lemma {:induction false} GroupsOfEight(m: nat)
    ensures forall p :: p in Reversed(GroupsOf(m)) ==> |p| == 8
  {
    hide Pad;
    if m > 0 { GroupsOfEight(m / GROUP); }
  }

  /** format_affinity_mask: whatever the mask, the kernel reads it back from the text, and unless it
      is zero every group has eight digits. */
  method FormatAffinityMask(mask: nat) returns (text: string)
    ensures KernelMask(text) == Some(mask)
    ensures mask == 0 ==> text == "0"
    ensures mask > 0 ==> forall p :: p in Split(text, ',') ==> |p| == 8
  {
    hide And, Pad, Parse, ReadGroups, Split, Join, Reversed;
    if mask == 0 {
      ZeroText();
      return "0";
    }
    var m, groups := mask, [];
    while m > 0
      invariant m >= 0 && groups + GroupsOf(m) == GroupsOf(mask)
    {
      LowGroup(m);
      assert groups + ([Pad(m % GROUP, 8)] + GroupsOf(m / GROUP)) == (groups + [Pad(m % GROUP, 8)]) + GroupsOf(m / GROUP);
      groups := groups + [Pad(And(m, GROUP - 1), 8)];
      m := m / GROUP;
    }
    hide GroupsOf;
    assert groups == GroupsOf(mask);
    GroupsRoundTrip(mask);
    GroupsOfEight(mask);
    SplitJoin(Reversed(groups), ',');
    text := Join(Reversed(groups), ',');
  }

  /** The test on get_online_cpu_mask's output: ^0x[0-9a-fA-F]+$, and not 0x0. */
  predicate GoodOnline(s: string) { Prefixed(s, 'x', 'x') && Parse(s[2..], 16).Some? && s != "0x0" }

  function Online(s: string): nat
    requires GoodOnline(s)
  {
    Parse(s[2..], 16).value
  }

  lemma PrintedOnline(m: nat)
    ensures GoodOnline(HexText(m)) <==> m > 0
    ensures m > 0 ==> Online(HexText(m)) == m
  {
    HexRoundTrip(m);
    ParseShow(m, 16);
    ZeroShown();
    hide Show, Parse;
    var s := HexText(m);
    assert s[2..] == Show(m, 16);
    if s == "0x0" {
      assert Show(m, 16) == "0";
      ShowInjective(m, 0, 16);
    }
  }

  lemma ZeroShown()
    ensures Show(0, 16) == "0"
  {
  }

  /** The text that the set functions write, or None where they refuse: on a bad online mask, and
      when no CPU is left. It stands for the online CPUs outside the SPDK mask, at least one; a mask
      that Python cannot read makes it empty. */
  method AffinityExcluding(onlineHex: string, spdkHex: string) returns (text: Option<string>)
    ensures !GoodOnline(onlineHex) ==> text == None
    ensures GoodOnline(onlineHex) && ReadAnyBase(spdkHex).None? ==> text == Some("")
    ensures GoodOnline(onlineHex) && ReadAnyBase(spdkHex).Some? ==>
              var online, spdk := Online(onlineHex), ReadAnyBase(spdkHex).value;
              && (text.None? <==> Ones(online) <= Ones(spdk))
              && (text.Some? ==> KernelMask(text.value).Some? && Ones(online) - Ones(spdk) != {}
                                 && Ones(KernelMask(text.value).value) == Ones(online) - Ones(spdk))
  {
    hide KernelMask, ReadAnyBase, And, Ones;
    if !GoodOnline(onlineHex) { return None; }
    if ReadAnyBase(spdkHex).None? { return Some(""); }
    var online, spdk := Online(onlineHex), ReadAnyBase(spdkHex).value;
    var inv := And(online, Not(spdk));
    Remaining(online, spdk);
    if inv == 0 { return None; }
    var t := FormatAffinityMask(inv);
    return Some(t);
  }

  /** online & ~spdk */
  lemma Remaining(online: nat, spdk: nat)
    ensures And(online, Not(spdk)) >= 0 && Ones(And(online, Not(spdk))) == Ones(online) - Ones(spdk)
    ensures And(online, Not(spdk)) == 0 <==> Ones(online) <= Ones(spdk)
    ensures And(online, Not(spdk)) != 0 ==> Ones(online) - Ones(spdk) != {}
  {
    var inv := And(online, Not(spdk));
    AndNonNegative(online, Not(spdk));
    forall i: nat ensures i in Ones(inv) <==> i in Ones(online) && i !in Ones(spdk) {
      InOnes(inv, i);
      InOnes(online, i);
      InOnes(spdk, i);
      BitAnd(online, Not(spdk), i);
      BitNot(spdk, i);
    }
    assert Ones(inv) == Ones(online) - Ones(spdk);
    if inv == 0 {
      assert Ones(inv) == {};
    } else {
      LowestIsLeast(inv);
      InOnes(inv, Lowest(inv));
    }
  }

  /** The text that the clear functions write. */
  method AffinityOfAll(onlineHex: string) returns (text: Option<string>)
    ensures text.Some? <==> GoodOnline(onlineHex)
    ensures text.Some? ==> KernelMask(text.value) == Some(Online(onlineHex))
  {
    if !GoodOnline(onlineHex) { return None; }
    var t := FormatAffinityMask(Online(onlineHex));
    return Some(t);
  }

  /** Both scripts on one 0x mask: interrupts go to the online CPUs outside the mask, the admin
      reactor to its least CPU, the pollers to its other CPUs; no CPU serves two of them. */
  method PlaceWork(online: nat, spdk: nat) returns (affinity: Option<string>, split: Option<(nat, string)>)
    requires spdk > 0 && online > 0
    ensures affinity.None? <==> Ones(online) <= Ones(spdk)
    ensures affinity.Some? ==>
              KernelMask(affinity.value).Some? && Ones(KernelMask(affinity.value).value) == Ones(online) - Ones(spdk)
    ensures split.Some? && Splits(spdk, split.value.0, split.value.1)
    ensures affinity.Some? ==>
              && split.value.0 !in Ones(KernelMask(affinity.value).value)
              && (split.value.1 != "" ==>
                    Ones(ReadHex(split.value.1).value) !! Ones(KernelMask(affinity.value).value) + {split.value.0})
  {
    PrintedOnline(online);
    HexRoundTrip(spdk);
    affinity := AffinityExcluding(HexText(online), HexText(spdk));
    split := SplitSpdkCpumask(HexText(spdk));
    ParseShow(spdk, 16);
    TrimNothing(HexText(spdk), BLANKS);
    assert Denotes(HexText(spdk), spdk);
    assert split.Some?;
    ghost var m :| m > 0 && Denotes(HexText(spdk), m) && Splits(m, split.value.0, split.value.1);
    assert m == spdk;
  }

  // ----- masks without their prefix -----

  lemma {:induction false} DecimalBelowHex(s: string)
    requires Parse(s, 10).Some?
    ensures Parse(s, 16).Some? && Parse(s, 10).value <= Parse(s, 16).value
    ensures Parse(s, 10).value < 10 <==> Parse(s, 10) == Parse(s, 16)
  {
    if |s| > 1 { DecimalBelowHex(s[..|s| - 1]); }
  }

  lemma {:induction false} NoLeadingZero(s: string)
    requires Parse(s, 10).Some? && s[0] != '0'
    ensures Parse(s, 10).value >= if |s| > 1 then 10 else 1
  {
    if |s| > 1 {
      NoLeadingZero(s[..|s| - 1]);
      assert s[..|s| - 1][0] == s[0];
    }
  }

  lemma {:induction false} Zeros(s: string)
    requires s != "" && AllZeros(s)
    ensures Parse(s, 10) == Some(0) && Parse(s, 16) == Some(0)
  {
    assert s[|s| - 1] in s;
    if |s| > 1 {
      var t := s[..|s| - 1];
      forall c | c in t ensures c == '0' { assert c in s; }
      Zeros(t);
    }
  }

  lemma {:induction false} ParseDigits(s: string, base: nat, k: nat)
    requires IsBase(base) && Parse(s, base).Some? && k < |s|
    ensures DigitOf(s[k], base).Some?
  {
    if |s| > 1 && k < |s| - 1 { ParseDigits(s[..|s| - 1], base, k); }
  }

  /** Read in base 16, the prefix of a binary numeral is two more digits. */
  lemma {:induction false} BinaryBelowHex(s: string)
    requires Prefixed(s, 'b', 'B') && Parse(s[2..], 2).Some?
    ensures Parse(s, 16).Some? && Parse(s[2..], 2).value < Parse(s, 16).value
  {
    var n := |s| - 1;
    var t := s[..n];
    assert s[2..][..n - 2] == t[2..];
    if |s| == 3 {
      assert t[..1] == "0";
      assert Parse("0", 16) == Some(0);
      assert Parse(t, 16) == Some(11);
    } else {
      BinaryBelowHex(t);
    }
  }

  /** A single decimal digit, or nothing but zeros. */
  predicate SameInBoth(s: string) { s != "" && (AllZeros(s) || (|s| == 1 && '0' <= s[0] <= '9')) }

  /** Without 0x the two scripts, of which one reads in base 16 and the other goes by the prefix,
      read the same mask exactly where it is a single decimal digit or zero; where they differ the
      reading in base 16 is larger or the only one, except that it refuses octal numerals. */
  lemma UnprefixedReadings(s: string)
    requires !Prefixed(s, 'x', 'X')
    ensures ReadHex(s).Some? ==> (ReadAnyBase(s) == ReadHex(s) <==> SameInBoth(s))
    ensures ReadHex(s).Some? && ReadAnyBase(s).Some? ==> ReadAnyBase(s).value <= ReadHex(s).value
    ensures ReadHex(s).None? ==> (ReadAnyBase(s).Some? <==> Prefixed(s, 'o', 'O') && Parse(s[2..], 8).Some?)
  {
    if Prefixed(s, 'o', 'O') {
      if Parse(s, 16).Some? { ParseDigits(s, 16, 1); }
    } else if Prefixed(s, 'b', 'B') {
      assert s[1] in s && s[1] != '0';
      if Parse(s[2..], 2).Some? { BinaryBelowHex(s); }
    } else if s != "" && AllZeros(s) {
      Zeros(s);
    } else if Parse(s, 10).Some? {
      DecimalBelowHex(s);
      if s[0] != '0' { NoLeadingZero(s); }
      else if |s| == 1 { assert s == "0"; }
    } else if |s| == 1 {
      ParseDigit(s[0], 16);
      ParseDigit(s[0], 10);
    }
  }

  /** A mask given without its prefix means different CPUs to the two scripts. */
  lemma UnprefixedMaskDiffers()
    ensures ReadHex("10") == Some(16) && ReadAnyBase("10") == Some(10)
  {
    assert "10"[..1] == "1";
  }
}
