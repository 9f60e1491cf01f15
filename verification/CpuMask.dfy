/** CPU lists and masks as start-spdk-tgt and instance-manager read, split and print them. */
module CpuMask {
  import opened Wrappers
  import opened Text
  import opened Bits

  /** CPUs lo to hi; the bracketed form allows lo > hi, which covers nothing. */
  datatype Span = Span(lo: nat, hi: nat)

  predicate Covered(spans: seq<Span>, i: nat) { exists k :: 0 <= k < |spans| && spans[k].lo <= i <= spans[k].hi }

  predicate Ordered(spans: seq<Span>) { forall k :: 0 <= k < |spans| ==> spans[k].lo <= spans[k].hi }

  /** The mask whose bits are the CPUs that the spans cover. */
  ghost predicate IsMaskOf(mask: int, spans: seq<Span>) {
    mask >= 0 && forall i: nat :: Bit(mask, i) <==> Covered(spans, i)
  }

  lemma MaskOfIsUnique(a: int, b: int, spans: seq<Span>)
    requires IsMaskOf(a, spans) && IsMaskOf(b, spans)
    ensures a == b
  {
    SameBits(a, b);
  }

  // ----- reading -----

  const BLANKS: set<char> := {' ', '\t', '\n', '\r'}

  function TrimLeft(s: string, drop: set<char>): string {
    if s != "" && s[0] in drop then TrimLeft(s[1..], drop) else s
  }

  function TrimRight(s: string, drop: set<char>): string {
    if s != "" && s[|s| - 1] in drop then TrimRight(s[..|s| - 1], drop) else s
  }

  /** str.strip. */
  function Trim(s: string, drop: set<char>): string { TrimRight(TrimLeft(s, drop), drop) }

  /** int(s), of strings without sign or underscores. */
  function ToInt(s: string): Option<nat> { Parse(Trim(s, BLANKS), 10) }

  /** What precedes and what follows the first c. */
  function Cut(s: string, c: char): (string, string)
    requires c in s
  {
    if s[0] == c then ("", s[1..]) else var r := Cut(s[1..], c); ([s[0]] + r.0, r.1)
  }

  /** One part of the kernel's online list: an id or a-b with a <= b. */
  function OnlinePart(part: string): Option<Span> {
    if '-' in part then
      var (a, b) := (ToInt(Cut(part, '-').0), ToInt(Cut(part, '-').1));
      if a.Some? && b.Some? && a.value <= b.value then Some(Span(a.value, b.value)) else None
    else
      var a := ToInt(part);
      if a.Some? then Some(Span(a.value, a.value)) else None
  }

  /** One part of a bracketed list: lo, lo- or lo-hi, unchecked. */
  function BracketPart(part: string): Option<Span> {
    var lo := ToInt(if '-' in part then Cut(part, '-').0 else part);
    var hi := if '-' in part then Cut(part, '-').1 else "";
    var h := if hi == "" then lo else ToInt(hi);
    if lo.Some? && h.Some? then Some(Span(lo.value, h.value)) else None
  }

  /** The online list's parts; blank ones are skipped. */
  function OnlineParts(parts: seq<string>): Option<seq<Span>> {
    if parts == [] then Some([])
    else
      var n := |parts| - 1;
      var init := OnlineParts(parts[..n]);
      var part := Trim(parts[n], BLANKS);
      if init.None? || part == "" then init
      else
        var last := OnlinePart(part);
        if last.Some? then Some(init.value + [last.value]) else None
  }

  function BracketParts(parts: seq<string>): Option<seq<Span>> {
    if parts == [] then Some([])
    else
      var n := |parts| - 1;
      var init, last := BracketParts(parts[..n]), BracketPart(parts[n]);
      if init.Some? && last.Some? then Some(init.value + [last.value]) else None
  }

  function ReadOnline(text: string): Option<seq<Span>> { OnlineParts(Split(Trim(text, BLANKS), ',')) }

  function ReadBracket(text: string): Option<seq<Span>> { BracketParts(Split(Trim(text, {'[', ']'}), ',')) }

  predicate Prefixed(s: string, lower: char, upper: char) { |s| > 2 && s[0] == '0' && (s[1] == lower || s[1] == upper) }

  predicate AllZeros(s: string) { forall c :: c in s ==> c == '0' }

  /** int(s, 16), of strings without sign or underscores. */
  function ReadHex(s: string): Option<nat> { if Prefixed(s, 'x', 'X') then Parse(s[2..], 16) else Parse(s, 16) }

  /** int(s, 0), of strings without sign or underscores: the prefix tells the base, and a decimal
      numeral other than zero does not begin with a zero. */
  function ReadAnyBase(s: string): Option<nat> {
    if Prefixed(s, 'x', 'X') then Parse(s[2..], 16)
    else if Prefixed(s, 'o', 'O') then Parse(s[2..], 8)
    else if Prefixed(s, 'b', 'B') then Parse(s[2..], 2)
    else if |s| > 1 && s[0] == '0' && !AllZeros(s) then None
    else Parse(s, 10)
  }

  /** '0x{:x}'. */
  function HexText(m: nat): string { "0x" + Show(m, 16) }

  lemma HexRoundTrip(m: nat)
    ensures ReadHex(HexText(m)) == Some(m) && ReadAnyBase(HexText(m)) == Some(m)
  {
    ParseShow(m, 16);
    assert HexText(m)[2..] == Show(m, 16);
  }

  // ----- building masks -----

  lemma CoveredAppend(spans: seq<Span>, s: Span, i: nat)
    ensures Covered(spans + [s], i) <==> Covered(spans, i) || s.lo <= i <= s.hi
  {
    var t := spans + [s];
    assert t[|spans|] == s;
    assert forall k :: 0 <= k < |spans| ==> t[k] == spans[k];
  }

  /** for i in range(lo, hi + 1): mask |= 1 << i */
  method AddSpan(mask: int, s: Span, ghost spans: seq<Span>) returns (r: int)
    requires IsMaskOf(mask, spans)
    ensures IsMaskOf(r, spans + [s])
  {
    r := mask;
    var j := s.lo;
    while j <= s.hi
      invariant s.lo <= j && (s.lo <= s.hi ==> j <= s.hi + 1) && r >= 0
      invariant forall i: nat :: Bit(r, i) <==> Bit(mask, i) || (s.lo <= i <= s.hi && i < j)
    {
      ghost var was := r;
      r := Or(r, Pow2(j));
      OrNonNegative(was, Pow2(j));
      forall i: nat ensures Bit(r, i) <==> Bit(was, i) || i == j {
        BitOr(was, Pow2(j), i);
        BitPow2(j, i);
      }
      j := j + 1;
    }
    forall i: nat ensures Bit(r, i) <==> Covered(spans + [s], i) { CoveredAppend(spans, s, i); }
  }

  lemma EmptyMask()
    ensures IsMaskOf(0, [])
  {
    forall i: nat ensures !Bit(0, i) { BitZero(i); }
  }

  lemma MaskIsZero(mask: int, spans: seq<Span>)
    requires IsMaskOf(mask, spans)
    ensures mask == 0 <==> forall i: nat :: !Covered(spans, i)
  {
    if mask == 0 {
      forall i: nat ensures !Covered(spans, i) { BitZero(i); }
    } else {
      LowestIsLeast(mask);
    }
  }

  lemma {:induction false} OnlinePrefix(parts: seq<string>, k: nat)
    requires k <= |parts| && OnlineParts(parts[..k]).None?
    ensures OnlineParts(parts).None?
    decreases |parts|
  {
    if k < |parts| {
      assert parts[..|parts| - 1][..k] == parts[..k];
      OnlinePrefix(parts[..|parts| - 1], k);
    } else {
      assert parts[..k] == parts;
    }
  }

  lemma {:induction false} OnlineOrdered(parts: seq<string>)
    ensures OnlineParts(parts).Some? ==> Ordered(OnlineParts(parts).value)
  {
    if parts != [] { OnlineOrdered(parts[..|parts| - 1]); }
  }

  lemma {:induction false} BracketPrefix(parts: seq<string>, k: nat)
    requires k <= |parts| && BracketParts(parts[..k]).None?
    ensures BracketParts(parts).None?
    decreases |parts|
  {
    if k < |parts| {
      assert parts[..|parts| - 1][..k] == parts[..k];
      BracketPrefix(parts[..|parts| - 1], k);
    } else {
      assert parts[..k] == parts;
    }
  }

  /** The Python program of get_online_cpu_mask; None is its error exit. */
  method OnlineCpuMask(text: string) returns (mask: Option<int>)
    ensures mask.Some? <==> ReadOnline(text).Some? && ReadOnline(text).value != []
    ensures mask.Some? ==> mask.value > 0 && IsMaskOf(mask.value, ReadOnline(text).value)
  {
    var parts := Split(Trim(text, BLANKS), ',');
    var m, k := 0, 0;
    ghost var spans: seq<Span> := [];
    EmptyMask();
    while k < |parts|
      invariant 0 <= k <= |parts| && OnlineParts(parts[..k]) == Some(spans) && IsMaskOf(m, spans)
    {
      var part := Trim(parts[k], BLANKS);
      assert parts[..k + 1][..k] == parts[..k];
      k := k + 1;
      if part != "" {
        var s := OnlinePart(part);
        if s.None? {
          OnlinePrefix(parts, k);
          return None;
        }
        m := AddSpan(m, s.value, spans);
        spans := spans + [s.value];
      }
    }
    assert parts[..k] == parts;
    OnlineOrdered(parts);
    MaskIsZero(m, spans);
    if m == 0 {
      assert spans != [] ==> Covered(spans, spans[0].lo);
      return None;
    }
    assert spans == [] ==> forall i: nat :: !Covered(spans, i);
    return Some(m);
  }

  /** What split_spdk_cpumask reads before splitting: a bracketed list or a hexadecimal mask. */
  ghost predicate Denotes(text: string, mask: int) {
    var s := Trim(text, BLANKS);
    if s != "" && s[0] == '[' then ReadBracket(s).Some? && IsMaskOf(mask, ReadBracket(s).value)
    else ReadHex(s) == Some(mask)
  }

  lemma DenotesOne(text: string, a: int, b: int)
    requires Denotes(text, a) && Denotes(text, b)
    ensures a == b
  {
    hide IsMaskOf, ReadHex, ReadBracket, Trim;
    var s := Trim(text, BLANKS);
    if s != "" && s[0] == '[' { MaskOfIsUnique(a, b, ReadBracket(s).value); }
  }

  method ReadMask(text: string) returns (mask: Option<int>)
    ensures mask.Some? ==> mask.value >= 0 && Denotes(text, mask.value)
    ensures mask.None? ==> forall m :: !Denotes(text, m)
  {
    var s := Trim(text, BLANKS);
    if s == "" || s[0] != '[' {
      var h := ReadHex(s);
      return if h.Some? then Some(h.value) else None;
    }
    var parts := Split(Trim(s, {'[', ']'}), ',');
    var m, k := 0, 0;
    ghost var spans: seq<Span> := [];
    EmptyMask();
    while k < |parts|
      invariant 0 <= k <= |parts| && BracketParts(parts[..k]) == Some(spans) && IsMaskOf(m, spans)
    {
      var part := BracketPart(parts[k]);
      assert parts[..k + 1][..k] == parts[..k];
      k := k + 1;
      if part.None? {
        BracketPrefix(parts, k);
        return None;
      }
      m := AddSpan(m, part.value, spans);
      spans := spans + [part.value];
    }
    assert parts[..k] == parts;
    return Some(m);
  }

  /** split_spdk_cpumask: the main core is the least CPU of the mask, the poller mask holds exactly
      the other CPUs, and it is empty just when the mask is a power of two. */
  method SplitSpdkCpumask(text: string) returns (r: Option<(nat, string)>)
    ensures r.None? ==> forall m :: m > 0 ==> !Denotes(text, m)
    ensures r.Some? ==> exists m :: m > 0 && Denotes(text, m) && Splits(m, r.value.0, r.value.1)
  {
    hide Denotes, And, BitLength;
    var mask := ReadMask(text);
    if mask.None? { return None; }
    var m := mask.value;
    if m <= 0 {
      forall x | x > 0 ensures !Denotes(text, x) {
        if Denotes(text, x) { DenotesOne(text, x, m); }
      }
      return None;
    }
    var low := And(m, -m);
    var rest := And(m, Not(low));
    SplitParts(m);
    SplitTexts(m);
    hide Splits, Ones, HexText;
    return Some((BitLength(low) - 1, Pollers(rest)));
  }

  /** "0x{:x}".format(rest) if rest else "" */
  function Pollers(rest: int): string
    requires rest >= 0
  {
    if rest != 0 then HexText(rest) else ""
  }

  lemma SplitTexts(m: int)
    requires m > 0
    ensures var low := And(m, -m); var rest := And(m, Not(low));
            low > 0 && BitLength(low) >= 1 && rest >= 0 && Splits(m, BitLength(low) - 1, Pollers(rest))
  {
    SplitParts(m);
    var rest := And(m, Not(And(m, -m)));
    if rest > 0 { HexRoundTrip(rest); }
    hide And, Ones, ReadHex, BitLength;
  }

  /** core and the poller text are m's least CPU and the mask of its other CPUs. */
  ghost predicate Splits(m: int, core: nat, pollers: string)
    requires m > 0
  {
    && core in Ones(m) && (forall i :: i in Ones(m) ==> core <= i)
    && (pollers == "" <==> m == Pow2(core))
    && (pollers == "" ==> Ones(m) == {core})
    && (pollers != "" ==> ReadHex(pollers).Some? && Ones(ReadHex(pollers).value) == Ones(m) - {core})
  }

  lemma SplitParts(m: int)
    requires m > 0
    ensures var low := And(m, -m); var rest := And(m, Not(low));
            && low > 0 && low == Pow2(BitLength(low) - 1) && rest >= 0
            && BitLength(low) - 1 in Ones(m) && (forall i :: i in Ones(m) ==> BitLength(low) - 1 <= i)
            && Ones(rest) == Ones(m) - {BitLength(low) - 1}
            && (rest == 0 <==> m == low) && (m == low ==> Ones(m) == {BitLength(low) - 1})
  {
    var k := Lowest(m);
    var low := And(m, -m);
    AndNegation(m);
    BitLengthPow2(k);
    LowestIsLeast(m);
    var rest := And(m, Not(low));
    AndNonNegative(m, Not(low));
    forall i: nat ensures i in Ones(rest) <==> i in Ones(m) && i != k {
      InOnes(rest, i);
      InOnes(m, i);
      BitAnd(m, Not(low), i);
      BitNot(low, i);
      BitPow2(k, i);
    }
    forall i: nat ensures i in Ones(low) <==> i == k {
      InOnes(low, i);
      BitPow2(k, i);
    }
    InOnes(m, k);
    forall i | i in Ones(m) ensures k <= i { InOnes(m, i); }
    assert Ones(rest) == Ones(m) - {k};
    assert Ones(low) == {k};
    if rest == 0 {
      assert Ones(rest) == {};
      assert Ones(m) == {k};
      OnesDetermine(m, low);
    } else {
      LowestIsLeast(rest);
      InOnes(rest, Lowest(rest));
    }
  }

  // ----- the two readers agree -----

  /** A list as the kernel writes it. */
  function PartText(s: Span): string {
    if s.lo == s.hi then Show(s.lo, 10) else Show(s.lo, 10) + "-" + Show(s.hi, 10)
  }

  function PartTexts(spans: seq<Span>): seq<string> {
    if spans == [] then [] else PartTexts(spans[..|spans| - 1]) + [PartText(spans[|spans| - 1])]
  }

  function ListText(spans: seq<Span>): string { Join(PartTexts(spans), ',') }

  predicate Plain(s: string, extra: set<char>) { forall c :: c in s ==> Numeral(c) || c in extra }

  lemma {:induction false} TrimNothing(s: string, drop: set<char>)
    requires s != "" ==> s[0] !in drop && s[|s| - 1] !in drop
    ensures Trim(s, drop) == s
  {
  }

  lemma {:induction false} CutAt(a: string, b: string, c: char)
    requires c !in a
    ensures Cut(a + [c] + b, c) == (a, b)
  {
    var s := a + [c] + b;
    if a == "" {
      assert s[1..] == b;
    } else {
      assert s[1..] == a[1..] + [c] + b;
      CutAt(a[1..], b, c);
      assert [a[0]] + a[1..] == a;
    }
  }

  lemma NotBlank(c: char)
    requires Numeral(c)
    ensures c !in BLANKS
  {
  }

  lemma NumeralRead(n: nat)
    ensures ToInt(Show(n, 10)) == Some(n) && Plain(Show(n, 10), {})
  {
    var s := Show(n, 10);
    ParseShow(n, 10);
    assert s[0] in s && s[|s| - 1] in s;
    NotBlank(s[0]);
    NotBlank(s[|s| - 1]);
    hide Parse, Show, Trim, Numeral;
    TrimNothing(s, BLANKS);
  }

  lemma PartRead(s: Span)
    requires s.lo <= s.hi
    ensures OnlinePart(PartText(s)) == Some(s) && BracketPart(PartText(s)) == Some(s)
    ensures PartText(s) != "" && Plain(PartText(s), {'-'}) && Trim(PartText(s), BLANKS) == PartText(s)
  {
    hide Show, Trim, ToInt;
    NumeralRead(s.lo);
    NumeralRead(s.hi);
    var p := PartText(s);
    if s.lo != s.hi {
      CutAt(Show(s.lo, 10), Show(s.hi, 10), '-');
    }
    PlainNotBlank(p);
    TrimNothing(p, BLANKS);
  }

  lemma PlainNotBlank(s: string)
    requires s != "" && Plain(s, {'-'})
    ensures s[0] !in BLANKS && s[|s| - 1] !in BLANKS
  {
    assert s[0] in s && s[|s| - 1] in s;
  }

  lemma {:induction false} PartsRead(spans: seq<Span>)
    requires Ordered(spans)
    ensures OnlineParts(PartTexts(spans)) == Some(spans) && BracketParts(PartTexts(spans)) == Some(spans)
  {
    hide OnlineParts, BracketParts, OnlinePart, BracketPart, PartText, Plain, Trim;
    if spans != [] {
      var n := |spans| - 1;
      var init, s := spans[..n], spans[n];
      assert spans == init + [s];
      PartsRead(init);
      PartRead(s);
      PartsExtend(PartTexts(init), init, PartText(s), s);
    } else {
      NoParts();
    }
  }

  lemma NoParts()
    ensures OnlineParts([]) == Some([]) && BracketParts([]) == Some([])
  {
  }

  lemma {:induction false} PartsPlain(spans: seq<Span>)
    requires Ordered(spans)
    ensures |PartTexts(spans)| == |spans|
    ensures forall p :: p in PartTexts(spans) ==> Plain(p, {'-'}) && p != ""
  {
    hide OnlinePart, BracketPart, PartText, Plain, Trim;
    if spans != [] {
      PartsPlain(spans[..|spans| - 1]);
      PartRead(spans[|spans| - 1]);
    }
  }

  lemma PartsExtend(parts: seq<string>, spans: seq<Span>, part: string, s: Span)
    requires OnlineParts(parts) == Some(spans) && BracketParts(parts) == Some(spans)
    requires part != "" && Trim(part, BLANKS) == part && OnlinePart(part) == Some(s) && BracketPart(part) == Some(s)
    ensures OnlineParts(parts + [part]) == Some(spans + [s]) && BracketParts(parts + [part]) == Some(spans + [s])
  {
    hide OnlinePart, BracketPart, Trim;
    assert (parts + [part])[..|parts|] == parts;
  }

  lemma {:induction false} JoinPlain(parts: seq<string>)
    requires parts != [] && forall p :: p in parts ==> Plain(p, {'-'}) && p != ""
    ensures Join(parts, ',') != "" && Plain(Join(parts, ','), {'-', ','})
  {
    assert parts[0] in parts;
    if |parts| > 1 {
      assert forall p :: p in parts[1..] ==> p in parts;
      JoinPlain(parts[1..]);
    }
  }

  lemma {:induction false} TrimBrackets(s: string)
    requires s != "" && Plain(s, {'-', ','})
    ensures Trim("[" + s + "]", {'[', ']'}) == s
    ensures Trim("[" + s + "]", BLANKS) == "[" + s + "]" && Trim(s, BLANKS) == s
  {
    var drop := {'[', ']'};
    var t := "[" + s + "]";
    assert t[1..] == s + "]";
    assert (s + "]")[..|s|] == s;
    assert s[0] in s && s[|s| - 1] in s;
    assert TrimLeft(s + "]", drop) == s + "]";
    assert TrimRight(s, drop) == s;
    assert TrimRight(s + "]", drop) == TrimRight((s + "]")[..|s|], drop);
    TrimNothing(t, BLANKS);
    TrimNothing(s, BLANKS);
  }

  /** On every list of ids and ordered ranges the two scripts read the same spans, so by
      MaskOfIsUnique they compute the same mask. */
  lemma ReadersAgree(spans: seq<Span>)
    requires spans != [] && Ordered(spans)
    ensures ReadOnline(ListText(spans)) == Some(spans)
    ensures ReadBracket("[" + ListText(spans) + "]") == Some(spans)
    ensures Trim("[" + ListText(spans) + "]", BLANKS) == "[" + ListText(spans) + "]"
  {
    PartsRead(spans);
    PartsPlain(spans);
    JoinPlain(PartTexts(spans));
    SplitJoin(PartTexts(spans), ',');
    TrimBrackets(ListText(spans));
  }

  lemma OnePart(s: string)
    requires s != "" && Plain(s, {'-'})
    ensures ReadOnline(s) == (var p := OnlinePart(s); if p.Some? then Some([p.value]) else None)
    ensures ReadBracket("[" + s + "]") == (var p := BracketPart(s); if p.Some? then Some([p.value]) else None)
  {
    TrimBrackets(s);
    SplitPlain(s, ',');
    assert [s][..0] == [];
    hide OnlinePart, BracketPart, Trim, Split;
    assert OnlineParts([]) == Some([]) && BracketParts([]) == Some([]);
    var p, b := OnlinePart(s), BracketPart(s);
    if p.Some? { assert [] + [p.value] == [p.value]; }
    if b.Some? { assert [] + [b.value] == [b.value]; }
  }

  /** Off that domain they differ: a descending range is an error to one script and empty to the
      other, and an open range is an error to one and a single CPU to the other. */
  lemma ReadersDiffer(lo: nat, hi: nat)
    requires hi < lo
    ensures var t := Show(lo, 10) + "-" + Show(hi, 10);
            ReadOnline(t) == None && ReadBracket("[" + t + "]") == Some([Span(lo, hi)])
    ensures var t := Show(lo, 10) + "-" + "";
            ReadOnline(t) == None && ReadBracket("[" + t + "]") == Some([Span(lo, lo)])
  {
    NumeralRead(lo);
    NumeralRead(hi);
    assert ToInt("") == None;
    var a, b := Show(lo, 10), Show(hi, 10);
    assert b != "";
    CutAt(a, b, '-');
    CutAt(a, "", '-');
    hide ToInt, Cut, Trim, Split, Show, ReadOnline, ReadBracket;
    OnePart(a + "-" + b);
    OnePart(a + "-" + "");
  }
}
