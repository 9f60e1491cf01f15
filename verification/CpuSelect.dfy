/** The first N CPUs of a cgroup cpuset, as start-spdk-tgt picks them. */
module CpuSelect {
  import opened Wrappers
  import opened Lists
  import opened Text
  import opened Bits
  import opened CpuMask

  /** One comma-separated token of the cpuset. */
  datatype Token = Id(n: nat) | Stride(lo: nat, hi: nat, step: nat) | Unreadable

  predicate WellFormed(t: Token) { !t.Unreadable? && (t.Stride? ==> t.step > 0 && t.lo <= t.hi) }

  // ----- reading the cpuset -----

  predicate Separator(c: char) { c == ',' || c == ' ' || c == '\t' || c == '\n' }

  predicate Unbroken(s: string) { forall c :: c in s ==> !Separator(c) }

  function FirstWord(s: string): (w: string)
    ensures w <= s && Unbroken(w)
  {
    if s == "" || Separator(s[0]) then "" else [s[0]] + FirstWord(s[1..])
  }

  /** $(echo "$cpu_set" | tr ',' ' ') */
  function Words(s: string): seq<string>
    decreases |s|
  {
    if s == "" then []
    else if Separator(s[0]) then Words(s[1..])
    else var w := FirstWord(s); [w] + Words(s[|w|..])
  }

  /** $((s)) of an empty string or a numeral; a leading zero means octal. */
  function ShellInt(s: string): Option<nat> {
    if s == "" then Some(0)
    else if |s| > 2 && s[0] == '0' && (s[1] == 'x' || s[1] == 'X') then Parse(s[2..], 16)
    else if |s| > 1 && s[0] == '0' then Parse(s[1..], 8)
    else Parse(s, 10)
  }

  /** cut -d c -f1 */
  function Before(s: string, c: char): string { if c in s then Cut(s, c).0 else s }

  /** cut -d c -f2, where there is a c. */
  function Second(s: string, c: char): string
    requires c in s
  {
    Before(Cut(s, c).1, c)
  }

  function ReadWord(w: string): Token {
    if '-' !in w then
      var n := ShellInt(w);
      if n.Some? then Id(n.value) else Unreadable
    else
      var end := Second(w, '-');
      var lo, hi := ShellInt(Before(w, '-')), ShellInt(Before(end, ':'));
      var step := ShellInt(if ':' in end then Second(end, ':') else "1");
      if lo.Some? && hi.Some? && step.Some? then Stride(lo.value, hi.value, step.value) else Unreadable
  }

  function Tokens(words: seq<string>): (ts: seq<Token>)
    ensures |ts| == |words|
    ensures forall k :: 0 <= k < |ts| ==> ts[k] == ReadWord(words[k])
  {
    seq(|words|, k requires 0 <= k < |words| => ReadWord(words[k]))
  }

  // ----- a cpuset as the kernel prints it -----

  function TokenText(t: Token): string
    requires !t.Unreadable?
  {
    if t.Id? then Show(t.n, 10)
    else Show(t.lo, 10) + "-" + (if t.step == 1 then Show(t.hi, 10) else Show(t.hi, 10) + ":" + Show(t.step, 10))
  }

  function TokenTexts(ts: seq<Token>): (r: seq<string>)
    requires forall t :: t in ts ==> !t.Unreadable?
    ensures |r| == |ts|
    ensures forall k :: 0 <= k < |r| ==> r[k] == TokenText(ts[k])
  {
    seq(|ts|, k requires 0 <= k < |ts| => TokenText(ts[k]))
  }

  lemma NumeralIn(n: nat)
    ensures ShellInt(Show(n, 10)) == Some(n) && forall c :: c in Show(n, 10) ==> '0' <= c <= '9'
  {
    hide Show, Parse;
    ParseShow(n, 10);
    ShowLeads(n, 10);
    ShowDigits(n);
    if n == 0 { ZeroIsZero(); }
  }

  lemma ZeroIsZero()
    ensures Show(0, 10) == "0"
  {
  }

  lemma TokenReads(t: Token)
    requires !t.Unreadable?
    ensures ReadWord(TokenText(t)) == t && TokenText(t) != "" && Unbroken(TokenText(t))
  {
    hide Show, ShellInt, Cut;
    match t
    case Id(n) => NumeralIn(n);
    case Stride(lo, hi, step) =>
      NumeralIn(lo);
      NumeralIn(hi);
      NumeralIn(step);
      var a, b, c := Show(lo, 10), Show(hi, 10), Show(step, 10);
      var end := if step == 1 then b else b + ":" + c;
      CutAt(a, end, '-');
      CutAt(b, c, ':');
      assert step == 1 ==> ShellInt("1") == Some(1) by { OneIsOne(); }
  }

  /** Shell arithmetic: empty is zero, a leading zero is octal and 0x hexadecimal. */
  lemma ShellReadings()
    ensures ShellInt("") == Some(0) && ShellInt("10") == Some(10)
    ensures ShellInt("010") == Some(8) && ShellInt("08") == None && ShellInt("0x10") == Some(16)
  {
    assert "10"[..1] == "1";
    assert "010"[1..] == "10" && "08"[1..] == "8" && "0x10"[2..] == "10";
  }

  lemma OneIsOne()
    ensures ShellInt("1") == Some(1)
  {
  }

  lemma {:induction false} WordsOfJoin(words: seq<string>)
    requires forall w :: w in words ==> w != "" && Unbroken(w)
    ensures Words(Join(words, ',')) == words
  {
    hide Words, Unbroken;
    if words == [] {
      NoWords();
    } else {
      var w, more := words[0], words[1..];
      assert words == [w] + more && w in words;
      forall x | x in more ensures x != "" && Unbroken(x) { assert x in words; }
      WordsOfJoin(more);
      WordThen(w, ',', Join(more, ','));
      if more == [] { WordAlone(w); }
    }
  }

  lemma NoWords()
    ensures Words("") == []
  {
  }

  /** Commas, blanks, tabs and line ends part the words. */
  lemma WordThen(w: string, c: char, rest: string)
    requires w != "" && Unbroken(w) && c in {',', ' ', '\t', '\n'}
    ensures Words(w + [c] + rest) == [w] + Words(rest)
  {
    var s, tail := w + [c] + rest, [c] + rest;
    assert s == w + tail && s[|w|..] == tail && tail[1..] == rest;
    FirstWordIs(w, tail);
    assert w[0] in w && s[0] == w[0];
    assert Words(tail) == Words(rest);
  }

  lemma WordAlone(w: string)
    requires w != "" && Unbroken(w)
    ensures Words(w) == [w]
  {
    assert w + "" == w;
    FirstWordIs(w, "");
    assert w[0] in w;
    assert w[|w|..] == "";
  }

  lemma {:induction false} FirstWordIs(w: string, rest: string)
    requires Unbroken(w) && (rest == "" || Separator(rest[0]))
    ensures FirstWord(w + rest) == w
  {
    if w == "" {
      assert w + rest == rest;
    } else {
      assert (w + rest)[1..] == w[1..] + rest;
      FirstWordIs(w[1..], rest);
    }
  }

  /** What the kernel prints is read back, whatever ids, ranges and strides the cpuset has. */
  lemma KernelTextReads(ts: seq<Token>)
    requires forall t :: t in ts ==> !t.Unreadable?
    ensures Tokens(Words(Join(TokenTexts(ts), ','))) == ts
  {
    hide Words, Join, TokenText, ReadWord, Unbroken;
    var words := TokenTexts(ts);
    forall k | 0 <= k < |ts|
      ensures ReadWord(words[k]) == ts[k] && words[k] != "" && Unbroken(words[k])
    {
      TokenReads(ts[k]);
    }
    WordsOfJoin(words);
  }

  // ----- what the cpuset means -----

  function Strided(lo: nat, hi: nat, step: nat): seq<nat>
    requires step > 0
    decreases hi + 1 - lo
  {
    if lo > hi then [] else [lo] + Strided(lo + step, hi, step)
  }

  function Ids(t: Token): seq<nat>
    requires WellFormed(t)
  {
    if t.Id? then [t.n] else Strided(t.lo, t.hi, t.step)
  }

  /** The cpuset flattened, up to its first malformed token. */
  function Flatten(ts: seq<Token>): seq<nat> {
    if ts == [] || !WellFormed(ts[0]) then [] else Ids(ts[0]) + Flatten(ts[1..])
  }

  predicate AllWellFormed(ts: seq<Token>) { forall k :: 0 <= k < |ts| ==> WellFormed(ts[k]) }

  function Take(s: seq<nat>, n: nat): seq<nat> { if n <= |s| then s[..n] else s }

  /** What the selection is, in one look at the whole cpuset. */
  function FirstCpus(ts: seq<Token>, n: nat): Option<seq<nat>> {
    if |Flatten(ts)| < n && !AllWellFormed(ts) then None else Some(Take(Flatten(ts), n))
  }

  lemma {:induction false} StridedMembers(lo: nat, hi: nat, step: nat, x: nat)
    requires step > 0
    ensures x in Strided(lo, hi, step) <==> lo <= x <= hi && (x - lo) % step == 0
    decreases hi + 1 - lo
  {
    if lo <= hi {
      StridedMembers(lo + step, hi, step, x);
      if x >= lo + step { StepBack(x - lo, step); }
      else if x > lo { Between(x - lo, step); }
    }
  }

  lemma {:induction false} StridedAscends(lo: nat, hi: nat, step: nat)
    requires step > 0
    ensures Rises(Strided(lo, hi, step))
    ensures forall x :: x in Strided(lo, hi, step) ==> lo <= x <= hi
    decreases hi + 1 - lo
  {
    hide Rises;
    if lo > hi {
      NothingRises();
    } else {
      var rest := Strided(lo + step, hi, step);
      StridedAscends(lo + step, hi, step);
      RisesFrom(lo, rest);
    }
  }

  lemma NothingRises()
    ensures Rises([])
  {
  }

  lemma RisesFrom(x: nat, s: seq<nat>)
    requires Rises(s) && forall y :: y in s ==> x < y
    ensures Rises([x] + s)
  {
    var r := [x] + s;
    forall i, j | 0 <= i < j < |r| ensures r[i] < r[j] {
      assert r[j] == s[j - 1] && s[j - 1] in s;
    }
  }

  predicate Rises(s: seq<nat>) { forall i, j :: 0 <= i < j < |s| ==> s[i] < s[j] }

  lemma StepBack(d: int, step: int)
    requires step > 0 && d >= step
    ensures d % step == (d - step) % step
  {
    var q, r := (d - step) / step, (d - step) % step;
    assert d == step * (q + 1) + r;
    Remainder(d, step, q + 1, r);
  }

  lemma Between(d: int, step: int)
    requires 0 < d < step
    ensures d % step != 0
  {
  }

  /** The CPUs of a well-formed cpuset. */
  ghost predicate InCpuset(ts: seq<Token>, x: nat) {
    exists k :: 0 <= k < |ts| && Covers(ts[k], x)
  }

  predicate Covers(t: Token, x: nat) {
    match t
    case Id(n) => x == n
    case Stride(lo, hi, step) => step > 0 && lo <= x <= hi && (x - lo) % step == 0
    case Unreadable => false
  }

  lemma {:induction false} FlattenMembers(ts: seq<Token>, x: nat)
    requires AllWellFormed(ts)
    ensures x in Flatten(ts) <==> InCpuset(ts, x)
  {
    if ts != [] {
      FlattenMembers(ts[1..], x);
      if ts[0].Stride? { StridedMembers(ts[0].lo, ts[0].hi, ts[0].step, x); }
      assert x in Ids(ts[0]) <==> Covers(ts[0], x);
      if InCpuset(ts, x) && !Covers(ts[0], x) {
        var k :| 0 <= k < |ts| && Covers(ts[k], x);
        assert ts[1..][k - 1] == ts[k];
      }
      if InCpuset(ts[1..], x) {
        var k :| 0 <= k < |ts[1..]| && Covers(ts[1..][k], x);
        assert ts[k + 1] == ts[1..][k];
      }
    }
  }

  // ----- the order of the cpuset -----

  /** The cpuset names y before it first names x: in an earlier token, or lower in the same one. */
  ghost predicate NamedBefore(ts: seq<Token>, y: nat, x: nat) { exists k :: NamedAt(ts, k, y, x) }

  ghost predicate NamedAt(ts: seq<Token>, k: int, y: nat, x: nat) {
    && 0 <= k < |ts| && Covers(ts[k], y)
    && (forall i :: 0 <= i < k ==> !Covers(ts[i], x)) && (Covers(ts[k], x) ==> y < x)
  }

  lemma IdsOf(t: Token, x: nat)
    requires WellFormed(t)
    ensures x in Ids(t) <==> Covers(t, x)
    ensures Rises(Ids(t))
  {
    if t.Stride? {
      StridedMembers(t.lo, t.hi, t.step, x);
      StridedAscends(t.lo, t.hi, t.step);
    }
  }

  lemma Lower(s: seq<nat>, y: nat, m: nat) returns (l: nat)
    requires Rises(s) && y in s && m < |s| && y < s[m]
    ensures l < m && s[l] == y
  {
    l :| 0 <= l < |s| && s[l] == y;
  }

  /** Flattening keeps that order. */
  lemma {:induction false} FlattenOrder(ts: seq<Token>, k: nat, y: nat, m: nat) returns (l: nat)
    requires AllWellFormed(ts) && m < |Flatten(ts)| && NamedAt(ts, k, y, Flatten(ts)[m])
    ensures l < m && Flatten(ts)[l] == y
  {
    var x, first := Flatten(ts)[m], Ids(ts[0]);
    IdsOf(ts[0], x);
    IdsOf(ts[0], y);
    assert m < |first| ==> x in first;
    if k == 0 {
      if m < |first| { l := Lower(first, y, m); } else { l :| 0 <= l < |first| && first[l] == y; }
    } else {
      assert !Covers(ts[0], x);
      forall i | 0 <= i < k - 1 ensures !Covers(ts[1..][i], x) { assert !Covers(ts[i + 1], x); }
      l := FlattenOrder(ts[1..], k - 1, y, m - |first|);
      l := l + |first|;
    }
  }

  /** What is picked is picked in that order. */
  lemma TakenInOrder(ts: seq<Token>, n: nat, y: nat, m: nat)
    requires AllWellFormed(ts) && m < |Take(Flatten(ts), n)| && NamedBefore(ts, y, Take(Flatten(ts), n)[m])
    ensures y in Take(Flatten(ts), n)[..m]
  {
    var k :| NamedAt(ts, k, y, Take(Flatten(ts), n)[m]);
    var l := FlattenOrder(ts, k, y, m);
    assert Take(Flatten(ts), n)[l] == y;
  }

  function First(t: Token): nat { match t case Id(n) => n case Stride(lo, _, _) => lo case Unreadable => 0 }

  function Last(t: Token): nat { match t case Id(n) => n case Stride(_, hi, _) => hi case Unreadable => 0 }

  /** The tokens come in ascending order and do not overlap, as the kernel prints them. */
  predicate AscendingTokens(ts: seq<Token>) { forall i, j :: 0 <= i < j < |ts| ==> Last(ts[i]) < First(ts[j]) }

  /** In an ascending cpuset what is named before is what is lower. */
  lemma LowerIsBefore(ts: seq<Token>, y: nat, x: nat)
    requires AllWellFormed(ts) && AscendingTokens(ts) && InCpuset(ts, y) && y < x
    ensures NamedBefore(ts, y, x)
  {
    var k :| 0 <= k < |ts| && Covers(ts[k], y);
    forall i | 0 <= i < k ensures !Covers(ts[i], x) { assert Last(ts[i]) < First(ts[k]); }
    assert NamedAt(ts, k, y, x);
  }

  // ----- the loops -----

  lemma {:induction false} FlattenPrefix(done: seq<Token>, rest: seq<Token>)
    requires AllWellFormed(done)
    ensures Flatten(done + rest) == Flatten(done) + Flatten(rest)
  {
    if done == [] {
      assert done + rest == rest;
    } else {
      assert (done + rest)[1..] == done[1..] + rest;
      FlattenPrefix(done[1..], rest);
    }
  }

  lemma FlattenMalformed(ts: seq<Token>, k: nat)
    requires k < |ts| && AllWellFormed(ts[..k]) && !WellFormed(ts[k])
    ensures Flatten(ts) == Flatten(ts[..k]) && !AllWellFormed(ts)
  {
    assert ts == ts[..k] + ts[k..];
    FlattenPrefix(ts[..k], ts[k..]);
  }

  lemma FlattenNext(ts: seq<Token>, k: nat)
    requires k < |ts| && AllWellFormed(ts[..k]) && WellFormed(ts[k])
    ensures AllWellFormed(ts[..k + 1]) && Flatten(ts[..k + 1]) == Flatten(ts[..k]) + Ids(ts[k])
  {
    assert ts[..k + 1] == ts[..k] + [ts[k]];
    FlattenPrefix(ts[..k], [ts[k]]);
    assert Flatten([ts[k]]) == Ids(ts[k]);
  }

  /** With n CPUs found nothing that follows matters. */
  lemma EnoughFound(ts: seq<Token>, k: nat, n: nat)
    requires k <= |ts| && AllWellFormed(ts[..k]) && |Flatten(ts[..k])| >= n
    ensures FirstCpus(ts, n) == Some(Take(Flatten(ts[..k]), n))
  {
    assert ts == ts[..k] + ts[k..];
    FlattenPrefix(ts[..k], ts[k..]);
    assert Flatten(ts)[..n] == Flatten(ts[..k])[..n];
  }

  /** The inner loop: ids lo, lo + step, ... until hi or until n are collected. */
  method AppendStride(ids: seq<nat>, t: Token, n: nat) returns (r: seq<nat>)
    requires t.Stride? && WellFormed(t) && |ids| <= n
    ensures r == Take(ids + Strided(t.lo, t.hi, t.step), n)
    ensures ids <= r && Rises(r[|ids|..])
  {
    StridedAscends(t.lo, t.hi, t.step);
    r := ids;
    var j := t.lo;
    while j <= t.hi
      invariant |r| <= n
      invariant r + Strided(j, t.hi, t.step) == ids + Strided(t.lo, t.hi, t.step)
    {
      if |r| >= n { break; }
      assert (r + [j]) + Strided(j + t.step, t.hi, t.step) == r + Strided(j, t.hi, t.step);
      r := r + [j];
      j := j + t.step;
    }
  }

  /** Of two CPUs the one that the cpuset names first comes first, and is not left out for the other. */
  ghost predicate Orderly(ts: seq<Token>, ids: seq<nat>) {
    forall m, y :: 0 <= m < |ids| && NamedBefore(ts, y, ids[m]) ==> y in ids[..m]
  }

  lemma InOrder(ts: seq<Token>, n: nat)
    requires AllWellFormed(ts)
    ensures Orderly(ts, Take(Flatten(ts), n)) && FirstCpus(ts, n) == Some(Take(Flatten(ts), n))
  {
    var s := Take(Flatten(ts), n);
    forall m, y | 0 <= m < |s| && NamedBefore(ts, y, s[m]) ensures y in s[..m] { TakenInOrder(ts, n, y, m); }
  }

  lemma NothingYet()
    ensures AllWellFormed([]) && Flatten([]) == []
  {
  }

  /** The token loop; None is its exit on a malformed token. */
  method CollectIds(words: seq<string>, n: nat) returns (r: Option<seq<nat>>)
    ensures r == FirstCpus(Tokens(words), n)
    ensures AllWellFormed(Tokens(words)) ==>
              r.Some? && |r.value| <= n && Orderly(Tokens(words), r.value)
  {
    hide Flatten, AllWellFormed, Orderly;
    ghost var ts := Tokens(words);
    if AllWellFormed(ts) { InOrder(ts, n); }
    var ids: seq<nat>, k := [], 0;
    NothingYet();
    while k < |words|
      invariant 0 <= k <= |words| && AllWellFormed(ts[..k])
      invariant ids == Take(Flatten(ts[..k]), n)
    {
      if |ids| >= n {
        EnoughFound(ts, k, n);
        return Some(ids);
      }
      var t := ReadWord(words[k]);
      assert t == ts[k];
      if !WellFormed(t) {
        FlattenMalformed(ts, k);
        return None;
      }
      FlattenNext(ts, k);
      if t.Stride? { ids := AppendStride(ids, t, n); } else { ids := ids + [t.n]; }
      k := k + 1;
    }
    assert ts[..k] == ts;
    return Some(ids);
  }

  /** for i in ids: mask |= 1 << i */
  method MaskOfIds(ids: seq<nat>) returns (mask: int)
    ensures mask >= 0 && Ones(mask) == Members(ids)
  {
    mask := 0;
    var k := 0;
    while k < |ids|
      invariant 0 <= k <= |ids| && mask >= 0
      invariant Ones(mask) == Members(ids[..k])
    {
      AddOne(mask, ids[k]);
      assert Members(ids[..k + 1]) == Members(ids[..k]) + {ids[k]} by { assert ids[..k + 1] == ids[..k] + [ids[k]]; }
      mask := Or(mask, Pow2(ids[k]));
      k := k + 1;
    }
    assert ids[..k] == ids;
  }

  lemma AddOne(mask: int, j: nat)
    requires mask >= 0
    ensures Or(mask, Pow2(j)) >= 0 && Ones(Or(mask, Pow2(j))) == Ones(mask) + {j}
  {
    OrNonNegative(mask, Pow2(j));
    forall i: nat ensures i in Ones(Or(mask, Pow2(j))) <==> i in Ones(mask) || i == j {
      InOnes(Or(mask, Pow2(j)), i);
      InOnes(mask, i);
      BitOr(mask, Pow2(j), i);
      BitPow2(j, i);
    }
  }

  // ----- the selection as a whole -----

  /** The CPU mask for n cores. On a well-formed cpuset it never fails, its bits are CPUs of the
      cpuset, and where the cpuset names no CPU twice it has n bits, or all there are. They are
      the first in the order in which the cpuset names them, so the lowest where it ascends. */
  method SelectCpuMask(cpuset: string, n: nat) returns (mask: Option<int>)
    ensures var ts := Tokens(Words(cpuset));
            && (mask.None? <==> FirstCpus(ts, n).None?)
            && (mask.Some? ==> mask.value >= 0 && Ones(mask.value) == Members(FirstCpus(ts, n).value))
            && (AllWellFormed(ts) ==> mask.Some? && forall x :: x in Ones(mask.value) ==> InCpuset(ts, x))
            && (AllWellFormed(ts) && Distinct(Flatten(ts)) ==>
                  |Ones(mask.value)| == if n <= |Flatten(ts)| then n else |Flatten(ts)|)
            && (AllWellFormed(ts) && |Flatten(ts)| <= n ==> forall x :: x in Ones(mask.value) <==> InCpuset(ts, x))
            && (AllWellFormed(ts) ==>
                  forall x, y :: x in Ones(mask.value) && NamedBefore(ts, y, x) ==> y in Ones(mask.value))
            && (AllWellFormed(ts) && AscendingTokens(ts) ==>
                  forall x, y: nat :: x in Ones(mask.value) && InCpuset(ts, y) && y !in Ones(mask.value) ==> x < y)
  {
    ghost var ts := Tokens(Words(cpuset));
    var ids := CollectIds(Words(cpuset), n);
    if ids.None? { return None; }
    var m := MaskOfIds(ids.value);
    if AllWellFormed(ts) {
      forall x: nat ensures x in Flatten(ts) <==> InCpuset(ts, x) { FlattenMembers(ts, x); }
      forall x, y | x in Ones(m) && NamedBefore(ts, y, x) ensures y in Ones(m) {
        var at :| 0 <= at < |ids.value| && ids.value[at] == x;
        assert y in ids.value[..at];
      }
      if AscendingTokens(ts) {
        forall x, y: nat | x in Ones(m) && InCpuset(ts, y) && y !in Ones(m) ensures x < y {
          if y < x { LowerIsBefore(ts, y, x); }
        }
      }
      if Distinct(Flatten(ts)) { CountMembers(ids.value); }
    }
    return Some(m);
  }

  /** A cpuset may be malformed after the CPUs that are needed, and nobody notices. */
  lemma LateErrorUnnoticed(ts: seq<Token>, bad: Token, n: nat)
    requires AllWellFormed(ts) && |Flatten(ts)| >= n && !WellFormed(bad)
    ensures FirstCpus(ts + [bad], n) == FirstCpus(ts, n)
    ensures FirstCpus(ts + [bad], |Flatten(ts)| + 1).None?
  {
    FlattenPrefix(ts, [bad]);
    assert Flatten([bad]) == [] && Flatten(ts + [bad]) == Flatten(ts);
    assert !WellFormed((ts + [bad])[|ts|]);
  }
}
