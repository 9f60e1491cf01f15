/** Strings as the Go, Python and shell code handles them: splitting and joining on a
    separator, and decimal and hexadecimal numerals. */
module Text {
  import opened Wrappers

  // ----- splitting and joining -----

  /** strings.Split and str.split with a one-character separator. */
  function Split(s: string, c: char): (parts: seq<string>)
    ensures |parts| >= 1
  {
    if s == "" then [""]
    else
      var rest := Split(s[1..], c);
      if s[0] == c then [""] + rest else [[s[0]] + rest[0]] + rest[1..]
  }

  function Join(parts: seq<string>, c: char): string {
    if parts == [] then ""
    else if |parts| == 1 then parts[0]
    else parts[0] + [c] + Join(parts[1..], c)
  }

  lemma {:induction false} JoinSplit(s: string, c: char)
    ensures Join(Split(s, c), c) == s
    ensures forall p :: p in Split(s, c) ==> c !in p
  {
    if s != "" {
      JoinSplit(s[1..], c);
      var rest := Split(s[1..], c);
      if s[0] == c {
        assert Split(s, c)[1..] == rest;
      } else {
        assert Split(s, c)[1..] == rest[1..];
        assert [s[0]] + s[1..] == s;
        if |rest| > 1 {
          assert [s[0]] + (rest[0] + [c] + Join(rest[1..], c)) == ([s[0]] + rest[0]) + [c] + Join(rest[1..], c);
        }
      }
    }
  }

  lemma {:induction false} SplitPlain(s: string, c: char)
    requires c !in s
    ensures Split(s, c) == [s]
  {
    if s != "" {
      SplitPlain(s[1..], c);
      assert [s[0]] + s[1..] == s;
    }
  }

  /** The last part with b at its end. */
  function GrowLast(parts: seq<string>, b: string): seq<string>
    requires parts != []
  {
    parts[..|parts| - 1] + [parts[|parts| - 1] + b]
  }

  lemma GrowTail(x: string, parts: seq<string>, b: string)
    requires parts != []
    ensures GrowLast([x] + parts, b) == [x] + GrowLast(parts, b)
  {
    assert ([x] + parts)[..|parts|] == [x] + parts[..|parts| - 1];
  }

  /** The first part with x in front. */
  function HeadGrown(x: char, parts: seq<string>): (r: seq<string>)
    requires parts != []
    ensures r != []
  {
    [[x] + parts[0]] + parts[1..]
  }

  lemma GrowBoth(x: char, parts: seq<string>, b: string)
    requires parts != []
    ensures GrowLast(parts, b) != []
    ensures HeadGrown(x, GrowLast(parts, b)) == GrowLast(HeadGrown(x, parts), b)
  {
    if |parts| == 1 {
      assert [x] + (parts[0] + b) == ([x] + parts[0]) + b;
    } else {
      var rest := parts[1..];
      assert parts == [parts[0]] + rest;
      GrowTail(parts[0], rest, b);
      GrowTail([x] + parts[0], rest, b);
    }
  }

  /** Text that follows a string lands in its last part. */
  lemma {:induction false} SplitAppend(a: string, b: string, c: char)
    requires c !in b
    ensures Split(a + b, c) == GrowLast(Split(a, c), b)
  {
    if a == "" {
      assert a + b == b;
      SplitPlain(b, c);
    } else {
      assert (a + b)[1..] == a[1..] + b && (a + b)[0] == a[0];
      SplitAppend(a[1..], b, c);
      var p := Split(a[1..], c);
      SplitHead(a, c);
      SplitHead(a + b, c);
      hide Split;
      hide GrowLast, HeadGrown;
      if a[0] == c { GrowTail("", p, b); } else { GrowBoth(a[0], p, b); }
    }
  }

  lemma SplitHead(s: string, c: char)
    requires s != ""
    ensures var p := Split(s[1..], c); Split(s, c) == if s[0] == c then [""] + p else HeadGrown(s[0], p)
  {
  }

  lemma {:induction false} SplitAt(a: string, b: string, c: char)
    ensures Split(a + [c] + b, c) == Split(a, c) + Split(b, c)
  {
    if a == "" {
      assert (a + [c] + b)[1..] == b;
    } else {
      assert (a + [c] + b)[1..] == a[1..] + [c] + b;
      SplitAt(a[1..], b, c);
    }
  }

  lemma {:induction false} SplitJoin(parts: seq<string>, c: char)
    requires parts != [] && forall p :: p in parts ==> c !in p
    ensures Split(Join(parts, c), c) == parts
  {
    SplitPlain(parts[0], c);
    if |parts| > 1 {
      SplitJoin(parts[1..], c);
      SplitAt(parts[0], Join(parts[1..], c), c);
    }
  }

  lemma {:induction false} JoinPrefix(a: seq<string>, b: seq<string>, c: char)
    requires a != [] && b != []
    ensures Join(a + b, c) == Join(a, c) + [c] + Join(b, c)
  {
    if |a| == 1 {
      assert (a + b)[1..] == b;
    } else {
      assert (a + b)[1..] == a[1..] + b;
      JoinPrefix(a[1..], b, c);
    }
  }

  // ----- numerals -----

  const DIGITS: string := "0123456789abcdef"

  predicate IsBase(base: nat) { base == 2 || base == 8 || base == 10 || base == 16 }

  /** The value of a lower- or upper-case digit in the given base. */
  function DigitOf(c: char, base: nat): Option<nat>
    requires IsBase(base)
  {
    if '0' <= c <= '9' && c as int - '0' as int < base then Some(c as int - '0' as int)
    else if base == 16 && 'a' <= c <= 'f' then Some(c as int - 'a' as int + 10)
    else if base == 16 && 'A' <= c <= 'F' then Some(c as int - 'A' as int + 10)
    else None
  }

  predicate Numeral(c: char) { '0' <= c <= '9' || 'a' <= c <= 'f' }

  lemma DigitRoundTrip(d: nat, base: nat)
    requires (base == 10 || base == 16) && d < base
    ensures DigitOf(DIGITS[d], base) == Some(d) && Numeral(DIGITS[d])
  {
  }

  /** A non-empty string of digits, read in the given base. */
  function Parse(s: string, base: nat): Option<nat>
    requires IsBase(base)
  {
    if s == "" then None
    else if |s| == 1 then DigitOf(s[0], base)
    else
      var hi, lo := Parse(s[..|s| - 1], base), DigitOf(s[|s| - 1], base);
      if hi.Some? && lo.Some? then Some(hi.value * base + lo.value) else None
  }

  /** The shortest numeral of n: strconv.Itoa and '{:x}'. */
  function Show(n: nat, base: nat): (s: string)
    requires base == 10 || base == 16
    ensures s != ""
  {
    if n < base then [DIGITS[n]] else Show(n / base, base) + [DIGITS[n % base]]
  }

  lemma QuotientRemainder(n: nat, base: nat)
    requires base == 10 || base == 16
    ensures n / base * base + n % base == n && n % base < base
    ensures n >= base ==> 0 < n / base < n
  {
    if base == 10 {
      assert n / 10 * 10 + n % 10 == n;
    } else {
      assert n / 16 * 16 + n % 16 == n;
    }
  }

  lemma {:induction false} ParseShow(n: nat, base: nat)
    requires base == 10 || base == 16
    ensures Parse(Show(n, base), base) == Some(n)
    ensures forall c :: c in Show(n, base) ==> Numeral(c)
  {
    hide Parse, DigitOf;
    if n < base {
      DigitRoundTrip(n, base);
      ParseDigit(DIGITS[n], base);
    } else {
      QuotientRemainder(n, base);
      var hi, lo := n / base, n % base;
      DigitRoundTrip(lo, base);
      ParseShow(hi, base);
      ParseSnoc(Show(hi, base), DIGITS[lo], base);
    }
  }

  lemma ParseSnoc(t: string, d: char, base: nat)
    requires IsBase(base) && t != "" && Parse(t, base).Some? && DigitOf(d, base).Some?
    ensures Parse(t + [d], base) == Some(Parse(t, base).value * base + DigitOf(d, base).value)
  {
    hide DigitOf;
    assert (t + [d])[..|t|] == t;
  }

  lemma ParseDigit(c: char, base: nat)
    requires IsBase(base)
    ensures Parse([c], base) == DigitOf(c, base)
  {
  }

  lemma ShowInjective(a: nat, b: nat, base: nat)
    requires base == 10 || base == 16
    requires Show(a, base) == Show(b, base)
    ensures a == b
  {
    ParseShow(a, base);
    ParseShow(b, base);
  }

  /** A hexadecimal digit in lower case. */
  function LowerDigit(c: char): char { if 'A' <= c <= 'F' then (c as int - 'A' as int + 'a' as int) as char else c }

  function LowerDigits(s: string): (r: string)
    ensures |r| == |s|
    ensures forall k :: 0 <= k < |s| ==> r[k] == LowerDigit(s[k])
  {
    seq(|s|, k requires 0 <= k < |s| => LowerDigit(s[k]))
  }

  /** Upper-case hexadecimal digits, mixed with others or not, read as the lower-case ones do. */
  lemma {:induction false} CaseDoesNotMatter(s: string)
    ensures Parse(LowerDigits(s), 16) == Parse(s, 16)
  {
    if |s| > 1 {
      var n := |s| - 1;
      CaseDoesNotMatter(s[..n]);
      assert LowerDigits(s)[..n] == LowerDigits(s[..n]);
    }
  }

  /** The shortest numeral has no leading zero. */
  lemma {:induction false} ShowLeads(n: nat, base: nat)
    requires base == 10 || base == 16
    ensures Show(n, base)[0] == '0' ==> n == 0
  {
    if n >= base {
      QuotientRemainder(n, base);
      ShowLeads(n / base, base);
      assert Show(n, base)[0] == Show(n / base, base)[0];
    }
  }

  lemma {:induction false} ShowDigits(n: nat)
    ensures forall c :: c in Show(n, 10) ==> '0' <= c <= '9'
  {
    if n >= 10 { ShowDigits(n / 10); }
  }

  /** A numeral of exactly k digits: '{:08x}' for k = 8. */
  function Pad(n: nat, k: nat): (s: string)
    ensures |s| == k
    decreases k
  {
    if k == 0 then "" else Pad(n / 16, k - 1) + [DIGITS[n % 16]]
  }

  function Power(base: nat, k: nat): nat { if k == 0 then 1 else base * Power(base, k - 1) }

  lemma {:induction false} ParsePad(n: nat, k: nat)
    requires k > 0 && n < Power(16, k)
    ensures Parse(Pad(n, k), 16) == Some(n)
    ensures forall c :: c in Pad(n, k) ==> Numeral(c)
  {
    hide Parse, DigitOf;
    QuotientRemainder(n, 16);
    DigitRoundTrip(n % 16, 16);
    if k == 1 {
      assert Power(16, 1) == 16 && Pad(n, 1) == [DIGITS[n]];
      ParseDigit(DIGITS[n], 16);
    } else {
      assert n / 16 < Power(16, k - 1);
      ParsePad(n / 16, k - 1);
      ParseSnoc(Pad(n / 16, k - 1), DIGITS[n % 16], 16);
    }
  }
}
