/** The port bitmap of the common library: the contract the process manager relies on,
    proved of the search loop itself. */
module Bitmap {
  import opened Wrappers
  import opened PortLedger

  /** Elements at .. at + n - 1 are all present. */
  predicate HasRun(data: set<int>, at: int, n: int) { forall x | at <= x < at + n :: x in data }

  ghost predicate NoRun(data: set<int>, n: int) { forall at :: !HasRun(data, at, n) }

  lemma HasMinimum(s: set<int>)
    requires s != {}
    ensures exists m :: m in s && forall y :: y in s ==> m <= y
  {
    assert (forall x :: x !in s) ==> s == {};
    var x :| x in s;
    if s != {x} {
      HasMinimum(s - {x});
      var m :| m in s - {x} && forall y :: y in s - {x} ==> m <= y;
      assert forall y :: y in s ==> y == x || y in s - {x};
      var least := if x < m then x else m;
      assert least in s && forall y :: y in s ==> least <= y;
    }
  }

  ghost function Min(s: set<int>): (m: int)
    requires s != {}
    ensures m in s && forall y :: y in s ==> m <= y
  {
    HasMinimum(s);
    var m :| m in s && forall y :: y in s ==> m <= y;
    m
  }

  /** How many consecutive elements s has from x on. */
  ghost function RunLen(s: set<int>, x: int): nat
    decreases s
  {
    if x in s then 1 + RunLen(s - {x}, x + 1) else 0
  }

  lemma {:induction false} RunLenIs(s: set<int>, x: int, n: nat)
    requires HasRun(s, x, n)
    ensures RunLen(s, x) >= n && (x + n !in s ==> RunLen(s, x) == n)
    decreases n
  {
    if n > 0 {
      assert x in s;
      RunLenIs(s - {x}, x + 1, n - 1);
    }
  }

  lemma {:induction false} RunLenHas(s: set<int>, x: int)
    ensures HasRun(s, x, RunLen(s, x)) && x + RunLen(s, x) !in s
    decreases s
  {
    if x in s {
      var t := s - {x};
      RunLenHas(t, x + 1);
      var n := RunLen(s, x);
      forall y | x <= y < x + n ensures y in s { assert y == x || y in t; }
    }
  }

  // ----- the search -----

  /** What follows the first block of s. */
  ghost function AfterBlock(s: set<int>): (r: set<int>)
    requires s != {}
    ensures r < s
  {
    RunLenHas(s, Min(s));
    var r := s - Range(Min(s), Min(s) + RunLen(s, Min(s)) - 1);
    assert Min(s) !in r;
    r
  }

  /** The search over the free elements that are left: the first block if it is long enough; if not,
      the element that ends it is skipped, although it begins the next block. */
  ghost function Scan(s: set<int>, count: int): Option<int>
    requires count > 0
    decreases s
  {
    if s == {} then None
    else if RunLen(s, Min(s)) >= count then Some(Min(s))
    else
      var after := AfterBlock(s);
      if after == {} then None else Scan(after - {Min(after)}, count)
  }

  // ----- what the search finds, by maximal blocks -----

  datatype Block = Block(start: int, len: nat)

  ghost function Blocks(s: set<int>): seq<Block>
    decreases s
  {
    if s == {} then [] else [Block(Min(s), RunLen(s, Min(s)))] + Blocks(AfterBlock(s))
  }

  predicate InBlock(b: Block, x: int) { b.start <= x < b.start + b.len }

  predicate Covers(blocks: seq<Block>, x: int) { exists b :: b in blocks && InBlock(b, x) }

  lemma CoversMore(b: Block, blocks: seq<Block>, x: int)
    ensures Covers([b] + blocks, x) <==> InBlock(b, x) || Covers(blocks, x)
  {
    hide InBlock;
    assert b in [b] + blocks;
    if Covers(blocks, x) {
      var c :| c in blocks && InBlock(c, x);
      assert c in [b] + blocks;
    }
  }

  /** The blocks are not empty, they cover s, and between two of them something is missing. */
  lemma {:induction false} BlocksAreMaximal(s: set<int>)
    ensures forall b :: b in Blocks(s) ==> b.len > 0
    ensures forall i :: 0 <= i < |Blocks(s)| - 1 ==> Blocks(s)[i].start + Blocks(s)[i].len < Blocks(s)[i + 1].start
    ensures forall x :: x in s <==> Covers(Blocks(s), x)
    ensures s != {} ==> Blocks(s)[0].start == Min(s)
    decreases s
  {
    if s != {} {
      var m := Min(s);
      var b := Block(m, RunLen(s, m));
      var after := AfterBlock(s);
      RunLenHas(s, m);
      BlocksAreMaximal(after);
      hide RunLen, Covers;
      var bs := Blocks(after);
      assert Blocks(s) == [b] + bs;
      forall i | 0 <= i < |Blocks(s)| - 1 ensures Blocks(s)[i].start + Blocks(s)[i].len < Blocks(s)[i + 1].start {
        if i == 0 {
          assert Min(after) in s && m + b.len !in s;
        } else {
          assert Blocks(s)[i] == bs[i - 1] && Blocks(s)[i + 1] == bs[i];
        }
      }
      forall x ensures x in s <==> Covers(Blocks(s), x) {
        assert x in s <==> InBlock(b, x) || x in after;
        CoversMore(b, bs, x);
      }
    }
  }

  /** The search told by blocks; whole says that the first block still has its first element. */
  function Served(blocks: seq<Block>, count: int, whole: bool): Option<int> {
    if blocks == [] then None
    else
      var lost := if whole then 0 else 1;
      if blocks[0].len - lost >= count then Some(blocks[0].start + lost)
      else Served(blocks[1..], count, blocks[0].len == lost)
  }

  lemma ShorterBlock(s: set<int>)
    requires s != {}
    ensures var m, t := Min(s), s - {Min(s)};
            && RunLen(s, m) == 1 + RunLen(t, m + 1)
            && (RunLen(s, m) == 1 ==> AfterBlock(s) == t)
            && (RunLen(s, m) > 1 ==> t != {} && Min(t) == m + 1 && AfterBlock(t) == AfterBlock(s))
  {
    var m := Min(s);
    var t := s - {m};
    RunLenHas(s, m);
    RunLenHas(t, m + 1);
    if RunLen(s, m) == 1 {
      assert AfterBlock(s) == t;
    } else {
      assert m + 1 in t;
      assert Min(t) == m + 1;
      assert AfterBlock(t) == AfterBlock(s);
    }
  }

  /** Without its first element a set has the same blocks, the first of them one shorter. */
  lemma WithoutFirst(s: set<int>)
    requires s != {}
    ensures var t, bs := s - {Min(s)}, Blocks(s);
            bs != [] && Blocks(t) == if bs[0].len == 1 then bs[1..] else [Block(bs[0].start + 1, bs[0].len - 1)] + bs[1..]
  {
    hide RunLen, AfterBlock, Blocks;
    var t := s - {Min(s)};
    ShorterBlock(s);
    BlocksUnfold(s);
    AtLeastOne(s);
    if t != {} { BlocksUnfold(t); }
  }

  lemma BlocksUnfold(s: set<int>)
    requires s != {}
    ensures Blocks(s) == [Block(Min(s), RunLen(s, Min(s)))] + Blocks(AfterBlock(s))
    ensures Blocks(s)[1..] == Blocks(AfterBlock(s))
  {
  }

  lemma AtLeastOne(s: set<int>)
    requires s != {}
    ensures RunLen(s, Min(s)) >= 1
  {
  }

  lemma {:induction false} ScanByBlocks(s: set<int>, count: int)
    requires count > 0
    ensures Scan(s, count) == Served(Blocks(s), count, true)
    decreases s
  {
    if s != {} {
      RunLenHas(s, Min(s));
      var after := AfterBlock(s);
      assert Blocks(s)[1..] == Blocks(after);
      if after != {} {
        ScanByBlocks(after - {Min(after)}, count);
        WithoutFirst(after);
        RunLenHas(after, Min(after));
      }
    }
  }

  /** The block is reached with its first element still there: it is the first one, or the one
      before was a single element that had been skipped. */
  predicate FreshAt(blocks: seq<Block>, i: nat)
    requires i < |blocks|
  {
    i == 0 || (!FreshAt(blocks, i - 1) && blocks[i - 1].len == 1)
  }

  /** How much of a block the search can use. */
  function Usable(blocks: seq<Block>, i: nat): int
    requires i < |blocks|
  {
    blocks[i].len - if FreshAt(blocks, i) then 0 else 1
  }

  lemma {:induction false} ServedFrom(blocks: seq<Block>, count: int, k: nat)
    requires count > 0 && k <= |blocks| && forall b :: b in blocks ==> b.len > 0
    ensures var r := Served(blocks[k..], count, k < |blocks| && FreshAt(blocks, k));
            r.None? <==> forall i :: k <= i < |blocks| ==> Usable(blocks, i) < count
    decreases |blocks| - k
  {
    if k < |blocks| {
      assert blocks[k] in blocks;
      assert blocks[k..][1..] == blocks[k + 1..];
      if Usable(blocks, k) < count {
        ServedFrom(blocks, count, k + 1);
        if k + 1 == |blocks| { assert blocks[k + 1..] == []; }
      }
    }
  }

  /** What is served comes from the first block that the search can use far enough. */
  lemma {:induction false} ServedPlace(blocks: seq<Block>, count: int, k: nat) returns (i: nat)
    requires count > 0 && k <= |blocks| && forall b :: b in blocks ==> b.len > 0
    requires Served(blocks[k..], count, k < |blocks| && FreshAt(blocks, k)).Some?
    ensures k <= i < |blocks| && Usable(blocks, i) >= count && forall j :: k <= j < i ==> Usable(blocks, j) < count
    ensures Served(blocks[k..], count, k < |blocks| && FreshAt(blocks, k))
         == Some(blocks[i].start + if FreshAt(blocks, i) then 0 else 1)
    decreases |blocks| - k
  {
    assert blocks[k] in blocks;
    assert blocks[k..][1..] == blocks[k + 1..];
    if Usable(blocks, k) >= count {
      i := k;
    } else {
      i := ServedPlace(blocks, count, k + 1);
    }
  }

  /** Block i is too short, or of just the right length but reached without its first element. */
  predicate TooShort(blocks: seq<Block>, i: nat, count: int)
    requires i < |blocks|
  {
    blocks[i].len < count || (blocks[i].len == count && !FreshAt(blocks, i))
  }

  predicate NoneServes(blocks: seq<Block>, count: int) { forall i :: 0 <= i < |blocks| ==> TooShort(blocks, i, count) }

  /** The search fails exactly when every block is too short. */
  lemma SearchFails(s: set<int>, count: int)
    requires count > 0
    ensures Scan(s, count).None? <==> NoneServes(Blocks(s), count)
  {
    hide Scan, Blocks, Served, FreshAt;
    var bs := Blocks(s);
    ScanByBlocks(s, count);
    BlocksAreMaximal(s);
    ServedFrom(bs, count, 0);
    assert bs[0..] == bs;
    if bs == [] { NothingServed(count); } else { FirstIsFresh(bs); }
    forall i | 0 <= i < |bs| ensures Usable(bs, i) < count <==> TooShort(bs, i, count) {}
  }

  /** Where it succeeds it finds the beginning of the first block that is not too short, or the element
      after that where the first one has been skipped. */
  lemma SearchPlace(s: set<int>, count: int) returns (i: nat)
    requires count > 0 && Scan(s, count).Some?
    ensures var bs := Blocks(s);
            && i < |bs| && !TooShort(bs, i, count) && (forall j :: 0 <= j < i ==> TooShort(bs, j, count))
            && Scan(s, count) == Some(bs[i].start + if FreshAt(bs, i) then 0 else 1)
  {
    hide Scan, Blocks, Served, FreshAt;
    var bs := Blocks(s);
    ScanByBlocks(s, count);
    BlocksAreMaximal(s);
    assert bs[0..] == bs;
    if bs == [] { NothingServed(count); } else { FirstIsFresh(bs); }
    i := ServedPlace(bs, count, 0);
    forall j | 0 <= j < |bs| ensures Usable(bs, j) < count <==> TooShort(bs, j, count) {}
  }

  lemma FirstIsFresh(blocks: seq<Block>)
    requires blocks != []
    ensures FreshAt(blocks, 0)
  {
  }

  lemma NothingServed(count: int)
    ensures Served([], count, true) == Served([], count, false) == None
  {
  }

  /** A run of n elements lies inside one block. */
  lemma {:induction false} RunInBlock(s: set<int>, at: int, n: int)
    requires HasRun(s, at, n) && n > 0
    ensures exists b :: b in Blocks(s) && b.start <= at && at + n <= b.start + b.len
    decreases s
  {
    assert at in s;
    var m := Min(s);
    RunLenHas(s, m);
    var b, after := Block(m, RunLen(s, m)), AfterBlock(s);
    hide RunLen;
    assert b in Blocks(s);
    if at <= m + b.len - 1 {
      assert at + n > m + b.len ==> m + b.len in s;
    } else {
      assert HasRun(after, at, n);
      RunInBlock(after, at, n);
      var c :| c in Blocks(after) && c.start <= at && at + n <= c.start + c.len;
      assert c in Blocks(s);
    }
  }

  /** A failing search never misses a run of count + 1, and misses one of count exactly when a block
      of that length is reached without its first element and no block serves. */
  lemma SearchMisses(s: set<int>, count: int)
    requires count > 0
    ensures Scan(s, count).None? ==> NoRun(s, count + 1)
    ensures var bs := Blocks(s);
            Scan(s, count).None? && !NoRun(s, count) <==>
              && NoneServes(bs, count)
              && (exists i :: 0 <= i < |bs| && bs[i].len == count)
  {
    hide Scan, FreshAt, Blocks, NoneServes;
    var bs := Blocks(s);
    SearchFails(s, count);
    if Scan(s, count).None? {
      var n := count + 1;
      forall i | 0 <= i < |bs| ensures bs[i].len < n { NoneLonger(bs, count, i); }
      if at :| HasRun(s, at, n) { var i := BlockOfRun(s, at, n); }
      if !NoRun(s, count) {
        var at :| HasRun(s, at, count);
        var i := BlockOfRun(s, at, count);
      }
      if i :| 0 <= i < |bs| && bs[i].len == count { BlockIsRun(s, i); }
    }
  }

  lemma NoneLonger(blocks: seq<Block>, count: int, i: nat)
    requires NoneServes(blocks, count) && i < |blocks|
    ensures blocks[i].len <= count
  {
    assert TooShort(blocks, i, count);
  }

  lemma BlockOfRun(s: set<int>, at: int, n: int) returns (i: nat)
    requires HasRun(s, at, n) && n > 0
    ensures i < |Blocks(s)| && Blocks(s)[i].len >= n
  {
    hide Blocks;
    RunInBlock(s, at, n);
    var b :| b in Blocks(s) && b.start <= at && at + n <= b.start + b.len;
    i :| 0 <= i < |Blocks(s)| && Blocks(s)[i] == b;
  }

  lemma BlockIsRun(s: set<int>, i: nat)
    requires i < |Blocks(s)|
    ensures HasRun(s, Blocks(s)[i].start, Blocks(s)[i].len)
  {
    BlocksAreMaximal(s);
    hide Blocks;
    var b := Blocks(s)[i];
    assert b in Blocks(s);
    forall x | b.start <= x < b.start + b.len ensures x in s { assert InBlock(b, x); }
  }

  /** An element that is found begins a run of count. */
  lemma {:induction false} ScanFinds(s: set<int>, count: int)
    requires count > 0
    ensures Scan(s, count).Some? ==> HasRun(s, Scan(s, count).value, count)
    decreases s
  {
    if s != {} {
      RunLenHas(s, Min(s));
      var after := AfterBlock(s);
      if after != {} { ScanFinds(after - {Min(after)}, count); }
    }
  }

  /** Free elements 0, 2 and 3: asked for two, the search uses up 2 to learn that 0 is alone, and
      fails, although 2 and 3 are free. */
  lemma ExactFitMissed()
    ensures var s := {0, 2, 3}; Scan(s, 2) == None && HasRun(s, 2, 2)
  {
    var s := {0, 2, 3};
    assert Min(s) == 0;
    RunLenIs(s, 0, 1);
    assert AfterBlock(s) == {2, 3};
    assert Min({2, 3}) == 2;
    var t: set<int> := {2, 3} - {2};
    assert t == {3};
    assert Min({3}) == 3;
    RunLenIs({3}, 3, 1);
    assert AfterBlock({3}) == {};
  }

  // ----- the loop's steps -----

  lemma ScanNothing(count: int)
    requires count > 0
    ensures Scan({}, count) == None
  {
  }

  /** From the least element b of before on, everything up to last has been taken. */
  ghost predicate Taken(before: set<int>, rest: set<int>, b: int, last: int) {
    && b <= last && HasRun(before, b, last - b + 1)
    && (forall x :: x in rest <==> x in before && last < x)
    && (forall x :: x in before ==> b <= x)
  }

  lemma TakenBlock(before: set<int>, rest: set<int>, b: int, last: int)
    requires Taken(before, rest, b, last)
    ensures b in before && Min(before) == b && RunLen(before, b) >= last - b + 1
    ensures last + 1 !in before ==> RunLen(before, b) == last - b + 1 && AfterBlock(before) == rest
  {
    RunLenIs(before, b, last - b + 1);
    assert b in before;
    assert Min(before) == b;
    if last + 1 !in before {
      assert forall x :: x in rest <==> x in before && x !in Range(b, last);
      assert AfterBlock(before) == rest;
    }
  }

  /** The block is too short, and the search goes on without the element that ended it. */
  lemma GapFound(before: set<int>, rest: set<int>, b: int, last: int, next: int, count: int)
    requires Taken(before, rest, b, last) && 0 < last - b + 1 < count
    requires next in rest && (forall y :: y in rest ==> next <= y) && next - last > 1
    ensures Scan(before, count) == Scan(rest - {next}, count)
  {
    TakenBlock(before, rest, b, last);
    assert last + 1 !in before;
    assert Min(rest) == next;
  }

  lemma BlockFound(before: set<int>, rest: set<int>, b: int, last: int, count: int)
    requires Taken(before, rest, b, last) && last - b + 1 == count > 0
    ensures Scan(before, count) == Some(b) && b in before
  {
    TakenBlock(before, rest, b, last);
  }

  lemma BlockEnds(before: set<int>, b: int, last: int, count: int)
    requires Taken(before, {}, b, last) && 0 < last - b + 1 < count
    ensures Scan(before, count) == None
  {
    TakenBlock(before, {}, b, last);
  }

  class Bitmap {
    const base: int
    const size: int
    var start: int       // where the next search begins
    var data: set<int>   // free offsets

    ghost predicate Valid()
      reads this
    {
      0 < size && 0 <= start <= size && forall x :: x in data ==> 0 <= x < size
    }

    /** The free ports. */
    ghost function Free(): (f: set<int>)
      reads this
    {
      set x | x in data :: base + x
    }

    lemma FreeMembers()
      ensures forall x {:trigger x in Free()} :: x in Free() <==> x - base in data
    {
      forall x | x - base in data ensures x in Free() { assert x == base + (x - base); }
    }

    constructor (first: int, last: int)
      requires first <= last
      ensures Valid() && base == first && size == last - first + 1
      ensures Free() == Range(first, last)
    {
      base, size, start := first, last - first + 1, 0;
      data := Range(0, last - first);
      new;
      FreeMembers();
    }

    /** The free offsets from iStart on. */
    ghost function From(iStart: int): set<int>
      reads this
    {
      set x | x in data && iStart <= x
    }

    /** findAt, from the offset iStart on. */
    method FindAt(count: int, iStart: int) returns (r: Option<int>)
      requires Valid() && 0 < count && 0 <= iStart <= size
      ensures r == Scan(From(iStart), count)
      ensures r.Some? ==> 0 <= r.value && HasRun(data, r.value, count)
    {
      hide Scan;
      var rest := set x | x in data && iStart <= x;
      var bStart := iStart;
      ScanFinds(rest, count);
      ScanNothing(count);
      while bStart <= size
        invariant bStart <= size && rest <= data && Scan(rest, count) == Scan(From(iStart), count)
        decreases rest
      {
        ghost var before := rest;
        var last, remains, ended := -1, count, false;
        while rest != {} && remains > 0 && !ended
          invariant rest <= before <= data && 0 <= remains <= count && bStart <= size
          invariant last < 0 ==> remains == count && rest == before && !ended
          invariant last >= 0 ==> last - bStart + 1 == count - remains && rest < before
          invariant last >= 0 && !ended ==> Taken(before, rest, bStart, last)
          invariant ended ==> remains > 0 && Scan(rest, count) == Scan(before, count)
          decreases rest
        {
          HasMinimum(rest);
          var next :| next in rest && forall y :: y in rest ==> next <= y;
          if last >= 0 && next - last > 1 {
            GapFound(before, rest, bStart, last, next, count);
            ended := true;
          } else {
            if last < 0 { bStart := next; }
            last := next;
            remains := remains - 1;
          }
          rest := rest - {next};
        }
        if remains == 0 {
          BlockFound(before, rest, bStart, last, count);
          return Some(bStart);
        }
        if rest == {} {
          if !ended && last >= 0 { BlockEnds(before, bStart, last, count); }
          return None;
        }
      }
      assert false;
    }

    /** Neither the search from the last place nor the one from the bottom finds count ports. */
    ghost predicate Refuses(count: int)
      requires Valid()
      reads this
    {
      count <= 0 || (Scan(From(start), count).None? && Scan(data, count).None?)
    }

    /** AllocateRange: count contiguous free ports, or nothing, which happens exactly when both
        searches fail. */
    method AllocateRange(count: int) returns (r: Option<(int, int)>)
      requires Valid()
      modifies this
      ensures Valid()
      ensures r.None? ==> Free() == old(Free())
      ensures r.Some? ==> 0 < count && r.value.1 == r.value.0 + count - 1
      ensures r.Some? ==>
                Range(r.value.0, r.value.1) <= old(Free()) && Free() == old(Free()) - Range(r.value.0, r.value.1)
      ensures r.None? <==> old(Refuses(count))
      ensures r.Some? ==>
                var next, first := Scan(old(From(start)), count), Scan(old(data), count);
                Some(r.value.0 - base) == if next.Some? then next else first
      ensures start == if r.Some? then r.value.1 + 1 - base else old(start)
    {
      if count <= 0 { return None; }
      var at := FindAt(count, start);
      if at.None? {
        at := FindAt(count, 0);
        assert From(0) == data;
      }
      if at.None? { return None; }
      var first := at.value;
      assert first + count - 1 in data;
      FreeMembers();
      ghost var was := Free();
      data := data - Range(first, first + count - 1);
      start := first + count;
      FreeMembers();
      assert forall x :: x in Range(base + first, base + first + count - 1) ==> x in was;
      return Some((base + first, base + first + count - 1));
    }

    /** ReleaseRange. */
    method ReleaseRange(first: int, last: int) returns (ok: bool)
      requires Valid()
      modifies this
      ensures Valid() && start == old(start)
      ensures 0 <= first && 0 <= last ==> Free() == Released(old(Free()), base, base + size - 1, first, last)
    {
      if last < first { return false; }
      if first == last && last == 0 { return true; }
      if first - base < 0 || last - base >= size { return false; }
      FreeMembers();
      data := data + Range(first - base, last - base);
      FreeMembers();
      return true;
    }
  }
}
