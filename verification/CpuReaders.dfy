/** Exactly when the two scripts read a CPU list alike. */
module CpuReaders {
  import opened Wrappers
  import opened Text
  import opened CpuMask

  /** A part that is empty but for blanks. */
  predicate Blank(part: string) { Trim(part, BLANKS) == "" }

  /** A part is closed unless it is a range without its end, or with an end below its beginning. */
  predicate Closed(part: string) {
    '-' in part ==>
      && Cut(part, '-').1 != ""
      && var a, b := ToInt(Cut(part, '-').0), ToInt(Cut(part, '-').1);
         (a.Some? && b.Some? ==> a.value <= b.value)
  }

  // ----- blanks around a part do not matter to the online list -----

  lemma TrimFront(b: char, s: string)
    requires b in BLANKS
    ensures Trim([b] + s, BLANKS) == Trim(s, BLANKS)
  {
    assert ([b] + s)[1..] == s;
  }

  lemma {:induction false} TrimBack(s: string, b: char)
    requires b in BLANKS
    ensures Trim(s + [b], BLANKS) == Trim(s, BLANKS)
  {
    var t := s + [b];
    if s == "" {
      assert t[1..] == "";
    } else if s[0] in BLANKS {
      assert t[1..] == s[1..] + [b];
      TrimBack(s[1..], b);
    } else {
      assert t[..|t| - 1] == s;
    }
  }

  lemma {:induction false} CutBack(s: string, b: char, c: char)
    requires c in s
    ensures Cut(s + [b], c) == (Cut(s, c).0, Cut(s, c).1 + [b])
  {
    assert (s + [b])[1..] == s[1..] + [b];
    if s[0] != c { CutBack(s[1..], b, c); }
  }

  lemma PartFront(b: char, part: string)
    requires b in BLANKS
    ensures OnlinePart([b] + part) == OnlinePart(part)
  {
    var p := [b] + part;
    assert p[1..] == part;
    TrimFront(b, part);
    if '-' in part {
      TrimFront(b, Cut(part, '-').0);
    }
    hide Parse, Trim;
  }

  lemma PartBack(part: string, b: char)
    requires b in BLANKS
    ensures OnlinePart(part + [b]) == OnlinePart(part)
  {
    TrimBack(part, b);
    if '-' in part {
      CutBack(part, b, '-');
      TrimBack(Cut(part, '-').1, b);
    }
    hide Parse, Trim, Cut;
  }

  lemma {:induction false} PartOfLeft(part: string)
    ensures OnlinePart(TrimLeft(part, BLANKS)) == OnlinePart(part)
  {
    hide OnlinePart;
    if part != "" && part[0] in BLANKS {
      PartOfLeft(part[1..]);
      PartFront(part[0], part[1..]);
      assert [part[0]] + part[1..] == part;
    }
  }

  lemma {:induction false} PartOfRight(part: string)
    ensures OnlinePart(TrimRight(part, BLANKS)) == OnlinePart(part)
  {
    hide OnlinePart;
    if part != "" && part[|part| - 1] in BLANKS {
      var n := |part| - 1;
      PartOfRight(part[..n]);
      PartBack(part[..n], part[n]);
      assert part[..n] + [part[n]] == part;
    }
  }

  lemma PartOfTrim(part: string)
    ensures OnlinePart(Trim(part, BLANKS)) == OnlinePart(part)
  {
    hide OnlinePart, TrimLeft, TrimRight;
    PartOfLeft(part);
    PartOfRight(TrimLeft(part, BLANKS));
  }

  // ----- nor do blanks around the whole list -----

  predicate SameTrims(a: seq<string>, b: seq<string>) {
    |a| == |b| && forall k :: 0 <= k < |a| ==> Trim(a[k], BLANKS) == Trim(b[k], BLANKS)
  }

  lemma {:induction false} SameTrimsRead(a: seq<string>, b: seq<string>)
    requires SameTrims(a, b)
    ensures OnlineParts(a) == OnlineParts(b)
  {
    hide Trim, OnlinePart;
    if a != [] { SameTrimsRead(a[..|a| - 1], b[..|b| - 1]); }
  }

  lemma {:induction false} SplitLeft(t: string)
    ensures SameTrims(Split(TrimLeft(t, BLANKS), ','), Split(t, ','))
  {
    hide Trim;
    if t != "" && t[0] in BLANKS {
      SplitLeft(t[1..]);
      TrimFront(t[0], Split(t[1..], ',')[0]);
    }
  }

  lemma {:induction false} SplitRight(t: string)
    ensures SameTrims(Split(TrimRight(t, BLANKS), ','), Split(t, ','))
  {
    hide Trim;
    if t != "" && t[|t| - 1] in BLANKS {
      var n := |t| - 1;
      SplitRight(t[..n]);
      assert t == t[..n] + [t[n]];
      SplitAppend(t[..n], [t[n]], ',');
      hide Split;
      var p := Split(t[..n], ',');
      TrimBack(p[|p| - 1], t[n]);
    }
  }

  lemma OnlineUntrimmed(t: string)
    ensures ReadOnline(t) == OnlineParts(Split(t, ','))
  {
    hide OnlineParts, Split, TrimLeft, TrimRight;
    SplitLeft(t);
    SplitRight(TrimLeft(t, BLANKS));
    SameTrimsRead(Split(TrimLeft(t, BLANKS), ','), Split(t, ','));
    SameTrimsRead(Split(Trim(t, BLANKS), ','), Split(TrimLeft(t, BLANKS), ','));
  }

  // ----- part by part -----

  lemma PartsCompared(part: string)
    ensures Blank(part) ==> BracketPart(part) == None
    ensures OnlinePart(part).Some? ==> BracketPart(part) == OnlinePart(part) && Closed(part)
    ensures BracketPart(part).Some? ==> OnlinePart(part) == if Closed(part) then BracketPart(part) else None
  {
    hide Cut, TrimLeft, TrimRight;
    NothingIsNoNumber();
    if Blank(part) && '-' in part { DashStays(part); }
  }

  lemma NothingIsNoNumber()
    ensures ToInt("") == None
  {
  }

  lemma {:induction false} LeftKeeps(s: string, c: char)
    requires c in s && c !in BLANKS
    ensures c in TrimLeft(s, BLANKS)
  {
    if s[0] in BLANKS { LeftKeeps(s[1..], c); }
  }

  lemma {:induction false} RightKeeps(s: string, c: char)
    requires c in s && c !in BLANKS
    ensures c in TrimRight(s, BLANKS)
  {
    if s[|s| - 1] in BLANKS { RightKeeps(s[..|s| - 1], c); }
  }

  lemma DashStays(part: string)
    requires '-' in part
    ensures !Blank(part)
  {
    LeftKeeps(part, '-');
    RightKeeps(TrimLeft(part, BLANKS), '-');
  }

  predicate AllClosed(parts: seq<string>) { forall k :: 0 <= k < |parts| ==> Closed(parts[k]) }

  predicate NoneBlank(parts: seq<string>) { forall k :: 0 <= k < |parts| ==> !Blank(parts[k]) }

  lemma {:induction false} ListsCompared(parts: seq<string>)
    ensures BracketParts(parts).Some? ==> OnlineParts(parts) == if AllClosed(parts) then BracketParts(parts) else None
    ensures OnlineParts(parts).Some? ==> BracketParts(parts) == if NoneBlank(parts) then OnlineParts(parts) else None
  {
    hide OnlinePart, BracketPart, Closed, Blank;
    if parts != [] {
      var n := |parts| - 1;
      ListsCompared(parts[..n]);
      PartsCompared(parts[n]);
      PartOfTrim(parts[n]);
      LastPart(parts);
      assert parts == parts[..n] + [parts[n]];
      assert AllClosed(parts) <==> AllClosed(parts[..n]) && Closed(parts[n]);
      assert NoneBlank(parts) <==> NoneBlank(parts[..n]) && !Blank(parts[n]);
    }
  }

  lemma LastPart(parts: seq<string>)
    requires parts != []
    ensures var n := |parts| - 1;
            OnlineParts(parts) ==
              (if OnlineParts(parts[..n]).None? || Blank(parts[n]) then OnlineParts(parts[..n])
               else var s := OnlinePart(Trim(parts[n], BLANKS));
                    if s.Some? then Some(OnlineParts(parts[..n]).value + [s.value]) else None)
  {
  }

  // ----- whole lists -----

  lemma Drops(c: char, s: string, drop: set<char>)
    requires c in drop
    ensures TrimLeft([c] + s, drop) == TrimLeft(s, drop)
    ensures TrimRight(s + [c], drop) == TrimRight(s, drop)
  {
    assert ([c] + s)[1..] == s;
    assert (s + [c])[..|s|] == s;
  }

  lemma Stops(s: string, drop: set<char>)
    ensures s == "" || s[0] !in drop ==> TrimLeft(s, drop) == s
    ensures s == "" || s[|s| - 1] !in drop ==> TrimRight(s, drop) == s
  {
  }

  lemma BracketsTrimmed(t: string)
    requires '[' !in t && ']' !in t
    ensures Trim("[" + t + "]", {'[', ']'}) == t && Trim("[" + t + "]", BLANKS) == "[" + t + "]"
  {
    hide TrimLeft, TrimRight;
    var drop := {'[', ']'};
    assert '[' in drop && ']' in drop;
    assert t != "" ==> t[0] in t && t[|t| - 1] in t;
    assert "[" + t + "]" == "[" + (t + "]");
    Drops('[', t + "]", drop);
    Drops(']', t, drop);
    Stops(t, drop);
    if t == "" {
      Drops(']', "", drop);
      assert t + "]" == [']'] + "";
      Stops("", drop);
    } else {
      Stops(t + "]", drop);
    }
    Stops("[" + t + "]", BLANKS);
  }

  /** One script reads the text t as the kernel's online list, the other as the bracketed [t]. A text
      that the second reads the first reads alike if every part is closed, and refuses otherwise;
      a text that the first reads the second reads alike if no part is blank, and refuses
      otherwise. So where both read it they read the same CPUs. */
  lemma ReadersCompared(t: string)
    requires '[' !in t && ']' !in t
    ensures var online, bracket := ReadOnline(t), ReadBracket("[" + t + "]");
            && (bracket.Some? ==> online == if AllClosed(Split(t, ',')) then bracket else None)
            && (online.Some? ==> bracket == if NoneBlank(Split(t, ',')) then online else None)
            && (online == bracket <==>
                  && (bracket.Some? ==> AllClosed(Split(t, ',')))
                  && (online.Some? ==> NoneBlank(Split(t, ','))))
  {
    hide OnlineParts, BracketParts, Split, Trim, AllClosed, NoneBlank;
    BracketsTrimmed(t);
    OnlineUntrimmed(t);
    ListsCompared(Split(t, ','));
  }

  /** The masks too: where neither script fails they compute the same one. */
  lemma SameMaskWhereBothRead(t: string, a: int, b: int)
    requires '[' !in t && ']' !in t
    requires ReadOnline(t).Some? && IsMaskOf(a, ReadOnline(t).value) && Denotes("[" + t + "]", b)
    ensures a == b
  {
    hide IsMaskOf, ReadOnline, ReadBracket, Trim, AllClosed, NoneBlank, Split;
    BracketsTrimmed(t);
    ReadersCompared(t);
    assert ("[" + t + "]")[0] == '[';
    MaskOfIsUnique(a, b, ReadOnline(t).value);
  }
}
