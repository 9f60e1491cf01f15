/** The broadcaster: one stream goroutine copies its input to any number of subscribers. Each
    method of the class is one critical section, or one receive by a subscriber. */
module Broadcaster {
  import opened Wrappers

  type Id = nat

  const CAPACITY := 100

  /** A subscriber's channel, with what its owner has received so far. History: the items
      broadcast before it joined and when it was closed, the positions of the items it was
      sent, and whether one was withheld because the buffer was full. */
  datatype Chan<T> = Chan(pending: seq<T>, received: seq<T>, closed: bool,
                          joined: nat, left: nat, picked: seq<nat>, dropped: bool)

  function Items<T>(log: seq<T>, picked: seq<nat>): seq<T>
    requires forall k :: 0 <= k < |picked| ==> picked[k] < |log|
  {
    if picked == [] then [] else Items(log, picked[..|picked| - 1]) + [log[picked[|picked| - 1]]]
  }

  /** The items broadcast while the channel was subscribed end here. */
  function Until<T>(c: Chan<T>, log: seq<T>): nat { if c.closed then c.left else |log| }

  predicate Increasing(s: seq<nat>) { forall i, j :: 0 <= i < j < |s| ==> s[i] < s[j] }

  /** What the subscriber was sent, in order: items broadcast while it was subscribed, none
      twice, and one is missing only if one was withheld. */
  predicate InOrder<T(==)>(c: Chan<T>, log: seq<T>) {
    && c.joined <= Until(c, log) <= |log| && Increasing(c.picked)
    && (forall k :: 0 <= k < |c.picked| ==> c.joined <= c.picked[k] < Until(c, log))
    && c.received + c.pending == Items(log, c.picked)
    && (c.dropped <==> |c.picked| < Until(c, log) - c.joined)
    && |c.pending| <= CAPACITY
  }

  // ----- what the order means to the subscriber -----

  lemma {:induction false} ItemsAt<T>(log: seq<T>, picked: seq<nat>)
    requires forall k :: 0 <= k < |picked| ==> picked[k] < |log|
    ensures |Items(log, picked)| == |picked|
    ensures forall k :: 0 <= k < |picked| ==> Items(log, picked)[k] == log[picked[k]]
  {
    if picked != [] { ItemsAt(log, picked[..|picked| - 1]); }
  }

  lemma {:induction false} Gaps(s: seq<nat>, lo: nat, k: nat)
    requires Increasing(s) && k < |s| && forall j :: 0 <= j < |s| ==> lo <= s[j]
    ensures s[k] >= lo + k
    decreases k
  {
    if k > 0 { Gaps(s, lo, k - 1); }
  }

  lemma {:induction false} NoGaps(s: seq<nat>, lo: nat, hi: nat, k: nat)
    requires Increasing(s) && |s| == hi - lo && k < |s| && forall j :: 0 <= j < |s| ==> lo <= s[j] < hi
    ensures s[k] == lo + k
    decreases |s| - k
  {
    Gaps(s, lo, k);
    if k < |s| - 1 { NoGaps(s, lo, hi, k + 1); }
  }

  lemma {:induction false} NotTooMany(s: seq<nat>, lo: nat, hi: nat)
    requires Increasing(s) && lo <= hi && forall j :: 0 <= j < |s| ==> lo <= s[j] < hi
    ensures |s| <= hi - lo
  {
    if s != [] { Gaps(s, lo, |s| - 1); }
  }

  /** What a subscriber has received or still has in its buffer is exactly the contiguous segment
      of the items broadcast while it was subscribed if and only if its buffer was never full. */
  lemma ContiguousUnlessDropped<T(!new)>(c: Chan<T>, log: seq<T>)
    requires InOrder(c, log)
    ensures c.joined <= Until(c, log) <= |log|
    ensures !c.dropped ==> c.received + c.pending == log[c.joined..Until(c, log)]
    ensures c.dropped ==> |c.received + c.pending| < |log[c.joined..Until(c, log)]|
  {
    ItemsAt(log, c.picked);
    if !c.dropped {
      NotTooMany(c.picked, c.joined, Until(c, log));
      forall k | 0 <= k < |c.picked| ensures c.picked[k] == c.joined + k {
        NoGaps(c.picked, c.joined, Until(c, log), k);
      }
    }
  }

  // ----- one channel, one item -----

  /** select { case sub <- item: default: } */
  function Offered<T>(c: Chan<T>, x: T, at: nat): Chan<T> {
    if |c.pending| < CAPACITY then c.(pending := c.pending + [x], picked := c.picked + [at]) else c.(dropped := true)
  }

  lemma {:induction false} ItemsExtend<T>(log: seq<T>, picked: seq<nat>, x: T)
    requires forall k :: 0 <= k < |picked| ==> picked[k] < |log|
    ensures Items(log + [x], picked) == Items(log, picked)
  {
    if picked != [] { ItemsExtend(log, picked[..|picked| - 1], x); }
  }

  lemma ItemsPush<T>(log: seq<T>, picked: seq<nat>, x: T)
    requires forall k :: 0 <= k < |picked| ==> picked[k] < |log|
    ensures Items(log + [x], picked + [|log|]) == Items(log, picked) + [x]
  {
    ItemsExtend(log, picked, x);
    assert (picked + [|log|])[..|picked|] == picked;
  }

  lemma OfferedInOrder<T(!new)>(c: Chan<T>, log: seq<T>, x: T)
    requires InOrder(c, log) && !c.closed
    ensures InOrder(Offered(c, x, |log|), log + [x]) && !Offered(c, x, |log|).closed
  {
    hide Items;
    NotTooMany(c.picked, c.joined, |log|);
    ItemsExtend(log, c.picked, x);
    if |c.pending| < CAPACITY {
      ItemsPush(log, c.picked, x);
      assert c.received + (c.pending + [x]) == (c.received + c.pending) + [x];
    }
  }

  lemma ClosedInOrder<T(!new)>(c: Chan<T>, log: seq<T>, x: T)
    requires InOrder(c, log) && c.closed
    ensures InOrder(c, log + [x])
  {
    ItemsExtend(log, c.picked, x);
  }

  lemma OfferedCases<T>(c: Chan<T>, x: T, at: nat)
    ensures |c.pending| < CAPACITY ==> Offered(c, x, at) == c.(pending := c.pending + [x], picked := c.picked + [at])
    ensures |c.pending| >= CAPACITY ==> Offered(c, x, at) == c.(dropped := true)
  {
  }

  ghost predicate OfferedRight<T(!new)>(c: Chan<T>, d: Chan<T>, subscribed: bool, log: seq<T>) {
    InOrder(d, log) && d.closed == c.closed && (d.dropped ==> c.dropped || (subscribed && |c.pending| >= CAPACITY))
  }

  /** The channels in seen were offered x, the others left alone. */
  ghost predicate Visited<T>(before: map<Id, Chan<T>>, after: map<Id, Chan<T>>, seen: set<Id>, x: T, at: nat) {
    && after.Keys == before.Keys
    && forall i :: i in after ==> after[i] == if i in seen then Offered(before[i], x, at) else before[i]
  }

  /** Offering x to one more channel. */
  lemma VisitedOne<T>(before: map<Id, Chan<T>>, mid: map<Id, Chan<T>>, seen: set<Id>, i: Id, x: T, at: nat)
    requires Visited(before, mid, seen, x, at) && i in before && i !in seen
    ensures i in mid && mid[i] == before[i]
    ensures Visited(before, mid[i := Offered(mid[i], x, at)], seen + {i}, x, at)
    ensures Full(before, seen + {i}) == Full(before, seen) + if |mid[i].pending| >= CAPACITY then {i} else {}
  {
    hide Offered;
  }

  /** What one item does to a channel: with fewer than 100 items waiting a subscriber gets it behind
      them; with 100 it misses it and is to be unsubscribed; anybody else is left alone. */
  predicate Served<T(==)>(c: Chan<T>, d: Chan<T>, subscribed: bool, leaving: bool, x: T) {
    && d.received == c.received && d.closed == c.closed
    && (!subscribed ==> d == c)
    && (subscribed && |c.pending| < 100 ==> d.pending == c.pending + [x] && d.dropped == c.dropped)
    && (subscribed && |c.pending| >= 100 ==> d.pending == c.pending && d.dropped && leaving)
  }

  lemma VisitedServes<T(!new)>(before: map<Id, Chan<T>>, after: map<Id, Chan<T>>, subs: set<Id>, x: T, at: nat, i: Id)
    requires Visited(before, after, subs, x, at) && i in after
    ensures i in before
    ensures forall leaving :: (i in Full(before, subs) ==> leaving) ==> Served(before[i], after[i], i in subs, leaving, x)
  {
  }

  lemma NoneVisited<T>(chans: map<Id, Chan<T>>, x: T, at: nat)
    ensures Visited(chans, chans, {}, x, at) && Full(chans, {}) == {}
  {
  }

  lemma AllOffered<T(!new)>(before: map<Id, Chan<T>>, after: map<Id, Chan<T>>, subs: set<Id>, log: seq<T>, x: T)
    requires Visited(before, after, subs, x, |log|)
    requires forall i :: i in before ==> InOrder(before[i], log) && (i in subs <==> !before[i].closed)
    ensures after.Keys == before.Keys
    ensures forall i :: i in after ==> OfferedRight(before[i], after[i], i in subs, log + [x])
  {
    hide InOrder, Offered;
    forall i | i in after ensures OfferedRight(before[i], after[i], i in subs, log + [x]) {
      if i in subs { OfferedInOrder(before[i], log, x); } else { ClosedInOrder(before[i], log, x); }
      OfferedCases(before[i], x, |log|);
    }
  }

  /** Those of ids that have no room. */
  ghost function Full<T>(chans: map<Id, Chan<T>>, ids: set<Id>): set<Id> {
    set i | i in ids && i in chans && |chans[i].pending| >= CAPACITY
  }

  function Closed<T>(c: Chan<T>, at: nat): Chan<T> { c.(closed := true, left := at) }

  class Broadcaster<T(!new,==)> {
    var running: bool
    var subs: set<Id>
    /** Every channel ever made. */
    var chans: map<Id, Chan<T>>
    /** Goroutines: stream loops that have not ended, and unsubscriptions after a drop. */
    var streams: nat
    var unsubs: set<Id>
    /** History: the items broadcast so far. */
    var log: seq<T>

    constructor ()
      ensures Valid() && !running && subs == {} && chans == map[] && streams == 0 && unsubs == {} && log == []
    {
      running, subs, chans, streams, unsubs, log := false, {}, map[], 0, {}, [];
    }

    /** A channel is subscribed iff it is open; one stream loop is active iff running is set;
        a subscriber that missed an item is about to be unsubscribed. */
    ghost predicate Valid()
      reads this
    {
      && subs <= chans.Keys
      && (forall i :: i in chans ==> (i in subs <==> !chans[i].closed))
      && streams == (if running then 1 else 0)
      && (!running ==> subs == {})
      && (forall i :: i in chans ==> InOrder(chans[i], log))
      && (forall i :: i in subs && chans[i].dropped ==> i in unsubs)
    }

    /** Subscribe; connected is what the connect function answers, if it is asked. */
    method Subscribe(connected: bool) returns (r: Option<Id>)
      requires Valid()
      modifies this
      ensures Valid() && log == old(log) && unsubs == old(unsubs)
      ensures r.None? <==> !old(running) && !connected
      ensures r.None? ==> chans == old(chans) && subs == old(subs) && running == old(running)
      ensures r.Some? ==>
                && running && r.value !in old(chans) && subs == old(subs) + {r.value}
                && chans == old(chans)[r.value := Chan([], [], false, |log|, 0, [], false)]
      ensures streams == old(streams) + if r.Some? && !old(running) then 1 else 0
    {
      hide InOrder;
      NewInOrder(log);
      if !running {
        if !connected { return None; }
        streams := streams + 1;
        running := true;
      }
      var id := FreshId(chans.Keys);
      chans := chans[id := Chan([], [], false, |log|, 0, [], false)];
      subs := subs + {id};
      return Some(id);
    }

    /** close(sub): Go panics on a second one. */
    method Close(id: Id)
      requires id in chans && !chans[id].closed
      modifies this`chans
      ensures chans == old(chans)[id := Closed(old(chans)[id], |log|)]
    {
      chans := chans[id := Closed(chans[id], |log|)];
    }

    /** sub <- item where the buffer has room: Go panics on a closed channel. */
    method Send(id: Id, x: T)
      requires id in chans && !chans[id].closed && |chans[id].pending| < CAPACITY
      modifies this`chans
      ensures chans == old(chans)[id := Offered(old(chans)[id], x, |log|)]
    {
      chans := chans[id := chans[id].(pending := chans[id].pending + [x], picked := chans[id].picked + [|log|])];
    }

    /** unsub, whether its context is done or it missed an item; a second one does nothing. */
    method Unsub(id: Id)
      requires Valid() && id in chans
      modifies this
      ensures Valid() && log == old(log) && running == old(running) && streams == old(streams)
      ensures subs == old(subs) - {id} && unsubs == old(unsubs) - {id}
      ensures chans == if id in old(subs) then old(chans)[id := Closed(old(chans)[id], |log|)] else old(chans)
    {
      if id in subs {
        Close(id);
        subs := subs - {id};
      }
      unsubs := unsubs - {id};
    }

    /** The stream loop's critical section for one item, visiting subscribers in any order. */
    method StreamItem(x: T)
      requires Valid() && running
      modifies this
      ensures Valid() && log == old(log) + [x] && running && subs == old(subs) && streams == old(streams)
      ensures Visited(old(chans), chans, subs, x, |old(log)|)
      ensures unsubs == old(unsubs) + Full(old(chans), subs)
      ensures forall i :: i in chans ==> i in old(chans) && Served(old(chans)[i], chans[i], i in subs, i in unsubs, x)
    {
      hide InOrder, Offered, Visited;
      ghost var was := chans;
      NoneVisited(was, x, |log|);
      var todo := subs;
      assert subs - todo == {};
      while todo != {}
        invariant todo <= subs && subs == old(subs) && log == old(log) && running && streams == old(streams)
        invariant Visited(was, chans, subs - todo, x, |log|)
        invariant unsubs == old(unsubs) + Full(was, subs - todo)
      {
        var id :| id in todo;
        VisitedOne(was, chans, subs - todo, id, x, |log|);
        OfferedCases(was[id], x, |log|);
        assert subs - (todo - {id}) == subs - todo + {id};
        if |chans[id].pending| < CAPACITY {
          Send(id, x);
        } else {
          unsubs := unsubs + {id};
          chans := chans[id := chans[id].(dropped := true)];
        }
        todo := todo - {id};
      }
      assert subs - todo == subs;
      AllOffered(was, chans, subs, log, x);
      log := log + [x];
      forall i | i in chans ensures i in old(chans) && Served(old(chans)[i], chans[i], i in subs, i in unsubs, x) {
        VisitedServes(was, chans, subs, x, |old(log)|, i);
      }
    }

    /** The stream loop's last critical section, after its input was closed. */
    method StreamEnd()
      requires Valid() && running
      modifies this
      ensures Valid() && log == old(log) && !running && subs == {} && streams == old(streams) - 1
      ensures chans.Keys == old(chans).Keys
      ensures forall i :: i in chans ==>
                chans[i] == if i in old(subs) then Closed(old(chans)[i], |log|) else old(chans)[i]
    {
      hide InOrder;
      while subs != {}
        invariant subs <= old(subs) && log == old(log) && unsubs <= old(unsubs) && streams == old(streams)
        invariant chans.Keys == old(chans).Keys
        invariant forall i :: i in chans ==>
                    chans[i] == if i in old(subs) - subs then Closed(old(chans)[i], |log|) else old(chans)[i]
      {
        var id :| id in subs;
        Close(id);
        subs := subs - {id};
      }
      running := false;
      streams := streams - 1;
      forall i | i in chans ensures InOrder(chans[i], log) { if i in old(subs) { ClosingInOrder(old(chans)[i], log); } }
    }

    /** A subscriber's receive: the next item, or None once the channel is closed and drained. */
    method Receive(id: Id) returns (r: Option<T>)
      requires Valid() && id in chans && (chans[id].pending != [] || chans[id].closed)
      modifies this`chans
      ensures Valid()
      ensures r == if old(chans)[id].pending == [] then None else Some(old(chans)[id].pending[0])
      ensures chans == if r.None? then old(chans) else old(chans)[id := Taken(old(chans)[id])]
      ensures r.Some? ==>
                && chans[id].received == old(chans)[id].received + [r.value] && chans[id].pending == old(chans)[id].pending[1..]
    {
      hide InOrder, Taken;
      var c := chans[id];
      if c.pending == [] { return None; }
      TakenInOrder(c, log);
      r := Some(c.pending[0]);
      chans := chans[id := Taken(c)];
    }
  }

  /** x, ok := <-sub */
  function Taken<T>(c: Chan<T>): Chan<T>
    requires c.pending != []
  {
    c.(received := c.received + [c.pending[0]], pending := c.pending[1..])
  }

  lemma TakenInOrder<T(!new)>(c: Chan<T>, log: seq<T>)
    requires InOrder(c, log) && c.pending != []
    ensures Taken(c).received == c.received + [c.pending[0]] && Taken(c).pending == c.pending[1..]
    ensures InOrder(Taken(c), log) && Taken(c).closed == c.closed && Taken(c).dropped == c.dropped
  {
    assert c.received + c.pending == (c.received + [c.pending[0]]) + c.pending[1..];
  }

  lemma NewInOrder<T(!new)>(log: seq<T>)
    ensures InOrder(Chan([], [], false, |log|, 0, [], false), log)
  {
  }

  lemma ClosingInOrder<T(!new)>(c: Chan<T>, log: seq<T>)
    requires InOrder(c, log) && !c.closed
    ensures InOrder(Closed(c, |log|), log)
  {
  }

  method FreshId(used: set<Id>) returns (id: Id)
    ensures id !in used
  {
    id := 0;
    var rest := used;
    while rest != {}
      invariant forall x :: x in used ==> x in rest || x < id
    {
      var x :| x in rest;
      rest := rest - {x};
      if x >= id { id := x + 1; }
    }
  }

  // ----- whole runs -----

  datatype Event<T> = Join(connected: bool) | Leave(id: Id) | Item(x: T) | InputEnds | Take(id: Id)

  /** Any run: no close of a closed channel, no send on one, and at its end every channel ever made
      has delivered exactly the items broadcast while it was subscribed unless its buffer
      was once full, after which it is unsubscribed or about to be. */
  method Play<T(!new,==)>(events: seq<Event<T>>) returns (b: Broadcaster<T>)
    ensures fresh(b) && b.Valid()
    ensures forall i :: i in b.chans && !b.chans[i].dropped ==>
              b.chans[i].received + b.chans[i].pending == b.log[b.chans[i].joined..Until(b.chans[i], b.log)]
    ensures forall i :: i in b.chans && b.chans[i].dropped && !b.chans[i].closed ==> i in b.unsubs
  {
    b := new Broadcaster();
    for k := 0 to |events|
      invariant fresh(b) && b.Valid()
    {
      match events[k]
      case Join(connected) => var id := b.Subscribe(connected);
      case Leave(id) => if id in b.chans { b.Unsub(id); }
      case Item(x) => if b.running { b.StreamItem(x); }
      case InputEnds => if b.running { b.StreamEnd(); }
      case Take(id) => if id in b.chans && (b.chans[id].pending != [] || b.chans[id].closed) { var x := b.Receive(id); }
    }
    hide InOrder;
    forall i | i in b.chans && !b.chans[i].dropped
      ensures b.chans[i].joined <= Until(b.chans[i], b.log) <= |b.log|
      ensures b.chans[i].received + b.chans[i].pending == b.log[b.chans[i].joined..Until(b.chans[i], b.log)]
    {
      ContiguousUnlessDropped(b.chans[i], b.log);
    }
  }
}
