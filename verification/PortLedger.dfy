/** The vocabulary of the port bitmap: what may be taken from it and what giving back does. */
module PortLedger {
  predicate Within(lo: int, x: int, hi: int) { lo <= x <= hi }

  function Range(lo: int, hi: int): (r: set<int>)
    ensures forall x :: x in r <==> lo <= x <= hi
  {
    set x | lo <= x <= hi && Within(lo, x, hi)
  }

  /** The ports a process holds; 0-0 stands for none. */
  function PortSet(first: int, last: int): set<int> {
    if first == 0 && last == 0 then {} else Range(first, last)
  }

  predicate Allocatable(free: set<int>, at: int, n: int) {
    forall x | at <= x < at + n :: x in free
  }

  /** releasePorts followed by ReleaseRange: anything outside [lo, hi] is refused. */
  function Released(free: set<int>, lo: int, hi: int, first: int, last: int): set<int> {
    if first < 0 || last < 0 || last < first || (first == 0 && last == 0) || first < lo || last > hi then free
    else free + Range(first, last)
  }
}
