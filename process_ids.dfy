/** The cyclic process-id allocator that the worker's runtime factory closes
    over: `nextProcessId` starts at `firstProcessId`, each factory call hands it
    out and then increments it, or wraps it back to `firstProcessId` once it has
    reached `lastProcessId = firstProcessId + processIdSpaceLength - 1`. */
module ProcessIds {

  /** `lastProcessId` as the worker computes it. */
  function LastId(first: int, length: int): int {
    first + length - 1
  }

  /** Reference definition: the id handed out by the k-th factory call
      (counting from 0). Every id lies in [first, last]; a range of length 1 or
      less never advances and always yields `first`. */
  function IdAt(first: int, length: int, k: nat): (id: int)
    ensures length >= 1 ==> first <= id <= LastId(first, length)
    ensures length <= 1 ==> id == first
  {
    if length <= 1 then first else first + k % length
  }

  /** The cursor after one factory call that handed out `cursor`: the next id
      up, or `first` again. A cursor in [first, last] stays there. */
  function Advance(first: int, last: int, cursor: int): (next: int)
    ensures next == cursor + 1 || next == first
    ensures first <= cursor <= last ==> first <= next <= last
  {
    if cursor < last then cursor + 1 else first
  }

  /** A non-zero multiple of a positive length is at least that length away from 0. */
  lemma MultipleBound(d: int, length: int)
    requires length > 0
    ensures d >= 1 ==> d * length >= length
    ensures d <= -1 ==> d * length <= -length
  {
    if d >= 1 {
      assert d * length == length + (d - 1) * length;
    } else if d <= -1 {
      assert d * length == -length + (d + 1) * length;
    }
  }

  /** The remainder is determined by any quotient-remainder decomposition. */
  lemma ModUnique(a: int, length: int, q: int, r: int)
    requires length > 0 && 0 <= r < length && a == q * length + r
    ensures a % length == r
  {
    var q0, r0 := a / length, a % length;
    assert (q - q0) * length == r0 - r;
    MultipleBound(q - q0, length);
  }

  lemma ModSuccessor(j: nat, length: int)
    requires length >= 2
    ensures (j + 1) % length == if j % length < length - 1 then j % length + 1 else 0
  {
    var q, r := j / length, j % length;
    if r < length - 1 {
      ModUnique(j + 1, length, q, r + 1);
    } else {
      assert j + 1 == (q + 1) * length;
      ModUnique(j + 1, length, q + 1, 0);
    }
  }

  /** One step of the closure moves the reference cursor from call k to call k + 1. */
  lemma AdvanceIdAt(first: int, length: int, k: nat)
    ensures Advance(first, LastId(first, length), IdAt(first, length, k)) == IdAt(first, length, k + 1)
  {
    if length >= 2 {
      ModSuccessor(k, length);
    }
  }

  /** The first runtime gets `firstProcessId`. */
  lemma FirstIdIsFirst(first: int, length: int)
    ensures IdAt(first, length, 0) == first
  {
  }

  /** Each call returns the previous id plus one, or `firstProcessId` right
      after returning `lastProcessId`. */
  lemma NextIdFollowsPrevious(first: int, length: int, k: nat)
    ensures IdAt(first, length, k + 1) ==
            if IdAt(first, length, k) < LastId(first, length) then IdAt(first, length, k) + 1 else first
  {
    AdvanceIdAt(first, length, k);
  }

  /** The ids repeat with period `length`. */
  lemma {:induction false} IdPeriodic(first: int, length: int, k: nat)
    requires length >= 1
    ensures IdAt(first, length, k + length) == IdAt(first, length, k)
  {
    if length >= 2 {
      var q, r := k / length, k % length;
      assert k + length == (q + 1) * length + r;
      ModUnique(k + length, length, q + 1, r);
    }
  }

  /** Within one period no id is handed out twice. */
  lemma IdsDistinctWithinPeriod(first: int, length: int, i: nat, j: nat)
    requires i < j < length
    ensures IdAt(first, length, i) != IdAt(first, length, j)
  {
  }

  /** The allocator as a mutable object, the explicit form of the closure state. */
  class ProcessIdAllocator {
    const first: int
    const length: int
    const last: int
    var next: int
    /** How many ids have been handed out so far. */
    ghost var issued: nat

    ghost predicate Valid()
      reads this
    {
      last == LastId(first, length) && next == IdAt(first, length, issued)
    }

    constructor (firstProcessId: int, processIdSpaceLength: int)
      ensures Valid()
      ensures first == firstProcessId && length == processIdSpaceLength && issued == 0
    {
      first := firstProcessId;
      length := processIdSpaceLength;
      last := firstProcessId + processIdSpaceLength - 1;
      next := firstProcessId;
      issued := 0;
    }

    /** One call of the runtime factory's id allocation. */
    method Next() returns (id: int)
      requires Valid()
      modifies this
      ensures Valid() && issued == old(issued) + 1
      ensures id == IdAt(first, length, old(issued))
    {
      id := next;
      if next < last {
        next := next + 1;
      } else {
        next := first;
      }
      AdvanceIdAt(first, length, issued);
      issued := issued + 1;
    }
  }
}
