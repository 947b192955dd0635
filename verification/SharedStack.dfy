/** Shared stacks as objects: buffers that are overwritten in place, pools that hand them out in turn, fibers
    whose fields are updated. Every operation does what its counterpart on values does. */
module SharedStacks {
  import opened FiberIds
  import opened Stacks

  // ----- a buffer

  class SharedStackSlot {
    const stack: array<byte>
    const base: nat
    const pooled: bool
    ghost const pad: seq<byte>
    var owner: Option<FiberId>

    ghost function Value(): Slot
      reads this, stack
    {
      Slot(stack[..], base, pad, pooled, owner)
    }

    /** Allocates a buffer; `base` is the address the allocator chose. */
    constructor (base: nat, size: nat, pooled: bool)
      requires 0 <= EntryOffset(base, size)
      ensures fresh(stack) && stack.Length == size && this.pooled == pooled
      ensures Value() == NewSlot(base, stack[..], pooled, None)
    {
      EntryIsAligned(base, size);
      var memory := new byte[size];
      stack := memory;
      this.base, this.pooled, owner := base, pooled, None;
      pad := memory[EntryOffset(base, size) + 8..];
    }

    method WriteEntryWord()
      requires SlotOk(Value())
      modifies stack
      ensures Value() == WriteEntry(old(Value()))
    {
      var entry := EntryOffset(base, stack.Length);
      for k := 0 to 8
        invariant stack[..] == old(stack[..])[..entry] + ZEROS[..k] + old(stack[..])[entry + k..]
      {
        stack[entry + k] := 0;
      }
    }

    method CopyOut(sp: nat) returns (bytes: seq<byte>)
      requires sp <= stack.Length
      ensures bytes == stack[..][sp..]
    {
      bytes := stack[sp..];
    }

    method CopyIn(bytes: seq<byte>)
      requires |bytes| <= stack.Length
      modifies stack
      ensures Value() == Restored(old(Value()), bytes)
    {
      var start := stack.Length - |bytes|;
      for k := 0 to |bytes|
        invariant stack[..] == old(stack[..])[..start] + bytes[..k] + old(stack[..])[start + k..]
      {
        stack[start + k] := bytes[k];
      }
    }
  }

  // ----- a pool

  /** The slots `first` up to `first + count` of the thread. */
  class SharedStackPool {
    const first: nat
    const count: nat
    var next: nat

    ghost predicate Valid() { count > 0 }

    constructor (first: nat, count: nat)
      ensures Valid() && next == 0 && this.first == first && this.count == if count == 0 then 1 else count
    {
      this.first, this.count, next := first, if count == 0 then 1 else count, 0;
    }

    method AcquireSlot() returns (slot: nat)
      requires Valid()
      modifies this
      ensures next == old(next) + 1 && slot == Turn(first, count, old(next))
    {
      slot := first + next % count;
      next := next + 1;
    }
  }

  function Turn(first: nat, count: nat, n: nat): nat
    requires count > 0
  {
    first + n % count
  }

  /** Slots are handed out in turn: within any `count` acquisitions every slot of the pool comes up exactly once. */
  lemma EverySlotInTurn(first: nat, count: nat, start: nat, slot: nat)
    requires count > 0 && first <= slot < first + count
    ensures exists n :: start <= n < start + count && Turn(first, count, n) == slot
    ensures forall n, n' :: start <= n < n' < start + count ==> Turn(first, count, n) != Turn(first, count, n')
  {
    var n := ComesUp(count, start, slot - first);
    assert Turn(first, count, n) == slot;
    forall n, n' | start <= n < n' < start + count ensures Turn(first, count, n) != Turn(first, count, n') {
      NotCongruent(count, n, n');
    }
  }

  lemma {:induction false} ComesUp(count: nat, start: nat, r: nat) returns (n: nat)
    requires r < count
    ensures start <= n < start + count && n % count == r
  {
    if start == 0 {
      n := r;
      Divided(count, n, 0, r);
    } else {
      n := ComesUp(count, start - 1, r);
      if n == start - 1 {
        Divided(count, n + count, n / count + 1, r);
        n := n + count;
      }
    }
  }

  lemma NotCongruent(count: nat, n: nat, n': nat)
    requires count > 0 && n < n' < n + count
    ensures n % count != n' % count
  {
    var q, q', r := n / count, n' / count, n % count;
    if q' * count + r == n' {
      AtLeast(count, q, q');
    }
  }

  lemma Divided(count: nat, n: nat, q: nat, r: nat)
    requires r < count && n == q * count + r
    ensures n % count == r
  {
    var q', r' := n / count, n % count;
    if q < q' {
      AtLeast(count, q, q');
    } else if q' < q {
      AtLeast(count, q', q);
    }
  }

  lemma AtLeast(count: nat, q: nat, q': nat)
    requires q < q'
    ensures q' * count >= q * count + count
  {
    var d := q' - q - 1;
    assert q' * count == q * count + count + d * count;
  }
}
