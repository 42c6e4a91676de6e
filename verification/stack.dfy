/**
 * The byte-buffer stack of src/stack.c: a block of `capacity` bytes holding `count`
 * items of `itemSize` bytes each, grown by reallocation.
 *
 * The functions prefixed Raw follow the code as written, on values: the k-th pushed
 * item lives at byte offset (k+1)*itemSize, so a push can write past the block, a
 * reallocation copies the wrong bytes and a pop of an empty stack wraps the count.
 * The class Stack is the evidently intended layout (item k at offset k*itemSize) and
 * is proved to behave as a stack of byte strings.
 */
module Stacks {
  import opened Wrappers

  type Byte = bv8

  /** size_t is 64 bits wide. */
  const SIZE_MAX: nat := 0xFFFF_FFFF_FFFF_FFFF

  // ---------------------------------------------------------------------------
  // The code as written.

  /**
   * The fields of struct Stack; `mem` is the allocated block (its length is the
   * capacity), empty while `base` is NULL.
   */
  datatype RawStack = RawStack(mem: seq<Byte>, count: nat, itemSize: nat, capacity: nat, expandBy: nat)

  /** What a memcpy of the code would do outside the block it was given. */
  datatype Overrun = Overrun(offset: nat, length: nat, blockSize: nat)

  /** Stack_New: no block, nothing stored, growth step 16. */
  function RawNew(itemSize: nat): RawStack {
    RawStack([], 0, itemSize, 0, 16)
  }

  /** Stack_WithCapacity: a block of itemSize * amount bytes, with unspecified contents. */
  function RawWithCapacity(itemSize: nat, amount: nat, block: seq<Byte>): RawStack
    requires |block| == itemSize * amount
  {
    RawStack(block, 0, itemSize, itemSize * amount, 16)
  }

  /** Stack_Head, as an offset from base: base itself when empty, count * itemSize otherwise. */
  function RawHead(s: RawStack): nat {
    if s.count >= 1 then s.count * s.itemSize else 0
  }

  /**
   * Stack_ExpandBy: for a non-zero amount, a new block of (count + amount) * itemSize
   * bytes whose first count * itemSize bytes are copied from offset 0 of the old block;
   * `block` is what malloc returned. A copy that reads past the old block is an overrun.
   */
  function RawExpandBy(s: RawStack, amount: nat, block: seq<Byte>): (r: Result<RawStack, Overrun>)
    requires amount > 0 ==> |block| == (s.count + amount) * s.itemSize
    ensures amount == 0 ==> r == Ok(s)
    ensures amount > 0 && r.Ok? ==> r.value.capacity == (s.count + amount) * s.itemSize == |r.value.mem|
  {
    if amount == 0 then Ok(s)
    else
      var copied := s.count * s.itemSize;
      var required := (s.count + amount) * s.itemSize;
      if copied > |s.mem| then Err(Overrun(0, copied, |s.mem|))
      else
        MulMono(s.count, s.count + amount, s.itemSize);
        Ok(s.(mem := s.mem[..copied] + block[copied..], capacity := required))
  }

  /**
   * Stack_Push: grow by one item when (count + 1) * itemSize exceeds the capacity, then
   * copy the item to Head + itemSize and count it.
   */
  function RawPush(s: RawStack, item: seq<Byte>, block: seq<Byte>): (r: Result<RawStack, Overrun>)
    requires |item| == s.itemSize && |s.mem| == s.capacity
    requires |block| == (s.count + 1) * s.itemSize
    ensures r.Ok? ==> r.value.count == s.count + 1 && r.value.itemSize == s.itemSize
    ensures r.Ok? ==> |r.value.mem| == r.value.capacity >= (s.count + 2) * s.itemSize
  {
    var grown := if (s.count + 1) * s.itemSize > s.capacity then RawExpandBy(s, 1, block) else Ok(s);
    if grown.Err? then grown
    else
      var g := grown.value;
      var dest := RawHead(g) + g.itemSize;
      if dest + g.itemSize > |g.mem| then Err(Overrun(dest, g.itemSize, |g.mem|))
      else Ok(g.(mem := g.mem[..dest] + item + g.mem[dest + g.itemSize..], count := g.count + 1))
  }

  /**
   * Stack_Pop: copy the itemSize bytes at Head, then decrement the count, with no test
   * for an empty stack (size_t arithmetic wraps 0 - 1 to SIZE_MAX).
   */
  function RawPop(s: RawStack): (r: Result<(RawStack, seq<Byte>), Overrun>)
    requires s.count <= SIZE_MAX
    ensures r.Err? <==> RawHead(s) + s.itemSize > |s.mem|
    ensures r.Ok? ==> r.value.1 == s.mem[RawHead(s)..RawHead(s) + s.itemSize]
    ensures r.Ok? ==> r.value.0 == s.(count := (s.count + SIZE_MAX) % (SIZE_MAX + 1))
  {
    var head := RawHead(s);
    if head + s.itemSize > |s.mem| then Err(Overrun(head, s.itemSize, |s.mem|))
    else Ok((s.(count := if s.count == 0 then SIZE_MAX else s.count - 1), s.mem[head..head + s.itemSize]))
  }

  lemma MulMono(a: nat, b: nat, c: nat)
    requires a <= b
    ensures a * c <= b * c
  {
  }

  /**
   * The write of a push ends at (count + 2) * itemSize, one item beyond what the growth
   * test provides: for items of at least one byte, a push overruns exactly when the
   * capacity is below (count + 2) * itemSize.
   */
  lemma RawPushOverrunsIff(s: RawStack, item: seq<Byte>, block: seq<Byte>)
    requires |item| == s.itemSize > 0 && |s.mem| == s.capacity
    requires |block| == (s.count + 1) * s.itemSize
    requires s.count * s.itemSize <= s.capacity
    ensures RawPush(s, item, block).Err? <==> s.capacity < (s.count + 2) * s.itemSize
  {
    var n := s.count;
    var z := s.itemSize;
    assert (n + 2) * z == (n + 1) * z + z;
    if n >= 1 {
      assert RawHead(s) + z == (n + 1) * z;
    }
  }

  /** The first push on a stack made by Stack_New writes past the block malloc returned. */
  lemma RawFirstPushOverruns(itemSize: nat, item: seq<Byte>, block: seq<Byte>)
    requires |item| == itemSize > 0 && |block| == itemSize
    ensures RawPush(RawNew(itemSize), item, block) == Err(Overrun(itemSize, itemSize, itemSize))
  {
  }

  /**
   * Filling a stack made with room for `amount` items overruns on the amount-th push:
   * with amount - 1 items stored, the growth test passes and the write ends one item
   * past the block.
   */
  lemma RawLastSlotOverruns(s: RawStack, item: seq<Byte>, block: seq<Byte>)
    requires |item| == s.itemSize > 0 && |s.mem| == s.capacity
    requires |block| == (s.count + 1) * s.itemSize
    requires s.capacity == (s.count + 1) * s.itemSize
    ensures RawPush(s, item, block).Err?
  {
    RawPushOverrunsIff(s, item, block);
  }

  /**
   * Growing copies count * itemSize bytes from offset 0, but the items occupy offsets
   * itemSize .. (count + 1) * itemSize: the newest item is not copied, and the new block
   * holds at its slot whatever malloc returned.
   */
  lemma RawExpandDropsNewest(s: RawStack, amount: nat, block: seq<Byte>)
    requires amount > 0 && |block| == (s.count + amount) * s.itemSize
    requires s.count >= 1 && (s.count + 1) * s.itemSize <= |s.mem|
    ensures RawExpandBy(s, amount, block).Ok?
    ensures var m := RawExpandBy(s, amount, block).value.mem;
      var at := s.count * s.itemSize;
      at + s.itemSize <= |m| && m[at..at + s.itemSize] == block[at..at + s.itemSize]
  {
    var n := s.count;
    var z := s.itemSize;
    MulMono(n, n + 1, z);
    MulMono(n + 1, n + amount, z);
    assert (n + 1) * z == n * z + z;
    var m := RawExpandBy(s, amount, block).value.mem;
    assert m == s.mem[..n * z] + block[n * z..];
  }

  /**
   * Stack_New leaves base NULL: a stack just made has no block, so popping it reads
   * item_size bytes outside any block.
   */
  lemma RawNewPopOverruns(itemSize: nat)
    requires itemSize > 0
    ensures RawPop(RawNew(itemSize)) == Err(Overrun(0, itemSize, 0))
  {
  }

  /**
   * A stack made by Stack_WithCapacity for `amount` items takes its first push in place
   * only when amount is at least 2: with room for one item the write lands past it.
   */
  lemma RawWithCapacityFirstPush(itemSize: nat, amount: nat, block: seq<Byte>, item: seq<Byte>, grown: seq<Byte>)
    requires itemSize > 0 && |block| == itemSize * amount
    requires |item| == itemSize && |grown| == itemSize
    ensures RawPush(RawWithCapacity(itemSize, amount, block), item, grown).Err? <==> amount < 2
  {
    var s := RawWithCapacity(itemSize, amount, block);
    RawPushOverrunsIff(s, item, grown);
    if amount >= 2 {
      MulMono(2, amount, itemSize);
    } else {
      MulMono(amount, 1, itemSize);
    }
  }

  /**
   * Head is where the last push wrote: right after a push that stays inside the block,
   * Stack_Pop returns the pushed item and the count is back where it was.
   */
  lemma RawPushThenPop(s: RawStack, item: seq<Byte>, block: seq<Byte>)
    requires |item| == s.itemSize && |s.mem| == s.capacity && s.count < SIZE_MAX
    requires |block| == (s.count + 1) * s.itemSize
    requires RawPush(s, item, block).Ok?
    ensures var p := RawPush(s, item, block).value;
      RawPop(p) == Ok((p.(count := s.count), item))
  {
    var p := RawPush(s, item, block).value;
    var z := s.itemSize;
    var dest := (s.count + 1) * z;
    assert RawHead(p) == dest;
    if s.count >= 1 {
      assert s.count * z + z == dest;
    }
    assert p.mem[dest..dest + z] == item;
  }

  /** Popping an empty stack: the count wraps to SIZE_MAX, and the bytes at base are returned. */
  lemma RawPopEmptyWraps(s: RawStack)
    requires s.count == 0 && s.itemSize <= |s.mem|
    ensures RawPop(s) == Ok((s.(count := SIZE_MAX), s.mem[..s.itemSize]))
  {
  }

  // ---------------------------------------------------------------------------
  // The intended layout: item k at byte offset k * itemSize.

  /** The first n items of a block laid out with itemSize bytes each, oldest first. */
  function Slots(bytes: seq<Byte>, itemSize: nat, n: nat): (r: seq<seq<Byte>>)
    requires n * itemSize <= |bytes|
    ensures |r| == n
    ensures forall k :: 0 <= k < n ==> |r[k]| == itemSize
  {
    if n == 0 then []
    else
      MulMono(n - 1, n, itemSize);
      assert n * itemSize == (n - 1) * itemSize + itemSize;
      Slots(bytes, itemSize, n - 1) + [bytes[(n - 1) * itemSize..n * itemSize]]
  }

  /** Only the first n * itemSize bytes matter. */
  lemma {:induction false} SlotsPrefix(a: seq<Byte>, b: seq<Byte>, itemSize: nat, n: nat)
    requires n * itemSize <= |a| && n * itemSize <= |b|
    requires a[..n * itemSize] == b[..n * itemSize]
    ensures Slots(a, itemSize, n) == Slots(b, itemSize, n)
  {
    if n > 0 {
      MulMono(n - 1, n, itemSize);
      assert n * itemSize == (n - 1) * itemSize + itemSize;
      assert a[..(n - 1) * itemSize] == a[..n * itemSize][..(n - 1) * itemSize];
      assert b[..(n - 1) * itemSize] == b[..n * itemSize][..(n - 1) * itemSize];
      SlotsPrefix(a, b, itemSize, n - 1);
      assert a[(n - 1) * itemSize..n * itemSize] == a[..n * itemSize][(n - 1) * itemSize..];
      assert b[(n - 1) * itemSize..n * itemSize] == b[..n * itemSize][(n - 1) * itemSize..];
    }
  }

  /** Writing an item right after n items adds it as the newest and keeps the others. */
  lemma SlotsPush(bytes: seq<Byte>, itemSize: nat, n: nat, item: seq<Byte>, after: seq<Byte>)
    requires |item| == itemSize && (n + 1) * itemSize <= |bytes| == |after|
    requires after[..n * itemSize] == bytes[..n * itemSize]
    requires after[n * itemSize..(n + 1) * itemSize] == item
    ensures Slots(after, itemSize, n + 1) == Slots(bytes, itemSize, n) + [item]
  {
    MulMono(n, n + 1, itemSize);
    SlotsPrefix(after, bytes, itemSize, n);
  }

  /** The newest of n items sits at (n - 1) * itemSize. */
  lemma SlotsTop(bytes: seq<Byte>, itemSize: nat, n: nat)
    requires 0 < n && n * itemSize <= |bytes|
    ensures (n - 1) * itemSize + itemSize == n * itemSize
    ensures Slots(bytes, itemSize, n)[n - 1] == bytes[(n - 1) * itemSize..n * itemSize]
    ensures Slots(bytes, itemSize, n - 1) == Slots(bytes, itemSize, n)[..n - 1]
  {
    assert n * itemSize == (n - 1) * itemSize + itemSize;
  }

  class Stack {
    /** The block base points to; its length is the capacity. */
    var buf: array<Byte>
    var count: nat
    const itemSize: nat
    var capacity: nat
    /** Stored by Stack_New and read by no function of the stack. */
    var expandBy: nat

    ghost predicate Valid()
      reads this
    {
      capacity == buf.Length && count * itemSize <= capacity
    }

    /** The stored items, oldest first. */
    ghost function Contents(): seq<seq<Byte>>
      reads this, buf
      requires Valid()
    {
      Slots(buf[..], itemSize, count)
    }

    /** Stack_New: an empty stack with no room. */
    constructor New(itemSize: nat)
      ensures Valid() && Contents() == [] && capacity == 0 && expandBy == 16
      ensures this.itemSize == itemSize
    {
      this.itemSize := itemSize;
      buf := new Byte[0];
      count := 0;
      capacity := 0;
      expandBy := 16;
    }

    /** Stack_WithCapacity: an empty stack with room for `amount` items. */
    constructor WithCapacity(itemSize: nat, amount: nat)
      ensures Valid() && Contents() == [] && capacity == itemSize * amount && expandBy == 16
      ensures this.itemSize == itemSize
    {
      this.itemSize := itemSize;
      buf := new Byte[itemSize * amount];
      count := 0;
      capacity := itemSize * amount;
      expandBy := 16;
    }

    /** Stack_Head: where the newest item lies in the block, base when the stack is empty. */
    function Head(): (h: nat)
      reads this, buf
      requires Valid()
      ensures count == 0 ==> h == 0
      ensures count >= 1 ==> h + itemSize <= buf.Length && buf[h..h + itemSize] == Contents()[count - 1]
    {
      if count >= 1 then SlotsTop(buf[..], itemSize, count); (count - 1) * itemSize else 0
    }

    /**
     * Stack_ExpandBy: room for `amount` more items than are stored; the items move to
     * a new block and keep their order. Zero leaves the block alone.
     */
    method ExpandBy(amount: nat)
      requires Valid()
      modifies this
      ensures Valid() && Contents() == old(Contents()) && count == old(count)
      ensures amount == 0 ==> buf == old(buf) && capacity == old(capacity)
      ensures amount > 0 ==> fresh(buf) && capacity == (count + amount) * itemSize
      ensures expandBy == old(expandBy)
    {
      if amount == 0 {
        return;
      }
      var required := (count + amount) * itemSize;
      MulMono(count, count + amount, itemSize);
      var copied := count * itemSize;
      ghost var before := buf[..];
      assert Contents() == Slots(before, itemSize, count);
      var block := new Byte[required];
      forall i | 0 <= i < copied {
        block[i] := buf[i];
      }
      assert block[..][..copied] == before[..copied];
      SlotsPrefix(block[..], before, itemSize, count);
      buf := block;
      capacity := required;
    }

    /** Stack_Push: grow by one item when full, then store the item as the newest. */
    method Push(item: seq<Byte>)
      requires Valid() && |item| == itemSize
      modifies this, buf
      ensures Valid() && Contents() == old(Contents()) + [item]
      ensures expandBy == old(expandBy)
    {
      if (count + 1) * itemSize > capacity {
        ExpandBy(1);
      }
      var at := count * itemSize;
      assert (count + 1) * itemSize == at + itemSize;
      ghost var before := buf[..];
      forall i | 0 <= i < itemSize {
        buf[at + i] := item[i];
      }
      assert buf[..][..at] == before[..at];
      assert buf[..][at..at + itemSize] == item;
      SlotsPush(before, itemSize, count, item, buf[..]);
      count := count + 1;
    }

    /** Stack_Pop with the guard the code omits: None on an empty stack. */
    method Pop() returns (item: Option<seq<Byte>>)
      requires Valid()
      modifies this
      ensures Valid() && buf == old(buf) && capacity == old(capacity)
      ensures old(Contents()) == [] ==> item == None && Contents() == []
      ensures old(Contents()) != [] ==>
        item == Some(old(Contents())[|old(Contents())| - 1])
        && Contents() == old(Contents())[..|old(Contents())| - 1]
    {
      if count == 0 {
        return None;
      }
      var head := Head();
      SlotsTop(buf[..], itemSize, count);
      item := Some(buf[head..head + itemSize]);
      count := count - 1;
    }
  }
}
