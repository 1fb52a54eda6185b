/**
 * The events component: a bounded registry of callback handlers, and a FIFO
 * data queue of tagged items whose heap copies are freed late, through a
 * "garbage" list emptied on the next post.
 *
 * Event bases are pointers compared by identity, so they are modelled as
 * addresses (`nat`); handlers, their arguments and event data pointers
 * likewise.  The C heap is modelled by the set of live block numbers.
 * Running a handler is modelled by appending an invocation to a trace.
 */
module Events {
  import opened CLib

  // esp_err_t and BaseType_t results
  const ESP_OK: int := 0
  const ESP_FAIL: int := -1
  const ESP_ERR_NO_MEM: int := 0x101
  const ESP_ERR_INVALID_ARG: int := 0x102
  const pdTRUE: int := 1
  const pdFALSE: int := 0

  /** sizeof the `val` member of an item's data union (a uint32_t). */
  const INLINE_SIZE: nat := 4

  datatype Registration = Registration(base: nat, id: int, handler: nat, arg: nat)

  /** One call handler(arg, base, id, data). */
  datatype Invocation = Invocation(handler: nat, arg: nat, base: nat, id: int, data: nat)

  /**
   * The data of a queue item: none (data_set false), a heap copy
   * (data_allocated and data_set), or the four bytes of the inline value.
   */
  datatype Payload = NoData | Heap(block: nat, bytes: seq<bv8>) | Inline(val: seq<bv8>)

  datatype Item = Item(base: nat, id: int, payload: Payload)

  /** What eventsDataQueueGet stores through its output pointer. */
  datatype DataRef = Null | HeapRef(block: nat) | InlineRef(val: seq<bv8>)

  // ---------------------------------------------------------------------
  // Callback dispatch

  predicate Matches(reg: Registration, base: nat, id: int)
  {
    reg.base == base && reg.id == id
  }

  /** The handler calls eventsCallbackExec makes: the matching registrations, in order. */
  function Matching(regs: seq<Registration>, base: nat, id: int, data: nat): (r: seq<Invocation>)
    ensures |r| <= |regs|
    decreases |regs|
  {
    if regs == [] then []
    else
      (if Matches(regs[0], base, id) then [Invocation(regs[0].handler, regs[0].arg, base, id, data)] else [])
      + Matching(regs[1..], base, id, data)
  }

  /** One more registration adds its call at the end, if it matches. */
  lemma {:induction false} MatchingAppend(regs: seq<Registration>, reg: Registration, base: nat, id: int, data: nat)
    ensures Matching(regs + [reg], base, id, data)
         == Matching(regs, base, id, data)
          + (if Matches(reg, base, id) then [Invocation(reg.handler, reg.arg, base, id, data)] else [])
    decreases |regs|
  {
    if regs == [] {
      assert [reg][1..] == [];
    } else {
      assert (regs + [reg])[1..] == regs[1..] + [reg];
      MatchingAppend(regs[1..], reg, base, id, data);
    }
  }

  /** A handler is called with an argument exactly when it was registered with it for this base and id. */
  lemma {:induction false} MatchingMembers(regs: seq<Registration>, base: nat, id: int, data: nat, handler: nat, arg: nat)
    ensures Invocation(handler, arg, base, id, data) in Matching(regs, base, id, data)
        <==> Registration(base, id, handler, arg) in regs
    decreases |regs|
  {
    if regs != [] {
      MatchingMembers(regs[1..], base, id, data, handler, arg);
      assert regs == [regs[0]] + regs[1..];
    }
  }

  /** Every call is made with the event's own base, id and data. */
  lemma {:induction false} MatchingEvent(regs: seq<Registration>, base: nat, id: int, data: nat)
    ensures forall inv :: inv in Matching(regs, base, id, data) ==> inv.base == base && inv.id == id && inv.data == data
    decreases |regs|
  {
    if regs != [] {
      MatchingEvent(regs[1..], base, id, data);
    }
  }

  // ---------------------------------------------------------------------
  // Heap blocks held by queue items

  function HeapBlocks(items: seq<Item>): set<nat>
  {
    set it | it in items && it.payload.Heap? :: it.payload.block
  }

  /** No two items hold the same heap block. */
  predicate DistinctBlocks(items: seq<Item>)
  {
    forall i, j :: 0 <= i < j < |items| && items[i].payload.Heap? && items[j].payload.Heap?
      ==> items[i].payload.block != items[j].payload.block
  }

  lemma HeapBlocksAppend(s: seq<Item>, t: seq<Item>)
    ensures HeapBlocks(s + t) == HeapBlocks(s) + HeapBlocks(t)
  {
    forall b | b in HeapBlocks(s + t) ensures b in HeapBlocks(s) + HeapBlocks(t) {
      var it :| it in s + t && it.payload.Heap? && it.payload.block == b;
    }
  }

  /** The item's own block is the only one it adds. */
  lemma HeapBlocksOne(it: Item)
    ensures HeapBlocks([it]) == if it.payload.Heap? then {it.payload.block} else {}
  {
  }

  /** Removing the head of a queue of distinct blocks keeps the head's block out of the rest. */
  lemma HeapBlocksTail(q: seq<Item>)
    requires |q| > 0 && DistinctBlocks(q)
    ensures HeapBlocks(q) == HeapBlocks([q[0]]) + HeapBlocks(q[1..])
    ensures DistinctBlocks(q[1..])
    ensures q[0].payload.Heap? ==> q[0].payload.block !in HeapBlocks(q[1..])
  {
    assert q == [q[0]] + q[1..];
    HeapBlocksAppend([q[0]], q[1..]);
  }

  /** Appending an item whose block is new keeps the blocks distinct. */
  lemma DistinctAppend(s: seq<Item>, it: Item)
    requires DistinctBlocks(s)
    requires it.payload.Heap? ==> it.payload.block !in HeapBlocks(s)
    ensures DistinctBlocks(s + [it])
  {
    forall i, j | 0 <= i < j < |s + [it]| && (s + [it])[i].payload.Heap? && (s + [it])[j].payload.Heap?
      ensures (s + [it])[i].payload.block != (s + [it])[j].payload.block
    {
      if j == |s| {
        assert (s + [it])[i] == s[i] && s[i] in s;
      } else {
        assert (s + [it])[i] == s[i] && (s + [it])[j] == s[j];
      }
    }
  }

  /** The c-th item's block is among the blocks of the list, and not among those before it. */
  lemma CollectedBlock(g: seq<Item>, c: nat)
    requires DistinctBlocks(g) && c < |g| && g[c].payload.Heap?
    ensures g[c].payload.block in HeapBlocks(g)
    ensures g[c].payload.block !in HeapBlocks(g[..c])
  {
    assert g[c] in g;
  }

  /**
   * The queue and garbage invariant: the garbage list always has room for
   * the items still queued, and every live block is held by exactly one
   * queued or collected item, numbered below the next block to allocate.
   */
  predicate Holds(q: seq<Item>, g: seq<Item>, live: set<nat>, next: nat, size: nat)
  {
    && |g| + |q| <= size
    && live == HeapBlocks(q) + HeapBlocks(g)
    && HeapBlocks(q) !! HeapBlocks(g)
    && DistinctBlocks(q) && DistinctBlocks(g)
    && (forall b :: b in live ==> b < next)
  }

  /** Receiving the head moves it to the garbage list when it has data, and drops it otherwise. */
  lemma HeadToGarbage(q: seq<Item>, g: seq<Item>, live: set<nat>, next: nat, size: nat)
    requires Holds(q, g, live, next, size) && |q| > 0
    ensures Holds(q[1..], g + [q[0]], live, next, size)
    ensures q[0].payload.NoData? ==> Holds(q[1..], g, live, next, size)
  {
    HeapBlocksTail(q);
    HeapBlocksOne(q[0]);
    HeapBlocksAppend(g, [q[0]]);
    DistinctAppend(g, q[0]);
  }

  /** The reference Get hands out for an item's data. */
  function RefOf(p: Payload): (r: DataRef)
    ensures r.Null? <==> p.NoData?
  {
    match p
    case NoData => Null
    case Heap(b, _) => HeapRef(b)
    case Inline(v) => InlineRef(v)
  }

  /** Post makes a heap copy only of a non-null pointer with a non-zero size. */
  predicate Copies(data: Option<seq<bv8>>, size: nat)
  {
    data.Some? && size != 0
  }

  /** The four bytes of the inline value: the copied bytes, then zeros. */
  function InlineVal(bytes: seq<bv8>): (r: seq<bv8>)
    requires |bytes| <= INLINE_SIZE
    ensures |r| == INLINE_SIZE && r[..|bytes|] == bytes
    ensures forall k :: |bytes| <= k < INLINE_SIZE ==> r[k] == 0
  {
    bytes + seq(INLINE_SIZE - |bytes|, _ => 0)
  }

  class EventBus {
    /** CONFIG_CALLBACK_SIZE and CONFIG_QUEUE_SIZE. */
    const callbackSize: nat
    const queueSize: nat

    /** eventsInit has run: the registry and garbage arrays and the queue exist. */
    var initialised: bool
    var regs: array<Registration>
    var count: nat
    var garbage: array<Item>
    var garbageCount: nat
    var queue: seq<Item>
    /** The heap blocks allocated and not yet freed. */
    var live: set<nat>
    var nextBlock: nat
    /** The handler calls made so far. */
    var calls: seq<Invocation>

    ghost predicate Valid()
      reads this, garbage
    {
      && (initialised ==> regs.Length == callbackSize && garbage.Length == queueSize)
      && (!initialised ==> count == 0 && garbageCount == 0 && queue == [])
      && count <= regs.Length
      && garbageCount <= garbage.Length
      && Holds(queue, garbage[..garbageCount], live, nextBlock, queueSize)
    }

    /** The static state before eventsInit. */
    constructor Boot(callbackSize: nat, queueSize: nat)
      ensures Valid() && !initialised
      ensures this.callbackSize == callbackSize && this.queueSize == queueSize
      ensures live == {} && calls == []
    {
      this.callbackSize := callbackSize;
      this.queueSize := queueSize;
      initialised := false;
      regs := new Registration[0];
      count := 0;
      garbage := new Item[0];
      garbageCount := 0;
      queue := [];
      live := {};
      nextBlock := 0;
      calls := [];
    }

    /** eventsInit: allocates the registry and the garbage list and creates the empty queue. */
    method Init()
      requires Valid() && !initialised
      modifies this
      ensures Valid() && initialised
      ensures fresh(regs) && fresh(garbage)
      ensures count == 0 && garbageCount == 0 && queue == []
      ensures live == old(live) && nextBlock == old(nextBlock) && calls == old(calls)
    {
      regs := new Registration[callbackSize](_ => Registration(0, 0, 0, 0));
      garbage := new Item[queueSize](_ => Item(0, 0, NoData));
      initialised := true;
    }

    /** dataItemInstanceDelete's free. */
    method Free(block: nat)
      requires block in live
      modifies this
      ensures live == old(live) - {block}
      ensures queue == old(queue) && garbageCount == old(garbageCount) && nextBlock == old(nextBlock)
      ensures count == old(count) && calls == old(calls) && initialised == old(initialised)
      ensures regs == old(regs) && garbage == old(garbage)
    {
      live := live - {block};
    }

    /**
     * collectGarbageDataQueueItems: frees the heap copy of every collected
     * item and empties the list.  Each block freed is live, and what stays
     * live is exactly what the queue still holds.
     */
    method CollectGarbage()
      requires Valid()
      modifies this
      ensures Valid()
      ensures garbageCount == 0 && live == HeapBlocks(queue)
      ensures queue == old(queue) && nextBlock == old(nextBlock)
      ensures count == old(count) && calls == old(calls) && initialised == old(initialised)
      ensures regs == old(regs) && garbage == old(garbage)
    {
      var c := 0;
      while c < garbageCount
        invariant 0 <= c <= garbageCount <= garbage.Length
        invariant live == old(live) - HeapBlocks(garbage[..c])
        invariant old(live) == HeapBlocks(queue) + HeapBlocks(garbage[..garbageCount])
        invariant HeapBlocks(queue) !! HeapBlocks(garbage[..garbageCount])
        invariant DistinctBlocks(garbage[..garbageCount])
        invariant queue == old(queue) && nextBlock == old(nextBlock) && garbageCount == old(garbageCount)
        invariant count == old(count) && calls == old(calls) && initialised == old(initialised)
        invariant regs == old(regs) && garbage == old(garbage)
      {
        var item := garbage[c];
        assert garbage[..c + 1] == garbage[..c] + [item];
        HeapBlocksAppend(garbage[..c], [item]);
        HeapBlocksOne(item);
        if item.payload.Heap? {
          CollectedBlock(garbage[..garbageCount], c);
          assert garbage[..garbageCount][..c] == garbage[..c];
          Free(item.payload.block);
        }
        c := c + 1;
      }
      assert garbage[..c] == garbage[..garbageCount];
      garbageCount := 0;
      assert garbage[..0] == [];
    }

    /** eventsCallbackHandlerRegister: appends while there is room, else fails and changes nothing. */
    method Register(base: nat, id: int, handler: nat, arg: nat) returns (r: int)
      requires Valid() && initialised
      modifies this, regs
      ensures Valid()
      ensures r == ESP_OK || r == ESP_FAIL
      ensures r == ESP_OK <==> old(count) < callbackSize
      ensures r == ESP_OK ==> (count == old(count) + 1
                               && regs[..count] == old(regs[..count]) + [Registration(base, id, handler, arg)])
      ensures r == ESP_FAIL ==> count == old(count) && regs[..] == old(regs[..])
      ensures regs == old(regs) && garbage == old(garbage)
      ensures queue == old(queue) && garbageCount == old(garbageCount) && live == old(live)
      ensures nextBlock == old(nextBlock) && calls == old(calls) && initialised == old(initialised)
    {
      var reg := Registration(base, id, handler, arg);
      if count < callbackSize {
        regs[count] := reg;
        count := count + 1;
        assert regs[..count] == old(regs[..count]) + [reg];
      } else {
        return ESP_FAIL;
      }
      return ESP_OK;
    }

    /** eventsCallbackExec: calls every matching handler, in registration order. */
    method Exec(base: nat, id: int, data: nat) returns (r: int)
      requires Valid()
      modifies this
      ensures Valid()
      ensures r == ESP_OK
      ensures calls == old(calls) + Matching(regs[..count], base, id, data)
      ensures regs == old(regs) && garbage == old(garbage) && count == old(count)
      ensures queue == old(queue) && garbageCount == old(garbageCount) && live == old(live)
      ensures nextBlock == old(nextBlock) && initialised == old(initialised)
    {
      var c := 0;
      while c < count
        invariant 0 <= c <= count <= regs.Length
        invariant calls == old(calls) + Matching(regs[..c], base, id, data)
        invariant regs == old(regs) && garbage == old(garbage) && count == old(count)
        invariant queue == old(queue) && garbageCount == old(garbageCount) && live == old(live)
        invariant nextBlock == old(nextBlock) && initialised == old(initialised)
      {
        var reg := regs[c];
        assert regs[..c + 1] == regs[..c] + [reg];
        MatchingAppend(regs[..c], reg, base, id, data);
        if reg.base == base && reg.id == id {
          calls := calls + [Invocation(reg.handler, reg.arg, base, id, data)];
        }
        c := c + 1;
      }
      assert regs[..c] == regs[..count];
      return ESP_OK;
    }

    /** xQueueSendToBack: succeeds while the queue has a free slot. */
    method SendToBack(item: Item) returns (r: int)
      modifies this
      ensures r == pdTRUE || r == pdFALSE
      ensures r == pdTRUE <==> |old(queue)| < queueSize
      ensures queue == if r == pdTRUE then old(queue) + [item] else old(queue)
      ensures live == old(live) && garbageCount == old(garbageCount) && nextBlock == old(nextBlock)
      ensures count == old(count) && calls == old(calls) && initialised == old(initialised)
      ensures regs == old(regs) && garbage == old(garbage)
    {
      if |queue| < queueSize {
        queue := queue + [item];
        r := pdTRUE;
      } else {
        r := pdFALSE;
      }
    }

    /**
     * eventsDataQueuePost: collects the garbage, then queues the item with a
     * heap copy of the data.  A failed allocation returns ESP_ERR_NO_MEM; a
     * full queue frees the copy and returns pdFALSE.
     */
    method Post(base: nat, id: int, data: Option<seq<bv8>>, size: nat, allocOk: bool) returns (r: int)
      requires Valid()
      requires data.Some? ==> size <= |data.value|
      modifies this
      ensures Valid()
      ensures garbageCount == 0 && live == HeapBlocks(queue)
      ensures r == pdTRUE || r == pdFALSE || r == ESP_ERR_NO_MEM
      ensures r == ESP_ERR_NO_MEM <==> old(initialised) && Copies(data, size) && !allocOk
      ensures r == pdTRUE <==> old(initialised) && (Copies(data, size) ==> allocOk) && |old(queue)| < queueSize
      ensures r == pdTRUE ==> queue == old(queue) + [Item(base, id,
                if Copies(data, size) then Heap(old(nextBlock), data.value[..size]) else NoData)]
      ensures r != pdTRUE ==> queue == old(queue)
      ensures regs == old(regs) && garbage == old(garbage) && count == old(count)
      ensures calls == old(calls) && initialised == old(initialised)
    {
      CollectGarbage();
      if !initialised {
        return pdFALSE;
      }
      var payload := NoData;
      if data.Some? && size != 0 {
        if !allocOk {
          return ESP_ERR_NO_MEM;
        }
        payload := Heap(nextBlock, data.value[..size]);
        live := live + {nextBlock};
        nextBlock := nextBlock + 1;
      }
      var item := Item(base, id, payload);
      HeapBlocksOne(item);
      HeapBlocksAppend(queue, [item]);
      DistinctAppend(queue, item);
      r := SendToBack(item);
      if r != pdTRUE && item.payload.Heap? {
        Free(item.payload.block);
      }
    }

    /**
     * eventsDataQueuePostFromISR: like Post, but the data is copied into the
     * item's four inline bytes, and a larger size is refused.
     */
    method PostFromISR(base: nat, id: int, data: Option<seq<bv8>>, size: nat) returns (r: int)
      requires Valid()
      requires data.Some? ==> size <= |data.value|
      modifies this
      ensures Valid()
      ensures garbageCount == 0 && live == HeapBlocks(queue)
      ensures r == pdTRUE || r == pdFALSE || r == ESP_ERR_INVALID_ARG
      ensures r == ESP_ERR_INVALID_ARG <==> old(initialised) && size > INLINE_SIZE
      ensures r == pdTRUE <==> old(initialised) && size <= INLINE_SIZE && |old(queue)| < queueSize
      ensures r == pdTRUE ==> queue == old(queue) + [Item(base, id,
                if Copies(data, size) then Inline(InlineVal(data.value[..size])) else NoData)]
      ensures r != pdTRUE ==> queue == old(queue)
      ensures nextBlock == old(nextBlock)
      ensures regs == old(regs) && garbage == old(garbage) && count == old(count)
      ensures calls == old(calls) && initialised == old(initialised)
    {
      CollectGarbage();
      if !initialised {
        return pdFALSE;
      }
      if size > INLINE_SIZE {
        return ESP_ERR_INVALID_ARG;
      }
      var payload := NoData;
      if data.Some? && size != 0 {
        payload := Inline(InlineVal(data.value[..size]));
      }
      var item := Item(base, id, payload);
      HeapBlocksOne(item);
      HeapBlocksAppend(queue, [item]);
      DistinctAppend(queue, item);
      r := SendToBack(item);
    }

    /**
     * eventsDataQueueGet: only the head is examined.  A head with another
     * base or id stays queued; a matching head is removed, and its data, if
     * it has any, is handed out and the item goes to the garbage list, whose
     * capacity the invariant guarantees.  Without a queue nothing happens,
     * not even the store through the output pointer.
     */
    method Get(base: nat, id: int, prev: DataRef) returns (r: int, out: DataRef)
      requires Valid()
      modifies this, garbage
      ensures Valid()
      ensures r == pdTRUE || r == pdFALSE
      ensures live == old(live) && nextBlock == old(nextBlock)
      ensures !old(initialised) ==> r == pdFALSE && out == prev && queue == old(queue)
      ensures old(initialised) && (old(queue) == [] || !(old(queue)[0].base == base && old(queue)[0].id == id))
              ==> r == pdFALSE && out == Null && queue == old(queue)
      ensures old(initialised) && old(queue) != [] && old(queue)[0].base == base && old(queue)[0].id == id
              ==> queue == old(queue)[1..] && out == RefOf(old(queue)[0].payload)
                  && (r == pdTRUE <==> !old(queue)[0].payload.NoData?)
      ensures r == pdTRUE ==> (garbageCount == old(garbageCount) + 1
                               && garbage[..garbageCount] == old(garbage[..garbageCount]) + [old(queue)[0]])
      ensures r == pdFALSE ==> garbageCount == old(garbageCount) && garbage[..] == old(garbage[..])
      ensures old(initialised) && out.HeapRef? ==> out.block in live
      ensures regs == old(regs) && garbage == old(garbage) && count == old(count)
      ensures calls == old(calls) && initialised == old(initialised)
    {
      r := pdFALSE;
      var dataRef := Null;
      if !initialised {
        return pdFALSE, prev;
      }
      // xQueuePeek
      if queue != [] {
        var item := queue[0];
        if item.base == base && item.id == id {
          // xQueueReceive
          HeadToGarbage(queue, garbage[..garbageCount], live, nextBlock, queueSize);
          queue := queue[1..];
          if !item.payload.NoData? {
            dataRef := RefOf(item.payload);
            AddGarbage(item);
            r := pdTRUE;
          }
        }
      }
      out := dataRef;
    }

    /** addGarbageDataQueueItem, for the head just received from the queue. */
    method AddGarbage(item: Item)
      requires initialised && regs.Length == callbackSize && garbage.Length == queueSize && count <= regs.Length
      requires garbageCount < garbage.Length
      requires Holds(queue, garbage[..garbageCount] + [item], live, nextBlock, queueSize)
      modifies this, garbage
      ensures Valid()
      ensures garbageCount == old(garbageCount) + 1
      ensures garbage[..garbageCount] == old(garbage[..garbageCount]) + [item]
      ensures queue == old(queue) && live == old(live) && nextBlock == old(nextBlock)
      ensures count == old(count) && calls == old(calls) && initialised == old(initialised)
      ensures regs == old(regs) && garbage == old(garbage)
    {
      ghost var g := garbage[..garbageCount];
      garbage[garbageCount] := item;
      garbageCount := garbageCount + 1;
      assert garbage[..garbageCount] == g + [item];
    }
  }
}
