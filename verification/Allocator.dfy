/**
 The engine's limited allocator, engine/interface.c: QuickJS's allocations held
 to a soft limit, with headroom under the limit that a refusal opens.
 */
module Allocator {
  import opened Options

  /** wasm32's size_t. */
  newtype Size = x: int | 0 <= x <= 0xFFFF_FFFF

  const OOM_HEADROOM: Size := 64 * 1024

  /** The headroom under the limit is OOM_HEADROOM, or half the limit where that is less. */
  function SoftLimit(limit: Size): (soft: Size)
    ensures soft <= limit && limit - soft <= OOM_HEADROOM && limit as int <= 2 * soft as int + 1
    ensures limit - soft == OOM_HEADROOM || soft == limit / 2
  {
    if limit > 2 * OOM_HEADROOM then limit - OOM_HEADROOM else limit / 2
  }

  /** Whether used + size would pass cap, without overflowing. */
  predicate Exceeds(used: Size, size: Size, cap: Size)
    ensures Exceeds(used, size, cap) <==> used as int + size as int > cap as int
  {
    size > cap || used > cap - size
  }

  // --------------------------------------------------------------------------
  // The C library's heap
  // --------------------------------------------------------------------------

  /** Live allocations, each with its usable size. */
  type Heap = map<nat, Size>

  ghost function Total(heap: Heap): nat
    decreases |heap|
  {
    if heap == map[] then 0
    else
      var p :| p in heap;
      heap[p] as int + Total(heap - {p})
  }

  lemma {:induction false} TotalWithout(heap: Heap, p: nat)
    requires p in heap
    ensures Total(heap) == heap[p] as int + Total(heap - {p})
    decreases |heap|
  {
    var q :| q in heap && Total(heap) == heap[q] as int + Total(heap - {q});
    if q != p {
      TotalWithout(heap - {q}, p);
      TotalWithout(heap - {p}, q);
      assert heap - {q} - {p} == heap - {p} - {q};
    }
  }

  lemma TotalWith(heap: Heap, p: nat, usable: Size)
    requires p !in heap
    ensures Total(heap[p := usable]) == Total(heap) + usable as int
  {
    TotalWithout(heap[p := usable], p);
    assert heap[p := usable] - {p} == heap;
  }

  /**
   What the C library answers: null with nothing done, a block whose usable size is `slack` at most over what was asked,
   all in one address space, or, to a realloc to no size, null with the block freed.
   */
  datatype Given = Nothing | Block(ptr: nat, usable: Size) | Freed

  ghost predicate MayGive(heap: Heap, size: Size, slack: nat, given: Given) {
    match given
    case Nothing => true
    case Freed => false
    case Block(ptr, usable) =>
      ptr !in heap && size <= usable && usable as int <= size as int + slack
        && Total(heap) + usable as int <= 0xFFFF_FFFF
  }

  /** And realloc, which never raises the usable size of a block asked for no more than it has. */
  ghost predicate MayMove(heap: Heap, ptr: nat, size: Size, slack: nat, given: Given)
    requires ptr in heap
  {
    match given
    case Nothing => true
    case Freed => size == 0
    case Block(to, usable) =>
      && to !in heap - {ptr} && size <= usable
      && (if size <= heap[ptr] then usable <= heap[ptr] else usable as int <= size as int + slack)
      && Total(heap - {ptr}) + usable as int <= 0xFFFF_FFFF
  }

  // --------------------------------------------------------------------------
  // What the allocator counts
  // --------------------------------------------------------------------------

  /**
   The allocator's limit (0: none), what it counts, whether a refusal has opened the headroom, and the C library's own
   record of what is live, with how much more than was asked a block of that library's can hold.
   */
  datatype Pool = Pool(limit: Size, slack: nat, used: Size, inOom: bool, heap: Heap)

  /** What is counted is what is live: no subtraction saturates, and no addition wraps. */
  ghost predicate Exact(p: Pool) {
    p.used as int == Total(p.heap)
  }

  /** Neither limit is passed by more than one block's slack: the soft one while the headroom is closed. */
  ghost predicate Within(p: Pool) {
    && (p.limit != 0 ==> p.used as int <= p.limit as int + p.slack)
    && (p.limit != 0 && !p.inOom ==> p.used as int <= SoftLimit(p.limit) as int + p.slack)
  }

  /** Whether a request is refused, and whether the headroom is open after it. */
  function Refusal(limit: Size, used: Size, inOom: bool, size: Size): (bool, bool) {
    (limit != 0 && Exceeds(used, size, if inOom then limit else SoftLimit(limit)),
     if limit == 0 then inOom else Exceeds(used, size, SoftLimit(limit)))
  }

  function UsableSize(heap: Heap, ptr: Option<nat>): Size {
    if ptr.Some? && ptr.value in heap then heap[ptr.value] else 0
  }

  ghost predicate MayRealloc(p: Pool, ptr: Option<nat>, size: Size, given: Given) {
    match ptr
    case None => MayGive(p.heap, size, p.slack, given)
    case Some(at) => at in p.heap && MayMove(p.heap, at, size, p.slack, given)
  }

  function Without(heap: Heap, ptr: Option<nat>): Heap {
    if ptr.Some? then heap - {ptr.value} else heap
  }

  lemma WithoutIs(heap: Heap, ptr: Option<nat>)
    requires ptr.Some? ==> ptr.value in heap
    ensures Total(heap) == Total(Without(heap, ptr)) + UsableSize(heap, ptr) as int
  {
    if ptr.Some? { TotalWithout(heap, ptr.value); }
  }

  /** Only growth is held to the limits; a block that can't be moved stays as it was. */
  ghost function Reallocated(p: Pool, ptr: Option<nat>, size: Size, given: Given): Pool
    requires Exact(p) && MayRealloc(p, ptr, size, given)
  {
    WithoutIs(p.heap, ptr);
    var had := UsableSize(p.heap, ptr);
    var growth := if size > had then size - had else 0;
    var headroom := if growth > 0 then Refusal(p.limit, p.used, p.inOom, growth).1 else p.inOom;
    if growth > 0 && Refusal(p.limit, p.used, p.inOom, growth).0 then p.(inOom := headroom)
    else
      match given
      case Nothing => p.(inOom := headroom)
      case Freed => p.(inOom := headroom, heap := Without(p.heap, ptr))
      case Block(to, usable) =>
        p.(inOom := headroom, heap := Without(p.heap, ptr)[to := usable], used := p.used - had + usable)
  }

  /** The count stays exact, unless the library freed a block that a realloc to no size gave up: that stays counted. */
  lemma ReallocExactly(p: Pool, ptr: Option<nat>, size: Size, given: Given)
    requires Exact(p) && MayRealloc(p, ptr, size, given)
    ensures Exact(Reallocated(p, ptr, size, given)) <==> !given.Freed? || UsableSize(p.heap, ptr) == 0
  {
    WithoutIs(p.heap, ptr);
    if given.Block? { TotalWith(Without(p.heap, ptr), given.ptr, given.usable); }
  }

  lemma CountedBlock(p: Pool, ptr: Option<nat>, size: Size, given: Given)
    requires Exact(p) && MayRealloc(p, ptr, size, given)
    ensures UsableSize(p.heap, ptr) <= p.used
    ensures given.Block? ==> p.used as int - UsableSize(p.heap, ptr) as int + given.usable as int <= 0xFFFF_FFFF
  {
    WithoutIs(p.heap, ptr);
  }

  lemma ReallocWithin(p: Pool, ptr: Option<nat>, size: Size, given: Given)
    requires Exact(p) && Within(p) && MayRealloc(p, ptr, size, given)
    requires ptr.Some? || size > 0 || p.limit == 0 || p.slack == 0
    ensures Within(Reallocated(p, ptr, size, given))
  {
    WithoutIs(p.heap, ptr);
  }

  /** At its soft limit, with the headroom closed: where one block asked for all of it leaves the allocator. */
  function Full(limit: Size, slack: nat): Pool
    requires SoftLimit(limit) as int + slack < 0xFFFF_FFFF
  {
    var used := (SoftLimit(limit) as int + slack) as Size;
    Pool(limit, slack, used, false, map[0 := used])
  }

  lemma FullOk(limit: Size, slack: nat)
    requires SoftLimit(limit) as int + slack < 0xFFFF_FFFF
    ensures Exact(Full(limit, slack)) && Within(Full(limit, slack))
  {
    TotalWith(map[], 0, Full(limit, slack).used);
  }

  /**
   A realloc keeps the limits, from every state and whatever the library answers, exactly where it is of a block, or to
   some size, or there is no limit, or no block holds more than was asked. A call for nothing of no block grows by
   nothing, so what it is given goes unchecked.
   */
  lemma ReallocKeepsLimits(limit: Size, slack: nat, ptr: Option<nat>, size: Size)
    requires SoftLimit(limit) as int + slack < 0xFFFF_FFFF
    ensures
      (forall p: Pool, given | p.limit == limit && p.slack == slack && Exact(p) && Within(p)
        && MayRealloc(p, ptr, size, given) ::
         Within(Reallocated(p, ptr, size, given)))
      <==> ptr.Some? || size > 0 || limit == 0 || slack == 0
  {
    if ptr.Some? || size > 0 || limit == 0 || slack == 0 {
      forall p: Pool, given | p.limit == limit && p.slack == slack && Exact(p) && Within(p)
        && MayRealloc(p, ptr, size, given)
        ensures Within(Reallocated(p, ptr, size, given))
      {
        ReallocWithin(p, ptr, size, given);
      }
    } else {
      FullOk(limit, slack);
      var p := Full(limit, slack);
      assert MayRealloc(p, ptr, size, Block(1, 1));
      assert !Within(Reallocated(p, ptr, size, Block(1, 1)));
    }
  }

  // --------------------------------------------------------------------------
  // The allocator
  // --------------------------------------------------------------------------

  class Limited {
    /** 0: no limit. */
    const limit: Size
    /** How much more than was asked a block of this C library's can hold. */
    ghost const slack: nat
    var used: Size
    /** A refusal has opened the headroom. */
    var inOom: bool
    /** The C library's own record of what is live. */
    var heap: Heap

    ghost function State(): Pool
      reads this
    {
      Pool(limit, slack, used, inOom, heap)
    }

    ghost predicate Valid()
      reads this
    {
      Exact(State()) && Within(State())
    }

    constructor (limit: Size, ghost slack: nat)
      ensures Valid() && this.limit == limit && this.slack == slack && heap == map[] && !inOom
    {
      this.limit, this.slack := limit, slack;
      used, inOom, heap := 0, false, map[];
    }

    method Refuse(size: Size) returns (refused: bool)
      modifies this`inOom
      ensures refused <==>
        limit != 0 && used as int + size as int > if old(inOom) then limit as int else SoftLimit(limit) as int
      ensures inOom == if limit == 0 then old(inOom) else used as int + size as int > SoftLimit(limit) as int
    {
      if limit == 0 { return false; }
      if !Exceeds(used, size, SoftLimit(limit)) {
        inOom := false;
        return false;
      }
      if inOom && !Exceeds(used, size, limit) { return false; }
      inOom := true;
      return true;
    }

    /** Refused, or what the C library gives; nothing else moves. */
    method Malloc(size: Size, given: Given) returns (result: Given)
      requires Valid() && MayGive(heap, size, slack, given)
      modifies this
      ensures Valid()
      ensures result == if old(Refusal(limit, used, inOom, size).0) then Nothing else given
      ensures inOom == old(Refusal(limit, used, inOom, size).1)
      ensures heap == if result.Block? then old(heap)[result.ptr := result.usable] else old(heap)
    {
      var refused := Refuse(size);
      if refused { return Nothing; }
      if given.Block? {
        TotalWith(heap, given.ptr, given.usable);
        heap := heap[given.ptr := given.usable];
        used := used + given.usable;
      }
      return given;
    }

    /** `count * size`, which QuickJS has checked for overflow. */
    method Calloc(count: Size, size: Size, given: Given) returns (result: Given)
      requires count as int * size as int <= 0xFFFF_FFFF
      requires Valid() && MayGive(heap, (count as int * size as int) as Size, slack, given)
      modifies this
      ensures Valid()
      ensures
        var bytes := count as int * size as int;
        result == if limit != 0 && old(used) as int + bytes > (if old(inOom) then limit else SoftLimit(limit)) as int
          then Nothing else given
      ensures inOom == old(Refusal(limit, used, inOom, (count as int * size as int) as Size).1)
      ensures heap == if result.Block? then old(heap)[result.ptr := result.usable] else old(heap)
    {
      result := Malloc((count as int * size as int) as Size, given);
    }

    method Free(ptr: Option<nat>)
      requires Valid() && (ptr.Some? ==> ptr.value in heap)
      modifies this
      ensures Valid() && inOom == old(inOom)
      ensures heap == if ptr.Some? then old(heap) - {ptr.value} else old(heap)
      ensures ptr.Some? ==> used as int == old(used as int - heap[ptr.value] as int)
    {
      if ptr.None? { return; }
      var usable := heap[ptr.value];
      TotalWithout(heap, ptr.value);
      used := used - if usable <= used then usable else used;
      heap := heap - {ptr.value};
    }

    /** Held to the limits as ReallocKeepsLimits says, and to the count as ReallocExactly does. */
    method Realloc(ptr: Option<nat>, size: Size, given: Given) returns (result: Given)
      requires Exact(State()) && MayRealloc(State(), ptr, size, given)
      modifies this
      ensures State() == old(Reallocated(State(), ptr, size, given))
      ensures Exact(State()) <==> !given.Freed? || old(UsableSize(heap, ptr)) == 0
      ensures old(Within(State())) && (ptr.Some? || size > 0 || limit == 0 || slack == 0) ==> Within(State())
      // Refused exactly where it grows the block past the limits, and nothing but the heap's own answer otherwise.
      ensures
        var growth := size as int - old(UsableSize(heap, ptr)) as int;
        result == if growth > 0 && limit != 0
          && old(used) as int + growth > (if old(inOom) then limit else SoftLimit(limit)) as int
          then Nothing else given
      ensures heap == match result
        case Nothing => old(heap)
        case Freed => Without(old(heap), ptr)
        case Block(to, usable) => Without(old(heap), ptr)[to := usable]
    {
      hide Within, SoftLimit, Exceeds;
      ghost var was := State();
      ReallocExactly(was, ptr, size, given);
      if Within(was) && (ptr.Some? || size > 0 || limit == 0 || slack == 0) { ReallocWithin(was, ptr, size, given); }
      CountedBlock(was, ptr, size, given);
      hide Exact, MayGive, MayMove, Total;
      var oldUsable := if ptr.Some? then heap[ptr.value] else 0;
      var growth := if size > oldUsable then size - oldUsable else 0;
      if growth > 0 {
        var refused := Refuse(growth);
        if refused { return Nothing; }
      }
      Took(ptr, oldUsable, given);
      return given;
    }

    /** What the library did, counted. */
    method Took(ptr: Option<nat>, oldUsable: Size, given: Given)
      requires oldUsable <= used
      requires given.Block? ==> used as int - oldUsable as int + given.usable as int <= 0xFFFF_FFFF
      modifies this`heap, this`used
      ensures used == if given.Block? then old(used) - oldUsable + given.usable else old(used)
      ensures heap == match given
        case Nothing => old(heap)
        case Freed => Without(old(heap), ptr)
        case Block(to, usable) => Without(old(heap), ptr)[to := usable]
    {
      if !given.Nothing? { heap := Without(heap, ptr); }
      if given.Block? {
        heap := heap[given.ptr := given.usable];
        used := used - if oldUsable <= used then oldUsable else used;
        used := used + given.usable;
      }
    }
  }

  /** Two calls that pass any limit, of a library whose blocks can hold more than was asked. */
  method UncheckedRealloc(limit: Size, ghost slack: nat, usable: Size) returns (a: Limited)
    requires limit > 0 && slack > 0 && usable as int == SoftLimit(limit) as int + slack < 0xFFFF_FFFF
    ensures fresh(a) && Exact(a.State()) && !Within(a.State()) && a.limit == limit && a.slack == slack
  {
    a := new Limited(limit, slack);
    assert Total(map[]) == 0;
    var _ := a.Malloc(SoftLimit(limit), Block(0, usable));
    assert a.heap == map[0 := usable];
    var _ := a.Realloc(None, 0, Block(1, 1));
  }

  /**
   A script that reaches the limit while the headroom is closed can still build its error: right after the refusal, any
   one request within the headroom, less a block's slack, is let through.
   */
  lemma ErrorFitsAfterRefusal(limit: Size, used: Size, slack: nat, refused: Size, next: Size)
    requires limit != 0 && used as int <= SoftLimit(limit) as int + slack && Refusal(limit, used, false, refused).0
    requires next as int + slack <= (limit - SoftLimit(limit)) as int
    ensures !Refusal(limit, used, true, next).0 && Refusal(limit, used, false, refused).1
  {
  }
}
