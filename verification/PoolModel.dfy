/**
 The memory pool of src/ls_mem.c on values, on top of an allocator that may refuse any
 request.  A block is known by a number that is never used again.  `fault` is set where
 the C code would free a block twice or look into one that is not there.
 */
module PoolModel {
  import opened Options

  /** The blocks that are allocated, with their sizes. */
  datatype Heap = Heap(live: map<nat, nat>, nextId: nat, calls: nat, fault: bool)

  /** The n-th call of malloc succeeds if `grants(n)`. */
  type Grants = nat -> bool

  const PAGE_STRUCT := 32
  const CLEANER_STRUCT := 24
  const POOL_STRUCT := 40

  datatype Page = Page(desc: nat, block: nat, size: nat, used: nat)

  /** `FreePage` is `_free_page`, `FreeData` is `ls_data_free`; the user's cleaners are numbers. */
  datatype Cleaner =
    | FreePage(desc: nat, block: nat)
    | FreeData(block: nat)
    | User(fn: nat, arg: int)

  datatype Ctx = Ctx(node: nat, cleaner: Cleaner)

  /** Pages and cleaners are listed head first. */
  datatype Pool = Pool(self: nat, pageSize: nat, pages: seq<Page>, cleaners: seq<Ctx>, size: nat)

  datatype Pointer = Null | At(block: nat, offset: nat)

  // ---------- the allocator ----------

  datatype Allocated = Allocated(heap: Heap, block: Option<nat>)

  /** `ls_data_malloc`. */
  function Malloc(g: Grants, h: Heap, size: nat): Allocated {
    var called := h.(calls := h.calls + 1);
    if g(h.calls)
    then Allocated(called.(live := h.live[h.nextId := size], nextId := h.nextId + 1), Some(h.nextId))
    else Allocated(called, None)
  }

  /** `ls_data_free`. */
  function Free(h: Heap, block: nat): Heap {
    if block in h.live then h.(live := h.live - {block}) else h.(fault := true)
  }

  /** A pointer into `block` is followed. */
  function Touch(h: Heap, block: nat): Heap {
    if block in h.live then h else h.(fault := true)
  }

  // ---------- operations on a pool ----------

  /** The result of an operation: `ptr` is what it hands out. */
  datatype Done = Done(heap: Heap, pool: Pool, ok: bool, ptr: Pointer)

  function Failed(h: Heap, pool: Pool): Done {
    Done(h, pool, false, Null)
  }

  /** `ls_pool_add_cleaner`: the context is prepended. */
  function AddCleaner(g: Grants, h: Heap, pool: Pool, cleaner: Cleaner): Done {
    var a := Malloc(g, h, CLEANER_STRUCT);
    if a.block.None? then Failed(a.heap, pool)
    else Done(a.heap, pool.(cleaners := [Ctx(a.block.value, cleaner)] + pool.cleaners), true, Null)
  }

  /** `_malloc_fnc` with the cleaner `ls_data_free`. */
  function MallocCleaned(g: Grants, h: Heap, pool: Pool, size: nat): Done {
    var a := Malloc(g, h, size);
    if a.block.None? then Failed(a.heap, pool)
    else
      var c := AddCleaner(g, a.heap, pool, FreeData(a.block.value));
      if !c.ok then Failed(Free(c.heap, a.block.value), pool)
      else c.(ptr := At(a.block.value, 0))
  }

  /** `_add_page`. */
  function AddPage(g: Grants, h: Heap, pool: Pool): Done {
    var a := Malloc(g, h, PAGE_STRUCT);
    if a.block.None? then Failed(a.heap, pool)
    else
      var desc := a.block.value;
      var b := Malloc(g, a.heap, pool.pageSize);
      if b.block.None? then Failed(Free(b.heap, desc), pool)
      else
        var block := b.block.value;
        var c := AddCleaner(g, b.heap, pool, FreePage(desc, block));
        if !c.ok then Failed(Free(Free(c.heap, block), desc), pool)
        else
          Done(c.heap,
               c.pool.(pages := [Page(desc, block, pool.pageSize, 0)] + pool.pages, size := pool.size + pool.pageSize),
               true, Null)
  }

  /** Does a request fit into the head page?  `_page_malloc` when it succeeds is `FromPage`. */
  predicate Fits(pool: Pool, size: nat) {
    pool.pages != [] && size <= pool.pages[0].size - pool.pages[0].used
  }

  function FromPage(h: Heap, pool: Pool, size: nat): Done
    requires pool.pages != []
  {
    var page := pool.pages[0];
    Done(h, pool.(pages := [page.(used := page.used + size)] + pool.pages[1..]), true, At(page.block, page.used))
  }

  /** `ls_pool_malloc`. */
  function PoolMalloc(g: Grants, h: Heap, pool: Pool, size: nat): Done {
    if size == 0 then Done(h, pool, true, Null)
    else if size > pool.pageSize then
      var d := MallocCleaned(g, h, pool, size);
      if d.ok then d.(pool := d.pool.(size := d.pool.size + size)) else d
    else if pool.pages == [] then Failed(h.(fault := true), pool)
    else if Fits(pool, size) then FromPage(h, pool, size)
    else
      var d := AddPage(g, h, pool);
      if d.ok && d.pool.pages != [] then FromPage(d.heap, d.pool, size) else d
  }

  /** `ls_pool_create`; `paging` is the global switch. */
  function Create(g: Grants, h: Heap, size: nat, paging: bool): (Heap, Option<Pool>) {
    var a := Malloc(g, h, POOL_STRUCT);
    if a.block.None? then (a.heap, None)
    else
      var pool := Pool(a.block.value, if paging then size else 0, [], [], 0);
      if pool.pageSize == 0 then (a.heap, Some(pool))
      else
        var d := AddPage(g, a.heap, pool);
        if d.ok then (d.heap, Some(d.pool)) else (Free(d.heap, pool.self), None)
  }

  // ---------- destruction ----------

  /** A user's cleaner has run, while these blocks were allocated. */
  datatype Ran = Ran(fn: nat, arg: int, live: set<nat>)

  datatype Cleaning = Cleaning(heap: Heap, ran: seq<Ran>)

  function RunCleaner(c: Cleaning, cleaner: Cleaner): Cleaning {
    match cleaner
    case FreePage(desc, block) => c.(heap := Free(Free(Touch(c.heap, desc), block), desc))
    case FreeData(block) => c.(heap := Free(c.heap, block))
    case User(fn, arg) => c.(ran := c.ran + [Ran(fn, arg, c.heap.live.Keys)])
  }

  /** One turn of the loop in `ls_pool_destroy`. */
  function CleanOne(c: Cleaning, ctx: Ctx): Cleaning {
    var r := RunCleaner(c.(heap := Touch(c.heap, ctx.node)), ctx.cleaner);
    r.(heap := Free(r.heap, ctx.node))
  }

  function CleanAll(c: Cleaning, cleaners: seq<Ctx>): Cleaning
    decreases |cleaners|
  {
    if cleaners == [] then c else CleanAll(CleanOne(c, cleaners[0]), cleaners[1..])
  }

  /** `ls_pool_destroy`. */
  function Destroy(h: Heap, pool: Pool): Cleaning {
    var c := CleanAll(Cleaning(h, []), pool.cleaners);
    c.(heap := Free(c.heap, pool.self))
  }

  // ---------- whole sessions ----------

  datatype Op = Request(size: nat) | Register(fn: nat, arg: int)

  /** Memory handed out. */
  datatype Grant = Grant(block: nat, offset: nat, size: nat)

  /** A registered cleaner: how many grants came before it, and what was allocated once it was registered. */
  datatype Registration = Registration(fn: nat, arg: int, before: nat, live: set<nat>)

  datatype Session = Session(heap: Heap, pool: Pool, given: seq<Grant>, registered: seq<Registration>)

  function Step(g: Grants, s: Session, op: Op): Session {
    match op
    case Request(size) =>
      var d := PoolMalloc(g, s.heap, s.pool, size);
      Session(d.heap, d.pool,
              if d.ok && d.ptr.At? then s.given + [Grant(d.ptr.block, d.ptr.offset, size)] else s.given,
              s.registered)
    case Register(fn, arg) =>
      var d := AddCleaner(g, s.heap, s.pool, User(fn, arg));
      Session(d.heap, d.pool, s.given,
              if d.ok then s.registered + [Registration(fn, arg, |s.given|, d.heap.live.Keys)] else s.registered)
  }

  function Run(g: Grants, s: Session, ops: seq<Op>): Session
    decreases |ops|
  {
    if ops == [] then s else Step(g, Run(g, s, ops[..|ops| - 1]), ops[|ops| - 1])
  }
}
