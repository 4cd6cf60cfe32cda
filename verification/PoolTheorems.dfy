/**
 The main results about the memory pool, for every pattern of allocation failures and
 every sequence of requests and registrations.
 */
module PoolTheorems {
  import opened Options
  import opened PoolModel
  import opened PoolLaws

  /** A pool that could be created, after `ops`. */
  ghost predicate Lives(g: Grants, h: Heap, size: nat, paging: bool, ops: seq<Op>, s: Session) {
    && Sound(h)
    && var (heap, pool) := Create(g, h, size, paging);
       pool.Some? && s == Run(g, Session(heap, pool.value, [], []), ops)
  }

  lemma {:induction false} LivesInv(g: Grants, h: Heap, size: nat, paging: bool, ops: seq<Op>, s: Session)
    requires Lives(g, h, size, paging, ops, s)
    ensures Inv(s, h.live)
  {
    var (heap, pool) := Create(g, h, size, paging);
    CreateKeeps(g, h, size, paging);
    RunKeeps(g, Session(heap, pool.value, [], []), ops, h.live);
  }

  /**
   Create, any requests and registrations, then destroy: exactly the blocks that were
   there before are there afterwards, and no block is freed twice or used after it was
   freed, whichever of the many calls of malloc fail.  A create that fails leaves nothing.
   */
  lemma {:induction false} NothingLeaks(g: Grants, h: Heap, size: nat, paging: bool, ops: seq<Op>)
    requires Sound(h)
    ensures var (heap, pool) := Create(g, h, size, paging);
            match pool
            case None => heap.live == h.live && !heap.fault
            case Some(p) =>
              var s := Run(g, Session(heap, p, [], []), ops);
              var r := Destroy(s.heap, s.pool).heap;
              r.live == h.live && !r.fault
  {
    var (heap, pool) := Create(g, h, size, paging);
    CreateKeeps(g, h, size, paging);
    if pool.Some? {
      var s := Run(g, Session(heap, pool.value, [], []), ops);
      LivesInv(g, h, size, paging, ops, s);
      DestroyRestores(s.heap, s.pool, h.live);
    }
  }

  /** A request or registration that fails leaves the heap and the pool as they were. */
  lemma {:induction false} FailureLeavesNoTrace(g: Grants, h: Heap, size: nat, paging: bool, ops: seq<Op>,
                                                s: Session, n: nat, fn: nat, arg: int)
    requires Lives(g, h, size, paging, ops, s)
    ensures var d := PoolMalloc(g, s.heap, s.pool, n);
            !d.ok ==> n > 0 && d.heap.live == s.heap.live && d.pool == s.pool
    ensures var d := AddCleaner(g, s.heap, s.pool, User(fn, arg));
            !d.ok ==> d.heap.live == s.heap.live && d.pool == s.pool
  {
    LivesInv(g, h, size, paging, ops, s);
    PoolMallocLawful(g, s.heap, s.pool, n, h.live);
    RegisterLawful(g, s.heap, s.pool, fn, arg, h.live);
  }

  /**
   Destroy runs every registered cleaner exactly once, latest first, and unwinds the heap:
   when a cleaner runs, exactly the blocks are allocated that were allocated when it had
   just been registered, so all memory handed out before that is still there.
   */
  lemma {:induction false} CleanersRunInReverse(g: Grants, h: Heap, size: nat, paging: bool, ops: seq<Op>, s: Session)
    requires Lives(g, h, size, paging, ops, s)
    ensures Honoured(Destroy(s.heap, s.pool).ran, s.registered, s.given)
  {
    LivesInv(g, h, size, paging, ops, s);
    var c := Cleaning(s.heap, []);
    CleanAllHonours(c, s.pool.cleaners, s.pool.self, h.live, s.registered, s.given);
    assert CleanAll(c, s.pool.cleaners).ran[0..] == CleanAll(c, s.pool.cleaners).ran;
  }

  /**
   Memory is still there when a cleaner runs if and only if its block was there when the
   cleaner was registered: a later page or large request is freed before.
   */
  lemma {:induction false} MemoryThereIffAllocatedBefore(g: Grants, h: Heap, size: nat, paging: bool, ops: seq<Op>,
                                                         s: Session, i: nat, j: nat)
    requires Lives(g, h, size, paging, ops, s) && i < |s.registered| && j < |s.given|
    ensures var ran := Destroy(s.heap, s.pool).ran;
            && |ran| == |s.registered|
            && (s.given[j].block in ran[i].live <==> s.given[j].block in s.registered[|s.registered| - 1 - i].live)
            && (j < s.registered[|s.registered| - 1 - i].before ==> s.given[j].block in ran[i].live)
  {
    CleanersRunInReverse(g, h, size, paging, ops, s);
  }

  /** The `i`-th cleaner that runs is the `i`-th that was registered. */
  predicate InTurn(ran: seq<Ran>, registered: seq<Registration>, i: nat)
    requires i < |ran| == |registered|
  {
    ran[i].fn == registered[i].fn && ran[i].arg == registered[i].arg
  }

  /** The `i`-th registration reads the same from both ends. */
  predicate Mirrored(registered: seq<Registration>, i: nat)
    requires i < |registered|
  {
    var other := registered[|registered| - 1 - i];
    registered[i].fn == other.fn && registered[i].arg == other.arg
  }

  lemma {:induction false} InTurnIff(ran: seq<Ran>, registered: seq<Registration>, given: seq<Grant>, i: nat)
    requires Honoured(ran, registered, given) && i < |ran|
    ensures InTurn(ran, registered, i) <==> Mirrored(registered, i)
  {
    assert Honours(ran[i], registered[|registered| - 1 - i], given);
  }

  /**
   The header promises the order of registration; the code keeps that promise exactly
   when the list of registrations reads the same from both ends.
   */
  lemma {:induction false} RegistrationOrderIff(g: Grants, h: Heap, size: nat, paging: bool, ops: seq<Op>, s: Session)
    requires Lives(g, h, size, paging, ops, s)
    ensures var ran, n := Destroy(s.heap, s.pool).ran, |s.registered|;
            && |ran| == n
            && ((forall i :: 0 <= i < n ==> InTurn(ran, s.registered, i)) <==>
                (forall i :: 0 <= i < n ==> Mirrored(s.registered, i)))
  {
    CleanersRunInReverse(g, h, size, paging, ops, s);
    var ran := Destroy(s.heap, s.pool).ran;
    forall i | 0 <= i < |ran|
      ensures InTurn(ran, s.registered, i) <==> Mirrored(s.registered, i)
    {
      InTurnIff(ran, s.registered, s.given, i);
    }
  }

  lemma {:induction false} KeptLive(cleaners: seq<Ctx>, registered: seq<Registration>, given: seq<Grant>,
                                   under: set<nat>, i: nat)
    requires Kept(cleaners, registered, given, under) && i < |registered|
    ensures registered[i].live <= under + OwnedBy(cleaners)
    decreases |cleaners|
  {
    match cleaners[0].cleaner
    case User(_, _) =>
      if i < |registered| - 1 {
        KeptLive(cleaners[1..], registered[..|registered| - 1], given, under, i);
      }
    case _ => KeptLive(cleaners[1..], registered, given, under, i);
  }

  lemma {:induction false} OwnBlockIff(g: Grants, h: Heap, pool: Pool, n: nat)
    ensures var d := MallocCleaned(g, h, pool, n);
            (d.ok <==> g(h.calls) && g(h.calls + 1)) && (d.ptr.At? <==> d.ok)
  {
  }

  lemma {:induction false} NewPageIff(g: Grants, h: Heap, pool: Pool)
    ensures var d := AddPage(g, h, pool);
            (d.ok <==> g(h.calls) && g(h.calls + 1) && g(h.calls + 2)) && (d.ok ==> d.pool.pages != []) && d.ptr.Null?
  {
  }

  /**
   A request is served exactly if it is empty, fits on the head page, or all the mallocs
   it needs succeed: two for a block of its own, three for a new page.  It hands out
   memory exactly if it is served and not empty.
   */
  lemma {:induction false} RequestServedIff(g: Grants, h: Heap, size: nat, paging: bool, ops: seq<Op>,
                                           s: Session, n: nat)
    requires Lives(g, h, size, paging, ops, s)
    ensures s.pool.pageSize > 0 ==> s.pool.pages != []
    ensures var d, c := PoolMalloc(g, s.heap, s.pool, n), s.heap.calls;
            && (d.ok <==>
                  if n == 0 then true
                  else if n > s.pool.pageSize then g(c) && g(c + 1)
                  else s.pool.pages[0].used + n <= s.pool.pages[0].size || (g(c) && g(c + 1) && g(c + 2)))
            && (d.ptr.At? <==> d.ok && n > 0)
  {
    assert s.pool.pageSize > 0 ==> s.pool.pages != [] by {
      LivesInv(g, h, size, paging, ops, s);
    }
    OwnBlockIff(g, s.heap, s.pool, n);
    NewPageIff(g, s.heap, s.pool);
  }

  /** Is the request served?  Said in terms of the mallocs that are granted. */
  predicate Served(g: Grants, s: Session, n: nat) {
    var c := s.heap.calls;
    if n > s.pool.pageSize then g(c) && g(c + 1)
    else
      || (s.pool.pages != [] && s.pool.pages[0].used + n <= s.pool.pages[0].size)
      || (g(c) && g(c + 1) && g(c + 2))
  }

  /** The registrations that find memory, in order. */
  function Registrations(g: Grants, start: Session, ops: seq<Op>): seq<(nat, int)>
    decreases |ops|
  {
    if ops == [] then []
    else
      var before, op := ops[..|ops| - 1], ops[|ops| - 1];
      Registrations(g, start, before) +
      if op.Register? && g(Run(g, start, before).heap.calls) then [(op.fn, op.arg)] else []
  }

  /** The requests that are served with memory, in order. */
  function Servings(g: Grants, start: Session, ops: seq<Op>): seq<nat>
    decreases |ops|
  {
    if ops == [] then []
    else
      var before, op := ops[..|ops| - 1], ops[|ops| - 1];
      Servings(g, start, before) +
      if op.Request? && op.size > 0 && Served(g, Run(g, start, before), op.size) then [op.size] else []
  }

  ghost predicate Tells(s: Session, registered: seq<(nat, int)>, sizes: seq<nat>) {
    && |s.registered| == |registered| && |s.given| == |sizes|
    && (forall i :: 0 <= i < |registered| ==>
          s.registered[i].fn == registered[i].0 && s.registered[i].arg == registered[i].1)
    && (forall i :: 0 <= i < |sizes| ==> s.given[i].size == sizes[i])
  }

  lemma {:induction false} RequestTells(g: Grants, h: Heap, size: nat, paging: bool, ops: seq<Op>, s: Session, n: nat,
                                       registered: seq<(nat, int)>, sizes: seq<nat>)
    requires Lives(g, h, size, paging, ops, s) && Tells(s, registered, sizes)
    ensures Tells(Step(g, s, Request(n)), registered, sizes + if n > 0 && Served(g, s, n) then [n] else [])
  {
    RequestServedIff(g, h, size, paging, ops, s, n);
  }

  lemma {:induction false} RegisterTells(g: Grants, s: Session, fn: nat, arg: int,
                                        registered: seq<(nat, int)>, sizes: seq<nat>)
    requires Tells(s, registered, sizes)
    ensures Tells(Step(g, s, Register(fn, arg)), registered + (if g(s.heap.calls) then [(fn, arg)] else []), sizes)
  {
  }

  /** Every session hands out and registers exactly what was asked for and found its memory, in order. */
  lemma {:induction false} EverySessionIsAsAsked(g: Grants, h: Heap, size: nat, paging: bool, ops: seq<Op>, s: Session)
    requires Lives(g, h, size, paging, ops, s)
    ensures var (heap, pool) := Create(g, h, size, paging);
            var start := Session(heap, pool.value, [], []);
            Tells(s, Registrations(g, start, ops), Servings(g, start, ops))
    decreases |ops|
  {
    var (heap, pool) := Create(g, h, size, paging);
    var start := Session(heap, pool.value, [], []);
    if ops != [] {
      var before, op := ops[..|ops| - 1], ops[|ops| - 1];
      var w := Run(g, start, before);
      var registered, sizes := Registrations(g, start, before), Servings(g, start, before);
      EverySessionIsAsAsked(g, h, size, paging, before, w);
      assert registered + [] == registered && sizes + [] == sizes;
      match op
      case Request(n) => RequestTells(g, h, size, paging, before, w, n, registered, sizes);
      case Register(fn, arg) => RegisterTells(g, w, fn, arg, registered, sizes);
    }
  }

  lemma {:induction false} OwnBlockTakes(g: Grants, h: Heap, pool: Pool, n: nat)
    requires g(h.calls) && g(h.calls + 1)
    ensures MallocCleaned(g, h, pool, n).heap.live == h.live[h.nextId := n][h.nextId + 1 := CLEANER_STRUCT]
  {
  }

  lemma {:induction false} NewPageTakes(g: Grants, h: Heap, pool: Pool)
    requires g(h.calls) && g(h.calls + 1) && g(h.calls + 2)
    ensures var id := h.nextId;
            AddPage(g, h, pool).heap.live
            == h.live[id := PAGE_STRUCT][id + 1 := pool.pageSize][id + 2 := CLEANER_STRUCT]
  {
  }

  /**
   What a served request takes from the heap: a block of its own size and a cleaner's, or
   nothing, or a page with its descriptor and cleaner.
   */
  lemma {:induction false} RequestTakes(g: Grants, h: Heap, size: nat, paging: bool, ops: seq<Op>, s: Session, n: nat)
    requires Lives(g, h, size, paging, ops, s) && n > 0 && Served(g, s, n)
    ensures var live, id, pool := s.heap.live, s.heap.nextId, s.pool;
            var r := PoolMalloc(g, s.heap, pool, n).heap.live;
            if n > pool.pageSize then r == live[id := n][id + 1 := CLEANER_STRUCT]
            else if pool.pages != [] && pool.pages[0].used + n <= pool.pages[0].size then r == live
            else r == live[id := PAGE_STRUCT][id + 1 := pool.pageSize][id + 2 := CLEANER_STRUCT]
  {
    RequestServedIff(g, h, size, paging, ops, s, n);
    if n > s.pool.pageSize {
      OwnBlockTakes(g, s.heap, s.pool, n);
    } else if !Fits(s.pool, n) {
      NewPageTakes(g, s.heap, s.pool);
    }
  }

  lemma {:induction false} CleanerSees(g: Grants, h: Heap, size: nat, paging: bool, ops: seq<Op>, s: Session, i: nat)
    requires Lives(g, h, size, paging, ops, s) && i < |s.registered|
    ensures var ran := Destroy(s.heap, s.pool).ran;
            |ran| == |s.registered| && ran[i].live == s.registered[|s.registered| - 1 - i].live
  {
    CleanersRunInReverse(g, h, size, paging, ops, s);
  }

  lemma {:induction false} LivesOn(g: Grants, h: Heap, size: nat, paging: bool, ops: seq<Op>, s: Session, op: Op)
    requires Lives(g, h, size, paging, ops, s)
    ensures Lives(g, h, size, paging, ops + [op], Step(g, s, op))
  {
    assert (ops + [op])[..|ops|] == ops;
  }

  /** What was allocated when a cleaner was registered is older than any block to come. */
  lemma {:induction false} RegisteredIsOld(s: Session, base: map<nat, nat>, i: nat)
    requires Inv(s, base) && i < |s.registered|
    ensures forall b :: b in s.registered[i].live ==> b < s.heap.nextId
  {
    KeptLive(s.pool.cleaners, s.registered, s.given, base.Keys + {s.pool.self}, i);
  }

  /** A large request that is served gets a block of its own. */
  lemma {:induction false} LargeIsNew(g: Grants, s: Session, request: nat, base: map<nat, nat>)
    requires Inv(s, base) && request > s.pool.pageSize && Step(g, s, Request(request)).given != s.given
    ensures var r := Step(g, s, Request(request));
            && r.registered == s.registered && |r.given| > 0
            && r.given[|r.given| - 1].block in r.heap.live && r.given[|r.given| - 1].block >= s.heap.nextId
  {
    MallocCleanedLawful(g, s.heap, s.pool, request, base);
  }

  lemma {:induction false} LargeIsNewer(g: Grants, h: Heap, size: nat, paging: bool, ops: seq<Op>,
                                        s: Session, request: nat, i: nat)
    requires Lives(g, h, size, paging, ops, s) && i < |s.registered| && request > s.pool.pageSize
    requires Step(g, s, Request(request)).given != s.given
    ensures var r := Step(g, s, Request(request));
            && r.registered == s.registered && |r.given| > 0
            && r.given[|r.given| - 1].block in r.heap.live
            && r.given[|r.given| - 1].block !in s.registered[i].live
  {
    LivesInv(g, h, size, paging, ops, s);
    LargeIsNew(g, s, request, h.live);
    RegisteredIsOld(s, h.live, i);
  }

  /**
   The header also promises that cleaners run before any memory is freed.  They do not:
   a large block requested after all registrations is freed before any of them runs.
   */
  lemma {:induction false} LaterBlockFreedFirst(g: Grants, h: Heap, size: nat, paging: bool, ops: seq<Op>,
                                                s: Session, request: nat, i: nat)
    requires Lives(g, h, size, paging, ops, s) && i < |s.registered| && request > s.pool.pageSize
    requires Step(g, s, Request(request)).given != s.given
    ensures var r := Step(g, s, Request(request));
            var ran := Destroy(r.heap, r.pool).ran;
            && |ran| == |s.registered| && r.given != []
            && r.given[|r.given| - 1].block in r.heap.live
            && r.given[|r.given| - 1].block !in ran[i].live
  {
    LargeIsNewer(g, h, size, paging, ops, s, request, |s.registered| - 1 - i);
    var r := Step(g, s, Request(request));
    LivesOn(g, h, size, paging, ops, s, Request(request));
    CleanerSees(g, h, size, paging, ops + [Request(request)], r, i);
  }

  const ALWAYS: Grants := n => true
  const EMPTY_HEAP := Heap(map[], 0, 0, false)

  /** A pool without pages, in an empty heap in which every malloc succeeds, after `ops`. */
  function Plain(ops: seq<Op>): Session {
    Run(ALWAYS, Session(Heap(map[0 := POOL_STRUCT], 1, 1, false), Pool(0, 0, [], [], 0), [], []), ops)
  }

  lemma {:induction false} PlainLives(ops: seq<Op>)
    ensures Lives(ALWAYS, EMPTY_HEAP, 0, true, ops, Plain(ops))
  {
    assert Create(ALWAYS, EMPTY_HEAP, 0, true)
        == (Heap(map[0 := POOL_STRUCT], 1, 1, false), Some(Pool(0, 0, [], [], 0)));
  }

  lemma {:induction false} PlainStep(ops: seq<Op>, op: Op)
    ensures Plain(ops + [op]) == Step(ALWAYS, Plain(ops), op)
  {
    assert (ops + [op])[..|ops|] == ops;
  }

  /** Two cleaners are registered. */
  lemma {:induction false} TwoRegistered(ops: seq<Op>)
    requires ops == [Register(1, 0), Register(2, 0)]
    ensures var s := Plain(ops);
            && s.pool.pageSize == 0 && s.given == [] && |s.registered| == 2
            && s.registered[0].fn == 1 && s.registered[1].fn == 2
  {
    PlainStep([], Register(1, 0));
    PlainStep([Register(1, 0)], Register(2, 0));
    assert [] + [Register(1, 0)] == [Register(1, 0)] && [Register(1, 0)] + [Register(2, 0)] == ops;
  }

  /**
   Two registrations and one large request: the cleaners run in the opposite order, and
   the block is freed before either of them runs.
   */
  lemma {:induction false} HeaderPromisesFail()
    ensures var s := Plain([Register(1, 0), Register(2, 0)] + [Request(100)]);
            var ran := Destroy(s.heap, s.pool).ran;
            && |s.registered| == 2 && s.registered[0].fn == 1 && s.registered[1].fn == 2
            && |ran| == 2 && ran[0].fn == 2 && ran[1].fn == 1
            && |s.given| == 1 && s.given[0].block in s.heap.live
            && s.given[0].block !in ran[0].live && s.given[0].block !in ran[1].live
  {
    var ops := [Register(1, 0), Register(2, 0)];
    var s2, s := Plain(ops), Plain(ops + [Request(100)]);
    TwoRegistered(ops);
    PlainLives(ops);
    PlainLives(ops + [Request(100)]);
    PlainStep(ops, Request(100));
    assert s.registered == s2.registered && |s.given| == 1;
    LaterBlockFreedFirst(ALWAYS, EMPTY_HEAP, 0, true, ops, s2, 100, 0);
    LaterBlockFreedFirst(ALWAYS, EMPTY_HEAP, 0, true, ops, s2, 100, 1);
    CleanersRunInReverse(ALWAYS, EMPTY_HEAP, 0, true, ops + [Request(100)], s);
  }

  /** Everything handed out lies inside an allocated block of the pool, and no two pieces overlap. */
  lemma {:induction false} MemoryIsDisjoint(g: Grants, h: Heap, size: nat, paging: bool, ops: seq<Op>, s: Session)
    requires Lives(g, h, size, paging, ops, s)
    ensures forall i :: 0 <= i < |s.given| ==>
              var x := s.given[i];
              x.block in s.heap.live && x.block !in h.live && x.offset + x.size <= s.heap.live[x.block]
    ensures forall i, j :: 0 <= i < j < |s.given| ==> Apart(s.given[i], s.given[j])
  {
    LivesInv(g, h, size, paging, ops, s);
    forall i | 0 <= i < |s.given|
      ensures var x := s.given[i];
              x.block in s.heap.live && x.block !in h.live && x.offset + x.size <= s.heap.live[x.block]
    {
      assert Inside(s, s.given[i]);
    }
  }

  // ---------- the size of a pool ----------

  lemma {:induction false} PagesTotalIs(pages: seq<Page>, pageSize: nat)
    requires forall i :: 0 <= i < |pages| ==> pages[i].size == pageSize
    ensures PagesTotal(pages) == |pages| * pageSize
  {
    if pages != [] {
      PagesTotalIs(pages[1..], pageSize);
    }
  }

  /** Pages that are packed two by two waste less than half of what they hold, but for one. */
  lemma {:induction false} PackedBound(pages: seq<Page>, pageSize: nat)
    requires Packed(pages, pageSize) && pages != []
    ensures PagesTotal(pages) + pages[0].used + pages[|pages| - 1].used <= pageSize + 2 * UsedOn(pages)
  {
    if |pages| > 1 {
      var rest := pages[1..];
      assert Packed(rest, pageSize) by {
        forall i | 0 <= i < |rest| - 1
          ensures rest[i].used + rest[i + 1].used > pageSize
        {
          assert rest[i] == pages[i + 1] && rest[i + 1] == pages[i + 2];
        }
      }
      PackedBound(rest, pageSize);
      assert rest[|rest| - 1] == pages[|pages| - 1];
    } else {
      assert pages[1..] == [];
    }
  }

  /**
   The size a pool reports is that of its pages and of the requests too large for a
   page; consecutive pages together hold more than one page can; so the pool is never
   larger than one page and twice the bytes that were requested from it.
   */
  lemma {:induction false} PoolSizeBound(g: Grants, h: Heap, size: nat, paging: bool, ops: seq<Op>, s: Session)
    requires Lives(g, h, size, paging, ops, s)
    ensures var pages, limit := s.pool.pages, s.pool.pageSize;
            && s.pool.size == |pages| * limit + Large(s.given, limit)
            && (forall i :: 0 <= i < |pages| - 1 ==> pages[i].used + pages[i + 1].used > limit)
            && s.pool.size <= limit + 2 * Requested(s.given)
  {
    LivesInv(g, h, size, paging, ops, s);
    PagesTotalIs(s.pool.pages, s.pool.pageSize);
    SmallAndLarge(s.given, s.pool.pageSize);
    if s.pool.pages != [] {
      PackedBound(s.pool.pages, s.pool.pageSize);
    }
  }
}
