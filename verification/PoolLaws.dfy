/**
 What every pool keeps, whatever its allocator refuses: who owns which block, where the
 memory handed out lies, what the pages hold and how the cleaners are ordered.
 */
module PoolLaws {
  import opened Options
  import opened PoolModel

  // ---------- ownership ----------

  /** The heap is `base` with the blocks of `own` added, and nothing has gone wrong. */
  ghost predicate Owned(h: Heap, own: set<nat>, base: map<nat, nat>) {
    && !h.fault
    && (forall b :: b in h.live <==> b in base || b in own)
    && (forall b :: b in base ==> b !in own && h.live[b] == base[b])
    && (forall b :: b in h.live ==> b < h.nextId)
  }

  /** Blocks have been added, none has gone or changed. */
  ghost predicate Grew(h: Heap, r: Heap) {
    h.nextId <= r.nextId && forall b :: b in h.live ==> b in r.live && r.live[b] == h.live[b]
  }

  function BlocksOf(ctx: Ctx): set<nat> {
    {ctx.node} +
    match ctx.cleaner
    case FreePage(desc, block) => {desc, block}
    case FreeData(block) => {block}
    case User(_, _) => {}
  }

  function OwnedBy(cleaners: seq<Ctx>): set<nat> {
    if cleaners == [] then {} else BlocksOf(cleaners[0]) + OwnedBy(cleaners[1..])
  }

  predicate SelfApart(ctx: Ctx) {
    match ctx.cleaner
    case FreePage(desc, block) => ctx.node != desc && ctx.node != block && desc != block
    case FreeData(block) => ctx.node != block
    case User(_, _) => true
  }

  /** No block would be freed by two cleaners. */
  ghost predicate Separate(cleaners: seq<Ctx>) {
    cleaners == [] || (
      && SelfApart(cleaners[0])
      && BlocksOf(cleaners[0]) !! OwnedBy(cleaners[1..])
      && Separate(cleaners[1..]))
  }

  ghost predicate Sane(h: Heap, pool: Pool, base: map<nat, nat>) {
    && Owned(h, {pool.self} + OwnedBy(pool.cleaners), base)
    && pool.self !in OwnedBy(pool.cleaners)
    && Separate(pool.cleaners)
  }

  lemma {:induction false} MallocOwned(g: Grants, h: Heap, size: nat, own: set<nat>, base: map<nat, nat>)
    requires Owned(h, own, base)
    ensures var a := Malloc(g, h, size);
            match a.block
            case None => Owned(a.heap, own, base) && a.heap.live == h.live && h.nextId <= a.heap.nextId
            case Some(b) =>
              && b !in h.live && b !in own && b !in base && b >= h.nextId
              && Owned(a.heap, own + {b}, base) && a.heap.live == h.live[b := size] && Grew(h, a.heap)
  {
  }

  lemma {:induction false} FreeOwned(h: Heap, block: nat, own: set<nat>, base: map<nat, nat>)
    requires Owned(h, own, base) && block in own
    ensures Owned(Free(h, block), own - {block}, base) && Free(h, block).live == h.live - {block}
    ensures Free(h, block).nextId == h.nextId
  {
  }

  /** What an operation on a pool may do: either nothing at all, or add blocks of its own. */
  ghost predicate Lawful(h: Heap, pool: Pool, d: Done, base: map<nat, nat>) {
    && Sane(d.heap, d.pool, base) && Grew(h, d.heap) && d.pool.self == pool.self && d.pool.pageSize == pool.pageSize
    && (!d.ok ==> d.heap.live == h.live && d.pool == pool)
    && (d.pool.cleaners == pool.cleaners
        || (d.pool.cleaners != [] && d.pool.cleaners[1..] == pool.cleaners))
  }

  /** A cleaner joins, together with blocks that were allocated for it. */
  lemma {:induction false} AddCleanerLawful(g: Grants, h: Heap, pool: Pool, cleaner: Cleaner, base: map<nat, nat>)
    requires Separate(pool.cleaners) && pool.self !in OwnedBy(pool.cleaners)
    requires var extra := BlocksOf(Ctx(pool.self, cleaner)) - {pool.self};
             && Owned(h, {pool.self} + OwnedBy(pool.cleaners) + extra, base)
             && extra !! OwnedBy(pool.cleaners)
             && SelfApart(Ctx(pool.self, cleaner))
    ensures var d := AddCleaner(g, h, pool, cleaner);
            var extra := BlocksOf(Ctx(pool.self, cleaner)) - {pool.self};
            if d.ok then
              && Sane(d.heap, d.pool, base) && Grew(h, d.heap)
              && d.pool == pool.(cleaners := d.pool.cleaners) && |d.pool.cleaners| == |pool.cleaners| + 1
              && d.pool.cleaners[1..] == pool.cleaners && d.pool.cleaners[0].cleaner == cleaner
            else
              && d.pool == pool && d.heap.live == h.live && h.nextId <= d.heap.nextId
              && Owned(d.heap, {pool.self} + OwnedBy(pool.cleaners) + extra, base)
  {
    var extra := BlocksOf(Ctx(pool.self, cleaner)) - {pool.self};
    var own := {pool.self} + OwnedBy(pool.cleaners) + extra;
    MallocOwned(g, h, CLEANER_STRUCT, own, base);
    var d := AddCleaner(g, h, pool, cleaner);
    if d.ok {
      var ctx := d.pool.cleaners[0];
      assert BlocksOf(ctx) == {ctx.node} + extra;
      assert own + {ctx.node} == {pool.self} + OwnedBy(d.pool.cleaners);
    }
  }

  lemma {:induction false} MallocCleanedLawful(g: Grants, h: Heap, pool: Pool, size: nat, base: map<nat, nat>)
    requires Sane(h, pool, base)
    ensures var d := MallocCleaned(g, h, pool, size);
            && Lawful(h, pool, d, base)
            && (d.ok ==>
                  && d.ptr.At? && d.ptr.offset == 0 && d.ptr.block >= h.nextId
                  && d.ptr.block in d.heap.live && d.heap.live[d.ptr.block] == size
                  && d.pool == pool.(cleaners := d.pool.cleaners) && d.pool.cleaners != []
                  && d.pool.cleaners[1..] == pool.cleaners && d.pool.cleaners[0].cleaner == FreeData(d.ptr.block))
  {
    var own := {pool.self} + OwnedBy(pool.cleaners);
    MallocOwned(g, h, size, own, base);
    var a := Malloc(g, h, size);
    if a.block.Some? {
      var b := a.block.value;
      assert BlocksOf(Ctx(pool.self, FreeData(b))) - {pool.self} == {b};
      AddCleanerLawful(g, a.heap, pool, FreeData(b), base);
      var c := AddCleaner(g, a.heap, pool, FreeData(b));
      if !c.ok {
        FreeOwned(c.heap, b, own + {b}, base);
        assert own + {b} - {b} == own;
        assert h.live[b := size] - {b} == h.live;
      }
    }
  }

  lemma {:induction false} AddPageLawful(g: Grants, h: Heap, pool: Pool, base: map<nat, nat>)
    requires Sane(h, pool, base)
    ensures var d := AddPage(g, h, pool);
            && Lawful(h, pool, d, base)
            && (d.ok ==>
                  && |d.pool.pages| == |pool.pages| + 1 && d.pool.pages[1..] == pool.pages
                  && var page := d.pool.pages[0];
                     && page == Page(page.desc, page.block, pool.pageSize, 0) && page.block >= h.nextId
                     && page.block in d.heap.live && d.heap.live[page.block] == pool.pageSize
                     && d.pool.size == pool.size + pool.pageSize
                     && d.pool.cleaners != [] && d.pool.cleaners[1..] == pool.cleaners
                     && d.pool.cleaners[0].cleaner == FreePage(page.desc, page.block))
  {
    var own := {pool.self} + OwnedBy(pool.cleaners);
    MallocOwned(g, h, PAGE_STRUCT, own, base);
    var a := Malloc(g, h, PAGE_STRUCT);
    if a.block.Some? {
      var desc := a.block.value;
      MallocOwned(g, a.heap, pool.pageSize, own + {desc}, base);
      var b := Malloc(g, a.heap, pool.pageSize);
      if b.block.None? {
        FreeOwned(b.heap, desc, own + {desc}, base);
        assert own + {desc} - {desc} == own;
        assert h.live[desc := PAGE_STRUCT] - {desc} == h.live;
      } else {
        AddPageFilled(g, h, pool, desc, b, base);
      }
    }
  }

  /** The last step of adding a page: its cleaner, or giving both blocks back. */
  lemma {:induction false} AddPageFilled(g: Grants, h: Heap, pool: Pool, desc: nat, b: Allocated, base: map<nat, nat>)
    requires Sane(h, pool, base) && desc !in h.live
    requires b.block.Some? && b.block.value !in h.live && b.block.value != desc
    requires Owned(b.heap, {pool.self} + OwnedBy(pool.cleaners) + {desc} + {b.block.value}, base)
    requires b.heap.live == h.live[desc := PAGE_STRUCT][b.block.value := pool.pageSize] && Grew(h, b.heap)
    ensures var block := b.block.value;
            var c := AddCleaner(g, b.heap, pool, FreePage(desc, block));
            if c.ok then
              && Sane(c.heap, c.pool, base) && Grew(b.heap, c.heap) && c.pool == pool.(cleaners := c.pool.cleaners)
              && c.pool.cleaners != [] && c.pool.cleaners[1..] == pool.cleaners
              && c.pool.cleaners[0].cleaner == FreePage(desc, block)
            else
              var r := Free(Free(c.heap, block), desc);
              Sane(r, pool, base) && r.live == h.live && h.nextId <= r.nextId
  {
    var block := b.block.value;
    var own := {pool.self} + OwnedBy(pool.cleaners);
    assert BlocksOf(Ctx(pool.self, FreePage(desc, block))) - {pool.self} == {desc} + {block};
    assert own + {desc} + {block} == own + ({desc} + {block});
    AddCleanerLawful(g, b.heap, pool, FreePage(desc, block), base);
    var c := AddCleaner(g, b.heap, pool, FreePage(desc, block));
    if !c.ok {
      FreeOwned(c.heap, block, own + {desc} + {block}, base);
      FreeOwned(Free(c.heap, block), desc, own + {desc} + {block} - {block}, base);
      assert own + {desc} + {block} - {block} - {desc} == own;
      assert h.live[desc := PAGE_STRUCT][block := pool.pageSize] - {block} - {desc} == h.live;
    }
  }

  lemma {:induction false} PoolMallocLawful(g: Grants, h: Heap, pool: Pool, size: nat, base: map<nat, nat>)
    requires Sane(h, pool, base) && (pool.pageSize > 0 ==> pool.pages != [])
    ensures Lawful(h, pool, PoolMalloc(g, h, pool, size), base)
  {
    if size > pool.pageSize {
      MallocCleanedLawful(g, h, pool, size, base);
    } else if size > 0 && !Fits(pool, size) {
      AddPageLawful(g, h, pool, base);
    }
  }

  lemma {:induction false} RegisterLawful(g: Grants, h: Heap, pool: Pool, fn: nat, arg: int, base: map<nat, nat>)
    requires Sane(h, pool, base)
    ensures var d := AddCleaner(g, h, pool, User(fn, arg));
            && Lawful(h, pool, d, base)
            && (d.ok ==>
                  && d.pool == pool.(cleaners := d.pool.cleaners) && d.pool.cleaners != []
                  && d.pool.cleaners[1..] == pool.cleaners && d.pool.cleaners[0].cleaner == User(fn, arg))
  {
    var own := {pool.self} + OwnedBy(pool.cleaners);
    assert BlocksOf(Ctx(pool.self, User(fn, arg))) - {pool.self} == {};
    assert own + {} == own;
    AddCleanerLawful(g, h, pool, User(fn, arg), base);
  }

  // ---------- destruction frees what is owned, and nothing else ----------

  lemma {:induction false} CleanOneOwned(c: Cleaning, ctx: Ctx, rest: set<nat>, base: map<nat, nat>)
    requires Owned(c.heap, BlocksOf(ctx) + rest, base) && BlocksOf(ctx) !! rest && SelfApart(ctx)
    ensures var r := CleanOne(c, ctx);
            && Owned(r.heap, rest, base)
            && match ctx.cleaner
               case User(fn, arg) => r.ran == c.ran + [Ran(fn, arg, c.heap.live.Keys)]
               case _ => r.ran == c.ran
  {
    match ctx.cleaner
    case FreePage(desc, block) =>
      var own := BlocksOf(ctx) + rest;
      FreeOwned(c.heap, block, own, base);
      FreeOwned(Free(c.heap, block), desc, own - {block}, base);
      FreeOwned(Free(Free(c.heap, block), desc), ctx.node, own - {block} - {desc}, base);
      assert own - {block} - {desc} - {ctx.node} == rest;
    case FreeData(block) =>
      var own := BlocksOf(ctx) + rest;
      FreeOwned(c.heap, block, own, base);
      FreeOwned(Free(c.heap, block), ctx.node, own - {block}, base);
      assert own - {block} - {ctx.node} == rest;
    case User(fn, arg) =>
      FreeOwned(c.heap, ctx.node, BlocksOf(ctx) + rest, base);
      assert BlocksOf(ctx) + rest - {ctx.node} == rest;
  }

  lemma {:induction false} CleanAllOwned(c: Cleaning, cleaners: seq<Ctx>, self: nat, base: map<nat, nat>)
    requires Owned(c.heap, {self} + OwnedBy(cleaners), base) && self !in OwnedBy(cleaners) && Separate(cleaners)
    ensures Owned(CleanAll(c, cleaners).heap, {self}, base)
    decreases |cleaners|
  {
    if cleaners == [] {
      assert {self} + OwnedBy(cleaners) == {self};
    } else {
      var rest := {self} + OwnedBy(cleaners[1..]);
      assert {self} + OwnedBy(cleaners) == BlocksOf(cleaners[0]) + rest;
      CleanOneOwned(c, cleaners[0], rest, base);
      CleanAllOwned(CleanOne(c, cleaners[0]), cleaners[1..], self, base);
    }
  }

  lemma {:induction false} DestroyRestores(h: Heap, pool: Pool, base: map<nat, nat>)
    requires Sane(h, pool, base)
    ensures var r := Destroy(h, pool).heap; r.live == base && !r.fault
  {
    CleanAllOwned(Cleaning(h, []), pool.cleaners, pool.self, base);
    var c := CleanAll(Cleaning(h, []), pool.cleaners);
    FreeOwned(c.heap, pool.self, {pool.self}, base);
    assert {pool.self} - {pool.self} == {};
  }

  // ---------- registered cleaners ----------

  /**
   The users' cleaners in the list are those registered, latest first; what was handed
   out before a registration is owned by cleaners further down the list, and `under`
   with the blocks owned from there on down is what was allocated at that time.
   */
  ghost predicate Kept(cleaners: seq<Ctx>, registered: seq<Registration>, given: seq<Grant>, under: set<nat>)
    decreases |cleaners|
  {
    if cleaners == [] then registered == []
    else
      match cleaners[0].cleaner
      case User(fn, arg) =>
        var n := |registered|;
        && n > 0 && registered[n - 1].fn == fn && registered[n - 1].arg == arg
        && registered[n - 1].before <= |given|
        && registered[n - 1].live == under + OwnedBy(cleaners)
        && (forall i :: 0 <= i < registered[n - 1].before ==> given[i].block in OwnedBy(cleaners[1..]))
        && Kept(cleaners[1..], registered[..n - 1], given, under)
      case _ => Kept(cleaners[1..], registered, given, under)
  }

  lemma {:induction false} KeptWithMore(cleaners: seq<Ctx>, registered: seq<Registration>, given: seq<Grant>,
                                        more: seq<Grant>, under: set<nat>)
    requires Kept(cleaners, registered, given, under) && given <= more
    ensures Kept(cleaners, registered, more, under)
    decreases |cleaners|
  {
    if cleaners != [] {
      match cleaners[0].cleaner
      case User(fn, arg) => KeptWithMore(cleaners[1..], registered[..|registered| - 1], given, more, under);
      case _ => KeptWithMore(cleaners[1..], registered, given, more, under);
    }
  }

  /**
   The runs `ran` are those of `registered`, latest first, each in a heap with exactly
   the blocks there were when it was registered, so all memory handed out before is there.
   */
  ghost predicate Honoured(ran: seq<Ran>, registered: seq<Registration>, given: seq<Grant>) {
    && |ran| == |registered|
    && forall i :: 0 <= i < |ran| ==> Honours(ran[i], registered[|registered| - 1 - i], given)
  }

  ghost predicate Honours(x: Ran, r: Registration, given: seq<Grant>) {
    && x.fn == r.fn && x.arg == r.arg && x.live == r.live && r.before <= |given|
    && forall j :: 0 <= j < r.before ==> given[j].block in x.live
  }

  lemma {:induction false} CleanAllHonours(c: Cleaning, cleaners: seq<Ctx>, self: nat, base: map<nat, nat>,
                                           registered: seq<Registration>, given: seq<Grant>)
    requires Owned(c.heap, {self} + OwnedBy(cleaners), base) && self !in OwnedBy(cleaners) && Separate(cleaners)
    requires Kept(cleaners, registered, given, base.Keys + {self})
    ensures var r := CleanAll(c, cleaners);
            c.ran <= r.ran && Honoured(r.ran[|c.ran|..], registered, given)
    decreases |cleaners|
  {
    if cleaners != [] {
      var rest := {self} + OwnedBy(cleaners[1..]);
      assert {self} + OwnedBy(cleaners) == BlocksOf(cleaners[0]) + rest;
      CleanOneOwned(c, cleaners[0], rest, base);
      var c1 := CleanOne(c, cleaners[0]);
      var r := CleanAll(c, cleaners);
      match cleaners[0].cleaner
      case User(fn, arg) =>
        CleanAllHonours(c1, cleaners[1..], self, base, registered[..|registered| - 1], given);
        assert c.heap.live.Keys == base.Keys + {self} + OwnedBy(cleaners);
        HonouredNext(c.ran, Ran(fn, arg, c.heap.live.Keys), r.ran, registered, given);
      case _ =>
        CleanAllHonours(c1, cleaners[1..], self, base, registered, given);
    }
  }

  lemma {:induction false} HonouredNext(before: seq<Ran>, x: Ran, ran: seq<Ran>,
                                       registered: seq<Registration>, given: seq<Grant>)
    requires before + [x] <= ran && |registered| > 0
    requires Honoured(ran[|before| + 1..], registered[..|registered| - 1], given)
    requires Honours(x, registered[|registered| - 1], given)
    ensures Honoured(ran[|before|..], registered, given)
  {
    var tail, was := ran[|before|..], ran[|before| + 1..];
    var fewer := registered[..|registered| - 1];
    assert |tail| == |was| + 1;
    forall i | 0 <= i < |tail|
      ensures Honours(tail[i], registered[|registered| - 1 - i], given)
    {
      if i == 0 {
        assert tail[0] == x;
      } else {
        assert tail[i] == was[i - 1];
        assert registered[|registered| - 1 - i] == fewer[|fewer| - 1 - (i - 1)];
        assert Honours(was[i - 1], fewer[|fewer| - 1 - (i - 1)], given);
      }
    }
  }

  // ---------- pages and what is on them ----------

  /** Consecutive pages together hold more than one page can. */
  predicate Packed(pages: seq<Page>, pageSize: nat) {
    && (forall i :: 0 <= i < |pages| ==> pages[i].size == pageSize && pages[i].used <= pageSize)
    && (forall i :: 0 <= i < |pages| - 1 ==> pages[i].used + pages[i + 1].used > pageSize)
  }

  function UsedOn(pages: seq<Page>): nat {
    if pages == [] then 0 else pages[0].used + UsedOn(pages[1..])
  }

  /** The bytes of the requests of at most, or more than, `limit`. */
  function Small(given: seq<Grant>, limit: nat): nat {
    if given == [] then 0
    else
      var last := given[|given| - 1];
      Small(given[..|given| - 1], limit) + if last.size <= limit then last.size else 0
  }

  function Large(given: seq<Grant>, limit: nat): nat {
    if given == [] then 0
    else
      var last := given[|given| - 1];
      Large(given[..|given| - 1], limit) + if last.size > limit then last.size else 0
  }

  function Requested(given: seq<Grant>): nat {
    if given == [] then 0 else Requested(given[..|given| - 1]) + given[|given| - 1].size
  }

  lemma {:induction false} SmallAndLarge(given: seq<Grant>, limit: nat)
    ensures Small(given, limit) + Large(given, limit) == Requested(given)
  {
    if given != [] {
      SmallAndLarge(given[..|given| - 1], limit);
    }
  }

  function PagesTotal(pages: seq<Page>): nat {
    if pages == [] then 0 else pages[0].size + PagesTotal(pages[1..])
  }

  ghost predicate Accounted(s: Session) {
    && Packed(s.pool.pages, s.pool.pageSize)
    && (s.pool.pageSize > 0 ==> s.pool.pages != [])
    && UsedOn(s.pool.pages) == Small(s.given, s.pool.pageSize)
    && s.pool.size == PagesTotal(s.pool.pages) + Large(s.given, s.pool.pageSize)
  }

  // ---------- where the memory handed out lies ----------

  /** The grant lies inside a live block, and on a page below the mark of what is used. */
  ghost predicate Inside(s: Session, x: Grant) {
    && x.block in s.heap.live && x.offset + x.size <= s.heap.live[x.block]
    && x.block in OwnedBy(s.pool.cleaners)
    && (forall i :: 0 <= i < |s.pool.pages| && s.pool.pages[i].block == x.block ==>
          x.offset + x.size <= s.pool.pages[i].used)
  }

  predicate Apart(x: Grant, y: Grant) {
    x.block != y.block || x.offset + x.size <= y.offset || y.offset + y.size <= x.offset
  }

  ghost predicate Laid(s: Session) {
    && (forall i :: 0 <= i < |s.pool.pages| ==>
          && s.pool.pages[i].block in s.heap.live && s.heap.live[s.pool.pages[i].block] == s.pool.pageSize
          && s.pool.pages[i].block in OwnedBy(s.pool.cleaners))
    && (forall i, j :: 0 <= i < j < |s.pool.pages| ==> s.pool.pages[i].block != s.pool.pages[j].block)
    && (forall i :: 0 <= i < |s.given| ==> Inside(s, s.given[i]))
    && (forall i, j :: 0 <= i < j < |s.given| ==> Apart(s.given[i], s.given[j]))
  }

  ghost predicate Inv(s: Session, base: map<nat, nat>) {
    && Sane(s.heap, s.pool, base)
    && Kept(s.pool.cleaners, s.registered, s.given, base.Keys + {s.pool.self})
    && Accounted(s)
    && Laid(s)
  }

  // ---------- every operation keeps the invariant ----------

  /** One more grant, at the end. */
  lemma {:induction false} OneMore(given: seq<Grant>, x: Grant, limit: nat)
    ensures var more := given + [x];
            && Small(more, limit) == Small(given, limit) + (if x.size <= limit then x.size else 0)
            && Large(more, limit) == Large(given, limit) + (if x.size > limit then x.size else 0)
  {
    assert (given + [x])[..|given|] == given;
  }

  /** Nothing that was there has gone, and its owners are still owners. */
  ghost predicate Wider(s: Session, r: Session) {
    && Grew(s.heap, r.heap) && OwnedBy(s.pool.cleaners) <= OwnedBy(r.pool.cleaners)
    && r.pool.pageSize == s.pool.pageSize
    && (forall b :: b in s.heap.live ==> b < s.heap.nextId)
  }

  lemma {:induction false} SameLaid(s: Session, r: Session)
    requires Laid(s) && Wider(s, r) && r.pool.pages == s.pool.pages && r.given == s.given
    ensures Laid(r)
  {
    forall i | 0 <= i < |r.given|
      ensures Inside(r, r.given[i])
    {
      assert Inside(s, s.given[i]);
    }
  }

  /** A grant in a block of its own, outside all pages. */
  lemma {:induction false} OwnBlockLaid(s: Session, r: Session, x: Grant)
    requires Laid(s) && Wider(s, r) && r.pool.pages == s.pool.pages && r.given == s.given + [x]
    requires x.offset == 0 && x.block >= s.heap.nextId && x.block in OwnedBy(r.pool.cleaners)
    requires x.block in r.heap.live && r.heap.live[x.block] == x.size
    ensures Laid(r)
  {
    forall i | 0 <= i < |r.given|
      ensures Inside(r, r.given[i])
      ensures i < |s.given| ==> Apart(s.given[i], x)
    {
      assert i < |s.given| ==> Inside(s, s.given[i]);
    }
  }

  /** A grant at the mark of the head page. */
  lemma {:induction false} HeadPageLaid(s: Session, r: Session, x: Grant)
    requires Laid(s) && s.pool.pages != [] && (forall b :: b in s.heap.live ==> b < s.heap.nextId)
    requires r.heap == s.heap && r.pool.cleaners == s.pool.cleaners && r.given == s.given + [x]
    requires r.pool.pageSize == s.pool.pageSize
    requires var page := s.pool.pages[0];
             && x.block == page.block && x.offset == page.used && x.offset + x.size <= s.pool.pageSize
             && r.pool.pages == [page.(used := page.used + x.size)] + s.pool.pages[1..]
    ensures Laid(r)
  {
    forall i | 0 <= i < |r.given|
      ensures Inside(r, r.given[i])
      ensures i < |s.given| ==> Apart(s.given[i], x)
    {
      assert i < |s.given| ==> Inside(s, s.given[i]);
    }
  }

  /** A new page, on which nothing lies yet. */
  lemma {:induction false} NewPageLaid(s: Session, r: Session)
    requires Laid(s) && Wider(s, r) && r.given == s.given
    requires r.pool.pages != [] && r.pool.pages[1..] == s.pool.pages
    requires var block := r.pool.pages[0].block;
             && block >= s.heap.nextId && block in OwnedBy(r.pool.cleaners)
             && block in r.heap.live && r.heap.live[block] == s.pool.pageSize
    ensures Laid(r)
  {
    forall i | 0 <= i < |r.given|
      ensures Inside(r, r.given[i])
    {
      assert Inside(s, s.given[i]);
    }
  }

  /** A request served off the pages. */
  lemma {:induction false} LargeKeeps(g: Grants, s: Session, size: nat, base: map<nat, nat>)
    requires Inv(s, base) && size > s.pool.pageSize
    ensures Inv(Step(g, s, Request(size)), base)
  {
    var d := MallocCleaned(g, s.heap, s.pool, size);
    var r := Step(g, s, Request(size));
    MallocCleanedLawful(g, s.heap, s.pool, size, base);
    if d.ok {
      var x := Grant(d.ptr.block, 0, size);
      OneMore(s.given, x, s.pool.pageSize);
      KeptWithMore(s.pool.cleaners, s.registered, s.given, r.given, base.Keys + {s.pool.self});
      OwnBlockLaid(s, r, x);
    } else {
      SameLaid(s, r);
    }
  }

  /** A request served from the head page. */
  lemma {:induction false} FromPageKeeps(s: Session, size: nat, base: map<nat, nat>)
    requires Inv(s, base) && 0 < size && Fits(s.pool, size)
    ensures var d := FromPage(s.heap, s.pool, size);
            Inv(Session(d.heap, d.pool, s.given + [Grant(d.ptr.block, d.ptr.offset, size)], s.registered), base)
  {
    var d := FromPage(s.heap, s.pool, size);
    var x := Grant(d.ptr.block, d.ptr.offset, size);
    var r := Session(d.heap, d.pool, s.given + [x], s.registered);
    OneMore(s.given, x, s.pool.pageSize);
    KeptWithMore(s.pool.cleaners, s.registered, s.given, r.given, base.Keys + {s.pool.self});
    assert d.pool.pages[1..] == s.pool.pages[1..];
    HeadPageLaid(s, r, x);
  }

  /** What a session looks like after a request that got a new page from `d`. */
  ghost predicate NewPage(s: Session, r: Session, d: Done, size: nat) {
    && d.ok && d.pool.pages != [] && d.pool.pages[1..] == s.pool.pages
    && var page := d.pool.pages[0];
       && r.heap == d.heap && r.registered == s.registered
       && r.given == s.given + [Grant(page.block, 0, size)]
       && r.pool == d.pool.(pages := [page.(used := page.used + size)] + s.pool.pages)
  }

  lemma {:induction false} NewPageServes(g: Grants, h: Heap, pool: Pool, size: nat, d: Done)
    requires 0 < size <= pool.pageSize && !Fits(pool, size) && pool.pages != []
    requires d == AddPage(g, h, pool) && d.ok && d.pool.pages != []
    ensures PoolMalloc(g, h, pool, size) == FromPage(d.heap, d.pool, size)
  {
  }

  lemma {:induction false} NewPageTaken(g: Grants, s: Session, size: nat, base: map<nat, nat>)
    requires Sane(s.heap, s.pool, base) && 0 < size <= s.pool.pageSize && !Fits(s.pool, size) && s.pool.pages != []
    ensures var d := AddPage(g, s.heap, s.pool);
            d.ok ==> NewPage(s, Step(g, s, Request(size)), d, size)
  {
    var d := AddPage(g, s.heap, s.pool);
    if d.ok {
      assert d.pool.pages != [] && d.pool.pages[1..] == s.pool.pages && d.pool.pages[0].used == 0 by {
        AddPageLawful(g, s.heap, s.pool, base);
      }
      NewPageServes(g, s.heap, s.pool, size, d);
    }
  }

  lemma {:induction false} TakenPageLaid(g: Grants, s: Session, r: Session, size: nat, base: map<nat, nat>)
    requires Sane(s.heap, s.pool, base) && Laid(s) && size <= s.pool.pageSize
    requires NewPage(s, r, AddPage(g, s.heap, s.pool), size)
    ensures Laid(r)
  {
    var d := AddPage(g, s.heap, s.pool);
    var m := Session(d.heap, d.pool, s.given, s.registered);
    AddPageLawful(g, s.heap, s.pool, base);
    NewPageLaid(s, m);
    HeadPageLaid(m, r, Grant(d.pool.pages[0].block, 0, size));
  }

  lemma {:induction false} TakenPageAccounted(g: Grants, s: Session, r: Session, size: nat, base: map<nat, nat>)
    requires Sane(s.heap, s.pool, base) && Accounted(s) && 0 < size <= s.pool.pageSize && !Fits(s.pool, size)
    requires NewPage(s, r, AddPage(g, s.heap, s.pool), size)
    ensures Accounted(r)
  {
    AddPageLawful(g, s.heap, s.pool, base);
    OneMore(s.given, r.given[|s.given|], s.pool.pageSize);
    NewPageAccounted(s, r, size);
  }

  lemma {:induction false} TakenPageKept(g: Grants, s: Session, r: Session, size: nat, base: map<nat, nat>)
    requires Sane(s.heap, s.pool, base) && NewPage(s, r, AddPage(g, s.heap, s.pool), size)
    requires Kept(s.pool.cleaners, s.registered, s.given, base.Keys + {s.pool.self})
    ensures Sane(r.heap, r.pool, base)
    ensures Kept(r.pool.cleaners, r.registered, r.given, base.Keys + {r.pool.self})
  {
    AddPageLawful(g, s.heap, s.pool, base);
    KeptWithMore(s.pool.cleaners, s.registered, s.given, r.given, base.Keys + {s.pool.self});
  }

  /** A request that needs a new page. */
  lemma {:induction false} NewPageKeeps(g: Grants, s: Session, size: nat, base: map<nat, nat>)
    requires Inv(s, base) && 0 < size <= s.pool.pageSize && !Fits(s.pool, size)
    ensures Inv(Step(g, s, Request(size)), base)
  {
    var r := Step(g, s, Request(size));
    if AddPage(g, s.heap, s.pool).ok {
      NewPageTaken(g, s, size, base);
      TakenPageKept(g, s, r, size, base);
      TakenPageAccounted(g, s, r, size, base);
      TakenPageLaid(g, s, r, size, base);
    } else {
      AddPageLawful(g, s.heap, s.pool, base);
      SameLaid(s, r);
    }
  }

  lemma {:induction false} NewPageAccounted(s: Session, r: Session, size: nat)
    requires Accounted(s) && 0 < size <= s.pool.pageSize && !Fits(s.pool, size)
    requires r.pool.pages != [] && r.pool.pages[1..] == s.pool.pages && r.pool.pageSize == s.pool.pageSize
    requires r.pool.pages[0].size == s.pool.pageSize && r.pool.pages[0].used == size
    requires r.pool.size == s.pool.size + s.pool.pageSize
    requires Small(r.given, s.pool.pageSize) == Small(s.given, s.pool.pageSize) + size
    requires Large(r.given, s.pool.pageSize) == Large(s.given, s.pool.pageSize)
    ensures Accounted(r)
  {
    forall i | 0 <= i < |r.pool.pages| - 1
      ensures r.pool.pages[i].used + r.pool.pages[i + 1].used > s.pool.pageSize
    {
      assert r.pool.pages[i + 1] == s.pool.pages[i];
      assert i > 0 ==> r.pool.pages[i] == s.pool.pages[i - 1];
    }
  }

  /** A user's cleaner is registered. */
  lemma {:induction false} KeptRegistered(cleaners: seq<Ctx>, ctx: Ctx, registered: seq<Registration>,
                                          given: seq<Grant>, live: set<nat>, under: set<nat>)
    requires Kept(cleaners, registered, given, under) && ctx.cleaner.User?
    requires forall i :: 0 <= i < |given| ==> given[i].block in OwnedBy(cleaners)
    requires live == under + OwnedBy([ctx] + cleaners)
    ensures var x := Registration(ctx.cleaner.fn, ctx.cleaner.arg, |given|, live);
            Kept([ctx] + cleaners, registered + [x], given, under)
  {
    var x := Registration(ctx.cleaner.fn, ctx.cleaner.arg, |given|, live);
    assert (registered + [x])[..|registered|] == registered;
    assert ([ctx] + cleaners)[1..] == cleaners;
  }

  lemma {:induction false} AllOwned(s: Session)
    requires Laid(s)
    ensures forall i :: 0 <= i < |s.given| ==> s.given[i].block in OwnedBy(s.pool.cleaners)
  {
    forall i | 0 <= i < |s.given|
      ensures s.given[i].block in OwnedBy(s.pool.cleaners)
    {
      assert Inside(s, s.given[i]);
    }
  }

  lemma {:induction false} RegisterKeeps(g: Grants, s: Session, fn: nat, arg: int, base: map<nat, nat>)
    requires Inv(s, base)
    ensures Inv(Step(g, s, Register(fn, arg)), base)
  {
    var d := AddCleaner(g, s.heap, s.pool, User(fn, arg));
    var r := Step(g, s, Register(fn, arg));
    RegisterLawful(g, s.heap, s.pool, fn, arg, base);
    SameLaid(s, r);
    if d.ok {
      var under := base.Keys + {s.pool.self};
      AllOwned(s);
      assert r.pool.cleaners == [d.pool.cleaners[0]] + s.pool.cleaners;
      assert r.heap.live.Keys == under + OwnedBy(r.pool.cleaners);
      KeptRegistered(s.pool.cleaners, d.pool.cleaners[0], s.registered, s.given, r.heap.live.Keys, under);
    }
  }

  lemma {:induction false} RequestKeeps(g: Grants, s: Session, size: nat, base: map<nat, nat>)
    requires Inv(s, base)
    ensures Inv(Step(g, s, Request(size)), base)
  {
    if size == 0 {
      assert Step(g, s, Request(size)) == s;
    } else if size > s.pool.pageSize {
      LargeKeeps(g, s, size, base);
    } else if Fits(s.pool, size) {
      FromPageKeeps(s, size, base);
    } else {
      NewPageKeeps(g, s, size, base);
    }
  }

  lemma {:induction false} StepKeeps(g: Grants, s: Session, op: Op, base: map<nat, nat>)
    requires Inv(s, base)
    ensures Inv(Step(g, s, op), base)
  {
    match op
    case Request(size) => RequestKeeps(g, s, size, base);
    case Register(fn, arg) => RegisterKeeps(g, s, fn, arg, base);
  }

  lemma {:induction false} RunKeeps(g: Grants, s: Session, ops: seq<Op>, base: map<nat, nat>)
    requires Inv(s, base)
    ensures Inv(Run(g, s, ops), base)
    decreases |ops|
  {
    if ops != [] {
      RunKeeps(g, s, ops[..|ops| - 1], base);
      StepKeeps(g, Run(g, s, ops[..|ops| - 1]), ops[|ops| - 1], base);
    }
  }

  /** Any heap to start from: nothing wrong yet, and new blocks are new. */
  ghost predicate Sound(h: Heap) {
    !h.fault && forall b :: b in h.live ==> b < h.nextId
  }

  /** A pool without pages. */
  lemma {:induction false} BareSane(g: Grants, h: Heap)
    requires Sound(h)
    ensures var a := Malloc(g, h, POOL_STRUCT);
            && !a.heap.fault
            && match a.block
               case None => a.heap.live == h.live
               case Some(self) =>
                 && self !in h.live && a.heap.live == h.live[self := POOL_STRUCT]
                 && forall size :: Sane(a.heap, Pool(self, size, [], [], 0), h.live)
  {
    MallocOwned(g, h, POOL_STRUCT, {}, h.live);
    var a := Malloc(g, h, POOL_STRUCT);
    if a.block.Some? {
      assert {} + {a.block.value} == {a.block.value} + OwnedBy([]);
    }
  }

  lemma {:induction false} CreateKeeps(g: Grants, h: Heap, size: nat, paging: bool)
    requires Sound(h)
    ensures var (r, pool) := Create(g, h, size, paging);
            match pool
            case None => r.live == h.live && !r.fault
            case Some(p) => Inv(Session(r, p, [], []), h.live) && p.pageSize == (if paging then size else 0)
  {
    BareSane(g, h);
    var a := Malloc(g, h, POOL_STRUCT);
    if a.block.Some? {
      var self := a.block.value;
      var pool := Pool(self, if paging then size else 0, [], [], 0);
      if pool.pageSize > 0 {
        AddPageLawful(g, a.heap, pool, h.live);
        var d := AddPage(g, a.heap, pool);
        if d.ok {
          assert d.pool.cleaners == [d.pool.cleaners[0]] && d.pool.pages == [d.pool.pages[0]];
        } else {
          FreeOwned(d.heap, self, {self} + OwnedBy([]), h.live);
          assert h.live[self := POOL_STRUCT] - {self} == h.live;
        }
      }
    }
  }
}
