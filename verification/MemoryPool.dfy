/**
 The pool of src/ls_mem.c with its linked lists of pages and cleaners, changed in place.
 Every method is proved to do to `model` and to the allocator's heap what the function of
 PoolModel says, and never to free a block that is not allocated.
 */
module MemoryPool {
  import opened Options
  import opened PoolModel
  import opened PoolLaws

  /** malloc and free of the C library, which may refuse any request. */
  class Allocator {
    const grants: Grants
    var heap: Heap

    constructor (grants: Grants, heap: Heap)
      ensures this.grants == grants && this.heap == heap
    {
      this.grants, this.heap := grants, heap;
    }

    /** `ls_data_malloc`. */
    method Malloc(size: nat) returns (block: Option<nat>)
      modifies this
      ensures Allocated(heap, block) == PoolModel.Malloc(grants, old(heap), size)
    {
      var granted := grants(heap.calls);
      heap := heap.(calls := heap.calls + 1);
      if !granted {
        return None;
      }
      block := Some(heap.nextId);
      heap := heap.(live := heap.live[heap.nextId := size], nextId := heap.nextId + 1);
    }

    /** `ls_data_free`: calling it on a block that is not allocated would be an error. */
    method Free(block: nat)
      requires block in heap.live
      modifies this
      ensures heap == PoolModel.Free(old(heap), block)
    {
      heap := heap.(live := heap.live - {block});
    }
  }

  class PoolPage {
    const desc: nat
    const block: nat
    const size: nat
    const next: PoolPage?
    var used: nat

    constructor (desc: nat, block: nat, size: nat, next: PoolPage?)
      ensures this.desc == desc && this.block == block && this.size == size && this.next == next && used == 0
    {
      this.desc, this.block, this.size, this.next, used := desc, block, size, next, 0;
    }

    ghost function View(): Page
      reads this
    {
      Page(desc, block, size, used)
    }

    /** `_page_malloc`. */
    method Take(request: nat) returns (ptr: Pointer)
      requires used <= size
      modifies this
      ensures if request <= size - old(used)
              then ptr == At(block, old(used)) && used == old(used) + request
              else ptr == Null && used == old(used)
    {
      var willUse := used;
      if request > size - willUse {
        return Null;
      }
      ptr := At(block, willUse);
      used := willUse + request;
    }
  }

  /** A cleaner function with its argument. */
  datatype Callback = PageCallback(page: PoolPage) | DataCallback(block: nat) | UserCallback(fn: nat, arg: int)

  class CleanerCtx {
    const node: nat
    const callback: Callback
    const next: CleanerCtx?

    constructor (node: nat, callback: Callback, next: CleanerCtx?)
      ensures this.node == node && this.callback == callback && this.next == next
    {
      this.node, this.callback, this.next := node, callback, next;
    }

    ghost function View(): Ctx {
      Ctx(node, Meaning(callback))
    }
  }

  ghost function Meaning(callback: Callback): Cleaner {
    match callback
    case PageCallback(page) => FreePage(page.desc, page.block)
    case DataCallback(block) => FreeData(block)
    case UserCallback(fn, arg) => User(fn, arg)
  }

  class PagedPool {
    const alloc: Allocator
    const self: nat
    const pageSize: nat
    var size: nat
    var pages: PoolPage?
    var cleaners: CleanerCtx?
    ghost var pageSpine: seq<PoolPage>
    ghost var cleanerSpine: seq<CleanerCtx>
    ghost var model: Pool

    ghost function PageAt(i: nat): PoolPage?
      reads this
    {
      if i < |pageSpine| then pageSpine[i] else null
    }

    ghost function CleanerAt(i: nat): CleanerCtx?
      reads this
    {
      if i < |cleanerSpine| then cleanerSpine[i] else null
    }

    ghost predicate CleanersLinked()
      reads this
    {
      && |cleanerSpine| == |model.cleaners| && cleaners == CleanerAt(0)
      && (forall i :: 0 <= i < |cleanerSpine| ==> cleanerSpine[i].View() == model.cleaners[i])
      && (forall i {:trigger cleanerSpine[i].next} :: 0 <= i < |cleanerSpine| ==>
            cleanerSpine[i].next == CleanerAt(i + 1))
    }

    ghost predicate PagesLinked()
      reads this, pageSpine
    {
      && |pageSpine| == |model.pages| && pages == PageAt(0)
      && (forall i :: 0 <= i < |pageSpine| ==>
            pageSpine[i].View() == model.pages[i] && pageSpine[i].used <= pageSpine[i].size)
      && (forall i, j :: 0 <= i < j < |pageSpine| ==> pageSpine[i] != pageSpine[j])
      && (forall i {:trigger pageSpine[i].next} :: 0 <= i < |pageSpine| ==> pageSpine[i].next == PageAt(i + 1))
    }

    ghost predicate Valid()
      reads this, pageSpine
    {
      && CleanersLinked() && PagesLinked()
      && model.self == self && model.pageSize == pageSize && model.size == size
    }

    constructor (alloc: Allocator, self: nat, pageSize: nat)
      ensures Valid() && this.alloc == alloc && pageSpine == [] && model == Pool(self, pageSize, [], [], 0)
    {
      this.alloc, this.self, this.pageSize := alloc, self, pageSize;
      size, pages, cleaners := 0, null, null;
      pageSpine, cleanerSpine, model := [], [], Pool(self, pageSize, [], [], 0);
    }

    /** `ls_pool_add_cleaner`. */
    method AddCleaner(callback: Callback) returns (ok: bool)
      requires Valid()
      modifies this`cleaners, this`cleanerSpine, this`model, alloc
      ensures Valid()
      ensures Done(alloc.heap, model, ok, Null)
           == PoolModel.AddCleaner(alloc.grants, old(alloc.heap), old(model), Meaning(callback))
    {
      var node := alloc.Malloc(CLEANER_STRUCT);
      if node.None? {
        return false;
      }
      var ctx := new CleanerCtx(node.value, callback, cleaners);
      cleaners := ctx;
      cleanerSpine := [ctx] + cleanerSpine;
      model := model.(cleaners := [ctx.View()] + model.cleaners);
      return true;
    }

    /** `_malloc_fnc` with the cleaner `ls_data_free`. */
    method MallocCleaned(request: nat) returns (ptr: Pointer)
      requires Valid() && Sound(alloc.heap)
      modifies this`cleaners, this`cleanerSpine, this`model, alloc
      ensures Valid()
      ensures Done(alloc.heap, model, ptr.At?, ptr)
           == PoolModel.MallocCleaned(alloc.grants, old(alloc.heap), old(model), request)
    {
      var block := alloc.Malloc(request);
      if block.None? {
        return Null;
      }
      var ok := AddCleaner(DataCallback(block.value));
      if !ok {
        alloc.Free(block.value);
        return Null;
      }
      ptr := At(block.value, 0);
    }

    /** A new page becomes the head of the list. */
    method LinkPage(page: PoolPage)
      requires Valid() && page !in pageSpine && page.next == pages && page.used == 0 && page.size == pageSize
      modifies this`pages, this`size, this`pageSpine, this`model
      ensures Valid() && pageSpine == [page] + old(pageSpine)
      ensures model == old(model).(pages := [Page(page.desc, page.block, pageSize, 0)] + old(model).pages,
                                   size := old(model).size + pageSize)
    {
      pages := page;
      size := size + pageSize;
      pageSpine := [page] + pageSpine;
      model := model.(pages := [page.View()] + model.pages, size := size);
    }

    /** `_add_page`. */
    method AddPage() returns (ok: bool)
      requires Valid() && Sound(alloc.heap)
      modifies this, alloc
      ensures Valid() && (ok ==> pages != null && fresh(pages) && pageSpine == [pages] + old(pageSpine))
      ensures !ok ==> pageSpine == old(pageSpine)
      ensures Done(alloc.heap, model, ok, Null) == PoolModel.AddPage(alloc.grants, old(alloc.heap), old(model))
    {
      var desc := alloc.Malloc(PAGE_STRUCT);
      if desc.None? {
        return false;
      }
      var block := alloc.Malloc(pageSize);
      if block.None? {
        alloc.Free(desc.value);
        return false;
      }
      ok := FillPage(desc.value, block.value);
    }

    /** The rest of it, once both blocks are there. */
    method FillPage(desc: nat, block: nat) returns (ok: bool)
      requires Valid() && Sound(alloc.heap) && desc in alloc.heap.live && block in alloc.heap.live && desc != block
      modifies this, alloc
      ensures Valid() && (ok ==> pages != null && fresh(pages) && pageSpine == [pages] + old(pageSpine))
      ensures !ok ==> pageSpine == old(pageSpine)
      ensures var c := PoolModel.AddCleaner(alloc.grants, old(alloc.heap), old(model), FreePage(desc, block));
              if ok then
                && c.ok && alloc.heap == c.heap
                && model == c.pool.(pages := [Page(desc, block, pageSize, 0)] + old(model).pages,
                                    size := old(model).size + pageSize)
              else !c.ok && alloc.heap == PoolModel.Free(PoolModel.Free(c.heap, block), desc) && model == old(model)
    {
      var page := new PoolPage(desc, block, pageSize, pages);
      ok := AddCleaner(PageCallback(page));
      if !ok {
        alloc.Free(page.block);
        alloc.Free(page.desc);
        return false;
      }
      LinkPage(page);
    }

    /** The head page serves a request. */
    method TakeFromHead(request: nat) returns (ptr: Pointer)
      requires Valid() && pages != null && request > 0
      modifies this`model, pages
      ensures Valid()
      ensures if Fits(old(model), request)
              then Done(alloc.heap, model, true, ptr) == FromPage(alloc.heap, old(model), request)
              else ptr == Null && model == old(model)
    {
      assert pages == pageSpine[0] && pages.View() == model.pages[0];
      ptr := pages.Take(request);
      if ptr.At? {
        model := FromPage(alloc.heap, model, request).pool;
      }
    }

    /** `ls_pool_malloc`. */
    method Malloc(request: nat) returns (ok: bool, ptr: Pointer)
      requires Valid() && Sound(alloc.heap) && (pageSize > 0 ==> pages != null)
      modifies this, pages, alloc
      ensures Valid() && (pageSize > 0 ==> pages != null)
      ensures Done(alloc.heap, model, ok, ptr) == PoolMalloc(alloc.grants, old(alloc.heap), old(model), request)
    {
      if request == 0 {
        return true, Null;
      }
      if request > pageSize {
        ptr := MallocCleaned(request);
        if ptr == Null {
          return false, Null;
        }
        size := size + request;
        model := model.(size := size);
        return true, ptr;
      }
      ptr := TakeFromHead(request);
      if ptr == Null {
        var added := AddPage();
        if !added {
          return false, Null;
        }
        ptr := TakeFromHead(request);
      }
      ok := true;
    }

    /** `ls_pool_create`; `paging` is the global switch. */
    static method Create(alloc: Allocator, size: nat, paging: bool) returns (pool: PagedPool?)
      requires Sound(alloc.heap)
      modifies alloc
      ensures pool != null ==> fresh(pool) && pool.Valid() && pool.alloc == alloc
      ensures pool != null ==> (pool.pageSize > 0 ==> pool.pages != null)
      ensures (alloc.heap, if pool == null then None else Some(pool.model))
           == PoolModel.Create(alloc.grants, old(alloc.heap), size, paging)
    {
      BareSane(alloc.grants, alloc.heap);
      ghost var base := alloc.heap.live;
      var self := alloc.Malloc(POOL_STRUCT);
      if self.None? {
        return null;
      }
      pool := new PagedPool(alloc, self.value, if paging then size else 0);
      if pool.pageSize > 0 {
        AddPageLawful(alloc.grants, alloc.heap, pool.model, base);
        var ok := pool.AddPage();
        if !ok {
          alloc.Free(self.value);
          return null;
        }
      }
    }

    /** One turn of the loop in `ls_pool_destroy`. */
    method CleanOne(cur: CleanerCtx, ran: seq<Ran>, ghost rest: set<nat>, ghost base: map<nat, nat>)
      returns (ran': seq<Ran>)
      requires Owned(alloc.heap, BlocksOf(cur.View()) + rest, base)
      requires BlocksOf(cur.View()) !! rest && SelfApart(cur.View())
      modifies alloc
      ensures Cleaning(alloc.heap, ran') == PoolModel.CleanOne(Cleaning(old(alloc.heap), ran), cur.View())
    {
      ran' := ran;
      match cur.callback {
        case PageCallback(page) =>
          alloc.Free(page.block);
          alloc.Free(page.desc);
        case DataCallback(block) => alloc.Free(block);
        case UserCallback(fn, arg) => ran' := ran + [Ran(fn, arg, alloc.heap.live.Keys)];
      }
      alloc.Free(cur.node);
    }

    /** `ls_pool_destroy`: what the pool's cleaners own is freed, each block once. */
    method Destroy(ghost base: map<nat, nat>) returns (ran: seq<Ran>)
      requires Valid() && Sane(alloc.heap, model, base)
      modifies alloc
      ensures Cleaning(alloc.heap, ran) == PoolModel.Destroy(old(alloc.heap), model)
      ensures alloc.heap.live == base
    {
      DestroyRestores(alloc.heap, model, base);
      var cur := cleaners;
      ran := [];
      ghost var left := model.cleaners;
      ghost var k := 0;
      while cur != null
        invariant k <= |cleanerSpine| && cur == CleanerAt(k) && left == model.cleaners[k..]
        invariant Owned(alloc.heap, {self} + OwnedBy(left), base) && self !in OwnedBy(left) && Separate(left)
        invariant CleanAll(Cleaning(alloc.heap, ran), left) == CleanAll(Cleaning(old(alloc.heap), []), model.cleaners)
        decreases |cleanerSpine| - k
      {
        ghost var rest := {self} + OwnedBy(left[1..]);
        assert {self} + OwnedBy(left) == BlocksOf(left[0]) + rest && left[0] == cur.View();
        CleanOneOwned(Cleaning(alloc.heap, ran), left[0], rest, base);
        ran := CleanOne(cur, ran, rest, base);
        cur := cur.next;
        left, k := left[1..], k + 1;
      }
      alloc.Free(self);
    }
  }
}
