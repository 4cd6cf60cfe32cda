/**
 What every table of TableModel keeps: its nodes as a bag, where they are linked, and the
 map they stand for.
 */
module TableLaws {
  import opened Options
  import opened TableModel

  // ---------- sums over the nodes ----------

  function Sum(f: Entry -> nat, chain: seq<Entry>): nat {
    if chain == [] then 0
    else Sum(f, chain[..|chain| - 1]) + f(chain[|chain| - 1])
  }

  /** The sum of `f` over all nodes; it does not depend on how they are linked. */
  function Total(f: Entry -> nat, chains: seq<seq<Entry>>): nat {
    if chains == [] then 0
    else Total(f, chains[..|chains| - 1]) + Sum(f, chains[|chains| - 1])
  }

  function Is(e: Entry): Entry -> nat {
    x => if x == e then 1 else 0
  }

  /** How many nodes are equal to `e`. */
  function Times(chains: seq<seq<Entry>>, e: Entry): nat {
    Total(Is(e), chains)
  }

  lemma {:induction false} SumConcat(f: Entry -> nat, a: seq<Entry>, b: seq<Entry>)
    ensures Sum(f, a + b) == Sum(f, a) + Sum(f, b)
  {
    if b == [] {
      assert a + b == a;
    } else {
      assert (a + b)[..|a + b| - 1] == a + b[..|b| - 1];
      SumConcat(f, a, b[..|b| - 1]);
    }
  }

  lemma {:induction false} SumOne(f: Entry -> nat, e: Entry)
    ensures Sum(f, [e]) == f(e)
  {
    assert [e][..0] == [];
  }

  lemma {:induction false} SumAround(f: Entry -> nat, chain: seq<Entry>, at: nat)
    requires at < |chain|
    ensures Sum(f, chain) == Sum(f, chain[..at]) + f(chain[at]) + Sum(f, chain[at + 1..])
  {
    SumConcat(f, chain[..at], [chain[at]]);
    SumConcat(f, chain[..at] + [chain[at]], chain[at + 1..]);
    SumOne(f, chain[at]);
    assert chain == chain[..at] + [chain[at]] + chain[at + 1..];
  }

  lemma {:induction false} TotalUpdate(f: Entry -> nat, chains: seq<seq<Entry>>, b: nat, chain: seq<Entry>)
    requires b < |chains|
    ensures Total(f, chains[b := chain]) + Sum(f, chains[b]) == Total(f, chains) + Sum(f, chain)
  {
    var last := |chains| - 1;
    if b < last {
      TotalUpdate(f, chains[..last], b, chain);
      assert chains[b := chain][..last] == chains[..last][b := chain];
    } else {
      assert chains[b := chain][..last] == chains[..last];
    }
  }

  lemma {:induction false} TotalSet(f: Entry -> nat, chains: seq<seq<Entry>>, s: Spot, e: Entry)
    requires Points(chains, s)
    ensures Total(f, SetAt(chains, s, e)) + f(EntryAt(chains, s)) == Total(f, chains) + f(e)
  {
    var chain := chains[s.bucket];
    var new' := chain[s.at := e];
    TotalUpdate(f, chains, s.bucket, new');
    SumAround(f, chain, s.at);
    SumAround(f, new', s.at);
    assert new'[..s.at] == chain[..s.at] && new'[s.at + 1..] == chain[s.at + 1..];
  }

  lemma {:induction false} TotalDrop(f: Entry -> nat, chains: seq<seq<Entry>>, s: Spot)
    requires Points(chains, s)
    ensures Total(f, DropAt(chains, s)) + f(EntryAt(chains, s)) == Total(f, chains)
  {
    var chain := chains[s.bucket];
    TotalUpdate(f, chains, s.bucket, chain[..s.at] + chain[s.at + 1..]);
    SumAround(f, chain, s.at);
    SumConcat(f, chain[..s.at], chain[s.at + 1..]);
  }

  lemma {:induction false} TotalPush(f: Entry -> nat, chains: seq<seq<Entry>>, e: Entry)
    requires |chains| > 0
    ensures Total(f, Push(chains, e)) == Total(f, chains) + f(e)
  {
    var b := BucketOf(chains, e.khash);
    TotalUpdate(f, chains, b, [e] + chains[b]);
    SumConcat(f, [e], chains[b]);
    SumOne(f, e);
  }

  lemma {:induction false} TotalNone(f: Entry -> nat, n: nat)
    ensures Total(f, NoChains(n)) == 0
  {
    if n > 0 {
      TotalNone(f, n - 1);
      assert NoChains(n)[..n - 1] == NoChains(n - 1);
    }
  }

  lemma {:induction false} TotalTake(f: Entry -> nat, chains: seq<seq<Entry>>, c: nat)
    requires c < |chains|
    ensures Total(f, chains[..c + 1]) == Total(f, chains[..c]) + Sum(f, chains[c])
  {
    assert chains[..c + 1][..c] == chains[..c];
  }

  lemma {:induction false} TotalRelinkChain(f: Entry -> nat, chains: seq<seq<Entry>>, chain: seq<Entry>, i: nat)
    requires |chains| > 0 && i <= |chain|
    ensures Total(f, RelinkChain(chains, chain, i)) + Sum(f, chain[..i]) == Total(f, chains) + Sum(f, chain)
    decreases |chain| - i
  {
    if i < |chain| {
      TotalPush(f, chains, chain[i]);
      TotalRelinkChain(f, Push(chains, chain[i]), chain, i + 1);
      SumConcat(f, chain[..i], [chain[i]]);
      SumOne(f, chain[i]);
      assert chain[..i + 1] == chain[..i] + [chain[i]];
    } else {
      assert chain[..i] == chain;
    }
  }

  /** Rehashing loses no node and doubles none. */
  lemma {:induction false} TotalRelink(f: Entry -> nat, chains: seq<seq<Entry>>, old': seq<seq<Entry>>, c: nat)
    requires |chains| > 0 && c <= |old'|
    ensures Total(f, Relink(chains, old', c)) + Total(f, old'[..c]) == Total(f, chains) + Total(f, old')
    decreases |old'| - c
  {
    if c < |old'| {
      TotalRelinkChain(f, chains, old'[c], 0);
      assert old'[c][..0] == [];
      TotalRelink(f, RelinkChain(chains, old'[c], 0), old', c + 1);
      TotalTake(f, old', c);
    } else {
      assert old'[..c] == old';
    }
  }

  lemma {:induction false} TotalResized(f: Entry -> nat, t: Table, buckets: nat)
    requires 0 < buckets < WORD
    ensures Total(f, Resized(t, buckets).chains) == Total(f, t.chains)
  {
    TotalRelink(f, NoChains(buckets), t.chains, 0);
    TotalNone(f, buckets);
    assert t.chains[..0] == [];
  }

  lemma {:induction false} SizeIsTotal(chains: seq<seq<Entry>>)
    ensures Size(chains) == Total(e => 1, chains)
  {
    if chains != [] {
      SizeIsTotal(chains[..|chains| - 1]);
      LengthIsSum(chains[|chains| - 1]);
    }
  }

  lemma {:induction false} LengthIsSum(chain: seq<Entry>)
    ensures |chain| == Sum(e => 1, chain)
  {
    if chain != [] {
      LengthIsSum(chain[..|chain| - 1]);
    }
  }

  // ---------- which nodes there are ----------

  /** Some node is equal to `e`. */
  predicate Has(chains: seq<seq<Entry>>, e: Entry) {
    Times(chains, e) > 0
  }

  lemma {:induction false} SumHas(chain: seq<Entry>, e: Entry)
    ensures Sum(Is(e), chain) > 0 <==> e in chain
  {
    if chain != [] {
      SumHas(chain[..|chain| - 1], e);
      assert chain == chain[..|chain| - 1] + [chain[|chain| - 1]];
    }
  }

  lemma {:induction false} HasAt(chains: seq<seq<Entry>>, s: Spot)
    requires Points(chains, s)
    ensures Has(chains, EntryAt(chains, s))
  {
    var last := |chains| - 1;
    if s.bucket < last {
      HasAt(chains[..last], s);
    } else {
      SumHas(chains[last], EntryAt(chains, s));
    }
  }

  lemma {:induction false} Locate(chains: seq<seq<Entry>>, e: Entry) returns (s: Spot)
    requires Has(chains, e)
    ensures Points(chains, s) && EntryAt(chains, s) == e
  {
    var last := |chains| - 1;
    if Has(chains[..last], e) {
      s := Locate(chains[..last], e);
    } else {
      SumHas(chains[last], e);
      var i :| 0 <= i < |chains[last]| && chains[last][i] == e;
      s := Spot(last, i);
    }
  }

  // ---------- the invariant ----------

  /** Every node hangs in the bucket that its cached hash names. */
  ghost predicate Placed(chains: seq<seq<Entry>>) {
    forall s: Spot :: Points(chains, s) ==> BucketOf(chains, EntryAt(chains, s).khash) == s.bucket
  }

  /** Cached hashes are right, and no two nodes have equal keys. */
  ghost predicate Unique(k: Keys, chains: seq<seq<Entry>>) {
    && (forall e :: Has(chains, e) ==> Times(chains, e) == 1 && e.khash == k.hash(e.item.key))
    && (forall e, f :: Has(chains, e) && Has(chains, f) && k.Same(e.item.key, f.item.key) ==> e == f)
  }

  /** In the map that the nodes stand for, the entry of `key` is `o`. */
  ghost predicate Shows(k: Keys, chains: seq<seq<Entry>>, key: nat, o: Option<Item>) {
    match o
    case Some(x) => Has(chains, Entry(x, k.hash(x.key))) && k.Same(key, x.key)
    case None => forall e :: Has(chains, e) ==> !k.Same(key, e.item.key)
  }

  ghost predicate Ok(k: Keys, t: Table) {
    && Shaped(t)
    && Placed(t.chains)
    && Unique(k, t.chains)
  }

  /**
   The reference meaning of a history, without buckets, chains or growth: the last
   request about a key decides.
   */
  function Latest(k: Keys, h: History, key: nat): Option<Item> {
    if h.Nothing? then None
    else
      var o := Latest(k, h.before, key);
      match h.last
      case Stored(x) => if k.Same(key, x.key) then Some(x) else o
      case Revalued(key', value, cleaner) =>
        if o.Some? && k.Same(key, key') then Some(Item(o.value.key, value, cleaner)) else o
      case Dropped(key') => if k.Same(key, key') then None else o
      case Cleared => None
  }

  ghost predicate Agrees(k: Keys, t: Table) {
    forall key :: Shows(k, t.chains, key, Latest(k, t.history, key))
  }

  /** The look-up of the code finds what the nodes show. */
  lemma {:induction false} LookupShows(k: Keys, t: Table, key: nat)
    requires k.Lawful() && Ok(k, t)
    ensures Shows(k, t.chains, key, Lookup(k, t, key))
  {
    var found := Find(k, t, key);
    if found.Some? {
      HasAt(t.chains, found.value);
    } else {
      forall e | Has(t.chains, e)
        ensures !k.Same(key, e.item.key)
      {
        var s := Locate(t.chains, e);
      }
    }
  }

  lemma {:induction false} ShowsOne(k: Keys, chains: seq<seq<Entry>>, key: nat, a: Option<Item>, b: Option<Item>)
    requires k.Lawful() && Unique(k, chains) && Shows(k, chains, key, a) && Shows(k, chains, key, b)
    ensures a == b
  {
    if a.Some? && b.Some? {
      assert k.Same(a.value.key, key) && k.Same(key, b.value.key);
    }
  }

  // ---------- one node changes ----------

  /** The nodes of `r` are those of `chains` with one node less and one more, if there is one. */
  ghost predicate Swapped(chains: seq<seq<Entry>>, r: seq<seq<Entry>>, was: Option<Entry>, now: Option<Entry>) {
    && (forall e :: Times(r, e) + (if was == Some(e) then 1 else 0)
          == Times(chains, e) + (if now == Some(e) then 1 else 0))
    && Size(r) + (if was.Some? then 1 else 0) == Size(chains) + (if now.Some? then 1 else 0)
  }

  lemma {:induction false} SetSwaps(chains: seq<seq<Entry>>, s: Spot, now: Entry)
    requires Points(chains, s)
    ensures Swapped(chains, SetAt(chains, s, now), Some(EntryAt(chains, s)), Some(now))
  {
    forall e {
      TotalSet(Is(e), chains, s, now);
    }
    TotalSet(e => 1, chains, s, now);
    SizeIsTotal(chains);
    SizeIsTotal(SetAt(chains, s, now));
  }

  lemma {:induction false} DropSwaps(chains: seq<seq<Entry>>, s: Spot)
    requires Points(chains, s)
    ensures Swapped(chains, DropAt(chains, s), Some(EntryAt(chains, s)), None)
  {
    forall e {
      TotalDrop(Is(e), chains, s);
    }
    TotalDrop(e => 1, chains, s);
    SizeIsTotal(chains);
    SizeIsTotal(DropAt(chains, s));
  }

  lemma {:induction false} PushSwaps(chains: seq<seq<Entry>>, now: Entry)
    requires |chains| > 0
    ensures Swapped(chains, Push(chains, now), None, Some(now))
  {
    forall e {
      TotalPush(Is(e), chains, now);
    }
    TotalPush(e => 1, chains, now);
    SizeIsTotal(chains);
    SizeIsTotal(Push(chains, now));
  }

  /** A node may go; one with an equal key, or a key that is not there, may come. */
  lemma {:induction false} SwapUnique(k: Keys, chains: seq<seq<Entry>>, r: seq<seq<Entry>>,
                                      was: Option<Entry>, now: Option<Entry>)
    requires k.Lawful() && Unique(k, chains) && Swapped(chains, r, was, now)
    requires was.Some? ==> Has(chains, was.value)
    requires now.Some? ==> now.value.khash == k.hash(now.value.item.key)
    requires now.Some? ==> forall e :: Has(chains, e) && k.Same(now.value.item.key, e.item.key) ==> was == Some(e)
    ensures Unique(k, r)
    ensures forall e :: Has(r, e) <==> now == Some(e) || (Has(chains, e) && was != Some(e))
  {
    if now.Some? {
      assert k.Same(now.value.item.key, now.value.item.key);
    }
    forall e
      ensures Has(r, e) <==> now == Some(e) || (Has(chains, e) && was != Some(e))
      ensures Times(r, e) <= 1
    {
      assert Has(chains, e) ==> Times(chains, e) == 1;
    }
  }

  lemma {:induction false} SetPlaced(chains: seq<seq<Entry>>, s: Spot, e: Entry)
    requires Points(chains, s) && Placed(chains) && e.khash == EntryAt(chains, s).khash
    ensures Placed(SetAt(chains, s, e))
  {
    var r := SetAt(chains, s, e);
    forall p: Spot | Points(r, p)
      ensures BucketOf(r, EntryAt(r, p).khash) == p.bucket
    {
      assert Points(chains, p);
    }
  }

  lemma {:induction false} DropPlaced(chains: seq<seq<Entry>>, s: Spot)
    requires Points(chains, s) && Placed(chains)
    ensures Placed(DropAt(chains, s))
  {
    var r := DropAt(chains, s);
    forall p: Spot | Points(r, p)
      ensures BucketOf(r, EntryAt(r, p).khash) == p.bucket
    {
      var q := if p.bucket == s.bucket && p.at >= s.at then Spot(p.bucket, p.at + 1) else p;
      assert Points(chains, q) && EntryAt(chains, q) == EntryAt(r, p);
    }
  }

  lemma {:induction false} PushPlaced(chains: seq<seq<Entry>>, e: Entry)
    requires |chains| > 0 && Placed(chains)
    ensures Placed(Push(chains, e))
  {
    var r := Push(chains, e);
    var b := BucketOf(chains, e.khash);
    forall p: Spot | Points(r, p)
      ensures BucketOf(r, EntryAt(r, p).khash) == p.bucket
    {
      if p.bucket != b {
        assert Points(chains, p);
      } else if p.at > 0 {
        assert Points(chains, Spot(b, p.at - 1));
      }
    }
  }

  lemma {:induction false} RelinkChainPlaced(chains: seq<seq<Entry>>, chain: seq<Entry>, i: nat)
    requires |chains| > 0 && i <= |chain| && Placed(chains)
    ensures Placed(RelinkChain(chains, chain, i))
    decreases |chain| - i
  {
    if i < |chain| {
      PushPlaced(chains, chain[i]);
      RelinkChainPlaced(Push(chains, chain[i]), chain, i + 1);
    }
  }

  lemma {:induction false} RelinkPlaced(chains: seq<seq<Entry>>, old': seq<seq<Entry>>, c: nat)
    requires |chains| > 0 && c <= |old'| && Placed(chains)
    ensures Placed(Relink(chains, old', c))
    decreases |old'| - c
  {
    if c < |old'| {
      RelinkChainPlaced(chains, old'[c], 0);
      RelinkPlaced(RelinkChain(chains, old'[c], 0), old', c + 1);
    }
  }

  // ---------- every operation keeps the invariant and the agreement ----------

  ghost predicate Good(k: Keys, t: Table) {
    Ok(k, t) && Agrees(k, t)
  }

  /** Overwriting the item of a node, with an equal key. */
  lemma {:induction false} SetGood(k: Keys, t: Table, s: Spot, x: Item, r: Table)
    requires k.Lawful() && Good(k, t) && Points(t.chains, s)
    requires k.Same(x.key, EntryAt(t.chains, s).item.key)
    requires r.chains == SetAt(t.chains, s, Entry(x, EntryAt(t.chains, s).khash))
    requires forall key ::
               Latest(k, r.history, key) == if k.Same(key, x.key) then Some(x) else Latest(k, t.history, key)
    ensures Good(k, r)
  {
    var was := EntryAt(t.chains, s);
    var now := Entry(x, was.khash);
    HasAt(t.chains, s);
    SetSwaps(t.chains, s, now);
    SetPlaced(t.chains, s, now);
    SwapUnique(k, t.chains, r.chains, Some(was), Some(now));
    forall key
      ensures Shows(k, r.chains, key, Latest(k, r.history, key))
    {
      assert Shows(k, t.chains, key, Latest(k, t.history, key));
    }
  }

  lemma {:induction false} ReplaceGood(k: Keys, t: Table, s: Spot, x: Item)
    requires k.Lawful() && Good(k, t) && Points(t.chains, s)
    requires k.Same(x.key, EntryAt(t.chains, s).item.key)
    ensures Good(k, Replace(t, s, x))
  {
    SetGood(k, t, s, x, Replace(t, s, x));
  }

  lemma {:induction false} PutValueGood(k: Keys, t: Table, s: Spot, value: nat, cleaner: nat)
    requires k.Lawful() && Good(k, t) && Points(t.chains, s)
    ensures Good(k, PutValue(t, s, value, cleaner))
  {
    var e := EntryAt(t.chains, s);
    var x := Item(e.item.key, value, cleaner);
    var r := PutValue(t, s, value, cleaner);
    HasAt(t.chains, s);
    forall key
      ensures Latest(k, r.history, key) == if k.Same(key, x.key) then Some(x) else Latest(k, t.history, key)
    {
      assert Shows(k, t.chains, key, Latest(k, t.history, key));
      if k.Same(key, x.key) {
        ShowsOne(k, t.chains, key, Latest(k, t.history, key), Some(e.item));
      }
    }
    SetGood(k, t, s, x, r);
  }

  lemma {:induction false} RemoveGood(k: Keys, t: Table, s: Spot)
    requires k.Lawful() && Good(k, t) && Points(t.chains, s)
    ensures Good(k, RemoveNode(t, s))
  {
    var r, was := RemoveNode(t, s), EntryAt(t.chains, s);
    HasAt(t.chains, s);
    DropSwaps(t.chains, s);
    DropPlaced(t.chains, s);
    SwapUnique(k, t.chains, r.chains, Some(was), None);
    forall key
      ensures Shows(k, r.chains, key, Latest(k, r.history, key))
    {
      var o := Latest(k, t.history, key);
      assert Shows(k, t.chains, key, o);
      if k.Same(key, was.item.key) {
        forall e | Has(r.chains, e)
          ensures !k.Same(key, e.item.key)
        {
          assert k.Same(key, e.item.key) ==> k.Same(e.item.key, was.item.key);
        }
      } else if o.Some? {
        assert Has(r.chains, Entry(o.value, k.hash(o.value.key)));
      }
    }
  }

  lemma {:induction false} InsertGood(k: Keys, t: Table, x: Item)
    requires k.Lawful() && Good(k, t) && forall e :: Has(t.chains, e) ==> !k.Same(x.key, e.item.key)
    ensures Good(k, Inserted(k, t, x))
  {
    var r, now := Inserted(k, t, x), Entry(x, k.hash(x.key));
    PushSwaps(t.chains, now);
    PushPlaced(t.chains, now);
    SwapUnique(k, t.chains, r.chains, None, Some(now));
    forall key
      ensures Shows(k, r.chains, key, Latest(k, r.history, key))
    {
      var o := Latest(k, t.history, key);
      assert Shows(k, t.chains, key, o);
      if k.Same(key, x.key) {
        assert Has(r.chains, now);
      } else if o.Some? {
        assert Has(r.chains, Entry(o.value, k.hash(o.value.key)));
      } else {
        forall e | Has(r.chains, e)
          ensures !k.Same(key, e.item.key)
        {
          assert e == now || Has(t.chains, e);
        }
      }
    }
  }

  lemma {:induction false} ResizeGood(k: Keys, t: Table, buckets: nat)
    requires Good(k, t) && 0 < buckets < WORD
    ensures Good(k, Resized(t, buckets))
    ensures forall e :: Times(Resized(t, buckets).chains, e) == Times(t.chains, e)
  {
    var r := Resized(t, buckets);
    forall e
      ensures Times(r.chains, e) == Times(t.chains, e)
    {
      TotalResized(Is(e), t, buckets);
    }
    RelinkPlaced(NoChains(buckets), t.chains, 0);
    forall key
      ensures Shows(k, r.chains, key, Latest(k, r.history, key))
    {
      assert Shows(k, t.chains, key, Latest(k, t.history, key));
    }
  }

  lemma {:induction false} PutGood(k: Keys, t: Table, x: Item, bucketsOk: bool, nodeOk: bool)
    requires k.Lawful() && Good(k, t)
    ensures Good(k, Put(k, t, x, bucketsOk, nodeOk).table)
  {
    var found := Find(k, t, x.key);
    if found.Some? {
      ReplaceGood(k, t, found.value, x);
    } else {
      LookupShows(k, t, x.key);
      if MustGrow(t) {
        ResizeGood(k, t, Grown(|t.chains|));
      }
      if nodeOk && (MustGrow(t) ==> bucketsOk) {
        InsertGood(k, if MustGrow(t) then Resized(t, Grown(|t.chains|)) else t, x);
      }
    }
  }

  lemma {:induction false} EmptyGood(k: Keys, t: Table)
    requires Shaped(t) && t.chains == NoChains(|t.chains|)
    requires forall key :: Latest(k, t.history, key).None?
    ensures Good(k, t)
  {
    forall e
      ensures !Has(t.chains, e)
    {
      TotalNone(Is(e), |t.chains|);
    }
  }

  lemma {:induction false} WalkGood(k: Keys, t: Table, f: nat -> Verdict, s: Spot, visited: seq<Entry>)
    requires k.Lawful() && Good(k, t)
    requires s.bucket <= |t.chains| && (s.bucket < |t.chains| ==> s.at <= |t.chains[s.bucket]|)
    ensures Good(k, WalkFrom(t, f, s, visited).table)
    decreases |t.chains| - s.bucket, if s.bucket < |t.chains| then |t.chains[s.bucket]| - s.at else 0
  {
    if s.bucket == |t.chains| {
    } else if s.at == |t.chains[s.bucket]| {
      WalkGood(k, t, f, Spot(s.bucket + 1, 0), visited);
    } else {
      var v := f(|visited|);
      var t1 := if v.remove then RemoveNode(t, s) else t;
      if v.remove {
        RemoveGood(k, t, s);
      }
      if v.running {
        WalkGood(k, t1, f, if v.remove then s else Spot(s.bucket, s.at + 1), visited + [EntryAt(t.chains, s)]);
      }
    }
  }

  lemma {:induction false} StepGood(k: Keys, t: Table, op: Op)
    requires k.Lawful() && Good(k, t)
    ensures Good(k, Step(k, t, op))
  {
    match op
    case PutOp(x, bucketsOk, nodeOk) => PutGood(k, t, x, bucketsOk, nodeOk);
    case PutValueOp(s, value, cleaner) =>
      if Points(t.chains, s) { PutValueGood(k, t, s, value, cleaner); }
    case RemoveOp(key) =>
      if Find(k, t, key).Some? { RemoveGood(k, t, Find(k, t, key).value); }
    case RemoveNodeOp(s) =>
      if Points(t.chains, s) { RemoveGood(k, t, s); }
    case ClearOp => EmptyGood(k, Clear(t));
    case WalkOp(f) => WalkGood(k, t, f, Spot(0, 0), []);
  }

  lemma {:induction false} RunGood(k: Keys, buckets: Int32, ops: seq<Op>)
    requires k.Lawful()
    ensures Good(k, Run(k, buckets, ops))
    decreases |ops|
  {
    if ops == [] {
      EmptyGood(k, Created(buckets));
    } else {
      RunGood(k, buckets, ops[..|ops| - 1]);
      StepGood(k, Run(k, buckets, ops[..|ops| - 1]), ops[|ops| - 1]);
    }
  }
}
