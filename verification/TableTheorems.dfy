/**
 The main results about the hash table, for every hash and comparison function that fit
 together, every sequence of calls and every pattern of allocation failures.
 */
module TableTheorems {
  import opened Options
  import opened TableModel
  import opened TableLaws

  // ---------- the count ----------

  predicate Counted(t: Table) {
    t.count == Wrap(Size(t.chains))
  }

  lemma {:induction false} ResizedSize(t: Table, buckets: nat)
    requires 0 < buckets < WORD
    ensures Size(Resized(t, buckets).chains) == Size(t.chains)
  {
    TotalResized(e => 1, t, buckets);
    SizeIsTotal(t.chains);
    SizeIsTotal(Resized(t, buckets).chains);
  }

  lemma {:induction false} NoneSize(n: nat)
    ensures Size(NoChains(n)) == 0
  {
    TotalNone(e => 1, n);
    SizeIsTotal(NoChains(n));
  }

  lemma {:induction false} DecWraps(n: nat)
    requires n > 0
    ensures Dec(Wrap(n)) == Wrap(n - 1)
  {
    IncWraps(n - 1);
  }

  lemma {:induction false} RemoveCounted(t: Table, s: Spot)
    requires Counted(t) && Points(t.chains, s)
    ensures Counted(RemoveNode(t, s))
  {
    DropSwaps(t.chains, s);
    DecWraps(Size(t.chains));
  }

  lemma {:induction false} PutCounted(k: Keys, t: Table, x: Item, bucketsOk: bool, nodeOk: bool)
    requires Shaped(t) && Counted(t)
    ensures Counted(Put(k, t, x, bucketsOk, nodeOk).table)
  {
    var found := Find(k, t, x.key);
    if found.Some? {
      SetSwaps(t.chains, found.value, Entry(x, EntryAt(t.chains, found.value).khash));
    } else {
      var t1 := if MustGrow(t) then Resized(t, Grown(|t.chains|)) else t;
      ResizedSize(t, Grown(|t.chains|));
      PushSwaps(t1.chains, Entry(x, k.hash(x.key)));
      IncWraps(Size(t.chains));
    }
  }

  lemma {:induction false} WalkCounted(t: Table, f: nat -> Verdict, s: Spot, visited: seq<Entry>)
    requires Counted(t)
    requires s.bucket <= |t.chains| && (s.bucket < |t.chains| ==> s.at <= |t.chains[s.bucket]|)
    ensures Counted(WalkFrom(t, f, s, visited).table)
    decreases |t.chains| - s.bucket, if s.bucket < |t.chains| then |t.chains[s.bucket]| - s.at else 0
  {
    if s.bucket == |t.chains| {
    } else if s.at == |t.chains[s.bucket]| {
      WalkCounted(t, f, Spot(s.bucket + 1, 0), visited);
    } else {
      var v := f(|visited|);
      var t1 := if v.remove then RemoveNode(t, s) else t;
      if v.remove {
        RemoveCounted(t, s);
      }
      if v.running {
        WalkCounted(t1, f, if v.remove then s else Spot(s.bucket, s.at + 1), visited + [EntryAt(t.chains, s)]);
      }
    }
  }

  lemma {:induction false} StepCounted(k: Keys, t: Table, op: Op)
    requires Shaped(t) && Counted(t)
    ensures Counted(Step(k, t, op))
  {
    match op
    case PutOp(x, bucketsOk, nodeOk) => PutCounted(k, t, x, bucketsOk, nodeOk);
    case PutValueOp(s, value, cleaner) =>
      if Points(t.chains, s) {
        var e := EntryAt(t.chains, s);
        SetSwaps(t.chains, s, e.(item := Item(e.item.key, value, cleaner)));
      }
    case RemoveOp(key) =>
      if Find(k, t, key).Some? { RemoveCounted(t, Find(k, t, key).value); }
    case RemoveNodeOp(s) =>
      if Points(t.chains, s) { RemoveCounted(t, s); }
    case ClearOp => NoneSize(|t.chains|);
    case WalkOp(f) => WalkCounted(t, f, Spot(0, 0), []);
  }

  lemma {:induction false} RunCounted(k: Keys, buckets: Int32, ops: seq<Op>)
    ensures Counted(Run(k, buckets, ops))
    decreases |ops|
  {
    if ops == [] {
      NoneSize(|Created(buckets).chains|);
    } else {
      RunCounted(k, buckets, ops[..|ops| - 1]);
      StepCounted(k, Run(k, buckets, ops[..|ops| - 1]), ops[|ops| - 1]);
    }
  }

  // ---------- a finite map modulo cmp ----------

  lemma {:induction false} SumTwice(f: Entry -> nat, chain: seq<Entry>, i: nat, j: nat)
    requires i < j < |chain|
    ensures Sum(f, chain) >= f(chain[i]) + f(chain[j])
  {
    SumAround(f, chain, i);
    SumAround(f, chain[i + 1..], j - i - 1);
  }

  lemma {:induction false} TotalTwice(f: Entry -> nat, chains: seq<seq<Entry>>, s: Spot, p: Spot)
    requires Points(chains, s) && Points(chains, p) && s != p
    ensures Total(f, chains) >= f(EntryAt(chains, s)) + f(EntryAt(chains, p))
  {
    var last := |chains| - 1;
    if s.bucket < last && p.bucket < last {
      TotalTwice(f, chains[..last], s, p);
    } else if s.bucket == last && p.bucket == last {
      if s.at < p.at { SumTwice(f, chains[last], s.at, p.at); } else { SumTwice(f, chains[last], p.at, s.at); }
    } else {
      var low, high := if s.bucket < last then s else p, if s.bucket < last then p else s;
      TotalOnce(f, chains[..last], low);
      SumAround(f, chains[last], high.at);
    }
  }

  lemma {:induction false} TotalOnce(f: Entry -> nat, chains: seq<seq<Entry>>, s: Spot)
    requires Points(chains, s)
    ensures Total(f, chains) >= f(EntryAt(chains, s))
  {
    var last := |chains| - 1;
    if s.bucket < last {
      TotalOnce(f, chains[..last], s);
    } else {
      SumAround(f, chains[last], s.at);
    }
  }

  /**
   Whatever was called, in whatever order and with whatever allocation failures: looking
   a key up gives the item that the last request about it left, `count` is the number of
   nodes in 32 bits, every node hangs where its hash says, and no two nodes have equal keys.
   */
  lemma {:induction false} EveryRunIsAMap(k: Keys, buckets: Int32, ops: seq<Op>)
    requires k.Lawful()
    ensures var t := Run(k, buckets, ops);
            && (forall key :: Lookup(k, t, key) == Latest(k, t.history, key))
            && t.count == Wrap(Size(t.chains)) && Placed(t.chains)
            && forall s, p ::
                 (Points(t.chains, s) && Points(t.chains, p)
                  && k.Same(EntryAt(t.chains, s).item.key, EntryAt(t.chains, p).item.key)) ==> s == p
  {
    var t := Run(k, buckets, ops);
    RunGood(k, buckets, ops);
    RunCounted(k, buckets, ops);
    forall key
      ensures Lookup(k, t, key) == Latest(k, t.history, key)
    {
      LookupShows(k, t, key);
      ShowsOne(k, t.chains, key, Lookup(k, t, key), Latest(k, t.history, key));
    }
    forall s, p | Points(t.chains, s) && Points(t.chains, p)
      && k.Same(EntryAt(t.chains, s).item.key, EntryAt(t.chains, p).item.key)
      ensures s == p
    {
      HasAt(t.chains, s);
      HasAt(t.chains, p);
      if s != p {
        TotalTwice(Is(EntryAt(t.chains, s)), t.chains, s, p);
      }
    }
  }

  /** A put that fails, even after it has grown the table, leaves the map and the nodes as they were. */
  lemma {:induction false} FailedPutInvisible(k: Keys, t: Table, x: Item, bucketsOk: bool, nodeOk: bool)
    requires k.Lawful() && Good(k, t)
    ensures var r := Put(k, t, x, bucketsOk, nodeOk);
            && (r.ok <==> Lookup(k, t, x.key).Some? || (nodeOk && (MustGrow(t) ==> bucketsOk)))
            && (!r.ok ==>
                  && r.table.calls == t.calls && r.table.count == t.count
                  && (forall e :: Times(r.table.chains, e) == Times(t.chains, e))
                  && (forall key :: Lookup(k, r.table, key) == Lookup(k, t, key)))
  {
    var r := Put(k, t, x, bucketsOk, nodeOk);
    if !r.ok {
      ResizeGood(k, t, Grown(|t.chains|));
      PutGood(k, t, x, bucketsOk, nodeOk);
      forall key
        ensures Lookup(k, r.table, key) == Lookup(k, t, key)
      {
        LookupShows(k, t, key);
        LookupShows(k, r.table, key);
        ShowsOne(k, t.chains, key, Lookup(k, t, key), Lookup(k, r.table, key));
      }
    }
  }

  // ---------- the load bound and the cost of growing ----------

  /** The next growth, if it is due, does not wrap the 32-bit product it is decided by. */
  predicate Roomy(t: Table) {
    t.count < Threshold(|t.chains|) || 2 * Wrap(|t.chains| * 3) + 3 < WORD
  }

  predicate Loaded(t: Table) {
    t.count == Size(t.chains) && t.count <= Threshold(|t.chains|)
  }

  function Above(t: Table): nat {
    if t.count < t.base then 0 else t.count - t.base
  }

  /** Each node beyond the size at the last growth has saved up for two relinkings. */
  predicate Amortized(t: Table) {
    && Loaded(t)
    && t.relinked + 2 * Above(t) <= 2 * t.inserted
    && 2 * t.base <= Threshold(|t.chains|)
  }

  lemma {:induction false} GrownThreshold(b: nat)
    requires b < WORD
    ensures Wrap(Grown(b) * 3) == Wrap(2 * Wrap(b * 3) + 3)
  {
    WrapIsMod(b * 2 + 1);
    WrapIsMod(b * 3);
    WrapIsMod(Grown(b) * 3);
    WrapIsMod(2 * Wrap(b * 3) + 3);
  }

  lemma {:induction false} ProductNotZero(b: nat)
    requires 0 < b < WORD
    ensures Wrap(b * 3) != 0
  {
    WrapIsMod(b * 3);
  }

  /** Within the load bound nothing wraps but the product, and growth is due exactly at the bound. */
  lemma {:induction false} DueAtBound(t: Table)
    requires Loaded(t)
    ensures Inc(t.count) == t.count + 1
    ensures MustGrow(t) <==> t.count == Threshold(|t.chains|)
  {
  }

  /** Growing makes room for twice as many, and one more, exactly if the table is roomy. */
  lemma {:induction false} GrowthDoubles(t: Table)
    requires Shaped(t) && Loaded(t) && t.count == Threshold(|t.chains|)
    ensures var room := Threshold(Grown(|t.chains|));
            if Roomy(t) then 2 * t.count <= room && t.count < room else room <= t.count
  {
    GrownThreshold(|t.chains|);
    ProductNotZero(|t.chains|);
  }

  /** A put of a new key that finds all the memory it needs. */
  lemma {:induction false} PutNew(k: Keys, t: Table, x: Item)
    requires Shaped(t) && Loaded(t) && Find(k, t, x.key).None?
    ensures var r, grown := Put(k, t, x, true, true).table, t.count == Threshold(|t.chains|);
            && r.count == Size(r.chains) == t.count + 1 && r.inserted == t.inserted + 1
            && |r.chains| == (if grown then Grown(|t.chains|) else |t.chains|)
            && r.relinked == (if grown then t.relinked + t.count else t.relinked)
            && r.base == (if grown then t.count else t.base)
  {
    DueAtBound(t);
    var t1 := if MustGrow(t) then Resized(t, Grown(|t.chains|)) else t;
    ResizedSize(t, Grown(|t.chains|));
    PushSwaps(t1.chains, Entry(x, k.hash(x.key)));
  }

  /**
   When a new key is put into a table within its load bound, the bound holds afterwards
   if and only if the table was roomy: the product that decides about growth must not
   wrap again right after growing.
   */
  lemma {:induction false} LoadBoundKeptIffRoomy(k: Keys, t: Table, x: Item)
    requires Shaped(t) && Loaded(t) && Find(k, t, x.key).None?
    ensures Loaded(Put(k, t, x, true, true).table) <==> Roomy(t)
  {
    PutNew(k, t, x);
    if t.count == Threshold(|t.chains|) {
      GrowthDoubles(t);
    }
  }

  /** Half a billion entries, less one, are few enough, whatever the number of buckets. */
  lemma {:induction false} RoomyWhenFew(t: Table)
    ensures t.count < 0x1FFF_FFFF ==> Roomy(t)
    ensures (2 * |t.chains| + 1) * 3 < WORD ==> Roomy(t)
  {
  }

  /** Every put of the run finds a roomy table. */
  predicate AlwaysRoomy(k: Keys, buckets: Int32, ops: seq<Op>)
    decreases |ops|
  {
    ops == [] || (
      && AlwaysRoomy(k, buckets, ops[..|ops| - 1])
      && (ops[|ops| - 1].PutOp? ==> Roomy(Run(k, buckets, ops[..|ops| - 1]))))
  }

  lemma {:induction false} PutNewAmortized(k: Keys, t: Table, x: Item)
    requires Shaped(t) && Amortized(t) && Roomy(t) && Find(k, t, x.key).None?
    ensures Amortized(Put(k, t, x, true, true).table)
  {
    PutNew(k, t, x);
    if t.count == Threshold(|t.chains|) {
      GrowthDoubles(t);
    }
  }

  /** A failed put may still have grown the table. */
  lemma {:induction false} GrowAmortized(t: Table)
    requires Shaped(t) && Amortized(t) && Roomy(t) && MustGrow(t)
    ensures Amortized(Resized(t, Grown(|t.chains|)))
  {
    DueAtBound(t);
    GrowthDoubles(t);
    ResizedSize(t, Grown(|t.chains|));
  }

  lemma {:induction false} PutAmortized(k: Keys, t: Table, x: Item, bucketsOk: bool, nodeOk: bool)
    requires Shaped(t) && Amortized(t) && Roomy(t)
    ensures Amortized(Put(k, t, x, bucketsOk, nodeOk).table)
  {
    var found := Find(k, t, x.key);
    if found.Some? {
      SetSwaps(t.chains, found.value, Entry(x, EntryAt(t.chains, found.value).khash));
    } else if nodeOk && (MustGrow(t) ==> bucketsOk) {
      PutNewAmortized(k, t, x);
    } else if MustGrow(t) {
      GrowAmortized(t);
    }
  }

  lemma {:induction false} RemoveAmortized(t: Table, s: Spot)
    requires Amortized(t) && Points(t.chains, s)
    ensures Amortized(RemoveNode(t, s))
  {
    DropSwaps(t.chains, s);
  }

  lemma {:induction false} WalkAmortized(t: Table, f: nat -> Verdict, s: Spot, visited: seq<Entry>)
    requires Amortized(t)
    requires s.bucket <= |t.chains| && (s.bucket < |t.chains| ==> s.at <= |t.chains[s.bucket]|)
    ensures Amortized(WalkFrom(t, f, s, visited).table)
    decreases |t.chains| - s.bucket, if s.bucket < |t.chains| then |t.chains[s.bucket]| - s.at else 0
  {
    if s.bucket == |t.chains| {
    } else if s.at == |t.chains[s.bucket]| {
      WalkAmortized(t, f, Spot(s.bucket + 1, 0), visited);
    } else {
      var v := f(|visited|);
      var t1 := if v.remove then RemoveNode(t, s) else t;
      if v.remove {
        RemoveAmortized(t, s);
      }
      if v.running {
        WalkAmortized(t1, f, if v.remove then s else Spot(s.bucket, s.at + 1), visited + [EntryAt(t.chains, s)]);
      }
    }
  }

  lemma {:induction false} StepAmortized(k: Keys, t: Table, op: Op)
    requires Shaped(t) && Amortized(t) && (op.PutOp? ==> Roomy(t))
    ensures Amortized(Step(k, t, op))
  {
    match op
    case PutOp(x, bucketsOk, nodeOk) => PutAmortized(k, t, x, bucketsOk, nodeOk);
    case PutValueOp(s, value, cleaner) =>
      if Points(t.chains, s) {
        var e := EntryAt(t.chains, s);
        SetSwaps(t.chains, s, e.(item := Item(e.item.key, value, cleaner)));
      }
    case RemoveOp(key) =>
      if Find(k, t, key).Some? { RemoveAmortized(t, Find(k, t, key).value); }
    case RemoveNodeOp(s) =>
      if Points(t.chains, s) { RemoveAmortized(t, s); }
    case ClearOp => NoneSize(|t.chains|);
    case WalkOp(f) => WalkAmortized(t, f, Spot(0, 0), []);
  }

  /**
   A table that is always roomy never holds more entries than its threshold, and all its
   growing together has relinked at most two nodes for each entry ever inserted.
   */
  lemma {:induction false} EveryRunIsAmortized(k: Keys, buckets: Int32, ops: seq<Op>)
    requires AlwaysRoomy(k, buckets, ops)
    ensures var t := Run(k, buckets, ops);
            && Amortized(t) && t.relinked <= 2 * t.inserted
            && t.count <= Threshold(|t.chains|) && t.count == Size(t.chains) && 4 * t.count <= 3 * |t.chains|
    decreases |ops|
  {
    WrapIsMod(|Run(k, buckets, ops).chains| * 3);
    if ops == [] {
      NoneSize(|Created(buckets).chains|);
    } else {
      EveryRunIsAmortized(k, buckets, ops[..|ops| - 1]);
      StepAmortized(k, Run(k, buckets, ops[..|ops| - 1]), ops[|ops| - 1]);
    }
  }

  /** How many puts there are among the calls. */
  function PutCount(ops: seq<Op>): nat {
    if ops == [] then 0 else PutCount(ops[..|ops| - 1]) + if ops[|ops| - 1].PutOp? then 1 else 0
  }

  lemma {:induction false} WalkShrinks(t: Table, f: nat -> Verdict, s: Spot, visited: seq<Entry>)
    requires s.bucket <= |t.chains| && (s.bucket < |t.chains| ==> s.at <= |t.chains[s.bucket]|)
    ensures Size(WalkFrom(t, f, s, visited).table.chains) <= Size(t.chains)
    decreases |t.chains| - s.bucket, if s.bucket < |t.chains| then |t.chains[s.bucket]| - s.at else 0
  {
    if s.bucket == |t.chains| {
    } else if s.at == |t.chains[s.bucket]| {
      WalkShrinks(t, f, Spot(s.bucket + 1, 0), visited);
    } else {
      var v := f(|visited|);
      var t1 := if v.remove then RemoveNode(t, s) else t;
      if v.remove {
        DropSwaps(t.chains, s);
      }
      if v.running {
        WalkShrinks(t1, f, if v.remove then s else Spot(s.bucket, s.at + 1), visited + [EntryAt(t.chains, s)]);
      }
    }
  }

  lemma {:induction false} StepSize(k: Keys, t: Table, op: Op)
    requires Shaped(t)
    ensures Size(Step(k, t, op).chains) <= Size(t.chains) + if op.PutOp? then 1 else 0
  {
    match op
    case PutOp(x, bucketsOk, nodeOk) =>
      var found := Find(k, t, x.key);
      if found.Some? {
        SetSwaps(t.chains, found.value, Entry(x, EntryAt(t.chains, found.value).khash));
      } else {
        ResizedSize(t, Grown(|t.chains|));
        var t1 := if MustGrow(t) then Resized(t, Grown(|t.chains|)) else t;
        PushSwaps(t1.chains, Entry(x, k.hash(x.key)));
      }
    case PutValueOp(s, value, cleaner) =>
      if Points(t.chains, s) {
        var e := EntryAt(t.chains, s);
        SetSwaps(t.chains, s, e.(item := Item(e.item.key, value, cleaner)));
      }
    case RemoveOp(key) =>
      if Find(k, t, key).Some? { DropSwaps(t.chains, Find(k, t, key).value); }
    case RemoveNodeOp(s) =>
      if Points(t.chains, s) { DropSwaps(t.chains, s); }
    case ClearOp => NoneSize(|t.chains|);
    case WalkOp(f) => WalkShrinks(t, f, Spot(0, 0), []);
  }

  lemma {:induction false} SizeWithinPuts(k: Keys, buckets: Int32, ops: seq<Op>)
    ensures Size(Run(k, buckets, ops).chains) <= PutCount(ops)
    decreases |ops|
  {
    if ops == [] {
      NoneSize(|Created(buckets).chains|);
    } else {
      SizeWithinPuts(k, buckets, ops[..|ops| - 1]);
      StepSize(k, Run(k, buckets, ops[..|ops| - 1]), ops[|ops| - 1]);
    }
  }

  /** For the caller: at most 0x1FFF_FFFF puts, whatever else is called, always find a roomy table. */
  lemma {:induction false} FewPutsAlwaysRoomy(k: Keys, buckets: Int32, ops: seq<Op>)
    requires PutCount(ops) <= 0x1FFF_FFFF
    ensures AlwaysRoomy(k, buckets, ops)
    decreases |ops|
  {
    if ops != [] {
      var before := ops[..|ops| - 1];
      var t := Run(k, buckets, before);
      FewPutsAlwaysRoomy(k, buckets, before);
      SizeWithinPuts(k, buckets, before);
      RunCounted(k, buckets, before);
      RoomyWhenFew(t);
    }
  }

  // ---------- a run in which the bound fails ----------

  const PLAIN := Keys(x => x, (a, b) => a - b)

  /** Puts the keys 1 to n. */
  function Puts(n: nat): seq<Op> {
    seq(n, i requires i >= 0 => PutOp(Item(i + 1, 1, 0), true, true))
  }

  /** The table with `b` buckets after these puts. */
  function Filled(b: Int32, n: nat): (t: Table)
    ensures Shaped(t)
  {
    Run(PLAIN, b, Puts(n))
  }

  /** `n` entries, and none of them for a key above `n`. */
  ghost predicate Upto(t: Table, n: nat) {
    Loaded(t) && t.count == n && forall key :: key > n ==> Latest(PLAIN, t.history, key).None?
  }

  lemma {:induction false} FilledNext(b: Int32, n: nat)
    ensures var x := Item(n + 1, 1, 0);
            Filled(b, n + 1) == Put(PLAIN, Filled(b, n), x, true, true).table
  {
    assert Puts(n + 1)[..n] == Puts(n);
  }

  lemma {:induction false} NextIsNew(b: Int32, n: nat)
    requires Upto(Filled(b, n), n)
    ensures Find(PLAIN, Filled(b, n), n + 1).None?
  {
    var t := Filled(b, n);
    RunGood(PLAIN, b, Puts(n));
    LookupShows(PLAIN, t, n + 1);
    ShowsOne(PLAIN, t.chains, n + 1, Lookup(PLAIN, t, n + 1), Latest(PLAIN, t.history, n + 1));
  }

  lemma {:induction false} PutsFit(b: Int32, n: nat)
    requires b > 0 && n <= Threshold(b)
    ensures Upto(Filled(b, n), n) && |Filled(b, n).chains| == b
  {
    if n == 0 {
      NoneSize(b);
    } else {
      PutsFit(b, n - 1);
      FilledNext(b, n - 1);
      NextIsNew(b, n - 1);
      PutNew(PLAIN, Filled(b, n - 1), Item(n, 1, 0));
    }
  }

  /**
   A new table filled with one entry more than its threshold is within its new threshold
   if and only if the number of buckets asked for keeps the next product from wrapping.
   */
  lemma {:induction false} FilledPastBoundIff(b: Int32)
    requires b > 0
    ensures Loaded(Filled(b, Threshold(b) + 1)) <==> 2 * Wrap(b * 3) + 3 < WORD
  {
    var n := Threshold(b);
    PutsFit(b, n);
    FilledNext(b, n);
    NextIsNew(b, n);
    LoadBoundKeptIffRoomy(PLAIN, Filled(b, n), Item(n + 1, 1, 0));
  }

  /** The first number of buckets for which it fails. */
  lemma {:induction false} LoadBoundFails() returns (b: Int32)
    ensures b == 715827883 && !Loaded(Filled(b, Threshold(b) + 1))
  {
    b := 715827883;
    FilledPastBoundIff(b);
  }

  // ---------- cleaners ----------

  /** A value together with the cleaner it was stored with. */
  datatype Charge = Charge(cleaner: nat, value: nat)

  function Holds(d: Charge): Entry -> nat {
    (e: Entry) => if e.item.cleaner == d.cleaner && e.item.value == d.value then 1 else 0
  }

  /** How often `d` was stored. */
  function StoredTimes(h: History, d: Charge): nat {
    if h.Nothing? then 0
    else
      StoredTimes(h.before, d) +
      match h.last
      case Stored(x) => if Charge(x.cleaner, x.value) == d then 1 else 0
      case Revalued(_, value, cleaner) => if Charge(cleaner, value) == d then 1 else 0
      case _ => 0
  }

  /** How often the cleaner of `d` was called on the value of `d`. */
  function CalledTimes(calls: seq<Call>, d: Charge): nat {
    if calls == [] then 0
    else
      var last := calls[|calls| - 1];
      CalledTimes(calls[..|calls| - 1], d) + if Charge(last.cleaner, last.value) == d then 1 else 0
  }

  lemma {:induction false} CalledOne(calls: seq<Call>, more: seq<Call>, d: Charge)
    requires |more| <= 1
    ensures CalledTimes(calls + more, d) ==
            CalledTimes(calls, d) + if more != [] && Charge(more[0].cleaner, more[0].value) == d then 1 else 0
  {
    if more == [] {
      assert calls + more == calls;
    } else {
      assert (calls + more)[..|calls + more| - 1] == calls;
    }
  }

  lemma {:induction false} FarewellCalled(calls: seq<Call>, e: Entry, d: Charge)
    requires d.cleaner != 0
    ensures CalledTimes(calls + Farewell(e), d) == CalledTimes(calls, d) + Holds(d)(e)
  {
    CalledOne(calls, Farewell(e), d);
  }

  lemma {:induction false} SumNext(f: Entry -> nat, chain: seq<Entry>, i: nat)
    requires i < |chain|
    ensures Sum(f, chain[..i + 1]) == Sum(f, chain[..i]) + f(chain[i])
  {
    assert chain[..i + 1][..i] == chain[..i];
  }

  lemma {:induction false} ChainCalls(calls: seq<Call>, chain: seq<Entry>, i: nat, d: Charge)
    requires i <= |chain| && d.cleaner != 0
    ensures CalledTimes(FarewellChain(calls, chain, i), d) + Sum(Holds(d), chain[..i])
         == CalledTimes(calls, d) + Sum(Holds(d), chain)
    decreases |chain| - i
  {
    if i < |chain| {
      FarewellCalled(calls, chain[i], d);
      SumNext(Holds(d), chain, i);
      ChainCalls(calls + Farewell(chain[i]), chain, i + 1, d);
    } else {
      assert chain[..i] == chain;
    }
  }

  lemma {:induction false} AllCalls(calls: seq<Call>, chains: seq<seq<Entry>>, c: nat, d: Charge)
    requires c <= |chains| && d.cleaner != 0
    ensures CalledTimes(FarewellAll(calls, chains, c), d) + Total(Holds(d), chains[..c])
         == CalledTimes(calls, d) + Total(Holds(d), chains)
    decreases |chains| - c
  {
    if c < |chains| {
      ChainCalls(calls, chains[c], 0, d);
      assert chains[c][..0] == [];
      AllCalls(FarewellChain(calls, chains[c], 0), chains, c + 1, d);
      TotalTake(Holds(d), chains, c);
    } else {
      assert chains[..c] == chains;
    }
  }

  /** Everything stored has been cleaned, is still held, or is one of `n` that were forgotten. */
  predicate Settled(t: Table, d: Charge, n: nat) {
    CalledTimes(t.calls, d) + Total(Holds(d), t.chains) + n == StoredTimes(t.history, d)
  }

  /** The node-value setter overwrites a NULL value stored with a cleaner, and calls nobody. */
  function Forgotten(t: Table, op: Op, d: Charge): nat {
    if op.PutValueOp? && Points(t.chains, op.spot) && d.value == 0
    then Holds(d)(EntryAt(t.chains, op.spot)) else 0
  }

  function SilentOverwrites(k: Keys, buckets: Int32, ops: seq<Op>, d: Charge): nat
    decreases |ops|
  {
    if ops == [] then 0
    else
      var before := ops[..|ops| - 1];
      SilentOverwrites(k, buckets, before, d) + Forgotten(Run(k, buckets, before), ops[|ops| - 1], d)
  }

  lemma {:induction false} ReplaceCalls(t: Table, s: Spot, x: Item, d: Charge)
    requires Points(t.chains, s) && d.cleaner != 0
    ensures CalledTimes(Replace(t, s, x).calls, d) == CalledTimes(t.calls, d) + Holds(d)(EntryAt(t.chains, s))
  {
    var e := EntryAt(t.chains, s).item;
    CalledOne(t.calls, if e.cleaner == 0 then [] else [Call(e.cleaner, true, e.key != x.key, e.key, e.value)], d);
  }

  lemma {:induction false} ReplaceSettled(t: Table, s: Spot, x: Item, d: Charge, n: nat)
    requires Points(t.chains, s) && Settled(t, d, n) && d.cleaner != 0
    ensures Settled(Replace(t, s, x), d, n)
  {
    TotalSet(Holds(d), t.chains, s, Entry(x, EntryAt(t.chains, s).khash));
    ReplaceCalls(t, s, x, d);
  }

  lemma {:induction false} PutSettled(k: Keys, t: Table, x: Item, bucketsOk: bool, nodeOk: bool,
                                      d: Charge, n: nat)
    requires Shaped(t) && Settled(t, d, n) && d.cleaner != 0
    ensures Settled(Put(k, t, x, bucketsOk, nodeOk).table, d, n)
  {
    var found := Find(k, t, x.key);
    if found.Some? {
      ReplaceSettled(t, found.value, x, d, n);
    } else {
      TotalResized(Holds(d), t, Grown(|t.chains|));
      var t1 := if MustGrow(t) then Resized(t, Grown(|t.chains|)) else t;
      TotalPush(Holds(d), t1.chains, Entry(x, k.hash(x.key)));
    }
  }

  /** The node-value setter calls the old cleaner, or forgets. */
  lemma {:induction false} PutValueCalls(t: Table, s: Spot, value: nat, cleaner: nat, d: Charge)
    requires Points(t.chains, s) && d.cleaner != 0
    ensures CalledTimes(PutValue(t, s, value, cleaner).calls, d) + Forgotten(t, PutValueOp(s, value, cleaner), d)
         == CalledTimes(t.calls, d) + Holds(d)(EntryAt(t.chains, s))
  {
    var e := EntryAt(t.chains, s).item;
    CalledOne(t.calls, if e.value == 0 || e.cleaner == 0 then []
                       else [Call(e.cleaner, true, false, e.key, e.value)], d);
  }

  lemma {:induction false} PutValueSettled(t: Table, s: Spot, value: nat, cleaner: nat, d: Charge, n: nat)
    requires Points(t.chains, s) && Settled(t, d, n) && d.cleaner != 0
    ensures Settled(PutValue(t, s, value, cleaner), d, n + Forgotten(t, PutValueOp(s, value, cleaner), d))
  {
    var e := EntryAt(t.chains, s);
    TotalSet(Holds(d), t.chains, s, e.(item := Item(e.item.key, value, cleaner)));
    PutValueCalls(t, s, value, cleaner, d);
  }

  lemma {:induction false} RemoveSettled(t: Table, s: Spot, d: Charge, n: nat)
    requires Points(t.chains, s) && Settled(t, d, n) && d.cleaner != 0
    ensures Settled(RemoveNode(t, s), d, n)
  {
    TotalDrop(Holds(d), t.chains, s);
    FarewellCalled(t.calls, EntryAt(t.chains, s), d);
  }

  lemma {:induction false} WalkSettled(t: Table, f: nat -> Verdict, s: Spot, visited: seq<Entry>,
                                       d: Charge, n: nat)
    requires Settled(t, d, n) && d.cleaner != 0
    requires s.bucket <= |t.chains| && (s.bucket < |t.chains| ==> s.at <= |t.chains[s.bucket]|)
    ensures Settled(WalkFrom(t, f, s, visited).table, d, n)
    decreases |t.chains| - s.bucket, if s.bucket < |t.chains| then |t.chains[s.bucket]| - s.at else 0
  {
    if s.bucket == |t.chains| {
    } else if s.at == |t.chains[s.bucket]| {
      WalkSettled(t, f, Spot(s.bucket + 1, 0), visited, d, n);
    } else {
      var v := f(|visited|);
      var t1 := if v.remove then RemoveNode(t, s) else t;
      if v.remove {
        RemoveSettled(t, s, d, n);
      }
      if v.running {
        WalkSettled(t1, f, if v.remove then s else Spot(s.bucket, s.at + 1), visited + [EntryAt(t.chains, s)], d, n);
      }
    }
  }

  lemma {:induction false} StepSettled(k: Keys, t: Table, op: Op, d: Charge, n: nat)
    requires Shaped(t) && Settled(t, d, n) && d.cleaner != 0
    ensures Settled(Step(k, t, op), d, n + Forgotten(t, op, d))
  {
    match op
    case PutOp(x, bucketsOk, nodeOk) => PutSettled(k, t, x, bucketsOk, nodeOk, d, n);
    case PutValueOp(s, value, cleaner) =>
      if Points(t.chains, s) { PutValueSettled(t, s, value, cleaner, d, n); }
    case RemoveOp(key) =>
      if Find(k, t, key).Some? { RemoveSettled(t, Find(k, t, key).value, d, n); }
    case RemoveNodeOp(s) =>
      if Points(t.chains, s) { RemoveSettled(t, s, d, n); }
    case ClearOp =>
      AllCalls(t.calls, t.chains, 0, d);
      TotalNone(Holds(d), |t.chains|);
    case WalkOp(f) => WalkSettled(t, f, Spot(0, 0), [], d, n);
  }

  lemma {:induction false} RunSettled(k: Keys, buckets: Int32, ops: seq<Op>, d: Charge)
    requires d.cleaner != 0
    ensures Settled(Run(k, buckets, ops), d, SilentOverwrites(k, buckets, ops, d))
    decreases |ops|
  {
    if ops == [] {
      TotalNone(Holds(d), |Created(buckets).chains|);
    } else {
      var before := ops[..|ops| - 1];
      RunSettled(k, buckets, before, d);
      StepSettled(k, Run(k, buckets, before), ops[|ops| - 1], d, SilentOverwrites(k, buckets, before, d));
    }
  }

  /**
   The whole account over the life of a table that ends in destroy, NULL values included:
   a cleaner is called on a value once for each time they were stored together, but for
   the NULL values that the node-value setter overwrote.
   */
  lemma {:induction false} EachStoreAccountedFor(k: Keys, buckets: Int32, ops: seq<Op>, d: Charge)
    requires d.cleaner != 0
    ensures var t := Run(k, buckets, ops);
            CalledTimes(Destroyed(t).calls, d) + SilentOverwrites(k, buckets, ops, d) == StoredTimes(t.history, d)
  {
    var t := Run(k, buckets, ops);
    RunSettled(k, buckets, ops, d);
    AllCalls(t.calls, t.chains, 0, d);
  }

  lemma {:induction false} NoneForgotten(k: Keys, buckets: Int32, ops: seq<Op>, d: Charge)
    requires d.value != 0
    ensures SilentOverwrites(k, buckets, ops, d) == 0
    decreases |ops|
  {
    if ops != [] {
      NoneForgotten(k, buckets, ops[..|ops| - 1], d);
    }
  }

  /** A value that is not NULL is cleaned exactly as often as it was stored with a cleaner. */
  lemma {:induction false} EachStoreCleanedOnce(k: Keys, buckets: Int32, ops: seq<Op>, d: Charge)
    requires d.cleaner != 0 && d.value != 0
    ensures var t := Run(k, buckets, ops);
            CalledTimes(Destroyed(t).calls, d) == StoredTimes(t.history, d)
  {
    EachStoreAccountedFor(k, buckets, ops, d);
    NoneForgotten(k, buckets, ops, d);
  }

  /** What the i-th call forgets. */
  function ForgottenAt(k: Keys, buckets: Int32, ops: seq<Op>, i: nat, d: Charge): nat
    requires i < |ops|
  {
    Forgotten(Run(k, buckets, ops[..i]), ops[i], d)
  }

  /**
   Over a whole life, every store with a cleaner is cleaned, even of NULL, if and only if
   the node-value setter never overwrites a NULL that was stored with it.
   */
  lemma {:induction false} NullOverwrittenSilently(k: Keys, buckets: Int32, ops: seq<Op>, cleaner: nat)
    requires cleaner != 0
    ensures var t, d := Run(k, buckets, ops), Charge(cleaner, 0);
            CalledTimes(Destroyed(t).calls, d) == StoredTimes(t.history, d) <==>
            forall i :: 0 <= i < |ops| ==> ForgottenAt(k, buckets, ops, i, d) == 0
  {
    EachStoreAccountedFor(k, buckets, ops, Charge(cleaner, 0));
    ForgottenNever(k, buckets, ops, Charge(cleaner, 0));
  }

  lemma {:induction false} ForgottenNever(k: Keys, buckets: Int32, ops: seq<Op>, d: Charge)
    ensures SilentOverwrites(k, buckets, ops, d) == 0 <==>
            forall i :: 0 <= i < |ops| ==> ForgottenAt(k, buckets, ops, i, d) == 0
    decreases |ops|
  {
    if ops != [] {
      var n := |ops| - 1;
      var before := ops[..n];
      ForgottenNever(k, buckets, before, d);
      forall i | 0 <= i < n
        ensures ForgottenAt(k, buckets, before, i, d) == ForgottenAt(k, buckets, ops, i, d)
      {
        assert before[..i] == ops[..i] && before[i] == ops[i];
      }
      assert SilentOverwrites(k, buckets, ops, d)
          == SilentOverwrites(k, buckets, before, d) + ForgottenAt(k, buckets, ops, n, d);
    }
  }

  // ---------- destroy_key ----------

  ghost predicate KeyIn(chains: seq<seq<Entry>>, key: nat) {
    exists e :: Has(chains, e) && e.item.key == key
  }

  /** The map still has an entry for this key. */
  ghost predicate SameIn(k: Keys, chains: seq<seq<Entry>>, key: nat) {
    exists e :: Has(chains, e) && k.Same(e.item.key, key)
  }

  ghost predicate ItemIn(chains: seq<seq<Entry>>, x: Item) {
    exists e :: Has(chains, e) && e.item == x
  }

  /** The call is about what `t` held, and says truly whether the key pointer left, and whether the key did. */
  ghost predicate TrueCall(k: Keys, t: Table, r: Table, c: Call) {
    && c.cleaner != 0 && ItemIn(t.chains, Item(c.key, c.value, c.cleaner))
    && (c.destroyKey <==> !KeyIn(r.chains, c.key))
    && (c.replace <==> SameIn(k, r.chains, c.key))
  }

  /** Each cleaner call made on the way from `t` to `r` tells the truth. */
  ghost predicate Truthful(k: Keys, t: Table, r: Table) {
    && t.calls <= r.calls
    && forall i :: |t.calls| <= i < |r.calls| ==> TrueCall(k, t, r, r.calls[i])
  }

  lemma {:induction false} SetTruthful(k: Keys, t: Table, s: Spot, x: Item, r: Table)
    requires k.Lawful() && Ok(k, t) && Points(t.chains, s)
    requires var e := EntryAt(t.chains, s).item;
             && k.Same(x.key, e.key)
             && (r.calls == t.calls ||
                 (e.cleaner != 0 && r.calls == t.calls + [Call(e.cleaner, true, e.key != x.key, e.key, e.value)]))
    requires r.chains == SetAt(t.chains, s, Entry(x, EntryAt(t.chains, s).khash))
    ensures Truthful(k, t, r)
  {
    var was := EntryAt(t.chains, s);
    var now := Entry(x, was.khash);
    HasAt(t.chains, s);
    SetSwaps(t.chains, s, now);
    SwapUnique(k, t.chains, r.chains, Some(was), Some(now));
    assert ItemIn(t.chains, was.item);
    assert Has(r.chains, now) && SameIn(k, r.chains, was.item.key);
    if x.key == was.item.key {
      assert KeyIn(r.chains, was.item.key);
    } else {
      forall e | Has(r.chains, e)
        ensures e.item.key != was.item.key
      {
        assert k.Same(was.item.key, was.item.key);
      }
    }
  }

  /** Every node of `r` is one of `t`. */
  ghost predicate Within(r: seq<seq<Entry>>, t: seq<seq<Entry>>) {
    forall e :: Has(r, e) ==> Has(t, e)
  }

  lemma {:induction false} RemoveTruthful(k: Keys, t: Table, s: Spot)
    requires k.Lawful() && Ok(k, t) && Points(t.chains, s)
    ensures Truthful(k, t, RemoveNode(t, s)) && Within(RemoveNode(t, s).chains, t.chains)
  {
    var was, r := EntryAt(t.chains, s), RemoveNode(t, s);
    HasAt(t.chains, s);
    DropSwaps(t.chains, s);
    SwapUnique(k, t.chains, r.chains, Some(was), None);
    assert ItemIn(t.chains, was.item);
    forall e | Has(r.chains, e)
      ensures Has(t.chains, e) && !k.Same(e.item.key, was.item.key) && e.item.key != was.item.key
    {
      assert k.Same(was.item.key, was.item.key);
      assert k.Same(e.item.key, was.item.key) ==> e == was;
    }
  }

  /** The cleaner calls for these entries, one after the other. */
  function Partings(es: seq<Entry>): seq<Call> {
    if es == [] then []
    else
      var x := es[0].item;
      (if x.cleaner == 0 then [] else [Call(x.cleaner, false, true, x.key, x.value)]) + Partings(es[1..])
  }

  lemma {:induction false} PartingsConcat(a: seq<Entry>, b: seq<Entry>)
    ensures Partings(a + b) == Partings(a) + Partings(b)
    decreases |a|
  {
    if a == [] {
      assert a + b == b;
    } else {
      assert (a + b)[1..] == a[1..] + b;
      PartingsConcat(a[1..], b);
    }
  }

  lemma {:induction false} ChainPartings(calls: seq<Call>, chain: seq<Entry>, i: nat)
    requires i <= |chain|
    ensures FarewellChain(calls, chain, i) == calls + Partings(chain[i..])
    decreases |chain| - i
  {
    if i < |chain| {
      ChainPartings(calls + Farewell(chain[i]), chain, i + 1);
      assert chain[i..][1..] == chain[i + 1..];
    }
  }

  lemma {:induction false} AllPartings(calls: seq<Call>, chains: seq<seq<Entry>>, c: nat)
    requires c <= |chains|
    ensures FarewellAll(calls, chains, c) == calls + Partings(Flat(chains, c))
    decreases |chains| - c
  {
    if c < |chains| {
      ChainPartings(calls, chains[c], 0);
      assert chains[c][0..] == chains[c];
      AllPartings(FarewellChain(calls, chains[c], 0), chains, c + 1);
      PartingsConcat(chains[c], Flat(chains, c + 1));
    }
  }

  /** Clear and destroy call the cleaners in the order in which first and next enumerate the table. */
  lemma {:induction false} CleanedInListedOrder(t: Table)
    ensures var listed := Listing(t.chains, FirstFrom(t.chains, 0));
            && Clear(t).calls == t.calls + Partings(listed)
            && Destroyed(t).calls == t.calls + Partings(listed)
  {
    AllPartings(t.calls, t.chains, 0);
    FirstListing(t.chains, 0);
  }

  lemma {:induction false} PartingOf(es: seq<Entry>, i: nat) returns (j: nat)
    requires i < |Partings(es)|
    ensures j < |es| && es[j].item.cleaner != 0
    ensures var x := es[j].item; Partings(es)[i] == Call(x.cleaner, false, true, x.key, x.value)
  {
    if es[0].item.cleaner == 0 {
      j := PartingOf(es[1..], i);
      j := j + 1;
    } else if i == 0 {
      j := 0;
    } else {
      j := PartingOf(es[1..], i - 1);
      j := j + 1;
    }
  }

  lemma {:induction false} FlatHas(chains: seq<seq<Entry>>, e: Entry)
    ensures e in Flat(chains, 0) ==> Has(chains, e)
  {
    FlatTimes(chains, 0, e);
    SumHas(Flat(chains, 0), e);
    assert chains[..0] == [];
  }

  /** All nodes leave at once. */
  lemma {:induction false} FarewellsTruthful(k: Keys, t: Table, r: Table)
    requires r.calls == FarewellAll(t.calls, t.chains, 0) && forall e :: !Has(r.chains, e)
    ensures Truthful(k, t, r)
  {
    var es := Flat(t.chains, 0);
    AllPartings(t.calls, t.chains, 0);
    forall i | |t.calls| <= i < |r.calls|
      ensures TrueCall(k, t, r, r.calls[i])
    {
      var j := PartingOf(es, i - |t.calls|);
      FlatHas(t.chains, es[j]);
      assert ItemIn(t.chains, es[j].item);
    }
  }

  lemma {:induction false} TruthfulLater(k: Keys, t: Table, t1: Table, r: Table)
    requires Truthful(k, t, t1) && Truthful(k, t1, r) && Within(t1.chains, t.chains) && Within(r.chains, t1.chains)
    requires forall i :: |t.calls| <= i < |t1.calls| ==> !t1.calls[i].replace && t1.calls[i].destroyKey
    ensures Truthful(k, t, r)
  {
    forall i | |t.calls| <= i < |r.calls|
      ensures TrueCall(k, t, r, r.calls[i])
    {
      var c := r.calls[i];
      if i < |t1.calls| {
        assert c == t1.calls[i] && TrueCall(k, t, t1, c);
        assert KeyIn(r.chains, c.key) ==> KeyIn(t1.chains, c.key);
        assert SameIn(k, r.chains, c.key) ==> SameIn(k, t1.chains, c.key);
      } else {
        assert TrueCall(k, t1, r, c);
      }
    }
  }

  lemma {:induction false} WalkTruthful(k: Keys, t: Table, f: nat -> Verdict, s: Spot, visited: seq<Entry>)
    requires k.Lawful() && Good(k, t)
    requires s.bucket <= |t.chains| && (s.bucket < |t.chains| ==> s.at <= |t.chains[s.bucket]|)
    ensures var r := WalkFrom(t, f, s, visited).table; Truthful(k, t, r) && Within(r.chains, t.chains)
    decreases |t.chains| - s.bucket, if s.bucket < |t.chains| then |t.chains[s.bucket]| - s.at else 0
  {
    if s.bucket == |t.chains| {
    } else if s.at == |t.chains[s.bucket]| {
      WalkTruthful(k, t, f, Spot(s.bucket + 1, 0), visited);
    } else {
      var v := f(|visited|);
      var t1 := if v.remove then RemoveNode(t, s) else t;
      if v.remove {
        RemoveGood(k, t, s);
        RemoveTruthful(k, t, s);
      }
      if v.running {
        WalkTruthful(k, t1, f, if v.remove then s else Spot(s.bucket, s.at + 1), visited + [EntryAt(t.chains, s)]);
        TruthfulLater(k, t, t1, WalkFrom(t, f, s, visited).table);
      }
    }
  }

  /**
   Every cleaner call made by an operation is about an entry that the table held.  Its
   destroy_key argument is true exactly if the key pointer is gone when the operation
   ends, and its replace argument exactly if there still is an entry for the key.  The
   same holds of the calls that destroy makes.
   */
  lemma {:induction false} DestroyKeyIffKeyLeaves(k: Keys, t: Table, op: Op)
    requires k.Lawful() && Good(k, t)
    ensures Truthful(k, t, Step(k, t, op)) && Truthful(k, t, Destroyed(t))
  {
    FarewellsTruthful(k, t, Destroyed(t));
    match op
    case PutOp(x, bucketsOk, nodeOk) =>
      var found := Find(k, t, x.key);
      if found.Some? { SetTruthful(k, t, found.value, x, Replace(t, found.value, x)); }
    case PutValueOp(s, value, cleaner) =>
      if Points(t.chains, s) {
        SetTruthful(k, t, s, Item(EntryAt(t.chains, s).item.key, value, cleaner), PutValue(t, s, value, cleaner));
      }
    case RemoveOp(key) =>
      if Find(k, t, key).Some? { RemoveTruthful(k, t, Find(k, t, key).value); }
    case RemoveNodeOp(s) =>
      if Points(t.chains, s) { RemoveTruthful(k, t, s); }
    case ClearOp =>
      forall e {
        TotalNone(Is(e), |t.chains|);
      }
      FarewellsTruthful(k, t, Clear(t));
    case WalkOp(f) => WalkTruthful(k, t, f, Spot(0, 0), []);
  }

  // ---------- enumeration ----------

  /** All nodes in bucket order, from bucket `c` on. */
  function Flat(chains: seq<seq<Entry>>, c: nat): seq<Entry>
    requires c <= |chains|
    decreases |chains| - c
  {
    if c == |chains| then [] else chains[c] + Flat(chains, c + 1)
  }

  /** What is left to visit at `s`. */
  function Rest(chains: seq<seq<Entry>>, s: Spot): seq<Entry>
    requires s.bucket <= |chains| && (s.bucket < |chains| ==> s.at <= |chains[s.bucket]|)
  {
    if s.bucket == |chains| then [] else chains[s.bucket][s.at..] + Flat(chains, s.bucket + 1)
  }

  lemma {:induction false} FirstListing(chains: seq<seq<Entry>>, b: nat)
    requires b <= |chains|
    ensures Listing(chains, FirstFrom(chains, b)) == Flat(chains, b)
    decreases |chains| - b, 0
  {
    if b < |chains| {
      if chains[b] != [] {
        var s := Spot(b, 0);
        assert FirstFrom(chains, b) == Some(s);
        assert Rest(chains, s) == Flat(chains, b) by {
          assert chains[b][0..] == chains[b];
        }
        ListingRest(chains, s);
      } else {
        FirstListing(chains, b + 1);
      }
    }
  }

  lemma {:induction false} ListingRest(chains: seq<seq<Entry>>, s: Spot)
    requires Points(chains, s)
    ensures Listing(chains, Some(s)) == Rest(chains, s)
    decreases |chains| - s.bucket, 0, |chains[s.bucket]| - s.at
  {
    var chain := chains[s.bucket];
    assert chain[s.at..] == [chain[s.at]] + chain[s.at + 1..];
    if s.at + 1 < |chain| {
      ListingRest(chains, Spot(s.bucket, s.at + 1));
    } else {
      FirstListing(chains, s.bucket + 1);
      assert chain[s.at + 1..] == [];
    }
  }

  /** The prefix of `rest` that a walk takes: up to the first call that says stop. */
  function Taken(f: nat -> Verdict, rest: seq<Entry>, n: nat): seq<Entry> {
    if rest == [] then []
    else [rest[0]] + if f(n).running then Taken(f, rest[1..], n + 1) else []
  }

  /** The entries that the walk function removed. */
  function Removed(f: nat -> Verdict, taken: seq<Entry>, n: nat): seq<Entry> {
    if taken == [] then []
    else (if f(n).remove then [taken[0]] else []) + Removed(f, taken[1..], n + 1)
  }

  lemma {:induction false} FlatAfter(chains: seq<seq<Entry>>, b: nat, chain: seq<Entry>, c: nat)
    requires b < c <= |chains|
    ensures Flat(chains[b := chain], c) == Flat(chains, c)
    decreases |chains| - c
  {
    if c < |chains| {
      FlatAfter(chains, b, chain, c + 1);
    }
  }

  lemma {:induction false} RestNext(t: Table, s: Spot)
    requires Points(t.chains, s)
    ensures var rest := Rest(t.chains, s);
            && rest != [] && rest[0] == EntryAt(t.chains, s)
            && Rest(t.chains, Spot(s.bucket, s.at + 1)) == rest[1..]
            && Rest(RemoveNode(t, s).chains, s) == rest[1..]
  {
    var chain, r := t.chains[s.bucket], RemoveNode(t, s).chains;
    FlatAfter(t.chains, s.bucket, r[s.bucket], s.bucket + 1);
    assert chain[s.at..] == [chain[s.at]] + chain[s.at + 1..];
    assert r[s.bucket][s.at..] == chain[s.at + 1..];
  }

  /** The nodes of `t` are those of `r` and those in `gone`. */
  ghost predicate Without(t: Table, r: Table, gone: seq<Entry>) {
    forall e :: Times(r.chains, e) + Sum(Is(e), gone) == Times(t.chains, e)
  }

  /** One turn of the walk: the node is visited, and perhaps removed. */
  lemma {:induction false} TurnVisits(t: Table, v: Verdict, s: Spot)
    requires Points(t.chains, s)
    ensures var t1 := if v.remove then RemoveNode(t, s) else t;
            var s1 := if v.remove then s else Spot(s.bucket, s.at + 1);
            var rest := Rest(t.chains, s);
            && rest == [EntryAt(t.chains, s)] + Rest(t1.chains, s1)
            && Without(t, t1, if v.remove then [EntryAt(t.chains, s)] else [])
  {
    RestNext(t, s);
    var rest := Rest(t.chains, s);
    assert rest == [rest[0]] + rest[1..];
    if v.remove {
      DropSwaps(t.chains, s);
      forall e {
        SumOne(Is(e), EntryAt(t.chains, s));
      }
    }
  }

  /** The walk `w` took `taken` and removed `gone`. */
  ghost predicate Took(t: Table, visited: seq<Entry>, w: Walk, taken: seq<Entry>, gone: seq<Entry>) {
    w.visited == visited + taken && Without(t, w.table, gone)
  }

  lemma {:induction false} TookMore(t: Table, t1: Table, visited: seq<Entry>, w: Walk, e: Entry,
                                    more: seq<Entry>, a: seq<Entry>, b: seq<Entry>)
    requires Without(t, t1, a) && Took(t1, visited + [e], w, more, b)
    ensures Took(t, visited, w, [e] + more, a + b)
  {
    forall e {
      SumConcat(Is(e), a, b);
    }
    assert visited + [e] + more == visited + ([e] + more);
  }

  lemma {:induction false} WalkTook(t: Table, f: nat -> Verdict, s: Spot, visited: seq<Entry>)
    requires s.bucket <= |t.chains| && (s.bucket < |t.chains| ==> s.at <= |t.chains[s.bucket]|)
    ensures var taken := Taken(f, Rest(t.chains, s), |visited|);
            Took(t, visited, WalkFrom(t, f, s, visited), taken, Removed(f, taken, |visited|))
    decreases |t.chains| - s.bucket, if s.bucket < |t.chains| then |t.chains[s.bucket]| - s.at else 0
  {
    if s.bucket == |t.chains| {
    } else if s.at == |t.chains[s.bucket]| {
      WalkTook(t, f, Spot(s.bucket + 1, 0), visited);
      RestOver(t.chains, s);
    } else {
      var v, e := f(|visited|), EntryAt(t.chains, s);
      var t1 := if v.remove then RemoveNode(t, s) else t;
      var s1 := if v.remove then s else Spot(s.bucket, s.at + 1);
      var seen := visited + [e];
      TurnVisits(t, v, s);
      var rest := Rest(t1.chains, s1);
      var more := if v.running then Taken(f, rest, |seen|) else [];
      TakenStep(f, e, rest, |visited|, |seen|);
      var w := WalkFrom(t, f, s, visited);
      if v.running {
        WalkTook(t1, f, s1, seen);
      } else {
        assert w == Walk(t1, seen) && seen + [] == seen;
      }
      TookMore(t, t1, visited, w, e, more, if v.remove then [e] else [], Removed(f, more, |seen|));
    }
  }

  /** At the end of a chain the walk goes on with the next bucket. */
  lemma {:induction false} RestOver(chains: seq<seq<Entry>>, s: Spot)
    requires s.bucket < |chains| && s.at == |chains[s.bucket]|
    ensures Rest(chains, s) == Rest(chains, Spot(s.bucket + 1, 0))
  {
    assert chains[s.bucket][s.at..] == [];
    if s.bucket + 1 < |chains| {
      assert chains[s.bucket + 1][0..] == chains[s.bucket + 1];
    }
  }

  lemma {:induction false} TakenStep(f: nat -> Verdict, e: Entry, rest: seq<Entry>, n: nat, next: nat)
    requires next == n + 1
    ensures var more := if f(n).running then Taken(f, rest, next) else [];
            && Taken(f, [e] + rest, n) == [e] + more
            && Removed(f, [e] + more, n) == (if f(n).remove then [e] else []) + Removed(f, more, next)
  {
    var more := if f(n).running then Taken(f, rest, next) else [];
    assert ([e] + rest)[1..] == rest && ([e] + more)[1..] == more;
  }

  lemma {:induction false} TakenIsPrefix(f: nat -> Verdict, rest: seq<Entry>, n: nat)
    ensures var taken := Taken(f, rest, n);
            && taken <= rest
            && (forall i: nat :: n <= i < n + |taken| - 1 ==> f(i).running)
            && (taken == rest || (taken != [] && !f(n + |taken| - 1).running))
    decreases |rest|
  {
    if rest != [] && f(n).running {
      TakenIsPrefix(f, rest[1..], n + 1);
      var tail := Taken(f, rest[1..], n + 1);
      assert rest == [rest[0]] + rest[1..];
      assert n + 1 + |tail| - 1 == n + |Taken(f, rest, n)| - 1;
    }
  }

  lemma {:induction false} FlatTimes(chains: seq<seq<Entry>>, c: nat, e: Entry)
    requires c <= |chains|
    ensures Sum(Is(e), Flat(chains, c)) + Times(chains[..c], e) == Times(chains, e)
    decreases |chains| - c
  {
    if c < |chains| {
      FlatTimes(chains, c + 1, e);
      SumConcat(Is(e), chains[c], Flat(chains, c + 1));
      TotalTake(Is(e), chains, c);
    } else {
      assert chains[..c] == chains;
    }
  }

  /**
   A walk visits, in the order that first and next enumerate the table, a prefix that
   ends at the first call that says stop; its removals do not make it miss or repeat
   anything, and what is left are the nodes it did not remove.
   */
  lemma {:induction false} WalkFollowsFirstAndNext(t: Table, f: nat -> Verdict)
    ensures var w := WalkFrom(t, f, Spot(0, 0), []);
            var listed := Listing(t.chains, FirstFrom(t.chains, 0));
            && w.visited <= listed
            && (forall i: nat :: i < |w.visited| - 1 ==> f(i).running)
            && (w.visited == listed || (w.visited != [] && !f(|w.visited| - 1).running))
            && Without(t, w.table, Removed(f, w.visited, 0))
            && (forall e :: Sum(Is(e), listed) == Times(t.chains, e))
  {
    var listed := Listing(t.chains, FirstFrom(t.chains, 0));
    FirstListing(t.chains, 0);
    WalkTook(t, f, Spot(0, 0), []);
    assert Rest(t.chains, Spot(0, 0)) == Flat(t.chains, 0) by {
      if t.chains != [] {
        assert t.chains[0][0..] == t.chains[0];
      }
    }
    var taken := Taken(f, listed, 0);
    assert [] + taken == taken;
    TakenIsPrefix(f, listed, 0);
    forall e
      ensures Sum(Is(e), listed) == Times(t.chains, e)
    {
      FlatTimes(t.chains, 0, e);
      assert t.chains[..0] == [];
    }
  }

  // ---------- what each call does to the map ----------

  /** Was a node with an equal key removed? */
  ghost predicate Gone(k: Keys, removed: seq<Entry>, key: nat) {
    exists e :: e in removed && k.Same(key, e.item.key)
  }

  /** What the caller of `op` may expect to find under `key` afterwards. */
  ghost function MapAfter(k: Keys, t: Table, op: Op, key: nat): Option<Item>
    requires Shaped(t)
  {
    var before := Lookup(k, t, key);
    match op
    case PutOp(x, bucketsOk, nodeOk) =>
      if Put(k, t, x, bucketsOk, nodeOk).ok && k.Same(key, x.key) then Some(x) else before
    case PutValueOp(s, value, cleaner) =>
      if Points(t.chains, s) && k.Same(key, EntryAt(t.chains, s).item.key)
      then Some(Item(EntryAt(t.chains, s).item.key, value, cleaner)) else before
    case RemoveOp(key') => if k.Same(key, key') then None else before
    case RemoveNodeOp(s) =>
      if Points(t.chains, s) && k.Same(key, EntryAt(t.chains, s).item.key) then None else before
    case ClearOp => None
    case WalkOp(f) =>
      if Gone(k, Removed(f, WalkFrom(t, f, Spot(0, 0), []).visited, 0), key) then None else before
  }

  lemma {:induction false} LookupIsLatest(k: Keys, t: Table, key: nat)
    requires k.Lawful() && Good(k, t)
    ensures Lookup(k, t, key) == Latest(k, t.history, key)
  {
    LookupShows(k, t, key);
    ShowsOne(k, t.chains, key, Lookup(k, t, key), Latest(k, t.history, key));
  }

  /** A walk leaves the nodes it did not remove. */
  lemma {:induction false} WalkLeaves(k: Keys, t: Table, f: nat -> Verdict, e: Entry)
    requires Ok(k, t)
    ensures var w := WalkFrom(t, f, Spot(0, 0), []);
            var removed := Removed(f, w.visited, 0);
            && (Has(w.table.chains, e) <==> Has(t.chains, e) && e !in removed)
            && (e in removed ==> Has(t.chains, e))
  {
    var w := WalkFrom(t, f, Spot(0, 0), []);
    WalkFollowsFirstAndNext(t, f);
    assert Without(t, w.table, Removed(f, w.visited, 0));
    SumHas(Removed(f, w.visited, 0), e);
    assert Has(t.chains, e) ==> Times(t.chains, e) == 1;
  }

  lemma {:induction false} LeftShows(k: Keys, t: Table, r: Table, removed: seq<Entry>, key: nat)
    requires k.Lawful() && Good(k, t) && Ok(k, r)
    requires forall e :: Has(r.chains, e) <==> Has(t.chains, e) && e !in removed
    requires forall e :: e in removed ==> Has(t.chains, e)
    ensures Lookup(k, r, key) == if Gone(k, removed, key) then None else Lookup(k, t, key)
  {
    LookupShows(k, t, key);
    LookupShows(k, r, key);
    if Gone(k, removed, key) {
      var e :| e in removed && k.Same(key, e.item.key);
      forall d | Has(r.chains, d)
        ensures !k.Same(key, d.item.key)
      {
        assert k.Same(key, d.item.key) ==> k.Same(d.item.key, e.item.key);
      }
      ShowsOne(k, r.chains, key, None, Lookup(k, r, key));
    } else {
      assert Shows(k, r.chains, key, Lookup(k, t, key));
      ShowsOne(k, r.chains, key, Lookup(k, t, key), Lookup(k, r, key));
    }
  }

  lemma {:induction false} WalkMap(k: Keys, t: Table, f: nat -> Verdict, key: nat)
    requires k.Lawful() && Good(k, t)
    ensures Lookup(k, Step(k, t, WalkOp(f)), key) == MapAfter(k, t, WalkOp(f), key)
  {
    var w := WalkFrom(t, f, Spot(0, 0), []);
    WalkGood(k, t, f, Spot(0, 0), []);
    forall e
      ensures Has(w.table.chains, e) <==> Has(t.chains, e) && e !in Removed(f, w.visited, 0)
      ensures e in Removed(f, w.visited, 0) ==> Has(t.chains, e)
    {
      WalkLeaves(k, t, f, e);
    }
    LeftShows(k, t, w.table, Removed(f, w.visited, 0), key);
  }

  lemma {:induction false} PutValueMap(k: Keys, t: Table, s: Spot, value: nat, cleaner: nat, key: nat)
    requires k.Lawful() && Good(k, t) && Points(t.chains, s)
    ensures Latest(k, PutValue(t, s, value, cleaner).history, key) == MapAfter(k, t, PutValueOp(s, value, cleaner), key)
  {
    LookupIsLatest(k, t, key);
    LookupShows(k, t, key);
    HasAt(t.chains, s);
    var x := EntryAt(t.chains, s).item;
    if k.Same(key, x.key) {
      ShowsOne(k, t.chains, key, Lookup(k, t, key), Some(x));
    }
  }

  lemma {:induction false} PutMap(k: Keys, t: Table, x: Item, bucketsOk: bool, nodeOk: bool, key: nat)
    requires k.Lawful() && Good(k, t)
    ensures Latest(k, Put(k, t, x, bucketsOk, nodeOk).table.history, key)
         == MapAfter(k, t, PutOp(x, bucketsOk, nodeOk), key)
  {
    LookupIsLatest(k, t, key);
  }

  lemma {:induction false} RemoveMap(k: Keys, t: Table, key': nat, key: nat)
    requires k.Lawful() && Good(k, t)
    ensures Latest(k, Remove(k, t, key').history, key) == MapAfter(k, t, RemoveOp(key'), key)
  {
    LookupIsLatest(k, t, key);
    LookupShows(k, t, key);
    LookupShows(k, t, key');
    var found := Find(k, t, key');
    if found.Some? {
      var key'' := EntryAt(t.chains, found.value).item.key;
      assert k.Same(key', key'') && (k.Same(key, key') <==> k.Same(key, key'')) by {
        assert k.Same(key'', key') && (k.Same(key, key') ==> k.Same(key, key''));
      }
    } else if k.Same(key, key') {
      assert k.Same(key', key);
      assert Shows(k, t.chains, key, None);
      ShowsOne(k, t.chains, key, Lookup(k, t, key), None);
    }
  }

  lemma {:induction false} RemoveNodeMap(k: Keys, t: Table, s: Spot, key: nat)
    requires k.Lawful() && Good(k, t) && Points(t.chains, s)
    ensures Latest(k, RemoveNode(t, s).history, key) == MapAfter(k, t, RemoveNodeOp(s), key)
  {
    LookupIsLatest(k, t, key);
  }

  lemma {:induction false} StepMap(k: Keys, t: Table, op: Op, key: nat)
    requires k.Lawful() && Good(k, t) && !op.WalkOp?
    ensures Latest(k, Step(k, t, op).history, key) == MapAfter(k, t, op, key)
  {
    LookupIsLatest(k, t, key);
    match op
    case PutOp(x, bucketsOk, nodeOk) => PutMap(k, t, x, bucketsOk, nodeOk, key);
    case PutValueOp(s, value, cleaner) =>
      if Points(t.chains, s) { PutValueMap(k, t, s, value, cleaner, key); }
    case RemoveOp(key') => RemoveMap(k, t, key', key);
    case RemoveNodeOp(s) =>
      if Points(t.chains, s) { RemoveNodeMap(k, t, s, key); }
    case ClearOp =>
  }

  /**
   Every call is the update of a map modulo cmp that its caller asked for, and leaves all
   other keys alone; growing the table on the way shows nowhere.
   */
  lemma {:induction false} EveryCallUpdatesTheMap(k: Keys, t: Table, op: Op, key: nat)
    requires k.Lawful() && Good(k, t)
    ensures Lookup(k, Step(k, t, op), key) == MapAfter(k, t, op, key)
  {
    if op.WalkOp? {
      WalkMap(k, t, op.f, key);
    } else {
      StepGood(k, t, op);
      StepMap(k, t, op, key);
      LookupIsLatest(k, Step(k, t, op), key);
    }
  }
}
