/**
 The chained hash table of src/ls_htable.c on values.

 Pointers are natural numbers with 0 for NULL; a table is the sequence of its bucket
 chains.  `hash` and `cmp` are whatever the creator of the table passed in.  Each
 allocation is told by the caller whether it succeeds.
 */
module TableModel {
  import opened Options

  /** Int and unsigned int have 32 bits. */
  const WORD := 0x1_0000_0000
  type Int32 = n: int | -0x8000_0000 <= n < 0x8000_0000
  const DEFAULT_BUCKETS := 509

  /** The low 32 bits. */
  function Wrap(n: nat): (r: nat)
    ensures r < WORD
  {
    if n < WORD then n else Wrap(n - WORD)
  }

  lemma {:induction false} WrapIsMod(n: nat)
    ensures Wrap(n) == n % WORD
  {
    if n >= WORD {
      WrapIsMod(n - WORD);
    }
  }

  /** `++` and `--` on an unsigned int. */
  function Inc(n: nat): nat {
    if n + 1 == WORD then 0 else n + 1
  }

  function Dec(n: nat): nat {
    if n == 0 then WORD - 1 else n - 1
  }

  lemma {:induction false} IncWraps(n: nat)
    ensures Inc(Wrap(n)) == Wrap(n + 1)
  {
    if n >= WORD {
      IncWraps(n - WORD);
    }
  }

  datatype Keys = Keys(hash: nat -> nat, cmp: (nat, nat) -> int) {
    predicate Same(a: nat, b: nat) {
      cmp(a, b) == 0
    }

    /** What the creator of a table owes: an equivalence that the hash respects. */
    ghost predicate Lawful() {
      && (forall a :: Same(a, a))
      && (forall a, b :: Same(a, b) ==> Same(b, a) && hash(a) == hash(b))
      && (forall a, b, c :: Same(a, b) && Same(b, c) ==> Same(a, c))
    }
  }

  datatype Item = Item(key: nat, value: nat, cleaner: nat)

  /** A node: its item and the cached hash of the key. */
  datatype Entry = Entry(item: Item, khash: nat)

  /** One call of a cleaner. */
  datatype Call = Call(cleaner: nat, replace: bool, destroyKey: bool, key: nat, value: nat)

  /** The requests that took effect, latest outermost. */
  datatype Change =
    | Stored(item: Item)
    | Revalued(key: nat, value: nat, cleaner: nat)
    | Dropped(key: nat)
    | Cleared

  datatype History = Nothing | Then(before: History, last: Change)

  /** `inserted` and `relinked` count nodes; `base` is the size at the last resize. */
  datatype Table = Table(chains: seq<seq<Entry>>, count: nat, calls: seq<Call>, history: History,
                         inserted: nat, relinked: nat, base: nat)

  /** A node is known by its bucket and its place in the chain. */
  datatype Spot = Spot(bucket: nat, at: nat)

  /** The bucket count is an unsigned int and never 0. */
  predicate Shaped(t: Table) {
    0 < |t.chains| < WORD
  }

  predicate Points(chains: seq<seq<Entry>>, s: Spot) {
    s.bucket < |chains| && s.at < |chains[s.bucket]|
  }

  function EntryAt(chains: seq<seq<Entry>>, s: Spot): Entry
    requires Points(chains, s)
  {
    chains[s.bucket][s.at]
  }

  function Created(buckets: Int32): (t: Table)
    ensures Shaped(t)
  {
    Table(NoChains(if buckets <= 0 then DEFAULT_BUCKETS else buckets), 0, [], Nothing, 0, 0, 0)
  }

  function NoChains(n: nat): seq<seq<Entry>> {
    seq(n, _ => [])
  }

  // ---------- look-up ----------

  predicate Matches(k: Keys, e: Entry, key: nat, khash: nat) {
    khash == e.khash && k.Same(key, e.item.key)
  }

  function FindFrom(k: Keys, chain: seq<Entry>, key: nat, khash: nat, i: nat): (r: nat)
    requires i <= |chain|
    ensures i <= r <= |chain|
    ensures r < |chain| ==> Matches(k, chain[r], key, khash)
    ensures forall j :: i <= j < r ==> !Matches(k, chain[j], key, khash)
    decreases |chain| - i
  {
    if i == |chain| || Matches(k, chain[i], key, khash) then i else FindFrom(k, chain, key, khash, i + 1)
  }

  function BucketOf(chains: seq<seq<Entry>>, khash: nat): (b: nat)
    requires |chains| > 0
    ensures b < |chains|
  {
    khash % |chains|
  }

  /** `_find_node`. */
  function Find(k: Keys, t: Table, key: nat): (r: Option<Spot>)
    requires Shaped(t)
    ensures r.Some? ==> Points(t.chains, r.value) && Matches(k, EntryAt(t.chains, r.value), key, k.hash(key))
  {
    var b := BucketOf(t.chains, k.hash(key));
    var i := FindFrom(k, t.chains[b], key, k.hash(key), 0);
    if i < |t.chains[b]| then Some(Spot(b, i)) else None
  }

  /** What a caller sees under `key`. */
  function Lookup(k: Keys, t: Table, key: nat): Option<Item>
    requires Shaped(t)
  {
    match Find(k, t, key)
    case None => None
    case Some(s) => Some(EntryAt(t.chains, s).item)
  }

  // ---------- changing one node ----------

  function SetAt(chains: seq<seq<Entry>>, s: Spot, e: Entry): seq<seq<Entry>>
    requires Points(chains, s)
  {
    chains[s.bucket := chains[s.bucket][s.at := e]]
  }

  function DropAt(chains: seq<seq<Entry>>, s: Spot): seq<seq<Entry>>
    requires Points(chains, s)
  {
    chains[s.bucket := chains[s.bucket][..s.at] + chains[s.bucket][s.at + 1..]]
  }

  function Push(chains: seq<seq<Entry>>, e: Entry): (r: seq<seq<Entry>>)
    requires |chains| > 0
    ensures |r| == |chains|
  {
    var b := BucketOf(chains, e.khash);
    chains[b := [e] + chains[b]]
  }

  function Replace(t: Table, s: Spot, x: Item): Table
    requires Points(t.chains, s)
  {
    var e := EntryAt(t.chains, s);
    t.(chains := SetAt(t.chains, s, Entry(x, e.khash)),
       calls := t.calls + (if e.item.cleaner == 0 then []
                           else [Call(e.item.cleaner, true, e.item.key != x.key, e.item.key, e.item.value)]),
       history := Then(t.history, Stored(x)))
  }

  /** `ls_hnode_put_value`. */
  function PutValue(t: Table, s: Spot, value: nat, cleaner: nat): Table
    requires Points(t.chains, s)
  {
    var e := EntryAt(t.chains, s);
    t.(chains := SetAt(t.chains, s, e.(item := Item(e.item.key, value, cleaner))),
       calls := t.calls + (if e.item.value == 0 || e.item.cleaner == 0 then []
                           else [Call(e.item.cleaner, true, false, e.item.key, e.item.value)]),
       history := Then(t.history, Revalued(e.item.key, value, cleaner)))
  }

  /** The cleaner call when a node is dropped, if it has a cleaner. */
  function Farewell(e: Entry): seq<Call> {
    if e.item.cleaner == 0 then []
    else [Call(e.item.cleaner, false, true, e.item.key, e.item.value)]
  }

  /** `ls_htable_remove_node`. */
  function RemoveNode(t: Table, s: Spot): Table
    requires Points(t.chains, s)
  {
    var e := EntryAt(t.chains, s);
    t.(chains := DropAt(t.chains, s), count := Dec(t.count),
       calls := t.calls + Farewell(e),
       history := Then(t.history, Dropped(e.item.key)))
  }

  /** `ls_htable_remove`. */
  function Remove(k: Keys, t: Table, key: nat): Table
    requires Shaped(t)
  {
    match Find(k, t, key)
    case None => t
    case Some(s) => RemoveNode(t, s)
  }

  // ---------- growth ----------

  /** `(bcount * 3) >> 2` in 32 bits. */
  function Threshold(buckets: nat): nat {
    Wrap(buckets * 3) / 4
  }

  /** `(bcount << 1) + 1` in 32 bits: odd, so never 0. */
  function Grown(buckets: nat): (n: nat)
    requires buckets < WORD
    ensures 0 < n < WORD
  {
    WrapIsMod(buckets * 2 + 1);
    Wrap(buckets * 2 + 1)
  }

  predicate MustGrow(t: Table) {
    Inc(t.count) > Threshold(|t.chains|)
  }

  /** Moves the nodes of `chain` from position `i` on to the front of their new chains. */
  function RelinkChain(chains: seq<seq<Entry>>, chain: seq<Entry>, i: nat): (r: seq<seq<Entry>>)
    requires |chains| > 0 && i <= |chain|
    ensures |r| == |chains|
    decreases |chain| - i
  {
    if i == |chain| then chains else RelinkChain(Push(chains, chain[i]), chain, i + 1)
  }

  /** Moves the nodes of the chains from bucket `c` on. */
  function Relink(chains: seq<seq<Entry>>, old': seq<seq<Entry>>, c: nat): (r: seq<seq<Entry>>)
    requires |chains| > 0 && c <= |old'|
    ensures |r| == |chains|
    decreases |old'| - c
  {
    if c == |old'| then chains else Relink(RelinkChain(chains, old'[c], 0), old', c + 1)
  }

  function Size(chains: seq<seq<Entry>>): nat {
    if chains == [] then 0 else Size(chains[..|chains| - 1]) + |chains[|chains| - 1]|
  }

  /** `_resize_hashtable`. */
  function Resized(t: Table, buckets: nat): (r: Table)
    requires 0 < buckets < WORD
    ensures Shaped(r)
  {
    t.(chains := Relink(NoChains(buckets), t.chains, 0),
       relinked := t.relinked + Size(t.chains), base := t.count)
  }

  function Inserted(k: Keys, t: Table, x: Item): Table
    requires Shaped(t)
  {
    t.(chains := Push(t.chains, Entry(x, k.hash(x.key))), count := Inc(t.count),
       inserted := t.inserted + 1, history := Then(t.history, Stored(x)))
  }

  datatype Outcome = Outcome(table: Table, ok: bool)

  /** `ls_htable_put`; the flags say whether the bucket array and the node can be allocated. */
  function Put(k: Keys, t: Table, x: Item, bucketsOk: bool, nodeOk: bool): (r: Outcome)
    requires Shaped(t)
    ensures Shaped(r.table)
  {
    match Find(k, t, x.key)
    case Some(s) => Outcome(Replace(t, s, x), true)
    case None =>
      if MustGrow(t) && !bucketsOk then Outcome(t, false)
      else
        var t1 := if MustGrow(t) then Resized(t, Grown(|t.chains|)) else t;
        if !nodeOk then Outcome(t1, false) else Outcome(Inserted(k, t1, x), true)
  }

  // ---------- clear and destroy ----------

  function FarewellChain(calls: seq<Call>, chain: seq<Entry>, i: nat): seq<Call>
    requires i <= |chain|
    decreases |chain| - i
  {
    if i == |chain| then calls else FarewellChain(calls + Farewell(chain[i]), chain, i + 1)
  }

  /** The cleaner calls for the nodes from bucket `c` on, bucket by bucket. */
  function FarewellAll(calls: seq<Call>, chains: seq<seq<Entry>>, c: nat): seq<Call>
    requires c <= |chains|
    decreases |chains| - c
  {
    if c == |chains| then calls else FarewellAll(FarewellChain(calls, chains[c], 0), chains, c + 1)
  }

  /** `ls_htable_clear`. */
  function Clear(t: Table): Table {
    t.(chains := NoChains(|t.chains|), count := 0, calls := FarewellAll(t.calls, t.chains, 0),
       history := Then(t.history, Cleared))
  }

  /** `ls_htable_destroy`. */
  function Destroyed(t: Table): Table {
    t.(chains := [], calls := FarewellAll(t.calls, t.chains, 0))
  }

  // ---------- enumeration ----------

  /** `ls_htable_get_first_node`, starting at bucket `b`. */
  function FirstFrom(chains: seq<seq<Entry>>, b: nat): (r: Option<Spot>)
    requires b <= |chains|
    ensures r.Some? ==> Points(chains, r.value) && r.value.bucket >= b && r.value.at == 0
    decreases |chains| - b
  {
    if b == |chains| then None
    else if chains[b] != [] then Some(Spot(b, 0))
    else FirstFrom(chains, b + 1)
  }

  /** `ls_htable_get_next_node`. */
  function Next(chains: seq<seq<Entry>>, s: Spot): (r: Option<Spot>)
    requires Points(chains, s)
    ensures r.Some? ==> Points(chains, r.value)
  {
    if s.at + 1 < |chains[s.bucket]| then Some(Spot(s.bucket, s.at + 1))
    else FirstFrom(chains, s.bucket + 1)
  }

  /** What repeated calls of `ls_htable_get_next_node` list, from `from` on. */
  function Listing(chains: seq<seq<Entry>>, from: Option<Spot>): seq<Entry>
    requires from.Some? ==> Points(chains, from.value)
    decreases if from.None? then 0 else |chains| - from.value.bucket,
              if from.None? then 0 else |chains[from.value.bucket]| - from.value.at
  {
    if from.None? then [] else [EntryAt(chains, from.value)] + Listing(chains, Next(chains, from.value))
  }

  /** What the n-th call of a walk function does: remove the node it is given, and go on or stop. */
  datatype Verdict = Verdict(running: bool, remove: bool)

  datatype Walk = Walk(table: Table, visited: seq<Entry>)

  /** `ls_htable_walk` from `s` on; the walk function may remove the node it is given. */
  function WalkFrom(t: Table, f: nat -> Verdict, s: Spot, visited: seq<Entry>): Walk
    requires s.bucket <= |t.chains| && (s.bucket < |t.chains| ==> s.at <= |t.chains[s.bucket]|)
    decreases |t.chains| - s.bucket, if s.bucket < |t.chains| then |t.chains[s.bucket]| - s.at else 0
  {
    if s.bucket == |t.chains| then Walk(t, visited)
    else if s.at == |t.chains[s.bucket]| then WalkFrom(t, f, Spot(s.bucket + 1, 0), visited)
    else
      var v := f(|visited|);
      var seen := visited + [EntryAt(t.chains, s)];
      var t1 := if v.remove then RemoveNode(t, s) else t;
      if !v.running then Walk(t1, seen)
      else WalkFrom(t1, f, if v.remove then s else Spot(s.bucket, s.at + 1), seen)
  }

  // ---------- whole runs ----------

  datatype Op =
    | PutOp(item: Item, bucketsOk: bool, nodeOk: bool)
    | PutValueOp(spot: Spot, value: nat, cleaner: nat)
    | RemoveOp(key: nat)
    | RemoveNodeOp(spot: Spot)
    | ClearOp
    | WalkOp(f: nat -> Verdict)

  /** One call on the table; a caller has no pointer to a node that is not there. */
  function Step(k: Keys, t: Table, op: Op): (r: Table)
    requires Shaped(t)
    ensures Shaped(r)
  {
    match op
    case PutOp(x, bucketsOk, nodeOk) => Put(k, t, x, bucketsOk, nodeOk).table
    case PutValueOp(s, value, cleaner) => if Points(t.chains, s) then PutValue(t, s, value, cleaner) else t
    case RemoveOp(key) => Remove(k, t, key)
    case RemoveNodeOp(s) => if Points(t.chains, s) then RemoveNode(t, s) else t
    case ClearOp => Clear(t)
    case WalkOp(f) =>
      WalkKeepsShape(t, f, Spot(0, 0), []);
      WalkFrom(t, f, Spot(0, 0), []).table
  }

  lemma {:induction false} WalkKeepsShape(t: Table, f: nat -> Verdict, s: Spot, visited: seq<Entry>)
    requires s.bucket <= |t.chains| && (s.bucket < |t.chains| ==> s.at <= |t.chains[s.bucket]|)
    ensures |WalkFrom(t, f, s, visited).table.chains| == |t.chains|
    decreases |t.chains| - s.bucket, if s.bucket < |t.chains| then |t.chains[s.bucket]| - s.at else 0
  {
    if s.bucket == |t.chains| {
    } else if s.at == |t.chains[s.bucket]| {
      WalkKeepsShape(t, f, Spot(s.bucket + 1, 0), visited);
    } else {
      var v := f(|visited|);
      var t1 := if v.remove then RemoveNode(t, s) else t;
      if v.running {
        WalkKeepsShape(t1, f, if v.remove then s else Spot(s.bucket, s.at + 1), visited + [EntryAt(t.chains, s)]);
      }
    }
  }

  function Run(k: Keys, buckets: Int32, ops: seq<Op>): (t: Table)
    ensures Shaped(t)
    decreases |ops|
  {
    if ops == [] then Created(buckets) else Step(k, Run(k, buckets, ops[..|ops| - 1]), ops[|ops| - 1])
  }
}
