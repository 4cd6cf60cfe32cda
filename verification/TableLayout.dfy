/**
 Where the nodes of a table are linked: the number of buckets, and the order within a
 chain, which is the order of enumeration.  The numbers are written out.
 */
module TableLayout {
  import opened Options
  import opened TableModel
  import opened TableLaws
  import opened TableTheorems

  /** The entries for which `f` holds, in order. */
  function Where(es: seq<Entry>, f: Entry -> bool): seq<Entry> {
    if es == [] then [] else (if f(es[0]) then [es[0]] else []) + Where(es[1..], f)
  }

  /** The hash names bucket `b` of `n`. */
  function Into(n: nat, b: nat): Entry -> bool
    requires n > 0
  {
    (e: Entry) => e.khash % n == b
  }

  function InBucket(es: seq<Entry>, n: nat, b: nat): seq<Entry>
    requires n > 0
  {
    Where(es, Into(n, b))
  }

  function Reversed(es: seq<Entry>): seq<Entry> {
    if es == [] then [] else Reversed(es[1..]) + [es[0]]
  }

  lemma {:induction false} WhereConcat(a: seq<Entry>, c: seq<Entry>, f: Entry -> bool)
    ensures Where(a + c, f) == Where(a, f) + Where(c, f)
    decreases |a|
  {
    if a == [] {
      assert a + c == c;
    } else {
      assert (a + c)[1..] == a[1..] + c;
      WhereConcat(a[1..], c, f);
    }
  }

  lemma {:induction false} ReversedConcat(a: seq<Entry>, b: seq<Entry>)
    ensures Reversed(a + b) == Reversed(b) + Reversed(a)
    decreases |a|
  {
    if a == [] {
      assert a + b == b;
    } else {
      assert (a + b)[1..] == a[1..] + b;
      ReversedConcat(a[1..], b);
    }
  }

  lemma {:induction false} PushLays(chains: seq<seq<Entry>>, e: Entry, b: nat)
    requires b < |chains|
    ensures Push(chains, e)[b] == (if Into(|chains|, b)(e) then [e] else []) + chains[b]
  {
  }

  lemma {:induction false} WhereFrom(chain: seq<Entry>, i: nat, f: Entry -> bool)
    requires i < |chain|
    ensures Reversed(Where(chain[i..], f))
         == Reversed(Where(chain[i + 1..], f)) + if f(chain[i]) then [chain[i]] else []
  {
    assert chain[i..][1..] == chain[i + 1..];
    var rest := Where(chain[i + 1..], f);
    if f(chain[i]) {
      assert Where(chain[i..], f) == [chain[i]] + rest && ([chain[i]] + rest)[1..] == rest;
    } else {
      assert Where(chain[i..], f) == [] + rest == rest && Reversed(rest) + [] == Reversed(rest);
    }
  }

  lemma {:induction false} ChainLays(chains: seq<seq<Entry>>, chain: seq<Entry>, i: nat, b: nat, f: Entry -> bool)
    requires b < |chains| && i <= |chain| && f == Into(|chains|, b)
    ensures RelinkChain(chains, chain, i)[b] == Reversed(Where(chain[i..], f)) + chains[b]
    decreases |chain| - i
  {
    if i < |chain| {
      PushLays(chains, chain[i], b);
      ChainLays(Push(chains, chain[i]), chain, i + 1, b, f);
      WhereFrom(chain, i, f);
    }
  }

  lemma {:induction false} AllLay(chains: seq<seq<Entry>>, old': seq<seq<Entry>>, c: nat, b: nat, f: Entry -> bool)
    requires b < |chains| && c <= |old'| && f == Into(|chains|, b)
    ensures Relink(chains, old', c)[b] == Reversed(Where(Flat(old', c), f)) + chains[b]
    decreases |old'| - c
  {
    if c < |old'| {
      var rest := Flat(old', c + 1);
      ChainLays(chains, old'[c], 0, b, f);
      assert old'[c][0..] == old'[c];
      AllLay(RelinkChain(chains, old'[c], 0), old', c + 1, b, f);
      WhereConcat(old'[c], rest, f);
      ReversedConcat(Where(old'[c], f), Where(rest, f));
    }
  }

  /** Growing turns round the order of the nodes that come into the same bucket. */
  lemma {:induction false} GrowthReverses(t: Table, n: nat, b: nat)
    requires b < n < WORD
    ensures |Resized(t, n).chains| == n
    ensures Resized(t, n).chains[b] == Reversed(InBucket(Flat(t.chains, 0), n, b))
  {
    AllLay(NoChains(n), t.chains, 0, b, Into(n, b));
  }

  /** A table that is too full for one more entry, in 32 bits. */
  predicate Due(t: Table) {
    (Size(t.chains) + 1) % 0x1_0000_0000 > 3 * |t.chains| % 0x1_0000_0000 / 4
  }

  lemma {:induction false} DueIs(k: Keys, buckets: Int32, ops: seq<Op>)
    ensures var t := Run(k, buckets, ops);
            (MustGrow(t) <==> Due(t)) && Grown(|t.chains|) == Doubled(|t.chains|)
  {
    var t := Run(k, buckets, ops);
    RunCounted(k, buckets, ops);
    NextCount(Size(t.chains));
    ThresholdIs(|t.chains|);
    GrownIs(|t.chains|);
  }

  lemma {:induction false} NextCount(size: nat)
    ensures Inc(Wrap(size)) == (size + 1) % 0x1_0000_0000
  {
    IncWraps(size);
    WrapIsMod(size + 1);
  }

  lemma {:induction false} ThresholdIs(n: nat)
    ensures Threshold(n) == 3 * n % 0x1_0000_0000 / 4
  {
    WrapIsMod(n * 3);
  }

  lemma {:induction false} GrownIs(n: nat)
    requires n < WORD
    ensures Grown(n) == Doubled(n)
  {
    WrapIsMod(n * 2 + 1);
  }

  /**
   After any run, a put of a new key that finds its memory: the table grows exactly if it
   is due, from n buckets to 2n + 1, and then every chain is turned round; the new node
   comes first in its bucket and no other node is moved.
   */
  lemma {:induction false} EveryPutLaysOut(k: Keys, buckets: Int32, ops: seq<Op>, x: Item)
    requires Lookup(k, Run(k, buckets, ops), x.key).None?
    ensures var t := Run(k, buckets, ops);
            var now, h := Put(k, t, x, true, true).table, k.hash(x.key);
            var r := now.chains;
            && now.inserted == t.inserted + 1
            && now.relinked == (if Due(t) then t.relinked + Size(t.chains) else t.relinked)
            && |r| == (if Due(t) then Doubled(|t.chains|) else |t.chains|)
            && forall b :: 0 <= b < |r| ==>
                 r[b] == (if h % |r| == b then [Entry(x, h)] else [])
                         + (if Due(t) then Reversed(InBucket(Flat(t.chains, 0), |r|, b)) else t.chains[b])
  {
    var t := Run(k, buckets, ops);
    var r, h := Put(k, t, x, true, true).table.chains, k.hash(x.key);
    DueIs(k, buckets, ops);
    forall b | 0 <= b < |r|
      ensures r[b] == (if h % |r| == b then [Entry(x, h)] else [])
                      + (if Due(t) then Reversed(InBucket(Flat(t.chains, 0), |r|, b)) else t.chains[b])
    {
      if Due(t) {
        GrowthReverses(t, Grown(|t.chains|), b);
      }
    }
  }

  /** The number of buckets after a run: 509 or as asked for, and then as growth makes it. */
  function Buckets(k: Keys, buckets: Int32, ops: seq<Op>): int
    decreases |ops|
  {
    if ops == [] then (if buckets <= 0 then 509 else buckets)
    else
      var before, op := ops[..|ops| - 1], ops[|ops| - 1];
      var t, n := Run(k, buckets, before), Buckets(k, buckets, before);
      if op.PutOp? && op.bucketsOk && Lookup(k, t, op.item.key).None? && Due(t)
      then Doubled(n) else n
  }

  /** One more than twice as many, in 32 bits. */
  function Doubled(n: int): int {
    (2 * n + 1) % 0x1_0000_0000
  }

  /** Only a put grows the table, and nothing shrinks it. */
  lemma {:induction false} EveryRunHasBuckets(k: Keys, buckets: Int32, ops: seq<Op>)
    ensures |Run(k, buckets, ops).chains| == Buckets(k, buckets, ops)
    decreases |ops|
  {
    if ops != [] {
      var before, op := ops[..|ops| - 1], ops[|ops| - 1];
      var t := Run(k, buckets, before);
      EveryRunHasBuckets(k, buckets, before);
      DueIs(k, buckets, before);
      StepBuckets(k, t, op);
    }
  }

  lemma {:induction false} StepBuckets(k: Keys, t: Table, op: Op)
    requires Shaped(t)
    ensures |Step(k, t, op).chains|
         == if op.PutOp? && op.bucketsOk && Find(k, t, op.item.key).None? && MustGrow(t) then Grown(|t.chains|)
            else |t.chains|
  {
    if op.WalkOp? {
      WalkKeepsShape(t, op.f, Spot(0, 0), []);
    }
  }

  /** One node is replaced by `mid`. */
  lemma {:induction false} Spliced(chains: seq<seq<Entry>>, s: Spot, mid: seq<Entry>)
    requires Points(chains, s)
    ensures var c := chains[s.bucket];
            var r := chains[s.bucket := c[..s.at] + mid + c[s.at + 1..]];
            Flat(r, 0) == Until(chains, s) + mid + Rest(chains, Spot(s.bucket, s.at + 1))
  {
    var c := chains[s.bucket];
    var r := chains[s.bucket := c[..s.at] + mid + c[s.at + 1..]];
    FlatSplit(r, 0, s.bucket);
    FlatAfter(chains, s.bucket, r[s.bucket], s.bucket + 1);
    FlatBefore(chains, s.bucket, r[s.bucket], 0);
    Regrouped(Span(chains, 0, s.bucket), c[..s.at], mid, c[s.at + 1..], Flat(chains, s.bucket + 1));
  }

  lemma {:induction false} Regrouped(a: seq<Entry>, b: seq<Entry>, c: seq<Entry>, d: seq<Entry>, e: seq<Entry>)
    ensures a + (b + c + d + e) == (a + b) + c + (d + e)
  {
  }

  /** Removing a node, or giving it another value, leaves all others where they are in the enumeration. */
  lemma {:induction false} ChangesKeepOrder(t: Table, s: Spot, value: nat, cleaner: nat)
    requires Points(t.chains, s)
    ensures var before, after := Until(t.chains, s), Rest(t.chains, Spot(s.bucket, s.at + 1));
            var e := EntryAt(t.chains, s);
            && Flat(t.chains, 0) == before + [e] + after
            && Flat(RemoveNode(t, s).chains, 0) == before + after
            && Flat(PutValue(t, s, value, cleaner).chains, 0)
            == before + [Entry(Item(e.item.key, value, cleaner), e.khash)] + after
  {
    var c, e := t.chains[s.bucket], EntryAt(t.chains, s);
    var now := Entry(Item(e.item.key, value, cleaner), e.khash);
    Spliced(t.chains, s, [e]);
    Spliced(t.chains, s, []);
    Spliced(t.chains, s, [now]);
    assert c[..s.at] + [e] + c[s.at + 1..] == c && t.chains[s.bucket := c] == t.chains;
    assert c[..s.at] + [] + c[s.at + 1..] == c[..s.at] + c[s.at + 1..];
    assert c[..s.at] + [now] + c[s.at + 1..] == c[s.at := now];
    assert Until(t.chains, s) + [] == Until(t.chains, s);
  }

  /** So does putting a key that is there. */
  lemma {:induction false} ReplacingKeepsOrder(k: Keys, t: Table, x: Item, bucketsOk: bool, nodeOk: bool)
    requires Shaped(t) && Find(k, t, x.key).Some?
    ensures var s := Find(k, t, x.key).value;
            var now := Entry(x, EntryAt(t.chains, s).khash);
            Flat(Put(k, t, x, bucketsOk, nodeOk).table.chains, 0)
            == Until(t.chains, s) + [now] + Rest(t.chains, Spot(s.bucket, s.at + 1))
  {
    var s := Find(k, t, x.key).value;
    var c, now := t.chains[s.bucket], Entry(x, EntryAt(t.chains, s).khash);
    Spliced(t.chains, s, [now]);
    assert c[..s.at] + [now] + c[s.at + 1..] == c[s.at := now];
  }

  /** The entries of the buckets from `c` to before `b`. */
  function Span(chains: seq<seq<Entry>>, c: nat, b: nat): seq<Entry>
    requires c <= b <= |chains|
    decreases b - c
  {
    if c == b then [] else chains[c] + Span(chains, c + 1, b)
  }

  /** What is enumerated before `s`. */
  function Until(chains: seq<seq<Entry>>, s: Spot): seq<Entry>
    requires Points(chains, s)
  {
    Span(chains, 0, s.bucket) + chains[s.bucket][..s.at]
  }

  lemma {:induction false} FlatSplit(chains: seq<seq<Entry>>, c: nat, b: nat)
    requires c <= b <= |chains|
    ensures Flat(chains, c) == Span(chains, c, b) + Flat(chains, b)
    decreases b - c
  {
    if c < b {
      FlatSplit(chains, c + 1, b);
    }
  }

  lemma {:induction false} FlatBefore(chains: seq<seq<Entry>>, b: nat, chain: seq<Entry>, c: nat)
    requires c <= b < |chains|
    ensures Span(chains[b := chain], c, b) == Span(chains, c, b)
    decreases b - c
  {
    if c < b {
      FlatBefore(chains, b, chain, c + 1);
    }
  }
}
