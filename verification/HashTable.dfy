/**
 The hash table of src/ls_htable.c on the heap: an array of chains of nodes, relinked in
 place.  Every method is proved to do to `model` what the function of TableModel says.
 `calls` stands for the cleaner calls that the outside world has seen.
 */
module HashTable {
  import opened Options
  import opened TableModel

  class HNode {
    var next: HNode?
    var key: nat
    var value: nat
    var bucket: nat
    const khash: nat
    var cleaner: nat

    constructor (key: nat, value: nat, bucket: nat, khash: nat, cleaner: nat)
      ensures this.key == key && this.value == value && this.bucket == bucket
      ensures this.khash == khash && this.cleaner == cleaner && next == null
    {
      this.key, this.value, this.bucket, this.khash, this.cleaner := key, value, bucket, khash, cleaner;
      next := null;
    }

    ghost function View(): Entry
      reads this
    {
      Entry(Item(key, value, cleaner), khash)
    }
  }

  ghost function At(spine: seq<HNode>, i: nat): HNode? {
    if i < |spine| then spine[i] else null
  }

  /** From `head` the nodes of `spine` are linked; they carry `chain` and belong to bucket `b`. */
  ghost predicate Linked(head: HNode?, spine: seq<HNode>, chain: seq<Entry>, b: nat, own: set<HNode>)
    reads spine
  {
    && |chain| == |spine|
    && head == At(spine, 0)
    && (forall i :: 0 <= i < |spine| ==> spine[i] in own && spine[i].bucket == b && spine[i].View() == chain[i])
    && (forall i, j :: 0 <= i < j < |spine| ==> spine[i] != spine[j])
    && (forall i {:trigger spine[i].next} :: 0 <= i < |spine| ==> spine[i].next == At(spine, i + 1))
  }

  class HTable {
    const keys: Keys
    var count: nat
    var bcount: nat
    var resizeCount: nat
    var buckets: array<HNode?>
    var calls: seq<Call>
    ghost var spines: seq<seq<HNode>>
    ghost var nodes: set<HNode>
    ghost var model: Table

    ghost predicate ChainsLinked(own: set<HNode>)
      reads this, buckets, own
    {
      && bcount == buckets.Length == |spines| == |model.chains|
      && 0 < bcount < WORD
      && (forall b :: 0 <= b < bcount ==> forall i :: 0 <= i < |spines[b]| ==> spines[b][i] in own)
      && (forall b :: 0 <= b < bcount ==> Linked(buckets[b], spines[b], model.chains[b], b, own))
    }

    ghost predicate Valid()
      reads this, buckets, nodes
    {
      ChainsLinked(nodes) && count == model.count && calls == model.calls
    }

    /** `ls_htable_create` with all the memory it needs. */
    constructor (buckets: Int32, keys: Keys)
      ensures Valid() && fresh(this.buckets) && nodes == {} && this.keys == keys && model == Created(buckets)
    {
      var n := if buckets <= 0 then DEFAULT_BUCKETS else buckets;
      this.keys := keys;
      count, resizeCount, calls := 0, 0, [];
      bcount := n;
      this.buckets := new HNode?[n](_ => null);
      spines := seq(n, _ => []);
      nodes := {};
      model := Created(buckets);
    }

    // ---------- look-up ----------

    /** `_find_node` in a given bucket. */
    method FindNode(key: nat, bucket: nat, khash: nat) returns (p: HNode?, ghost at: nat)
      requires Valid() && bucket < bcount
      ensures at == FindFrom(keys, model.chains[bucket], key, khash, 0)
      ensures p == At(spines[bucket], at)
    {
      p := buckets[bucket];
      at := 0;
      assert Linked(buckets[bucket], spines[bucket], model.chains[bucket], bucket, nodes);
      while p != null
        invariant at <= |spines[bucket]| && p == At(spines[bucket], at)
        invariant FindFrom(keys, model.chains[bucket], key, khash, at)
               == FindFrom(keys, model.chains[bucket], key, khash, 0)
        decreases |spines[bucket]| - at
      {
        assert p.View() == model.chains[bucket][at];
        if khash == p.khash && keys.cmp(key, p.key) == 0 {
          break;
        }
        p := p.next;
        at := at + 1;
      }
    }

    /** The node at a place in the table. */
    ghost predicate IsAt(node: HNode, s: Spot)
      reads this
    {
      && s.bucket < |spines| && s.at < |spines[s.bucket]| && s.bucket < |model.chains|
      && |spines[s.bucket]| == |model.chains[s.bucket]| && spines[s.bucket][s.at] == node
    }

    /** `ls_htable_get_node`. */
    method GetNode(key: nat) returns (node: HNode?, ghost s: Option<Spot>)
      requires Valid()
      ensures s == Find(keys, model, key) && (node == null <==> s.None?)
      ensures node != null ==> IsAt(node, s.value) && node in nodes
    {
      var khash := keys.hash(key);
      var bucket := khash % bcount;
      assert Linked(buckets[bucket], spines[bucket], model.chains[bucket], bucket, nodes);
      ghost var at;
      node, at := FindNode(key, bucket, khash);
      s := if node == null then None else Some(Spot(bucket, at));
    }

    /** `ls_htable_get`. */
    method Get(key: nat) returns (value: nat)
      requires Valid()
      ensures value == match Lookup(keys, model, key) case None => 0 case Some(x) => x.value
    {
      var node, s := GetNode(key);
      if node == null {
        return 0;
      }
      ghost var b := s.value.bucket;
      assert Linked(buckets[b], spines[b], model.chains[b], b, nodes);
      assert node.View() == EntryAt(model.chains, s.value);
      return node.value;
    }

    // ---------- changing one node ----------

    /** The item of the node at `s` has been overwritten. */
    twostate lemma ItemChanged(s: Spot)
      requires old(Valid()) && Points(old(model).chains, s)
      requires spines == old(spines) && nodes == old(nodes) && buckets == old(buckets) && bcount == old(bcount)
      requires s.bucket < |spines| && s.at < |spines[s.bucket]|
      requires forall b :: 0 <= b < buckets.Length ==> buckets[b] == old(buckets[b])
      requires var node := spines[s.bucket][s.at];
               && node in nodes && node.next == old(node.next) && node.bucket == old(node.bucket)
               && (forall o: object :: o in nodes && o != node ==> unchanged(o))
               && model.chains == SetAt(old(model).chains, s, node.View())
      ensures ChainsLinked(nodes)
    {
      forall b | 0 <= b < bcount
        ensures Linked(buckets[b], spines[b], model.chains[b], b, nodes)
      {
        assert old(Linked(buckets[b], spines[b], model.chains[b], b, nodes));
        assert old(Linked(buckets[s.bucket], spines[s.bucket], model.chains[s.bucket], s.bucket, nodes));
      }
    }

    /** `ls_hnode_put_value`. */
    method PutValue(node: HNode, data: nat, cleaner: nat, ghost s: Spot)
      requires Valid() && IsAt(node, s) && node in nodes
      modifies this, nodes
      ensures Valid() && spines == old(spines) && nodes == old(nodes) && buckets == old(buckets)
      ensures model == TableModel.PutValue(old(model), s, data, cleaner)
    {
      assert Linked(buckets[s.bucket], spines[s.bucket], model.chains[s.bucket], s.bucket, nodes);
      assert node.View() == EntryAt(model.chains, s);
      var pvalue, pcleaner := node.value, node.cleaner;
      node.value := data;
      node.cleaner := cleaner;
      if pvalue != 0 && pcleaner != 0 {
        calls := calls + [Call(pcleaner, true, false, node.key, pvalue)];
      }
      model := TableModel.PutValue(model, s, data, cleaner);
      ItemChanged(s);
    }

    /** The branch of `ls_htable_put` for a key that is in the table. */
    method Reassign(node: HNode, x: Item, ghost s: Spot)
      requires Valid() && IsAt(node, s) && node in nodes
      modifies this, nodes
      ensures Valid() && spines == old(spines) && nodes == old(nodes) && buckets == old(buckets)
      ensures model == Replace(old(model), s, x)
    {
      assert Linked(buckets[s.bucket], spines[s.bucket], model.chains[s.bucket], s.bucket, nodes);
      assert node.View() == EntryAt(model.chains, s);
      if node.cleaner != 0 {
        calls := calls + [Call(node.cleaner, true, node.key != x.key, node.key, node.value)];
      }
      node.value := x.value;
      node.key := x.key;
      node.cleaner := x.cleaner;
      model := Replace(model, s, x);
      ItemChanged(s);
    }

    /** The node at `s` has been taken out of its chain, by the pointer that led to it. */
    twostate lemma Unchained(s: Spot)
      requires old(Valid()) && Points(old(model).chains, s)
      requires s.bucket < |old(spines)| && s.at < |old(spines)[s.bucket]|
      requires buckets == old(buckets) && bcount == old(bcount)
      requires model.chains == DropAt(old(model).chains, s)
      requires var was := old(spines)[s.bucket];
               && nodes == old(nodes) - {was[s.at]}
               && spines == old(spines)[s.bucket := was[..s.at] + was[s.at + 1..]]
               && (forall b :: 0 <= b < buckets.Length ==>
                     buckets[b] == if b == s.bucket && s.at == 0 then old(was[s.at].next) else old(buckets[b]))
               && (forall i {:trigger was[i].next} :: 0 <= i < |was| ==>
                     was[i].next == if i + 1 == s.at then old(was[s.at].next) else old(was[i].next))
               && (forall o: object :: o in old(nodes) && (s.at == 0 || o != was[s.at - 1]) ==> unchanged(o))
               && (s.at > 0 ==> was[s.at - 1].View() == old(was[s.at - 1].View()) && was[s.at - 1].bucket == s.bucket)
      ensures ChainsLinked(nodes)
    {
      var was, at := old(spines)[s.bucket], s.at;
      assert old(Linked(buckets[s.bucket], spines[s.bucket], model.chains[s.bucket], s.bucket, nodes));
      forall b | 0 <= b < bcount
        ensures Linked(buckets[b], spines[b], model.chains[b], b, nodes)
      {
        assert old(Linked(buckets[b], spines[b], model.chains[b], b, nodes));
        if b == s.bucket {
          forall i | 0 <= i < |spines[b]|
            ensures spines[b][i] == was[if i < at then i else i + 1]
            ensures spines[b][i] in nodes && spines[b][i].bucket == b && spines[b][i].View() == model.chains[b][i]
            ensures spines[b][i].next == At(spines[b], i + 1)
          {
            var j := if i < at then i else i + 1;
            assert spines[b][i] == was[j] && was[j].next == if j + 1 == at then old(was[at].next) else old(was[j].next);
          }
        }
      }
    }

    /** `ls_htable_remove_node`. */
    method RemoveNode(node: HNode, ghost s: Spot)
      requires Valid() && IsAt(node, s) && node in nodes
      modifies this, buckets, nodes
      ensures Valid() && buckets == old(buckets) && bcount == old(bcount) && nodes == old(nodes) - {node}
      ensures spines == old(spines)[s.bucket := old(spines)[s.bucket][..s.at] + old(spines)[s.bucket][s.at + 1..]]
      ensures model == TableModel.RemoveNode(old(model), s)
    {
      assert Linked(buckets[s.bucket], spines[s.bucket], model.chains[s.bucket], s.bucket, nodes);
      assert node.View() == EntryAt(model.chains, s);
      if node == buckets[node.bucket] {
        buckets[node.bucket] := node.next;
      } else {
        var p := buckets[node.bucket];
        ghost var k := 0;
        while p.next != node
          invariant k < s.at && p == spines[s.bucket][k]
          decreases s.at - k
        {
          p := p.next;
          k := k + 1;
        }
        p.next := node.next;
      }
      if node.cleaner != 0 {
        calls := calls + [Call(node.cleaner, false, true, node.key, node.value)];
      }
      count := Dec(count);
      spines := spines[s.bucket := spines[s.bucket][..s.at] + spines[s.bucket][s.at + 1..]];
      nodes := nodes - {node};
      model := TableModel.RemoveNode(model, s);
      Unchained(s);
    }

    /** `ls_htable_remove`. */
    method Remove(key: nat)
      requires Valid()
      modifies this, buckets, nodes
      ensures Valid() && buckets == old(buckets) && nodes <= old(nodes)
      ensures model == TableModel.Remove(keys, old(model), key)
    {
      var node, s := GetNode(key);
      if node != null {
        RemoveNode(node, s.value);
      }
    }

    // ---------- inserting and growing ----------

    /** The chain with a node in front of it. */
    lemma LinkedInFront(node: HNode, was: seq<HNode>, chain: seq<Entry>, b: nat, own: set<HNode>)
      requires Linked(node.next, was, chain, b, own) && node !in own && node.bucket == b
      ensures Linked(node, [node] + was, [node.View()] + chain, b, own + {node})
    {
      var spine := [node] + was;
      forall i | 0 <= i < |spine|
        ensures i > 0 ==> spine[i] == was[i - 1]
        ensures spine[i].next == At(spine, i + 1)
      {
        assert i > 0 ==> spine[i].next == At(was, i);
      }
    }

    /** Puts `node` at the front of the chain its hash names. */
    method LinkFront(node: HNode, ghost own: set<HNode>)
      requires ChainsLinked(own) && node !in own
      modifies node`next, node`bucket, buckets, this`spines, this`model
      ensures ChainsLinked(own + {node}) && node.View() == old(node.View())
      ensures model == old(model).(chains := Push(old(model).chains, node.View()))
    {
      var bucket := node.khash % bcount;
      assert Linked(buckets[bucket], spines[bucket], model.chains[bucket], bucket, own);
      node.bucket := bucket;
      node.next := buckets[bucket];
      assert Linked(node.next, spines[bucket], model.chains[bucket], bucket, own);
      LinkedInFront(node, spines[bucket], model.chains[bucket], bucket, own);
      buckets[bucket] := node;
      spines := spines[bucket := [node] + spines[bucket]];
      model := model.(chains := Push(model.chains, node.View()));
      forall b | 0 <= b < bcount && b != bucket
        ensures Linked(buckets[b], spines[b], model.chains[b], b, own + {node})
      {
        assert old(Linked(buckets[b], spines[b], model.chains[b], b, own));
      }
    }

    /** The old chains from bucket `c` on are still as they were. */
    ghost predicate OldLinked(olds: array<HNode?>, was: seq<seq<HNode>>, chains: seq<seq<Entry>>,
                              c: nat, todo: set<HNode>)
      reads olds, todo
    {
      && olds.Length == |was| == |chains|
      && (forall b :: c <= b < |was| ==> forall i :: 0 <= i < |was[b]| ==> was[b][i] in todo)
      && (forall b :: c <= b < |was| ==> Linked(olds[b], was[b], chains[b], b, todo))
    }

    /** The nodes of old bucket `c` from position `j` on are still to be moved, starting at `node`. */
    ghost predicate Moving(node: HNode?, spine: seq<HNode>, chain: seq<Entry>, c: nat, j: nat, todo: set<HNode>)
      reads todo
    {
      && j <= |spine| == |chain| && node == At(spine, j)
      && (forall i :: j <= i < |spine| ==> spine[i] in todo && spine[i].bucket == c && spine[i].View() == chain[i])
      && (forall i, k :: j <= i < k < |spine| ==> spine[i] != spine[k])
      && (forall i {:trigger spine[i].next} :: j <= i < |spine| ==> spine[i].next == At(spine, i + 1))
    }

    /** What a turn of the inner loop finds and leaves. */
    ghost predicate Between(olds: array<HNode?>, was: seq<seq<HNode>>, chains: seq<seq<Entry>>, c: nat,
                            node: HNode?, j: nat, done: set<HNode>, todo: set<HNode>)
      reads this, buckets, olds, done, todo
    {
      && ChainsLinked(done) && done !! todo && olds != buckets
      && OldLinked(olds, was, chains, c + 1, todo) && c < |was|
      && Moving(node, was[c], chains[c], c, j, todo)
    }

    method MoveOne(node: HNode, olds: array<HNode?>, ghost c: nat, ghost j: nat, ghost was: seq<seq<HNode>>,
                   ghost chains: seq<seq<Entry>>, ghost done: set<HNode>, ghost todo: set<HNode>)
      returns (next: HNode?, ghost j': nat, ghost done': set<HNode>, ghost todo': set<HNode>)
      requires Between(olds, was, chains, c, node, j, done, todo)
      modifies node`next, node`bucket, buckets, this`spines, this`model
      ensures Between(olds, was, chains, c, next, j', done', todo') && done' + todo' == done + todo
      ensures j < j' <= |was[c]| == |chains[c]|
      ensures model == old(model).(chains := model.chains)
      ensures RelinkChain(model.chains, chains[c], j') == RelinkChain(old(model).chains, chains[c], j)
    {
      next := node.next;
      assert node.View() == chains[c][j];
      LinkFront(node, done);
      done', todo', j' := done + {node}, todo - {node}, j + 1;
      forall b | c < b < |was|
        ensures Linked(olds[b], was[b], chains[b], b, todo')
        ensures forall i :: 0 <= i < |was[b]| ==> was[b][i] in todo'
      {
        assert old(Linked(olds[b], was[b], chains[b], b, todo));
      }
    }

    /** The inner loop of `_resize_hashtable`: the chain of old bucket `c` is moved. */
    method MoveChain(olds: array<HNode?>, c: nat, ghost was: seq<seq<HNode>>, ghost chains: seq<seq<Entry>>,
                     ghost done: set<HNode>, ghost todo: set<HNode>)
      returns (ghost done': set<HNode>, ghost todo': set<HNode>)
      requires ChainsLinked(done) && done !! todo && olds != buckets && c < |was|
      requires OldLinked(olds, was, chains, c, todo)
      modifies todo, buckets, this`spines, this`model
      ensures ChainsLinked(done') && done' !! todo' && done' + todo' == done + todo
      ensures OldLinked(olds, was, chains, c + 1, todo')
      ensures model == old(model).(chains := RelinkChain(old(model).chains, chains[c], 0))
    {
      var node := olds[c];
      ghost var j := 0;
      done', todo' := done, todo;
      assert Linked(olds[c], was[c], chains[c], c, todo);
      while node != null
        invariant Between(olds, was, chains, c, node, j, done', todo') && done' + todo' == done + todo
        invariant model == old(model).(chains := model.chains)
        invariant RelinkChain(model.chains, chains[c], j) == RelinkChain(old(model).chains, chains[c], 0)
        decreases |was[c]| - j
      {
        node, j, done', todo' := MoveOne(node, olds, c, j, was, chains, done', todo');
      }
    }

    /** The outer loop of `_resize_hashtable`. */
    method MoveAll(olds: array<HNode?>, oldCount: nat, ghost was: seq<seq<HNode>>, ghost chains: seq<seq<Entry>>,
                   ghost own: set<HNode>)
      requires ChainsLinked({}) && olds != buckets && oldCount == |was| == |chains|
      requires OldLinked(olds, was, chains, 0, own)
      modifies own, buckets, this`spines, this`model
      ensures ChainsLinked(own)
      ensures model == old(model).(chains := Relink(old(model).chains, chains, 0))
    {
      ghost var done, todo := {}, own;
      var c := 0;
      while c < oldCount
        invariant c <= oldCount
        invariant ChainsLinked(done) && done !! todo && done + todo == own && OldLinked(olds, was, chains, c, todo)
        invariant model == old(model).(chains := model.chains)
        invariant Relink(model.chains, chains, c) == Relink(old(model).chains, chains, 0)
      {
        done, todo := MoveChain(olds, c, was, chains, done, todo);
        c := c + 1;
      }
      assert done <= own;
    }

    /** A fresh array of empty chains replaces the old one; the old chains hang where they did. */
    method Renew(size: nat)
      requires Valid() && 0 < size < WORD
      modifies this`buckets, this`bcount, this`resizeCount, this`spines, this`model
      ensures ChainsLinked({}) && fresh(buckets) && model == old(model).(chains := NoChains(size))
      ensures resizeCount == Inc(old(resizeCount))
      ensures OldLinked(old(buckets), old(spines), old(model).chains, 0, nodes)
    {
      assert forall b :: 0 <= b < bcount ==> Linked(buckets[b], spines[b], model.chains[b], b, nodes);
      buckets := new HNode?[size](_ => null);
      bcount := size;
      resizeCount := Inc(resizeCount);
      spines := seq(size, _ => []);
      model := model.(chains := NoChains(size));
      forall b | 0 <= b < |old(spines)|
        ensures Linked(old(buckets)[b], old(spines)[b], old(model).chains[b], b, nodes)
      {
        assert old(Linked(buckets[b], spines[b], model.chains[b], b, nodes));
      }
    }

    /** `_resize_hashtable`. */
    method Resize(size: nat, allocOk: bool) returns (ok: bool)
      requires Valid() && 0 < size < WORD
      modifies this, nodes
      ensures Valid() && ok == allocOk && nodes == old(nodes)
      ensures if ok then fresh(buckets) else buckets == old(buckets)
      ensures resizeCount == if ok then Inc(old(resizeCount)) else old(resizeCount)
      ensures model == if ok then Resized(old(model), size) else old(model)
    {
      if !allocOk {
        return false;
      }
      var olds, oldCount := buckets, bcount;
      ghost var was, before := spines, model;
      Renew(size);
      MoveAll(olds, oldCount, was, before.chains, nodes);
      model := Resized(before, size);
      return true;
    }

    /** `ls_htable_put`. */
    method Put(x: Item, bucketsOk: bool, nodeOk: bool) returns (ok: bool)
      requires Valid()
      modifies this, buckets, nodes
      ensures Valid() && fresh(nodes - old(nodes)) && (buckets == old(buckets) || fresh(buckets))
      ensures Outcome(model, ok) == TableModel.Put(keys, old(model), x, bucketsOk, nodeOk)
    {
      var khash := keys.hash(x.key);
      var node, s := GetNode(x.key);
      if node != null {
        Reassign(node, x, s.value);
        return true;
      }
      if Inc(count) > Wrap(bcount * 3) / 4 {
        var grown := Resize(Grown(bcount), bucketsOk);
        if !grown {
          return false;
        }
      }
      if !nodeOk {
        return false;
      }
      ok := Insert(x, khash);
    }

    /** The chains do not depend on what is counted and recorded beside them. */
    twostate lemma ChainsStay(own: set<HNode>)
      requires old(ChainsLinked(own)) && bcount == old(bcount) && buckets == old(buckets) && spines == old(spines)
      requires model.chains == old(model).chains && unchanged(buckets) && forall node :: node in own ==> unchanged(node)
      ensures ChainsLinked(own)
    {
    }

    /** The new node is created, linked in and counted. */
    method Insert(x: Item, khash: nat) returns (ok: bool)
      requires Valid() && khash == keys.hash(x.key)
      modifies this, buckets
      ensures Valid() && ok && fresh(nodes - old(nodes)) && buckets == old(buckets)
      ensures model == Inserted(keys, old(model), x)
    {
      var node := new HNode(x.key, x.value, khash % bcount, khash, x.cleaner);
      ghost var before := model;
      LinkFront(node, nodes);
      label Linked:
      count := Inc(count);
      nodes := nodes + {node};
      model := Inserted(keys, before, x);
      ChainsStay@Linked(nodes);
      return true;
    }

    // ---------- clear and destroy ----------

    /** The cleaners of one bucket's nodes are called, and the nodes are freed. */
    method FarewellBucket(head: HNode?, ghost b: nat) returns (ghost freed: seq<HNode>)
      requires b < |spines| && b < |model.chains| && Linked(head, spines[b], model.chains[b], b, nodes)
      modifies this`calls
      ensures calls == FarewellChain(old(calls), model.chains[b], 0) && freed == spines[b]
    {
      var cur := head;
      ghost var i := 0;
      freed := [];
      while cur != null
        invariant i <= |spines[b]| && cur == At(spines[b], i) && freed == spines[b][..i]
        invariant FarewellChain(calls, model.chains[b], i) == FarewellChain(old(calls), model.chains[b], 0)
        decreases |spines[b]| - i
      {
        var next := cur.next;
        assert cur.View() == model.chains[b][i];
        if cur.cleaner != 0 {
          calls := calls + [Call(cur.cleaner, false, true, cur.key, cur.value)];
        } else {
          assert calls + [] == calls;
        }
        freed := freed + [cur];
        assert spines[b][..i + 1] == spines[b][..i] + [cur];
        cur := next;
        i := i + 1;
      }
      assert spines[b][..i] == spines[b];
    }

    /** No node is listed twice. */
    static ghost predicate Once(spines: seq<seq<HNode>>) {
      forall b, i, c, j :: 0 <= b < |spines| && 0 <= i < |spines[b]| && 0 <= c < |spines| && 0 <= j < |spines[c]| ==>
        spines[b][i] == spines[c][j] ==> b == c && i == j
    }

    lemma ListedOnce()
      requires Valid()
      ensures Once(spines)
    {
      forall b, i, c, j | 0 <= b < |spines| && 0 <= i < |spines[b]| && 0 <= c < |spines| && 0 <= j < |spines[c]|
        && spines[b][i] == spines[c][j]
        ensures b == c && i == j
      {
        assert Linked(buckets[b], spines[b], model.chains[b], b, nodes);
        assert Linked(buckets[c], spines[c], model.chains[c], c, nodes);
      }
    }

    /** `ls_htable_clear`; `freed` are the nodes that were freed, bucket by bucket. */
    method Clear() returns (ghost freed: seq<seq<HNode>>)
      requires Valid()
      modifies this, buckets
      ensures Valid() && buckets == old(buckets) && nodes == {} && model == TableModel.Clear(old(model))
      ensures freed == old(spines) && Once(freed)
    {
      ListedOnce();
      freed := FarewellBuckets(true);
      Reset();
    }

    /** No elements are left. */
    method Reset()
      requires bcount == buckets.Length == |model.chains| && 0 < bcount < WORD
      requires forall b :: 0 <= b < bcount ==> buckets[b] == null
      requires calls == TableModel.Clear(model).calls
      modifies this`count, this`spines, this`nodes, this`model
      ensures Valid() && nodes == {} && model == old(model).(chains := NoChains(bcount), count := 0, calls := calls,
                                                             history := Then(old(model).history, Cleared))
    {
      count := 0;
      spines := seq(bcount, _ => []);
      nodes := {};
      model := model.(chains := NoChains(bcount), count := 0, calls := calls, history := Then(model.history, Cleared));
    }

    /** Calling cleaners leaves the chains alone. */
    twostate lemma StillLinked(i: nat)
      requires old(Valid()) && i < old(bcount)
      requires bcount == old(bcount) && buckets == old(buckets) && spines == old(spines)
      requires model == old(model) && nodes == old(nodes) && buckets[i] == old(buckets[i])
      requires forall node :: node in nodes ==> unchanged(node)
      ensures Linked(buckets[i], spines[i], model.chains[i], i, nodes)
    {
      assert old(Linked(buckets[i], spines[i], model.chains[i], i, nodes));
    }

    /** One turn of the loop. */
    method FarewellAt(i: nat, empty: bool) returns (ghost freed: seq<HNode>)
      requires i < buckets.Length && i < |spines| && i < |model.chains|
      requires Linked(buckets[i], spines[i], model.chains[i], i, nodes)
      modifies this`calls, buckets
      ensures FarewellAll(old(calls), model.chains, i) == FarewellAll(calls, model.chains, i + 1) && freed == spines[i]
      ensures forall b :: 0 <= b < buckets.Length ==> buckets[b] == if empty && b == i then null else old(buckets[b])
    {
      freed := FarewellBucket(buckets[i], i);
      if empty {
        buckets[i] := null;
      }
    }

    /** The loop of clear and of destroy; clear also empties the buckets. */
    method FarewellBuckets(empty: bool) returns (ghost freed: seq<seq<HNode>>)
      requires Valid()
      modifies this`calls, buckets
      ensures calls == FarewellAll(old(calls), model.chains, 0)
      ensures forall b :: 0 <= b < bcount ==> buckets[b] == if empty then null else old(buckets[b])
      ensures freed == spines
    {
      var i := 0;
      freed := [];
      while i < bcount
        invariant i == |freed| <= bcount && forall b :: 0 <= b < i ==> freed[b] == spines[b]
        invariant forall b :: i <= b < bcount ==> buckets[b] == old(buckets[b])
        invariant forall b :: 0 <= b < i ==> buckets[b] == if empty then null else old(buckets[b])
        invariant FarewellAll(calls, model.chains, i) == FarewellAll(old(calls), model.chains, 0)
      {
        StillLinked(i);
        ghost var gone := FarewellAt(i, empty);
        freed := freed + [gone];
        i := i + 1;
      }
    }

    /** `ls_htable_destroy`: `freed` are the nodes freed, in order; the array and the table go last. */
    method Destroy() returns (ghost freed: seq<seq<HNode>>)
      requires Valid()
      modifies this`calls, buckets
      ensures calls == Destroyed(old(model)).calls
      ensures freed == spines && Once(freed)
    {
      ListedOnce();
      freed := FarewellBuckets(false);
    }

    // ---------- enumeration ----------

    /** The loops of `ls_htable_get_first_node` and `ls_htable_get_next_node`. */
    method FirstNodeFrom(b: nat) returns (node: HNode?, ghost s: Option<Spot>)
      requires Valid() && b <= bcount
      ensures s == FirstFrom(model.chains, b) && (node == null <==> s.None?)
      ensures node != null ==> IsAt(node, s.value) && node in nodes
    {
      var i := b;
      while i < bcount
        invariant i <= bcount && FirstFrom(model.chains, i) == FirstFrom(model.chains, b)
      {
        assert Linked(buckets[i], spines[i], model.chains[i], i, nodes);
        if buckets[i] != null {
          return buckets[i], Some(Spot(i, 0));
        }
        i := i + 1;
      }
      return null, None;
    }

    /** `ls_htable_get_next_node`. */
    method NextNode(cur: HNode, ghost at: Spot) returns (node: HNode?, ghost s: Option<Spot>)
      requires Valid() && IsAt(cur, at)
      ensures s == Next(model.chains, at) && (node == null <==> s.None?)
      ensures node != null ==> IsAt(node, s.value) && node in nodes
    {
      assert Linked(buckets[at.bucket], spines[at.bucket], model.chains[at.bucket], at.bucket, nodes);
      if cur.next != null {
        return cur.next, Some(Spot(at.bucket, at.at + 1));
      }
      node, s := FirstNodeFrom(cur.bucket + 1);
    }

    /** What the walk still has to do, or that it was told to stop. */
    ghost function Ahead(f: nat -> Verdict, running: bool, s: Spot, visited: seq<Entry>): Walk
      requires s.bucket <= |model.chains| && (s.bucket < |model.chains| ==> s.at <= |model.chains[s.bucket]|)
      reads this
    {
      if running then WalkFrom(model, f, s, visited) else Walk(model, visited)
    }

    /** One visit: the walk function may remove the node; its successor was read before. */
    method Visit(f: nat -> Verdict, cur: HNode, visits: nat, ghost s: Spot, ghost visited: seq<Entry>)
      returns (next: HNode?, running: bool, ghost s': Spot, ghost visited': seq<Entry>)
      requires Valid() && IsAt(cur, s) && cur in nodes && visits == |visited|
      modifies this, buckets, nodes
      ensures Valid() && buckets == old(buckets) && bcount == old(bcount) && nodes <= old(nodes)
      ensures s'.bucket == s.bucket && s.bucket < bcount && s'.at <= |spines[s.bucket]|
      ensures |spines[s.bucket]| - s'.at < |old(spines)[s.bucket]| - s.at
      ensures next == At(spines[s.bucket], s'.at) && |visited'| == visits + 1
      ensures Ahead(f, running, s', visited') == WalkFrom(old(model), f, s, visited)
    {
      assert Linked(buckets[s.bucket], spines[s.bucket], model.chains[s.bucket], s.bucket, nodes);
      next := cur.next;
      visited' := visited + [EntryAt(model.chains, s)];
      var verdict := f(visits);
      running := verdict.running;
      if verdict.remove {
        RemoveNode(cur, s);
        s' := s;
      } else {
        s' := Spot(s.bucket, s.at + 1);
      }
    }

    /** `ls_htable_walk`: the walk function is `f`, and `visits` counts its calls. */
    method WalkTable(f: nat -> Verdict) returns (visits: nat, ghost w: Walk)
      requires Valid()
      modifies this, buckets, nodes
      ensures Valid() && w == WalkFrom(old(model), f, Spot(0, 0), []) && model == w.table && visits == |w.visited|
    {
      w := WalkFrom(model, f, Spot(0, 0), []);
      var i, running := 0, true;
      ghost var visited := [];
      visits := 0;
      while running && i < bcount
        invariant Valid() && buckets == old(buckets) && nodes <= old(nodes) && i <= bcount
        invariant Ahead(f, running, Spot(i, 0), visited) == w && visits == |visited|
      {
        var cur := buckets[i];
        ghost var s := Spot(i, 0);
        assert Linked(buckets[i], spines[i], model.chains[i], i, nodes);
        while running && cur != null
          invariant Valid() && buckets == old(buckets) && nodes <= old(nodes) && s.bucket == i < bcount
          invariant s.at <= |spines[i]| && cur == At(spines[i], s.at)
          invariant Ahead(f, running, s, visited) == w && visits == |visited|
          decreases |spines[i]| - s.at, running
        {
          assert Linked(buckets[i], spines[i], model.chains[i], i, nodes);
          cur, running, s, visited := Visit(f, cur, visits, s, visited);
          visits := visits + 1;
        }
        i := i + 1;
      }
    }
  }
}
