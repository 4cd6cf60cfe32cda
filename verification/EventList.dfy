/**
 The linked list of bindings that hangs off an event, as in src/ls_eventing.c.
 The list is changed in place; each method is specified by a function on its contents.
 */
module EventList {
  import opened EventModel

  lemma PutBack<T>(s: seq<T>, at: nat, x: T)
    requires at < |s|
    ensures var r := s[..at] + s[at + 1..]; r[..at] + [x] + r[at..] == s[at := x]
  {
  }

  lemma PutLast<T>(s: seq<T>, x: T)
    ensures s[..|s|] + [x] + s[|s|..] == s + [x]
  {
  }

  /** One element moves from what is still to be swept to what is kept, or is dropped. */
  lemma Advance<T>(kept: seq<T>, all: seq<T>, k: nat)
    requires k < |all|
    ensures var s := kept + all[k..];
            && s[|kept|] == all[k]
            && s == (kept + [all[k]]) + all[k + 1..]
            && s[..|kept|] + s[|kept| + 1..] == kept + all[k + 1..]
  {
  }

  lemma {:induction false} SweepNext(list: seq<Binding>, k: nat)
    requires k < |list|
    ensures Sweep(list[..k + 1]) == Sweep(list[..k]) + (if list[k].unbound then [] else [list[k]])
  {
    SweepConcat(list[..k], [list[k]]);
    assert list[..k + 1] == list[..k] + [list[k]];
    assert [list[k]][1..] == [];
  }

  class BindingNode {
    ghost const id: nat
    var cb: nat
    var arg: int
    var unbound: bool
    var normalBound: bool
    var next: BindingNode?

    constructor (ghost id: nat)
      ensures this.id == id && next == null && !unbound && !normalBound
    {
      this.id := id;
      cb, arg, unbound, normalBound, next := 0, 0, false, false, null;
    }

    ghost function View(): Binding
      reads this
    {
      Binding(id, cb, arg, unbound, normalBound)
    }
  }

  class Event {
    var bindings: BindingNode?
    ghost var spine: seq<BindingNode>
    ghost var contents: seq<Binding>
    ghost var footprint: set<object>

    /** The node at position `i`, or null past the end. */
    ghost function At(i: nat): BindingNode?
      reads this
    {
      if i < |spine| then spine[i] else null
    }

    ghost predicate Valid()
      reads this, footprint
    {
      && this in footprint
      && |contents| == |spine|
      && (forall i :: 0 <= i < |spine| ==> spine[i] in footprint && spine[i].View() == contents[i])
      && (forall i, j :: 0 <= i < j < |spine| ==> spine[i] != spine[j])
      && bindings == At(0)
      && (forall i {:trigger spine[i].next} :: 0 <= i < |spine| ==> spine[i].next == At(i + 1))
    }

    /** No other listed node carries the stamp of `n`. */
    ghost predicate Names(n: BindingNode)
      reads this
    {
      forall k :: 0 <= k < |spine| ==> spine[k].id == n.id ==> spine[k] == n
    }

    constructor ()
      ensures Valid() && contents == [] && spine == [] && fresh(footprint)
    {
      bindings := null;
      spine, contents, footprint := [], [], {this};
    }

    /** Takes the node at position `at` out of the chain; `prev` is the node before it. */
    method Unlink(prev: BindingNode?, node: BindingNode, ghost at: nat)
      requires Valid() && at < |spine| && spine[at] == node
      requires prev == (if at == 0 then null else spine[at - 1])
      modifies footprint
      ensures Valid() && footprint == old(footprint) - {node}
      ensures spine == old(spine[..at] + spine[at + 1..])
      ensures contents == old(contents[..at] + contents[at + 1..])
      ensures node.next == old(node.next) && node.View() == old(node.View())
    {
      ghost var was := spine;
      if prev == null {
        bindings := node.next;
      } else {
        prev.next := node.next;
      }
      spine := spine[..at] + spine[at + 1..];
      contents := contents[..at] + contents[at + 1..];
      footprint := footprint - {node};
      forall i | 0 <= i < |spine|
        ensures spine[i] == was[if i < at then i else i + 1]
        ensures spine[i].next == At(i + 1)
        ensures spine[i].View() == contents[i]
      {
        var j := if i < at then i else i + 1;
        assert spine[i] == was[j];
        assert was[j].next == if j == at - 1 then old(node.next) else old(was[j].next);
      }
    }

    /** The pointers of `spine` are right if those of `was` were changed for `node` only. */
    lemma LinkedIn(was: seq<BindingNode>, node: BindingNode, at: nat)
      requires at <= |was| && spine == was[..at] + [node] + was[at..]
      requires forall i {:trigger was[i].next} :: 0 <= i < |was| ==>
        was[i].next == if i == at - 1 then node else if i + 1 < |was| then was[i + 1] else null
      requires node.next == if at < |was| then was[at] else null
      requires bindings == if at == 0 then node else was[0]
      ensures bindings == At(0)
      ensures forall i {:trigger spine[i].next} :: 0 <= i < |spine| ==> spine[i].next == At(i + 1)
    {
      forall i | 0 <= i < |spine|
        ensures spine[i].next == At(i + 1)
      {
        if i != at {
          assert spine[i] == was[if i < at then i else i - 1];
        }
      }
    }

    /** Puts `node` back into the chain after `prev`, or in front if there is none. */
    method Link(prev: BindingNode?, node: BindingNode, ghost at: nat)
      requires Valid() && at <= |spine| && node !in footprint && node.next == null
      requires prev == (if at == 0 then null else spine[at - 1])
      modifies footprint, node
      ensures Valid() && footprint == old(footprint) + {node}
      ensures spine == old(spine[..at]) + [node] + old(spine[at..])
      ensures contents == old(contents[..at]) + [old(node.View())] + old(contents[at..])
    {
      ghost var was := spine;
      if bindings == null {
        bindings := node;
      } else if prev != null {
        if prev.next == null {
          prev.next := node;
        } else {
          node.next := prev.next;
          prev.next := node;
        }
      } else {
        node.next := bindings;
        bindings := node;
      }
      spine := spine[..at] + [node] + spine[at..];
      contents := contents[..at] + [node.View()] + contents[at..];
      footprint := footprint + {node};
      LinkedIn(was, node, at);
    }

    /** Looks for a binding of `cb` and takes it out; `ins` is the node before its place. */
    method RemoveBinding(cb: nat) returns (found: BindingNode?, ins: BindingNode?)
      requires Valid()
      modifies footprint
      ensures Valid() && footprint == old(footprint) - (if found == null then {} else {found})
      ensures var at := IndexOfCb(old(contents), cb);
              && (found != null <==> at < |old(contents)|)
              && at <= |spine| && ins == (if at == 0 then null else spine[at - 1])
              && (found == null ==> spine == old(spine) && contents == old(contents))
              && (found != null ==>
                    && found == old(spine)[at] && found.next == null
                    && found.View() == old(contents)[at]
                    && spine == old(spine)[..at] + old(spine)[at + 1..]
                    && contents == old(contents)[..at] + old(contents)[at + 1..])
    {
      var curr := bindings;
      var prev: BindingNode? := null;
      found := null;
      ghost var k := 0;
      while curr != null
        invariant Valid() && spine == old(spine) && contents == old(contents) && footprint == old(footprint)
        invariant k <= |spine| && curr == At(k) && found == null
        invariant prev == (if k == 0 then null else spine[k - 1])
        invariant CbFrom(contents, cb, k) == IndexOfCb(contents, cb)
        invariant forall n :: n in spine ==> n.View() == old(n.View())
        decreases |spine| - k
      {
        if curr.cb == cb {
          assert contents[k] == spine[k].View();
          Unlink(prev, curr, k);
          found := curr;
          curr.next := null;
          break;
        }
        assert contents[k] == spine[k].View();
        prev := curr;
        curr := curr.next;
        k := k + 1;
      }
      ins := prev;
    }

    /** `ls_event_bind`; a node that must be allocated is given the ghost stamp `id`. */
    method Bind(cb: nat, arg: int, alloc: bool, ghost id: nat) returns (ok: bool, ghost node: BindingNode?)
      requires Valid()
      modifies footprint
      ensures Valid() && footprint == old(footprint) + (if node == null then {} else {node})
      ensures ok == (Listed(old(contents), cb) || alloc)
      ensures contents == if ok then BindIn(old(contents), cb, arg, id) else old(contents)
      ensures spine == if node == null then old(spine) else old(spine) + [node]
      ensures node != null ==> ok && fresh(node) && node.id == id
    {
      ghost var at := IndexOfCb(contents, cb);
      var binding, prev := RemoveBinding(cb);
      if binding == null {
        if !alloc {
          return false, null;
        }
        binding := new BindingNode(id);
        node := binding;
      } else {
        node := null;
        binding.next := null;
        binding.unbound := false;
      }
      binding.cb := cb;
      binding.arg := arg;
      if node == null {
        PutBack(old(contents), at, binding.View());
        PutBack(old(spine), at, binding);
      } else {
        PutLast(old(contents), binding.View());
        PutLast(old(spine), binding);
      }
      Link(prev, binding, at);
      ok := true;
    }

    /** `ls_event_unbind` on an event that is not running: out at once. */
    method UnbindNow(cb: nat)
      requires Valid()
      modifies footprint
      ensures Valid() && footprint <= old(footprint) && contents == Remove(old(contents), cb)
      ensures forall k :: 0 <= k < |spine| ==> spine[k] in old(spine)
    {
      var found, _ := RemoveBinding(cb);
    }

    /**
     `ls_event_unbind` on the running event: flagged for the sweep.  Where this returns
     false the C code asserts, and without assertions follows a null pointer.
     */
    method UnbindLater(cb: nat) returns (found: bool)
      requires Valid()
      modifies footprint
      ensures Valid() && footprint == old(footprint) && spine == old(spine)
      ensures found == Listed(old(contents), cb) && contents == MarkUnbound(old(contents), cb)
    {
      var cur := bindings;
      ghost var k := 0;
      while cur != null && cur.cb != cb
        invariant k <= |spine| && cur == At(k)
        invariant CbFrom(contents, cb, k) == IndexOfCb(contents, cb)
        decreases |spine| - k
      {
        assert contents[k] == spine[k].View();
        cur := cur.next;
        k := k + 1;
      }
      if cur == null {
        return false;
      }
      assert contents[k] == spine[k].View();
      cur.unbound := true;
      contents := contents[k := contents[k].(unbound := true)];
      return true;
    }

    /** `_set_bind_status`. */
    method SetBindStatus()
      requires Valid()
      modifies footprint
      ensures Valid() && footprint == old(footprint) && contents == MarkNormal(old(contents)) && spine == old(spine)
    {
      var cur := bindings;
      ghost var k := 0;
      while cur != null
        invariant Valid() && |contents| == |old(contents)| && footprint == old(footprint) && spine == old(spine)
        invariant k <= |spine| && cur == At(k)
        invariant forall i :: 0 <= i < |spine| ==>
          contents[i] == if i < k then old(contents)[i].(normal := true) else old(contents)[i]
        decreases |spine| - k
      {
        cur.normalBound := true;
        contents := contents[k := contents[k].(normal := true)];
        cur := cur.next;
        k := k + 1;
      }
    }

    /**
     In the middle of a sweep: `kept` is what has been kept of the first `k` nodes of
     `all`, and `was` is what the list held when the sweep began.
     */
    ghost predicate Sweeping(prev: BindingNode?, cur: BindingNode?, kept: seq<BindingNode>, k: nat,
                             all: seq<BindingNode>, was: seq<Binding>)
      reads this, footprint
    {
      && Valid() && k <= |all| == |was|
      && spine == kept + all[k..] && contents == Sweep(was[..k]) + was[k..]
      && |kept| == |Sweep(was[..k])|
      && (forall i :: 0 <= i < |kept| ==> kept[i] in all)
      && prev == (if kept == [] then null else kept[|kept| - 1])
      && cur == At(|kept|)
    }

    /** The node at `cur` stays. */
    lemma SweepKept(prev: BindingNode?, cur: BindingNode, kept: seq<BindingNode>, k: nat,
                    all: seq<BindingNode>, was: seq<Binding>)
      requires Sweeping(prev, cur, kept, k, all, was) && !cur.unbound
      ensures k < |all| && Sweeping(cur, cur.next, kept + [cur], k + 1, all, was)
    {
      Advance(kept, all, k);
      Advance(Sweep(was[..k]), was, k);
      SweepNext(was, k);
      assert contents[|kept|] == spine[|kept|].View() && spine[|kept|] == cur;
    }

    /** What leaving out the node at `cur` makes of the list. */
    lemma SweptOut(prev: BindingNode?, cur: BindingNode, kept: seq<BindingNode>, k: nat,
                   all: seq<BindingNode>, was: seq<Binding>)
      requires Sweeping(prev, cur, kept, k, all, was) && cur.unbound
      ensures var at := |kept|;
              && k < |all| && at < |spine| && spine[at] == cur && cur.next == At(at + 1)
              && spine[..at] + spine[at + 1..] == kept + all[k + 1..]
              && contents[..at] + contents[at + 1..] == Sweep(was[..k + 1]) + was[k + 1..]
              && at == |Sweep(was[..k + 1])|
    {
      Advance(kept, all, k);
      Advance(Sweep(was[..k]), was, k);
      SweepNext(was, k);
      assert contents[|kept|] == spine[|kept|].View() && spine[|kept|] == cur;
      assert Sweep(was[..k]) + [] == Sweep(was[..k]);
    }

    /** The node at `cur` goes. */
    method SweepOut(prev: BindingNode?, cur: BindingNode, ghost kept: seq<BindingNode>,
                    ghost k: nat, ghost all: seq<BindingNode>, ghost was: seq<Binding>)
      requires Sweeping(prev, cur, kept, k, all, was) && cur.unbound
      modifies footprint
      ensures k < |all| && Sweeping(prev, cur.next, kept, k + 1, all, was) && footprint <= old(footprint)
    {
      SweptOut(prev, cur, kept, k, all, was);
      Unlink(prev, cur, |kept|);
    }

    method SweepStep(prev: BindingNode?, cur: BindingNode, ghost kept: seq<BindingNode>,
                     ghost k: nat, ghost all: seq<BindingNode>, ghost was: seq<Binding>)
      returns (last: BindingNode?, ghost kept': seq<BindingNode>)
      requires Sweeping(prev, cur, kept, k, all, was)
      modifies footprint
      ensures k < |all| && Sweeping(last, cur.next, kept', k + 1, all, was) && footprint <= old(footprint)
    {
      if !cur.unbound {
        SweepKept(prev, cur, kept, k, all, was);
        last, kept' := cur, kept + [cur];
      } else {
        SweepOut(prev, cur, kept, k, all, was);
        last, kept' := prev, kept;
      }
    }

    lemma Swept(prev: BindingNode?, kept: seq<BindingNode>, k: nat, all: seq<BindingNode>, was: seq<Binding>)
      requires Sweeping(prev, null, kept, k, all, was)
      ensures contents == Sweep(was) && forall i :: 0 <= i < |spine| ==> spine[i] in all
    {
      assert k == |all|;
      assert was[..k] == was && was[k..] == [] && all[k..] == [];
    }

    /** `_process_pending_unbinds`. */
    method ProcessPendingUnbinds()
      requires Valid()
      modifies footprint
      ensures Valid() && footprint <= old(footprint) && contents == Sweep(old(contents))
      ensures forall i :: 0 <= i < |spine| ==> spine[i] in old(spine)
    {
      var prev: BindingNode? := null;
      var cur := bindings;
      ghost var k, kept := 0, [];
      ghost var all, was := spine, contents;
      while cur != null
        invariant Sweeping(prev, cur, kept, k, all, was) && footprint <= old(footprint)
        decreases |all| - k
      {
        prev, kept := SweepStep(prev, cur, kept, k, all, was);
        cur := cur.next;
        k := k + 1;
      }
      Swept(prev, kept, k, all, was);
    }
  }
}
