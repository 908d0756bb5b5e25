/** The kernel's shutdown hooks: a singly linked list kept in priority order. */
module ShutdownList {

  /** `run` stands for the function to call. */
  datatype Hook = Hook(name: string, run: nat, priority: int)

  ghost predicate InOrder(s: seq<Hook>) {
    forall i, j :: 0 <= i < j < |s| ==> s[i].priority <= s[j].priority
  }

  /** The hooks of one priority, in their order. */
  function Only(s: seq<Hook>, p: int): seq<Hook> {
    if s == [] then []
    else if s[0].priority == p then [s[0]] + Only(s[1..], p)
    else Only(s[1..], p)
  }

  /** Behind everything of the same or a smaller priority. */
  function Inserted(s: seq<Hook>, h: Hook): seq<Hook> {
    if s == [] || h.priority < s[0].priority then [h] + s
    else [s[0]] + Inserted(s[1..], h)
  }

  /** The list after registering `regs` one after the other. */
  function Registered(regs: seq<Hook>): seq<Hook> {
    if regs == [] then []
    else Inserted(Registered(regs[..|regs| - 1]), regs[|regs| - 1])
  }

  lemma {:induction false} InsertedAt(s: seq<Hook>, h: Hook, k: nat)
    requires k <= |s| && (forall i :: 0 <= i < k ==> s[i].priority <= h.priority)
    requires k < |s| ==> h.priority < s[k].priority
    ensures Inserted(s, h) == s[..k] + [h] + s[k..]
  {
    if k == 0 {
      assert s[..0] + [h] + s[0..] == [h] + s;
    } else {
      InsertedAt(s[1..], h, k - 1);
      assert s[..k] + [h] + s[k..] == [s[0]] + (s[1..][..k - 1] + [h] + s[1..][k - 1..]);
    }
  }

  lemma {:induction false} InsertedBag(s: seq<Hook>, h: Hook)
    ensures multiset(Inserted(s, h)) == multiset(s) + multiset{h}
  {
    if s == [] || h.priority < s[0].priority {
    } else {
      InsertedBag(s[1..], h);
      assert s == [s[0]] + s[1..];
    }
  }

  lemma {:induction false} InsertedAbove(s: seq<Hook>, h: Hook, p: int)
    requires p <= h.priority && forall i :: 0 <= i < |s| ==> p <= s[i].priority
    ensures forall i :: 0 <= i < |Inserted(s, h)| ==> p <= Inserted(s, h)[i].priority
  {
    if s == [] || h.priority < s[0].priority {
    } else {
      InsertedAbove(s[1..], h, p);
    }
  }

  /** A registration keeps the list sorted. */
  lemma {:induction false} InsertedInOrder(s: seq<Hook>, h: Hook)
    requires InOrder(s)
    ensures InOrder(Inserted(s, h))
  {
    if s == [] || h.priority < s[0].priority {
    } else {
      InsertedInOrder(s[1..], h);
      InsertedAbove(s[1..], h, s[0].priority);
    }
  }

  lemma {:induction false} OnlySplits(s: seq<Hook>, t: seq<Hook>, p: int)
    ensures Only(s + t, p) == Only(s, p) + Only(t, p)
  {
    if s == [] {
      assert s + t == t;
    } else {
      OnlySplits(s[1..], t, p);
      assert (s + t)[0] == s[0] && (s + t)[1..] == s[1..] + t;
    }
  }

  lemma {:induction false} OnlyInserted(s: seq<Hook>, h: Hook, p: int)
    requires InOrder(s)
    ensures Only(Inserted(s, h), p) == Only(s + [h], p)
  {
    OnlySplits(s, [h], p);
    if s == [] {
    } else if h.priority < s[0].priority {
      OnlySplits([h], s, p);
      if p == h.priority {
        NoneBelow(s, p);
      }
    } else {
      OnlyInserted(s[1..], h, p);
      OnlySplits(s[1..], [h], p);
      OnlySplits([s[0]], Inserted(s[1..], h), p);
    }
  }

  lemma {:induction false} NoneBelow(s: seq<Hook>, p: int)
    requires forall i :: 0 <= i < |s| ==> p < s[i].priority
    ensures Only(s, p) == []
  {
    if s == [] {
    } else {
      NoneBelow(s[1..], p);
    }
  }

  /** The list is the registrations, all of them, in priority order, with those of one priority
      in the order in which they were registered. */
  lemma {:induction false} RegisteredIsStableSort(regs: seq<Hook>)
    ensures InOrder(Registered(regs))
    ensures multiset(Registered(regs)) == multiset(regs)
    ensures forall p :: Only(Registered(regs), p) == Only(regs, p)
    decreases |regs|
  {
    if regs == [] {
    } else {
      var front, h := regs[..|regs| - 1], regs[|regs| - 1];
      assert regs == front + [h];
      RegisteredIsStableSort(front);
      InsertedInOrder(Registered(front), h);
      InsertedBag(Registered(front), h);
      forall p ensures Only(Registered(regs), p) == Only(regs, p) {
        OnlyInserted(Registered(front), h, p);
        OnlySplits(Registered(front), [h], p);
        OnlySplits(front, [h], p);
      }
    }
  }

  lemma {:induction false} OnlyMember(s: seq<Hook>, p: int, i: nat)
    requires i < |s| && s[i].priority == p
    ensures Only(s, p) != []
  {
    if i == 0 {
    } else {
      OnlyMember(s[1..], p, i - 1);
    }
  }

  lemma {:induction false} OnlyWitness(s: seq<Hook>, p: int) returns (i: nat)
    requires Only(s, p) != []
    ensures i < |s| && s[i].priority == p
  {
    if s[0].priority == p {
      i := 0;
    } else {
      i := OnlyWitness(s[1..], p);
      i := i + 1;
    }
  }

  lemma SmallestLeads(a: seq<Hook>, b: seq<Hook>)
    requires a != [] && InOrder(b) && Only(a, a[0].priority) == Only(b, a[0].priority)
    ensures b != [] && b[0].priority <= a[0].priority
  {
    OnlyMember(a, a[0].priority, 0);
    var i := OnlyWitness(b, a[0].priority);
  }

  /** There is only one such order. */
  lemma {:induction false} StableSortUnique(a: seq<Hook>, b: seq<Hook>)
    requires InOrder(a) && InOrder(b) && forall p :: Only(a, p) == Only(b, p)
    ensures a == b
    decreases |a|
  {
    if a == [] {
      if b == [] {
      } else {
        SmallestLeads(b, a);
      }
    } else {
      SmallestLeads(a, b);
      SmallestLeads(b, a);
      assert Only(a, a[0].priority)[0] == Only(b, a[0].priority)[0];
      forall p ensures Only(a[1..], p) == Only(b[1..], p) {
        assert Only(a, p) == Only(b, p);
        assert p == a[0].priority ==> Only(a, p)[1..] == Only(a[1..], p) && Only(b, p)[1..] == Only(b[1..], p);
        assert p != a[0].priority ==> Only(a, p) == Only(a[1..], p) && Only(b, p) == Only(b[1..], p);
      }
      StableSortUnique(a[1..], b[1..]);
    }
  }

  class Node {
    const hook: Hook
    var next: Node?

    constructor (hook: Hook, next: Node?)
      ensures this.hook == hook && this.next == next
    {
      this.hook, this.next := hook, next;
    }
  }

  ghost function Hooks(ns: seq<Node>): (s: seq<Hook>)
    ensures |s| == |ns| && forall i :: 0 <= i < |s| ==> s[i] == ns[i].hook
  {
    seq(|ns|, i requires 0 <= i < |ns| => ns[i].hook)
  }

  ghost function Link(ns: seq<Node>, i: nat): Node? {
    if i < |ns| then ns[i] else null
  }

  /** The chain from `head` visits `ns`, each node once, and ends. */
  ghost predicate Chained(head: Node?, ns: seq<Node>)
    reads ns
  {
    && head == Link(ns, 0)
    && (forall i :: 0 <= i < |ns| ==> ns[i].next == Link(ns, i + 1))
    && (forall i, j :: 0 <= i < j < |ns| ==> ns[i] != ns[j])
  }

  function Spliced<T>(s: seq<T>, k: nat, x: T): seq<T>
    requires k <= |s|
  {
    s[..k] + [x] + s[k..]
  }

  lemma SplicedAt<T>(s: seq<T>, k: nat, x: T)
    requires k <= |s|
    ensures |Spliced(s, k, x)| == |s| + 1 && Spliced(s, k, x)[k] == x
    ensures forall i :: 0 <= i < k ==> Spliced(s, k, x)[i] == s[i]
    ensures forall i :: k < i <= |s| ==> Spliced(s, k, x)[i] == s[i - 1]
  {
  }

  /** Hanging `n` in behind the first `k` nodes. */
  lemma ChainSpliced(head: Node?, ns: seq<Node>, k: nat, n: Node)
    requires k <= |ns| && n !in ns && n.next == Link(ns, k)
    requires forall i, j :: 0 <= i < j < |ns| ==> ns[i] != ns[j]
    requires if k == 0 then head == n else head == ns[0] && ns[k - 1].next == n
    requires forall i :: 0 <= i < |ns| && i != k - 1 ==> ns[i].next == Link(ns, i + 1)
    ensures Chained(head, Spliced(ns, k, n))
  {
    SplicedAt(ns, k, n);
  }

  /** There, behind everything not above its priority, it stands where it belongs. */
  lemma HooksSpliced(ns: seq<Node>, k: nat, n: Node)
    requires k <= |ns|
    requires forall i :: 0 <= i < k ==> ns[i].hook.priority <= n.hook.priority
    requires k < |ns| ==> n.hook.priority < ns[k].hook.priority
    ensures Hooks(Spliced(ns, k, n)) == Inserted(Hooks(ns), n.hook)
  {
    InsertedAt(Hooks(ns), n.hook, k);
    assert Hooks(Spliced(ns, k, n)) == Spliced(Hooks(ns), k, n.hook);
  }

  class LinkedList {
    var node: Node?
    ghost var nodes: seq<Node>
    ghost var repr: set<Node>

    ghost predicate Valid()
      reads this, repr
    {
      && (forall n :: n in nodes ==> n in repr)
      && Chained(node, nodes)
    }

    constructor ()
      ensures Valid() && nodes == [] && repr == {}
    {
      node, nodes, repr := null, [], {};
    }

    method RegisterShutdown(name: string, run: nat, priority: int)
      requires Valid()
      modifies this, repr
      ensures Valid() && fresh(repr - old(repr))
      ensures Hooks(nodes) == Inserted(old(Hooks(nodes)), Hook(name, run, priority))
    {
      var newShutdown := new Node(Hook(name, run, priority), null);
      if node == null || node.hook.priority > priority {
        HooksSpliced(nodes, 0, newShutdown);
        newShutdown.next := node;
        node := newShutdown;
        Record(0, newShutdown);
      } else {
        var current, k := Predecessor(priority);
        HooksSpliced(nodes, k, newShutdown);
        newShutdown.next := current.next;
        current.next := newShutdown;
        Record(k, newShutdown);
      }
    }

    /** The bookkeeping of an insertion whose links are in place. */
    ghost method Record(k: nat, n: Node)
      requires k <= |nodes| && n !in nodes && n.next == Link(nodes, k)
      requires forall m :: m in nodes ==> m in repr
      requires forall i, j :: 0 <= i < j < |nodes| ==> nodes[i] != nodes[j]
      requires if k == 0 then node == n else node == nodes[0] && nodes[k - 1].next == n
      requires forall i :: 0 <= i < |nodes| && i != k - 1 ==> nodes[i].next == Link(nodes, i + 1)
      modifies this`nodes, this`repr
      ensures Valid() && nodes == Spliced(old(nodes), k, n) && repr == old(repr) + {n}
    {
      ChainSpliced(node, nodes, k, n);
      SplicedAt(nodes, k, n);
      nodes := Spliced(nodes, k, n);
      repr := repr + {n};
    }

    /** The last node whose priority is not above `priority`. */
    method Predecessor(priority: int) returns (current: Node, ghost k: nat)
      requires Valid() && node != null && node.hook.priority <= priority
      ensures 1 <= k <= |nodes| && current == nodes[k - 1]
      ensures forall i :: 0 <= i < k ==> nodes[i].hook.priority <= priority
      ensures k < |nodes| ==> priority < nodes[k].hook.priority
    {
      current, k := node, 1;
      while current.next != null && current.next.hook.priority <= priority
        invariant 1 <= k <= |nodes| && current == nodes[k - 1]
        invariant forall i :: 0 <= i < k ==> nodes[i].hook.priority <= priority
        decreases |nodes| - k
      {
        current := current.next;
        k := k + 1;
      }
    }

    /** Runs the hooks from the front; returns them in the order in which they ran. */
    method ShutdownAll() returns (ran: seq<Hook>)
      requires Valid()
      modifies this
      ensures Valid() && nodes == []
      ensures ran == old(Hooks(nodes))
    {
      ghost var all := nodes;
      ghost var i := 0;
      ran := [];
      while node != null
        invariant 0 <= i <= |all| && Chained(Link(all, 0), all)
        invariant node == Link(all, i) && ran == Hooks(all[..i])
        decreases |all| - i
      {
        ran := ran + [node.hook];
        node := node.next;
        i := i + 1;
      }
      assert all[..i] == all;
      nodes := [];
    }
  }

  /** Registering `regs` in turn and shutting down runs each hook exactly once, in the order of
      the stable sort by priority. */
  method RegisterAndShutDown(regs: seq<Hook>) returns (ran: seq<Hook>)
    ensures InOrder(ran) && multiset(ran) == multiset(regs)
    ensures forall p :: Only(ran, p) == Only(regs, p)
  {
    var list := new LinkedList();
    for i := 0 to |regs|
      invariant list.Valid() && Hooks(list.nodes) == Registered(regs[..i]) && InOrder(Hooks(list.nodes))
      invariant fresh(list) && fresh(list.repr)
    {
      assert regs[..i + 1][..i] == regs[..i];
      InsertedInOrder(Hooks(list.nodes), regs[i]);
      list.RegisterShutdown(regs[i].name, regs[i].run, regs[i].priority);
    }
    ran := list.ShutdownAll();
    assert regs[..|regs|] == regs;
    RegisteredIsStableSort(regs);
  }
}
