/** HealthEndpoint.CountWatchers: a queue traversal of a snapshot of the tree of watchers. */
module Health {
  import opened Common

  /** The watchers as the endpoint finds them; `NilLeaf` is a nil interface, the others a nil pointer
      or interface. */
  datatype Leaf = NilLeaf | Leaf

  datatype Crd = NilCrd | Crd(children: map<string, Leaf>)

  datatype Root = NilRoot | Root(crds: map<string, Crd>)

  /** What the queue holds: any of the three behind the Watcher interface. */
  datatype Item = TheRoot(root: Root) | ACrd(crd: Crd) | ALeaf(leaf: Leaf)

  /** The queue.  Its type is called stack in the source, but pop takes the oldest element. */
  class Stack<T> {
    var elems: seq<T>

    constructor ()
      ensures elems == []
    {
      elems := [];
    }

    method Push(elem: T)
      modifies this
      ensures elems == old(elems) + [elem]
    {
      elems := elems + [elem];
    }

    method Pop() returns (r: Result<T, string>)
      modifies this
      ensures r.Err? <==> old(elems) == []
      ensures r.Err? ==> elems == []
      ensures r.Ok? ==> old(elems) == [r.value] + elems
    {
      var empty := IsEmpty();
      if empty {
        return Err("Empty stack");
      }
      r := Ok(elems[0]);
      elems := elems[1..];
    }

    method IsEmpty() returns (r: bool)
      ensures r <==> elems == []
    {
      r := |elems| == 0;
    }
  }

  /** The sum of f over a set, in some order. */
  ghost function Sum(keys: set<string>, f: string -> nat): nat {
    if keys == {} then 0
    else
      var k :| k in keys;
      f(k) + Sum(keys - {k}, f)
  }

  /** The order does not matter. */
  lemma {:induction false} SumSplit(keys: set<string>, f: string -> nat, k: string)
    requires k in keys
    ensures Sum(keys, f) == f(k) + Sum(keys - {k}, f)
  {
    var first :| first in keys && Sum(keys, f) == f(first) + Sum(keys - {first}, f);
    if first != k {
      SumSplit(keys - {first}, f, k);
      SumSplit(keys - {k}, f, first);
      assert keys - {first} - {k} == keys - {k} - {first};
    }
  }

  function LeafNodes(leaf: Leaf): nat {
    if leaf.Leaf? then 1 else 0
  }

  /** The non-nil nodes of the tree: one for the watcher itself, one for each watcher below. */
  ghost function CrdNodes(crd: Crd): nat {
    match crd
    case NilCrd => 0
    case Crd(children) => 1 + Sum(children.Keys, k => if k in children then LeafNodes(children[k]) else 0)
  }

  ghost function RootNodes(root: Root): nat {
    match root
    case NilRoot => 0
    case Root(crds) => 1 + Sum(crds.Keys, k => if k in crds then CrdNodes(crds[k]) else 0)
  }

  ghost function Nodes(item: Item): nat {
    match item
    case TheRoot(root) => RootNodes(root)
    case ACrd(crd) => CrdNodes(crd)
    case ALeaf(leaf) => LeafNodes(leaf)
  }

  /** How often popping an item and everything it leads to can still happen. */
  ghost function Pops(item: Item): nat {
    match item
    case ALeaf(_) => 1
    case ACrd(crd) => CrdPops(crd)
    case TheRoot(NilRoot) => 1
    case TheRoot(Root(crds)) => 1 + Sum(crds.Keys, k => if k in crds then CrdPops(crds[k]) else 0)
  }

  function CrdPops(crd: Crd): nat {
    match crd case NilCrd => 1 case Crd(children) => 1 + |children.Keys|
  }

  ghost function AllNodes(items: seq<Item>): nat {
    if items == [] then 0 else Nodes(items[0]) + AllNodes(items[1..])
  }

  ghost function AllPops(items: seq<Item>): nat {
    if items == [] then 0 else Pops(items[0]) + AllPops(items[1..])
  }

  lemma {:induction false} Enqueued(items: seq<Item>, item: Item)
    ensures AllNodes(items + [item]) == AllNodes(items) + Nodes(item)
    ensures AllPops(items + [item]) == AllPops(items) + Pops(item)
  {
    if items == [] {
      assert [item][1..] == [];
      assert items + [item] == [item];
    } else {
      assert (items + [item])[1..] == items[1..] + [item];
      Enqueued(items[1..], item);
    }
  }

  /** for _, child := range w.CrdWatchers { stack.push(child) }, in any order. */
  method PushCrds(stack: Stack<Item>, crds: map<string, Crd>)
    modifies stack
    ensures AllNodes(stack.elems) == old(AllNodes(stack.elems)) + RootNodes(Root(crds)) - 1
    ensures AllPops(stack.elems) == old(AllPops(stack.elems)) + Pops(TheRoot(Root(crds))) - 1
  {
    ghost var nodes: string -> nat := k => if k in crds then CrdNodes(crds[k]) else 0;
    ghost var pops: string -> nat := k => if k in crds then CrdPops(crds[k]) else 0;
    var todo := crds.Keys;
    while todo != {}
      invariant todo <= crds.Keys
      invariant AllNodes(stack.elems) + Sum(todo, nodes) == old(AllNodes(stack.elems)) + Sum(crds.Keys, nodes)
      invariant AllPops(stack.elems) + Sum(todo, pops) == old(AllPops(stack.elems)) + Sum(crds.Keys, pops)
    {
      var k :| k in todo;
      SumSplit(todo, nodes, k);
      SumSplit(todo, pops, k);
      Enqueued(stack.elems, ACrd(crds[k]));
      stack.Push(ACrd(crds[k]));
      todo := todo - {k};
    }
  }

  lemma {:induction false} SumOfOnes(keys: set<string>, f: string -> nat)
    requires forall k :: k in keys ==> f(k) == 1
    ensures Sum(keys, f) == |keys|
  {
    if keys != {} {
      var k :| k in keys;
      SumSplit(keys, f, k);
      SumOfOnes(keys - {k}, f);
    }
  }

  method PushLeaves(stack: Stack<Item>, children: map<string, Leaf>)
    modifies stack
    ensures AllNodes(stack.elems) == old(AllNodes(stack.elems)) + CrdNodes(Crd(children)) - 1
    ensures AllPops(stack.elems) == old(AllPops(stack.elems)) + |children.Keys|
  {
    ghost var nodes: string -> nat := k => if k in children then LeafNodes(children[k]) else 0;
    var todo := children.Keys;
    while todo != {}
      invariant todo <= children.Keys
      invariant AllNodes(stack.elems) + Sum(todo, nodes) == old(AllNodes(stack.elems)) + Sum(children.Keys, nodes)
      invariant AllPops(stack.elems) + |todo| == old(AllPops(stack.elems)) + |children.Keys|
    {
      var k :| k in todo;
      SumSplit(todo, nodes, k);
      Enqueued(stack.elems, ALeaf(children[k]));
      stack.Push(ALeaf(children[k]));
      todo := todo - {k};
    }
  }

  /** CountWatchers terminates and counts exactly the non-nil nodes of the snapshot. */
  method CountWatchers(main: Root) returns (count: nat)
    ensures count == RootNodes(main)
  {
    var stack := new Stack<Item>();
    count := 0;
    Enqueued([], TheRoot(main));
    assert [] + [TheRoot(main)] == [TheRoot(main)];
    stack.Push(TheRoot(main));
    while true
      invariant fresh(stack)
      invariant count + AllNodes(stack.elems) == RootNodes(main)
      decreases AllPops(stack.elems)
    {
      var empty := stack.IsEmpty();
      if empty {
        break;
      }
      ghost var queue := stack.elems;
      var current := stack.Pop();
      assert queue[1..] == stack.elems && queue[0] == current.value;
      match current.value {
        case TheRoot(root) =>
          if root.NilRoot? {
            continue;
          }
          PushCrds(stack, root.crds);
        case ACrd(crd) =>
          if crd.NilCrd? {
            continue;
          }
          PushLeaves(stack, crd.children);
        case ALeaf(leaf) =>
          if leaf.NilLeaf? {
            continue;
          }
      }
      count := count + 1;
    }
  }

  /** Without nil watchers that is 1 + the sum over the CRD watchers of 1 + their children. */
  lemma NodesOfFullTree(crds: map<string, Crd>)
    requires forall k :: k in crds ==> crds[k].Crd? && forall n :: n in crds[k].children ==> crds[k].children[n].Leaf?
    ensures RootNodes(Root(crds)) ==
            1 + Sum(crds.Keys, k => if k in crds && crds[k].Crd? then 1 + |crds[k].children.Keys| else 0)
  {
    var f: string -> nat := k => if k in crds then CrdNodes(crds[k]) else 0;
    var g: string -> nat := k => if k in crds && crds[k].Crd? then 1 + |crds[k].children.Keys| else 0;
    forall k | k in crds.Keys ensures f(k) == g(k) {
      var children := crds[k].children;
      var ones: string -> nat := n => if n in children then LeafNodes(children[n]) else 0;
      SumOfOnes(children.Keys, ones);
    }
    SumCongruence(crds.Keys, f, g);
  }

  lemma {:induction false} SumCongruence(keys: set<string>, f: string -> nat, g: string -> nat)
    requires forall k :: k in keys ==> f(k) == g(k)
    ensures Sum(keys, f) == Sum(keys, g)
  {
    if keys != {} {
      var k :| k in keys;
      SumSplit(keys, f, k);
      SumSplit(keys, g, k);
      SumCongruence(keys - {k}, f, g);
    }
  }

  /** In general: the non-nil CrdWatchers count one each, with their non-nil children. */
  lemma NodesOfTree(crds: map<string, Crd>)
    ensures RootNodes(NilRoot) == 0
    ensures RootNodes(Root(crds)) == 1 + Sum(crds.Keys, k => if k in crds then Weight(crds[k]) else 0)
  {
    var f: string -> nat := k => if k in crds then CrdNodes(crds[k]) else 0;
    var g: string -> nat := k => if k in crds then Weight(crds[k]) else 0;
    forall k | k in crds.Keys ensures f(k) == g(k) {
      if crds[k].Crd? { NodesOfCrd(crds[k].children.Keys, crds[k].children); }
    }
    SumCongruence(crds.Keys, f, g);
  }

  /** The names in `keys` whose leaf is not nil. */
  function Present(keys: set<string>, children: map<string, Leaf>): set<string> {
    set n | n in keys && n in children && children[n].Leaf?
  }

  function Weight(crd: Crd): nat {
    match crd
    case NilCrd => 0
    case Crd(children) => 1 + |Present(children.Keys, children)|
  }

  lemma PresentSplits(keys: set<string>, children: map<string, Leaf>, k: string)
    requires k in keys && k in children
    ensures |Present(keys, children)| == LeafNodes(children[k]) + |Present(keys - {k}, children)|
  {
    var rest := Present(keys - {k}, children);
    assert Present(keys, children) == if children[k].Leaf? then rest + {k} else rest;
  }

  lemma {:induction false} NodesOfCrd(keys: set<string>, children: map<string, Leaf>)
    requires keys <= children.Keys
    ensures Sum(keys, k => if k in children then LeafNodes(children[k]) else 0) == |Present(keys, children)|
  {
    var f: string -> nat := k => if k in children then LeafNodes(children[k]) else 0;
    if keys == {} {
      assert Present(keys, children) == {};
    } else {
      var k :| k in keys;
      SumSplit(keys, f, k);
      NodesOfCrd(keys - {k}, children);
      PresentSplits(keys, children, k);
    }
  }
}
