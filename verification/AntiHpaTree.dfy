/** The search tree in which AntiHPAWatcher sorts the containers of a metrics listing by CPU, and
    its agreement with one linear scan of the listing.
 */
module AntiHpaTree {
  import opened Common

  datatype Usage = Usage(cpu: int, memory: int, podName: string, containerName: string)

  /** `cpu` and `memory` are what AsInt64 converts the quantities to, if it can. */
  datatype ContainerMetrics = ContainerMetrics(name: string, cpu: Option<int>, memory: Option<int>)

  datatype PodMetrics = PodMetrics(name: string, containers: seq<ContainerMetrics>)

  /** A node of the tree; `Contents` is its subtree in order. */
  class Node {
    const usage: Usage
    var left: Node?
    var right: Node?
    ghost var Contents: seq<Usage>
    ghost var Repr: set<object>

    ghost predicate Valid()
      reads this, Repr
      ensures Valid() ==> this in Repr
    {
      && this in Repr
      && (left != null ==> left in Repr && left.Repr <= Repr && this !in left.Repr && left.Valid())
      && (right != null ==> right in Repr && right.Repr <= Repr && this !in right.Repr && right.Valid())
      && (left != null && right != null ==> left.Repr !! right.Repr)
      && AllBelow(InOrder(left), usage.cpu)
      && AllFrom(InOrder(right), usage.cpu)
      && Contents == InOrder(left) + [usage] + InOrder(right)
    }

    /** n.Left = child, for a child that has replaced the left subtree. */
    method HangLeft(child: Node)
      requires this in Repr && child.Valid() && this !in child.Repr
      requires right != null ==> right in Repr && right.Repr <= Repr && this !in right.Repr && right.Valid()
      requires right != null ==> right.Repr !! child.Repr
      requires AllBelow(child.Contents, usage.cpu) && AllFrom(InOrder(right), usage.cpu)
      modifies this
      ensures Valid() && Repr == old(Repr) + child.Repr
      ensures Contents == child.Contents + [usage] + old(InOrder(right))
    {
      left := child;
      Repr := Repr + child.Repr;
      Contents := InOrder(left) + [usage] + InOrder(right);
    }

    /** n.Right = child, for a child that has replaced the right subtree. */
    method HangRight(child: Node)
      requires this in Repr && child.Valid() && this !in child.Repr
      requires left != null ==> left in Repr && left.Repr <= Repr && this !in left.Repr && left.Valid()
      requires left != null ==> left.Repr !! child.Repr
      requires AllBelow(InOrder(left), usage.cpu) && AllFrom(child.Contents, usage.cpu)
      modifies this
      ensures Valid() && Repr == old(Repr) + child.Repr
      ensures Contents == old(InOrder(left)) + [usage] + child.Contents
    {
      right := child;
      Repr := Repr + child.Repr;
      Contents := InOrder(left) + [usage] + InOrder(right);
    }

    constructor (usage: Usage)
      ensures Valid() && fresh(Repr) && Contents == [usage]
    {
      this.usage := usage;
      left, right := null, null;
      Contents, Repr := [usage], {this};
    }
  }

  ghost predicate AllBelow(s: seq<Usage>, cpu: int) {
    forall u :: u in s ==> u.cpu < cpu
  }

  ghost predicate AllFrom(s: seq<Usage>, cpu: int) {
    forall u :: u in s ==> cpu <= u.cpu
  }

  ghost function InOrder(n: Node?): seq<Usage>
    reads n
  {
    if n == null then [] else n.Contents
  }

  /** The sequence with u put behind every entry that does not use more CPU. */
  function Placed(s: seq<Usage>, u: Usage): seq<Usage> {
    if s == [] || s[|s| - 1].cpu <= u.cpu then s + [u]
    else Placed(s[..|s| - 1], u) + [s[|s| - 1]]
  }

  lemma {:induction false} PlacedIsPermutation(s: seq<Usage>, u: Usage)
    ensures multiset(Placed(s, u)) == multiset(s) + multiset{u}
  {
    if s != [] && s[|s| - 1].cpu > u.cpu {
      PlacedIsPermutation(s[..|s| - 1], u);
      assert s == s[..|s| - 1] + [s[|s| - 1]];
    }
  }

  lemma {:induction false} PlacedMembers(s: seq<Usage>, u: Usage)
    ensures forall v :: v in Placed(s, u) <==> v in s || v == u
  {
    PlacedIsPermutation(s, u);
    forall v ensures v in Placed(s, u) <==> v in s || v == u {
      assert v in Placed(s, u) <==> v in multiset(Placed(s, u));
      assert v in s <==> v in multiset(s);
    }
  }

  /** Placing in front of entries that use more. */
  lemma {:induction false} PlacedLeft(a: seq<Usage>, b: seq<Usage>, u: Usage)
    requires b != [] && forall v :: v in b ==> u.cpu < v.cpu
    ensures Placed(a + b, u) == Placed(a, u) + b
    decreases |b|
  {
    var n := |b| - 1;
    assert (a + b)[..|a + b| - 1] == a + b[..n];
    assert b == b[..n] + [b[n]];
    if n == 0 {
      assert a + b[..n] == a;
    } else {
      PlacedLeft(a, b[..n], u);
      assert Placed(a, u) + b[..n] + [b[n]] == Placed(a, u) + b;
    }
  }

  /** Placing behind entries that do not use more. */
  lemma {:induction false} PlacedRight(a: seq<Usage>, b: seq<Usage>, u: Usage)
    requires a != [] && a[|a| - 1].cpu <= u.cpu
    ensures Placed(a + b, u) == a + Placed(b, u)
    decreases |b|
  {
    if b == [] {
      assert a + b == a;
    } else {
      var n := |b| - 1;
      assert (a + b)[..|a + b| - 1] == a + b[..n];
      PlacedRight(a, b[..n], u);
      if b[n].cpu <= u.cpu {
        assert a + b + [u] == a + (b + [u]);
      } else {
        assert a + Placed(b[..n], u) + [b[n]] == a + (Placed(b[..n], u) + [b[n]]);
      }
    }
  }

  /** Going left keeps the order of the node. */
  lemma InsertedLeft(l: seq<Usage>, at: Usage, r: seq<Usage>, u: Usage)
    requires AllBelow(l, at.cpu) && AllFrom(r, at.cpu) && u.cpu < at.cpu
    ensures AllBelow(Placed(l, u), at.cpu)
    ensures Placed(l + [at] + r, u) == Placed(l, u) + [at] + r
  {
    PlacedMembers(l, u);
    assert l + [at] + r == l + ([at] + r);
    PlacedLeft(l, [at] + r, u);
    assert Placed(l, u) + ([at] + r) == Placed(l, u) + [at] + r;
  }

  /** Going right keeps the order of the node. */
  lemma InsertedRight(l: seq<Usage>, at: Usage, r: seq<Usage>, u: Usage)
    requires AllFrom(r, at.cpu) && at.cpu <= u.cpu
    ensures AllFrom(Placed(r, u), at.cpu)
    ensures Placed(l + [at] + r, u) == l + [at] + Placed(r, u)
  {
    PlacedMembers(r, u);
    PlacedRight(l + [at], r, u);
  }

  /** insert: in place, smaller to the left, equal or larger to the right; the tree then reads in
      order as before with u placed in it. */
  method Insert(n: Node?, u: Usage) returns (m: Node)
    requires n != null ==> n.Valid()
    modifies if n == null then {} else n.Repr
    ensures m.Valid() && (n != null ==> m == n)
    ensures fresh(m.Repr - (if n == null then {} else old(n.Repr)))
    ensures m.Contents == Placed(old(InOrder(n)), u)
    decreases if n == null then {} else n.Repr, 1
  {
    if n == null {
      m := new Node(u);
      return;
    }
    if u.cpu < n.usage.cpu {
      InsertLeft(n, u);
    } else {
      InsertRight(n, u);
    }
    m := n;
  }

  /** n.Left = n.Left.insert(u) */
  method InsertLeft(n: Node, u: Usage)
    requires n.Valid() && u.cpu < n.usage.cpu
    modifies n.Repr
    ensures n.Valid() && fresh(n.Repr - old(n.Repr))
    ensures n.Contents == Placed(old(n.Contents), u)
    decreases n.Repr, 0
  {
    InsertedLeft(InOrder(n.left), n.usage, InOrder(n.right), u);
    var child := Insert(n.left, u);
    n.HangLeft(child);
  }

  /** n.Right = n.Right.insert(u) */
  method InsertRight(n: Node, u: Usage)
    requires n.Valid() && n.usage.cpu <= u.cpu
    modifies n.Repr
    ensures n.Valid() && fresh(n.Repr - old(n.Repr))
    ensures n.Contents == Placed(old(n.Contents), u)
    decreases n.Repr, 0
  {
    InsertedRight(InOrder(n.left), n.usage, InOrder(n.right), u);
    var child := Insert(n.right, u);
    n.HangRight(child);
  }

  /** getMostUsedCpu: the end of the right spine is the last entry in order. */
  method GetMostUsedCpu(n: Node?) returns (m: Node?)
    requires n != null ==> n.Valid()
    ensures m == null <==> n == null
    ensures n != null ==> m in n.Repr && m.usage == n.Contents[|n.Contents| - 1]
    decreases if n == null then {} else n.Repr
  {
    if n == null {
      return null;
    }
    if n.right != null {
      m := GetMostUsedCpu(n.right);
      return;
    }
    m := n;
  }

  /** The containers of one pod whose CPU and memory both convert. */
  function UsagesOf(pod: string, containers: seq<ContainerMetrics>): seq<Usage> {
    if containers == [] then []
    else
      var c := containers[|containers| - 1];
      UsagesOf(pod, containers[..|containers| - 1]) +
      (if c.cpu.Some? && c.memory.Some? then [Usage(c.cpu.value, c.memory.value, pod, c.name)] else [])
  }

  /** All of them, in listing order. */
  function Usages(items: seq<PodMetrics>): seq<Usage> {
    if items == [] then []
    else Usages(items[..|items| - 1]) + UsagesOf(items[|items| - 1].name, items[|items| - 1].containers)
  }

  /** What the tree reads in order after inserting the entries one by one. */
  function Sorted(us: seq<Usage>): seq<Usage> {
    if us == [] then [] else Placed(Sorted(us[..|us| - 1]), us[|us| - 1])
  }

  /** Entry i uses the most CPU, and every later one less. */
  predicate LastMaximum(us: seq<Usage>, i: nat) {
    && i < |us|
    && (forall j :: 0 <= j < |us| ==> us[j].cpu <= us[i].cpu)
    && (forall j :: i < j < |us| ==> us[j].cpu < us[i].cpu)
  }

  /** The linear scan: keep the best so far unless the next is at least as good. */
  function Scan(us: seq<Usage>): Option<Usage> {
    if us == [] then None
    else
      var best := Scan(us[..|us| - 1]);
      if best.Some? && us[|us| - 1].cpu < best.value.cpu then best else Some(us[|us| - 1])
  }

  lemma {:induction false} ScanFindsLastMaximum(us: seq<Usage>) returns (i: nat)
    requires us != []
    ensures LastMaximum(us, i) && Scan(us) == Some(us[i])
  {
    var n := |us| - 1;
    if n == 0 {
      return 0;
    }
    i := ScanFindsLastMaximum(us[..n]);
    assert forall j :: 0 <= j < n ==> us[..n][j] == us[j];
    if us[i].cpu <= us[n].cpu {
      i := n;
    }
  }

  lemma PlacedEnd(s: seq<Usage>, u: Usage)
    ensures |Placed(s, u)| == |s| + 1
    ensures Placed(s, u)[|s|] == if s != [] && u.cpu < s[|s| - 1].cpu then s[|s| - 1] else u
  {
    if s != [] && u.cpu < s[|s| - 1].cpu { PlacedEnd(s[..|s| - 1], u); }
  }

  /** The tree ends in what the scan finds. */
  lemma {:induction false} SortedEndsInScan(us: seq<Usage>)
    ensures |Sorted(us)| == |us|
    ensures Scan(us) == if us == [] then None else Some(Sorted(us)[|us| - 1])
  {
    if us != [] {
      SortedEndsInScan(us[..|us| - 1]);
      PlacedEnd(Sorted(us[..|us| - 1]), us[|us| - 1]);
    }
  }

  /** The tree holds every entry as often as the listing does. */
  lemma {:induction false} SortedIsPermutation(us: seq<Usage>)
    ensures multiset(Sorted(us)) == multiset(us)
  {
    if us != [] {
      var n := |us| - 1;
      SortedIsPermutation(us[..n]);
      PlacedIsPermutation(Sorted(us[..n]), us[n]);
      WithLast(us);
    }
  }

  lemma {:induction false} WithLast(us: seq<Usage>)
    requires us != []
    ensures multiset(us) == multiset(us[..|us| - 1]) + multiset{us[|us| - 1]}
  {
    assert us == us[..|us| - 1] + [us[|us| - 1]];
  }

  /** The tree that the nested loops have built from the entries `us`. */
  ghost predicate Built(tree: Node?, us: seq<Usage>)
    reads tree, if tree == null then {} else tree.Repr
  {
    (tree != null ==> tree.Valid()) && InOrder(tree) == Sorted(us)
  }

  /** The body of the inner loop: only a container that converts enters the tree. */
  method Record(tree: Node?, pod: string, c: ContainerMetrics, ghost us: seq<Usage>) returns (root: Node?)
    requires Built(tree, us)
    modifies if tree == null then {} else tree.Repr
    ensures Built(root, us + UsagesOf(pod, [c]))
    ensures root != null ==> fresh(root.Repr - (if tree == null then {} else old(tree.Repr)))
  {
    root := tree;
    if c.cpu.Some? && c.memory.Some? {
      var u := Usage(c.cpu.value, c.memory.value, pod, c.name);
      assert UsagesOf(pod, [c]) == [u];
      assert (us + [u])[..|us|] == us;
      if tree == null {
        root := Insert(tree, u);
      } else {
        var _ := Insert(tree, u);
      }
    } else {
      assert us + UsagesOf(pod, [c]) == us;
    }
  }

  lemma UsagesOfGrow(us: seq<Usage>, pod: string, containers: seq<ContainerMetrics>, k: nat)
    requires k < |containers|
    ensures us + UsagesOf(pod, containers[..k + 1]) ==
            us + UsagesOf(pod, containers[..k]) + UsagesOf(pod, [containers[k]])
  {
    assert containers[..k + 1][..k] == containers[..k];
    assert [containers[k]][..0] == [];
  }

  /** The inner loop. */
  method RecordPod(tree: Node?, item: PodMetrics, ghost us: seq<Usage>) returns (root: Node?)
    requires Built(tree, us)
    modifies if tree == null then {} else tree.Repr
    ensures Built(root, us + UsagesOf(item.name, item.containers))
    ensures root != null ==> fresh(root.Repr - (if tree == null then {} else old(tree.Repr)))
  {
    root := tree;
    ghost var owned := if tree == null then {} else tree.Repr;
    ghost var seen := us;
    assert us + UsagesOf(item.name, []) == us;
    for k := 0 to |item.containers|
      invariant seen == us + UsagesOf(item.name, item.containers[..k])
      invariant Built(root, seen)
      invariant root != null ==> fresh(root.Repr - owned)
    {
      UsagesOfGrow(us, item.name, item.containers, k);
      root := Record(root, item.name, item.containers[k], seen);
      seen := seen + UsagesOf(item.name, [item.containers[k]]);
    }
    assert item.containers[..|item.containers|] == item.containers;
  }

  // ---- The listing by positions ----

  /** Container l of pod k has a CPU and a memory quantity that convert. */
  predicate Converts(items: seq<PodMetrics>, k: nat, l: nat) {
    && k < |items| && l < |items[k].containers|
    && items[k].containers[l].cpu.Some? && items[k].containers[l].memory.Some?
  }

  function CpuAt(items: seq<PodMetrics>, k: nat, l: nat): int
    requires Converts(items, k, l)
  {
    items[k].containers[l].cpu.value
  }

  /** Listing order. */
  predicate Before(k: nat, l: nat, k': nat, l': nat) { k < k' || (k == k' && l < l') }

  /** No converting container uses more CPU, and every later one less. */
  ghost predicate Busiest(items: seq<PodMetrics>, k: nat, l: nat) {
    && Converts(items, k, l)
    && forall k': nat, l': nat :: Converts(items, k', l') ==>
         && CpuAt(items, k', l') <= CpuAt(items, k, l)
         && (Before(k, l, k', l') ==> CpuAt(items, k', l') < CpuAt(items, k, l))
  }

  /** `at` gives the positions of the entries: in listing order, and all that come before (k, l). */
  ghost predicate Found(items: seq<PodMetrics>, us: seq<Usage>, at: seq<(nat, nat)>, k: nat, l: nat) {
    && |at| == |us|
    && (forall i :: 0 <= i < |at| ==> FoundAt(items, us[i], at[i].0, at[i].1) && Before(at[i].0, at[i].1, k, l))
    && (forall i, j :: 0 <= i < j < |at| ==> Before(at[i].0, at[i].1, at[j].0, at[j].1))
    && (forall k': nat, l': nat {:trigger Converts(items, k', l')} ::
          Converts(items, k', l') && Before(k', l', k, l) ==> (k', l') in at)
  }

  predicate FoundAt(items: seq<PodMetrics>, u: Usage, k: nat, l: nat) {
    && Converts(items, k, l)
    && u.cpu == CpuAt(items, k, l) && u.podName == items[k].name
  }

  /** One more container. */
  lemma {:induction false} FoundNext(items: seq<PodMetrics>, us: seq<Usage>, at: seq<(nat, nat)>, k: nat, l: nat)
    requires k < |items| && l < |items[k].containers| && Found(items, us, at, k, l)
    ensures !Converts(items, k, l) ==> Found(items, us, at, k, l + 1)
    ensures forall u :: FoundAt(items, u, k, l) ==> Found(items, us + [u], at + [(k, l)], k, l + 1)
  {
    forall k': nat, l': nat | Converts(items, k', l') && Before(k', l', k, l + 1)
      ensures (k', l') in at + [(k, l)]
      ensures Before(k', l', k, l) ==> (k', l') in at
    {
      if Before(k', l', k, l) { assert (k', l') in at; }
    }
  }

  /** On to the next pod. */
  lemma {:induction false} FoundNextPod(items: seq<PodMetrics>, us: seq<Usage>, at: seq<(nat, nat)>, k: nat)
    requires k < |items| && Found(items, us, at, k, |items[k].containers|)
    ensures Found(items, us, at, k + 1, 0)
  {
    forall k': nat, l': nat | Converts(items, k', l') && Before(k', l', k + 1, 0) ensures (k', l') in at {
      assert Before(k', l', k, |items[k].containers|);
    }
  }

  /** The entries of all pods before k, and of the first l containers of pod k. */
  function UsagesTo(items: seq<PodMetrics>, k: nat, l: nat): seq<Usage>
    requires k <= |items| && (k < |items| ==> l <= |items[k].containers|)
  {
    Usages(items[..k]) + (if k < |items| then UsagesOf(items[k].name, items[k].containers[..l]) else [])
  }

  lemma {:induction false} UsagesToNext(items: seq<PodMetrics>, k: nat, l: nat)
    requires k < |items| && l < |items[k].containers|
    ensures UsagesTo(items, k, l + 1) ==
            UsagesTo(items, k, l) + UsagesOf(items[k].name, [items[k].containers[l]])
  {
    UsagesOfGrow(Usages(items[..k]), items[k].name, items[k].containers, l);
  }

  lemma {:induction false} UsagesToNextPod(items: seq<PodMetrics>, k: nat)
    requires k < |items|
    ensures UsagesTo(items, k + 1, 0) == UsagesTo(items, k, |items[k].containers|)
  {
    assert items[..k + 1][..k] == items[..k];
    assert items[k].containers[..|items[k].containers|] == items[k].containers;
  }

  lemma OneUsage(pod: string, c: ContainerMetrics)
    ensures UsagesOf(pod, [c]) ==
            if c.cpu.Some? && c.memory.Some? then [Usage(c.cpu.value, c.memory.value, pod, c.name)] else []
  {
    assert [c][..0] == [];
  }

  lemma {:induction false} UsagesFoundNext(items: seq<PodMetrics>, at: seq<(nat, nat)>, k: nat, l: nat)
    returns (more: seq<(nat, nat)>)
    requires k < |items| && l < |items[k].containers| && Found(items, UsagesTo(items, k, l), at, k, l)
    ensures Found(items, UsagesTo(items, k, l + 1), more, k, l + 1)
  {
    UsagesToNext(items, k, l);
    OneUsage(items[k].name, items[k].containers[l]);
    FoundNext(items, UsagesTo(items, k, l), at, k, l);
    if Converts(items, k, l) {
      var c := items[k].containers[l];
      assert FoundAt(items, Usage(c.cpu.value, c.memory.value, items[k].name, c.name), k, l);
      more := at + [(k, l)];
    } else {
      assert UsagesTo(items, k, l) + [] == UsagesTo(items, k, l);
      more := at;
    }
  }

  lemma {:induction false} UsagesFound(items: seq<PodMetrics>, k: nat, l: nat) returns (at: seq<(nat, nat)>)
    requires k <= |items| && (if k < |items| then l <= |items[k].containers| else l == 0)
    ensures Found(items, UsagesTo(items, k, l), at, k, l)
    decreases k, l
  {
    if l > 0 {
      at := UsagesFound(items, k, l - 1);
      at := UsagesFoundNext(items, at, k, l - 1);
    } else if k > 0 {
      at := UsagesFound(items, k - 1, |items[k - 1].containers|);
      UsagesToNextPod(items, k - 1);
      FoundNextPod(items, UsagesTo(items, k, l), at, k - 1);
    } else {
      at := [];
      NothingFoundYet(items);
    }
  }

  lemma {:induction false} NothingFoundYet(items: seq<PodMetrics>)
    ensures Found(items, UsagesTo(items, 0, 0), [], 0, 0)
  {
  }

  /** What getMostUsedPod answers, said by positions: the pod of a busiest container, and an error
      if and only if no container converts. */
  ghost predicate NamesBusiest(items: seq<PodMetrics>, r: Result<string, string>, cpu: int) {
    match r
    case Err(_) => forall k: nat, l: nat :: !Converts(items, k, l)
    case Ok(name) => exists k: nat, l: nat :: Busiest(items, k, l) && name == items[k].name && cpu == CpuAt(items, k, l)
  }

  lemma {:induction false} LastMaximumIsBusiest(items: seq<PodMetrics>, at: seq<(nat, nat)>, i: nat)
    requires Found(items, Usages(items), at, |items|, 0) && LastMaximum(Usages(items), i)
    ensures Busiest(items, at[i].0, at[i].1)
    ensures FoundAt(items, Usages(items)[i], at[i].0, at[i].1)
  {
    var us := Usages(items);
    var (k, l) := at[i];
    forall k': nat, l': nat | Converts(items, k', l')
      ensures CpuAt(items, k', l') <= CpuAt(items, k, l)
      ensures Before(k, l, k', l') ==> CpuAt(items, k', l') < CpuAt(items, k, l)
    {
      assert (k', l') in at;
      var j :| 0 <= j < |at| && at[j] == (k', l');
      assert FoundAt(items, us[j], k', l') && FoundAt(items, us[i], k, l);
    }
  }

  lemma {:induction false} AllUsagesFound(items: seq<PodMetrics>) returns (at: seq<(nat, nat)>)
    ensures Found(items, Usages(items), at, |items|, 0)
  {
    at := UsagesFound(items, |items|, 0);
    assert items[..|items|] == items && Usages(items) + [] == Usages(items);
  }

  /** A last maximum of the entries is a busiest container, and there is no entry if and only if no
      container converts. */
  lemma {:induction false} UsagesNameBusiest(items: seq<PodMetrics>)
    ensures Usages(items) == [] <==> forall k: nat, l: nat :: !Converts(items, k, l)
    ensures forall i: nat :: LastMaximum(Usages(items), i) ==>
              NamesBusiest(items, Ok(Usages(items)[i].podName), Usages(items)[i].cpu)
  {
    var at := AllUsagesFound(items);
    var us := Usages(items);
    if us != [] {
      assert Converts(items, at[0].0, at[0].1);
    }
    forall i: nat | LastMaximum(us, i) ensures NamesBusiest(items, Ok(us[i].podName), us[i].cpu) {
      LastMaximumIsBusiest(items, at, i);
    }
  }

  /** The last entry of the tree, in order, answers everything. */
  lemma {:induction false} LastIsMostUsed(items: seq<PodMetrics>)
    ensures Usages(items) == [] ==>
              NamesBusiest(items, Err(NOTHING_TO_KILL), 0) && MostUsedPod(items) == Err(NOTHING_TO_KILL)
    ensures |Sorted(Usages(items))| == |Usages(items)|
    ensures Usages(items) != [] ==>
              var u := Sorted(Usages(items))[|Usages(items)| - 1];
              && MostUsedPod(items) == Ok(u.podName)
              && NamesBusiest(items, Ok(u.podName), u.cpu)
              && exists i: nat :: LastMaximum(Usages(items), i) && u == Usages(items)[i]
  {
    var us := Usages(items);
    SortedEndsInScan(us);
    UsagesNameBusiest(items);
    if us != [] { var i := ScanFindsLastMaximum(us); }
  }

  /** The nested loops of getMostUsedPod. */
  method BuildTree(items: seq<PodMetrics>) returns (tree: Node?)
    ensures Built(tree, Usages(items))
    ensures tree == null <==> Usages(items) == []
  {
    tree := null;
    ghost var us: seq<Usage> := [];
    for i := 0 to |items|
      invariant us == Usages(items[..i]) && Built(tree, us)
      invariant tree != null ==> fresh(tree.Repr)
    {
      var item := items[i];
      assert items[..i + 1][..i] == items[..i];
      tree := RecordPod(tree, item, us);
      us := us + UsagesOf(item.name, item.containers);
    }
    assert items[..|items|] == items;
    SortedEndsInScan(us);
  }

  /** getMostUsedPod, with the total CPU that the metric accumulates: the pod of the last
      container with maximal CPU among those that convert, and an error if there is none. */
  method GetMostUsedPod(items: seq<PodMetrics>, totalCpu: int) returns (r: Result<string, string>, total: int)
    ensures r.Err? <==> Usages(items) == []
    ensures r.Err? ==> total == totalCpu
    ensures r.Ok? ==> exists i: nat :: && LastMaximum(Usages(items), i)
                                       && r.value == Usages(items)[i].podName
                                       && total == totalCpu + Usages(items)[i].cpu
    ensures NamesBusiest(items, r, total - totalCpu)
    ensures r == MostUsedPod(items)
  {
    LastIsMostUsed(items);
    var tree := BuildTree(items);
    var most := GetMostUsedCpu(tree);
    if most == null {
      return Err(NOTHING_TO_KILL), totalCpu;
    }
    r, total := Ok(most.usage.podName), totalCpu + most.usage.cpu;
  }

  const NOTHING_TO_KILL := "Could not find a pod to kill"

  /** The function that the loop's specification uses names the busiest pod, too. */
  lemma {:induction false} MostUsedPodNamesBusiest(items: seq<PodMetrics>)
    ensures exists cpu :: NamesBusiest(items, MostUsedPod(items), cpu)
  {
    UsagesNameBusiest(items);
    if Usages(items) == [] {
      assert NamesBusiest(items, MostUsedPod(items), 0);
    } else {
      var i := ScanFindsLastMaximum(Usages(items));
      assert NamesBusiest(items, MostUsedPod(items), Usages(items)[i].cpu);
    }
  }

  /** The name that a delete request carries: the pod of a busiest container, or no name at all if no
      container converts. */
  ghost predicate VictimOf(items: seq<PodMetrics>, name: string) {
    if forall k: nat, l: nat :: !Converts(items, k, l) then name == ""
    else exists k: nat, l: nat :: Busiest(items, k, l) && name == items[k].name
  }

  function MostUsedPod(items: seq<PodMetrics>): Result<string, string> {
    match Scan(Usages(items))
    case None => Err(NOTHING_TO_KILL)
    case Some(u) => Ok(u.podName)
  }
}
