/** Context propagation down promise chains.

    A `Context` is a shared, append-only sequence of segment slots plus the
    transaction the chain belongs to. Every linked promise carries a
    `Contextualizer` naming its slot (`idx`), the slot it inherits from
    (`parentIdx`), the shared context, and a three-way child marker: no
    child, exactly one child, or many children.

    References between JavaScript objects become indices into an arena:
    contexts and contextualizers live in sequences, and the hidden
    per-promise property becomes the map `attached` from promise to
    contextualizer. Contextualizers are never freed, so a node that a
    promise no longer carries can still sit in its parent's child chain,
    as it does in the source. */
module PromiseContext {
  import opened Wrappers
  import opened JsValue

  type SegmentId = nat
  type TransactionId = nat
  type PromiseId = nat
  type NodeId = nat
  type ContextId = nat

  /** `parentIdx` of a contextualizer that has no parent slot. */
  const NO_PARENT: int := -1

  datatype Context = Context(slots: seq<Option<SegmentId>>, transaction: Option<TransactionId>)

  /** `null` (no child), a contextualizer (one child), `false` (many). */
  datatype Child = NoChild | OneChild(node: NodeId) | ManyChildren

  datatype Contextualizer = Contextualizer(idx: nat, parentIdx: int, context: ContextId, child: Child)

  datatype Arena = Arena(contexts: seq<Context>, nodes: seq<Contextualizer>, attached: map<PromiseId, NodeId>)

  /** Both slot indices of `x` name slots of its own context. */
  predicate InRange(contexts: seq<Context>, x: Contextualizer) {
    && x.context < |contexts|
    && x.idx < |contexts[x.context].slots|
    && NO_PARENT <= x.parentIdx < |contexts[x.context].slots|
  }

  /** The arena invariant: every context has its root slot, every index is
      in range, a single child is always a later node of the same context,
      and every promise carries an existing node. */
  predicate Valid(a: Arena) {
    && (forall c :: 0 <= c < |a.contexts| ==> |a.contexts[c].slots| >= 1)
    && (forall n :: 0 <= n < |a.nodes| ==> InRange(a.contexts, a.nodes[n]))
    && (forall n :: 0 <= n < |a.nodes| && a.nodes[n].child.OneChild? ==>
          n < a.nodes[n].child.node < |a.nodes| &&
          a.nodes[a.nodes[n].child.node].context == a.nodes[n].context)
    && (forall p :: p in a.attached ==> a.attached[p] < |a.nodes|)
  }

  function SlotsOf(a: Arena, n: NodeId): seq<Option<SegmentId>>
    requires Valid(a) && n < |a.nodes|
  {
    a.contexts[a.nodes[n].context].slots
  }

  // ---------------------------------------------------------------- Context

  /** `Context.branch`: push an empty slot and return its index. */
  function Branch(c: Context): (r: (Context, nat))
    ensures r.1 == |c.slots|
    ensures |r.0.slots| == |c.slots| + 1
    ensures r.0.slots[..|c.slots|] == c.slots
    ensures r.0.slots[r.1] == None
    ensures r.0.transaction == c.transaction
  {
    (Context(c.slots + [None], c.transaction), |c.slots|)
  }

  /** Branch context `c` inside the arena. */
  function BranchIn(a: Arena, c: ContextId): (r: (Arena, nat))
    requires Valid(a) && c < |a.contexts|
    ensures Valid(r.0)
    ensures r.0.nodes == a.nodes && r.0.attached == a.attached
    ensures |r.0.contexts| == |a.contexts|
    ensures forall d :: 0 <= d < |a.contexts| && d != c ==> r.0.contexts[d] == a.contexts[d]
    ensures r.0.contexts[c] == Branch(a.contexts[c]).0 && r.1 == |a.contexts[c].slots|
  {
    var (c', i) := Branch(a.contexts[c]);
    (a.(contexts := a.contexts[c := c']), i)
  }

  // ---------------------------------------------------------- Contextualizer

  /** The segment a node stands for: its own slot, else its parent's slot,
      else the root slot. */
  function Resolve(a: Arena, n: NodeId): Option<SegmentId>
    requires Valid(a) && n < |a.nodes|
  {
    var x := a.nodes[n];
    var slots := SlotsOf(a, n);
    if slots[x.idx].Some? then slots[x.idx]
    else if x.parentIdx != NO_PARENT && slots[x.parentIdx].Some? then slots[x.parentIdx]
    else slots[0]
  }

  /** Branching never renumbers or rewrites a slot, so every node keeps
      resolving to the segment it resolved to before. */
  lemma BranchKeepsResolution(a: Arena, c: ContextId, n: NodeId)
    requires Valid(a) && c < |a.contexts| && n < |a.nodes|
    ensures Resolve(BranchIn(a, c).0, n) == Resolve(a, n)
  {
    var b := BranchIn(a, c).0;
    var x := a.nodes[n];
    assert InRange(a.contexts, x);
    if x.context == c {
      assert SlotsOf(b, n)[..|SlotsOf(a, n)|] == SlotsOf(a, n);
      assert SlotsOf(b, n)[x.idx] == SlotsOf(a, n)[x.idx];
      assert SlotsOf(b, n)[0] == SlotsOf(a, n)[0];
      if x.parentIdx != NO_PARENT {
        assert SlotsOf(b, n)[x.parentIdx] == SlotsOf(a, n)[x.parentIdx];
      }
    }
  }

  /** `Contextualizer#getSegment`: return the node's slot when it is set;
      otherwise copy the parent slot, or failing that the root slot, into
      the node's slot and return it. */
  function GetSegment(a: Arena, n: NodeId): (r: (Arena, Option<SegmentId>))
    requires Valid(a) && n < |a.nodes|
    ensures Valid(r.0)
    ensures r.0.nodes == a.nodes && r.0.attached == a.attached
    ensures |r.0.contexts| == |a.contexts|
    ensures forall c :: 0 <= c < |a.contexts| && c != a.nodes[n].context ==> r.0.contexts[c] == a.contexts[c]
    ensures SlotsOf(a, n)[a.nodes[n].idx].Some? ==>
              r.0 == a && r.1 == SlotsOf(a, n)[a.nodes[n].idx]
    ensures SlotsOf(a, n)[a.nodes[n].idx].None? ==>
              && SlotsOf(r.0, n) == SlotsOf(a, n)[a.nodes[n].idx := r.1]
              && r.1 == (if a.nodes[n].parentIdx != NO_PARENT && SlotsOf(a, n)[a.nodes[n].parentIdx].Some?
                         then SlotsOf(a, n)[a.nodes[n].parentIdx] else SlotsOf(a, n)[0])
    ensures r.0.contexts[a.nodes[n].context].transaction == a.contexts[a.nodes[n].context].transaction
  {
    var x := a.nodes[n];
    var ctx := a.contexts[x.context];
    var current := ctx.slots[x.idx];
    if current.Some? then (a, current)
    else
      var inherited := if x.parentIdx != NO_PARENT && ctx.slots[x.parentIdx].Some?
                       then ctx.slots[x.parentIdx] else ctx.slots[0];
      (a.(contexts := a.contexts[x.context := ctx.(slots := ctx.slots[x.idx := inherited])]), inherited)
  }

  /** A second `getSegment` returns the same segment and changes nothing. */
  lemma GetSegmentIdempotent(a: Arena, n: NodeId)
    requires Valid(a) && n < |a.nodes|
    ensures GetSegment(GetSegment(a, n).0, n) == GetSegment(a, n)
  {
    var (b, s) := GetSegment(a, n);
    var x := a.nodes[n];
    assert InRange(a.contexts, x);
    if SlotsOf(a, n)[x.idx].None? {
      if s.None? {
        assert SlotsOf(b, n) == SlotsOf(a, n);
        assert b.contexts[x.context] == a.contexts[x.context];
        assert b.contexts == a.contexts;
      }
    }
  }

  /** `getSegment` hands back exactly the segment the node resolves to. */
  lemma GetSegmentResolves(a: Arena, n: NodeId)
    requires Valid(a) && n < |a.nodes|
    ensures GetSegment(a, n).1 == Resolve(a, n)
    ensures Resolve(GetSegment(a, n).0, n) == Resolve(a, n)
  {
    assert InRange(a.contexts, a.nodes[n]);
  }

  /** `Contextualizer#setSegment`: overwrite the node's slot. */
  function SetSegment(a: Arena, n: NodeId, s: Option<SegmentId>): (r: Arena)
    requires Valid(a) && n < |a.nodes|
    ensures Valid(r)
    ensures r.nodes == a.nodes && r.attached == a.attached
    ensures |r.contexts| == |a.contexts|
    ensures forall c :: 0 <= c < |a.contexts| && c != a.nodes[n].context ==> r.contexts[c] == a.contexts[c]
    ensures SlotsOf(r, n) == SlotsOf(a, n)[a.nodes[n].idx := s]
    ensures r.contexts[a.nodes[n].context].transaction == a.contexts[a.nodes[n].context].transaction
  {
    var x := a.nodes[n];
    var ctx := a.contexts[x.context];
    a.(contexts := a.contexts[x.context := ctx.(slots := ctx.slots[x.idx := s])])
  }

  /** After `setSegment(s)` with a real segment, `getSegment` returns `s`. */
  lemma SetThenGet(a: Arena, n: NodeId, s: SegmentId)
    requires Valid(a) && n < |a.nodes|
    ensures GetSegment(SetSegment(a, n, Some(s)), n) == (SetSegment(a, n, Some(s)), Some(s))
  {
    assert InRange(a.contexts, a.nodes[n]);
  }

  /** `Contextualizer#getTransaction`. */
  function TransactionOf(a: Arena, n: NodeId): Option<TransactionId>
    requires Valid(a) && n < |a.nodes|
  {
    a.contexts[a.nodes[n].context].transaction
  }

  /** `Contextualizer#isActive`: the node resolves to some segment (without
      memoising it) and its transaction is one the tracer reports active. */
  predicate IsActive(a: Arena, n: NodeId, active: set<TransactionId>)
    requires Valid(a) && n < |a.nodes|
  {
    var slots := a.contexts[a.nodes[n].context].slots;
    var x := a.nodes[n];
    var segment := if slots[x.idx].Some? then slots[x.idx]
                   else if x.parentIdx >= 0 && slots[x.parentIdx].Some? then slots[x.parentIdx]
                   else slots[0];
    && segment.Some?
    && a.contexts[x.context].transaction.Some?
    && a.contexts[x.context].transaction.value in active
  }

  /** `isActive` looks at the same segment that `getSegment` would return. */
  lemma IsActiveAgreesWithGetSegment(a: Arena, n: NodeId, active: set<TransactionId>)
    requires Valid(a) && n < |a.nodes|
    ensures IsActive(a, n, active) <==>
              GetSegment(a, n).1.Some? && TransactionOf(a, n).Some? && TransactionOf(a, n).value in active
  {
    assert InRange(a.contexts, a.nodes[n]);
  }

  // ------------------------------------------------------------- branching

  /** The single-child chain below `n`: its child, that child's child, and
      so on while each node has exactly one child. */
  function Chain(a: Arena, n: NodeId): (r: seq<NodeId>)
    requires Valid(a) && n < |a.nodes|
    ensures a.nodes[n].child.OneChild? <==> |r| > 0
    ensures |r| > 0 ==> r[0] == a.nodes[n].child.node
    ensures forall i :: 0 <= i < |r| ==> n < r[i] < |a.nodes|
    ensures forall i, j :: 0 <= i < j < |r| ==> r[i] < r[j]
    ensures forall i :: 0 <= i < |r| - 1 ==> a.nodes[r[i]].child == OneChild(r[i + 1])
    ensures |r| > 0 ==> !a.nodes[r[|r| - 1]].child.OneChild?
    ensures forall i :: 0 <= i < |r| ==> a.nodes[r[i]].context == a.nodes[n].context
    decreases |a.nodes| - n
  {
    match a.nodes[n].child
    case OneChild(c) => [c] + Chain(a, c)
    case _ => []
  }

  /** The do-while loop of `buildContextTree`: walk a single-child chain,
      giving every node the slot `branchIdx` and, as parent slot, the slot
      of its predecessor (`nodeIdx`, the branch point's own slot, for the
      first). Only `idx` and `parentIdx` change. */
  method RelabelChain(start: seq<Contextualizer>, first: NodeId, ghost chain: seq<NodeId>, ghost ctx: ContextId,
                      nodeIdx: nat, branchIdx: nat)
    returns (nodes: seq<Contextualizer>)
    requires |chain| > 0 && chain[0] == first
    requires forall i :: 0 <= i < |chain| ==> chain[i] < |start| && start[chain[i]].context == ctx
    requires forall i, j :: 0 <= i < j < |chain| ==> chain[i] < chain[j]
    requires forall i :: 0 <= i < |chain| - 1 ==> start[chain[i]].child == OneChild(chain[i + 1])
    requires !start[chain[|chain| - 1]].child.OneChild?
    ensures |nodes| == |start|
    ensures forall i :: 0 <= i < |chain| ==>
              nodes[chain[i]] == start[chain[i]].(idx := branchIdx, parentIdx := if i == 0 then nodeIdx else branchIdx)
    ensures forall m :: 0 <= m < |start| && m !in chain ==> nodes[m] == start[m]
    ensures forall m :: 0 <= m < |start| ==>
              nodes[m].child == start[m].child && nodes[m].context == start[m].context
  {
    nodes := start;
    var parentIdx: int := nodeIdx;
    var child := first;
    ghost var k := 0;
    var done := false;
    while !done
      invariant 0 <= k <= |chain|
      invariant done <==> k == |chain|
      invariant !done ==> child == chain[k]
      invariant |nodes| == |start|
      invariant parentIdx == if k == 0 then nodeIdx else branchIdx
      invariant forall i :: 0 <= i < k ==>
                  nodes[chain[i]] == start[chain[i]].(idx := branchIdx, parentIdx := if i == 0 then nodeIdx else branchIdx)
      invariant forall m :: 0 <= m < |start| && m !in chain[..k] ==> nodes[m] == start[m]
      invariant forall m :: 0 <= m < |start| ==>
                  nodes[m].child == start[m].child && nodes[m].context == start[m].context
      decreases |chain| - k
    {
      assert child !in chain[..k];
      nodes := nodes[child := nodes[child].(parentIdx := parentIdx, idx := branchIdx)];
      parentIdx := branchIdx;
      assert chain[..k + 1] == chain[..k] + [child];
      k := k + 1;
      assert nodes[child].child == start[chain[k - 1]].child;
      if k < |chain| {
        assert start[chain[k - 1]].child == OneChild(chain[k]);
      }
      match nodes[child].child {
        case OneChild(c) =>
          child := c;
        case _ =>
          done := true;
      }
    }
    assert chain[..k] == chain;
  }

  /** What the relabelling walk leaves behind: the chain hangs off the
      branch point's slot and then off the new branch slot, and every node
      it changed belongs to the chain's context and sits on the new slot. */
  lemma RelabelledShape(start: seq<Contextualizer>, nodes: seq<Contextualizer>, chain: seq<NodeId>, ctx: ContextId,
                        nodeIdx: nat, branchIdx: nat)
    requires |chain| > 0 && |nodes| == |start|
    requires forall i :: 0 <= i < |chain| ==> chain[i] < |start| && start[chain[i]].context == ctx
    requires forall i :: 0 <= i < |chain| ==>
               nodes[chain[i]] == start[chain[i]].(idx := branchIdx, parentIdx := if i == 0 then nodeIdx else branchIdx)
    requires forall m :: 0 <= m < |start| && m !in chain ==> nodes[m] == start[m]
    ensures forall i :: 0 <= i < |chain| ==> nodes[chain[i]].idx == branchIdx
    ensures nodes[chain[0]].parentIdx == nodeIdx
    ensures forall i :: 0 < i < |chain| ==> nodes[chain[i]].parentIdx == nodes[chain[i - 1]].idx
    ensures forall m :: 0 <= m < |start| && nodes[m] != start[m] ==>
              nodes[m].context == ctx && nodes[m].idx == branchIdx &&
              (nodes[m].parentIdx == nodeIdx || nodes[m].parentIdx == branchIdx)
  {
    forall m | 0 <= m < |start| && nodes[m] != start[m]
      ensures nodes[m].context == ctx && nodes[m].idx == branchIdx
      ensures nodes[m].parentIdx == nodeIdx || nodes[m].parentIdx == branchIdx
    {
      var i :| 0 <= i < |chain| && chain[i] == m;
    }
  }

  /** `Contextualizer.buildContextTree`, run when a node that has one child
      gets a second: a branch point that is not a root first moves to a new
      slot of its own; then one more slot is branched and every node of the
      former single-child chain moves onto it, each inheriting from its
      predecessor's slot; finally the node is marked as having many
      children. A node further down that already had many children stops
      the walk and keeps its slot, which is the "branches of branches"
      limitation the source admits. */
  method BuildContextTree(a: Arena, n: NodeId) returns (b: Arena)
    requires Valid(a) && n < |a.nodes| && a.nodes[n].child.OneChild?
    ensures Valid(b)
    ensures |b.nodes| == |a.nodes| && b.attached == a.attached
    ensures |b.contexts| == |a.contexts|
    ensures forall c :: 0 <= c < |a.contexts| && c != a.nodes[n].context ==> b.contexts[c] == a.contexts[c]
    // existing slots are kept; one new slot, or two when the branch point is not a root
    ensures var c := a.nodes[n].context;
            var before := a.contexts[c].slots;
            var after := b.contexts[c].slots;
            && |after| == |before| + (if a.nodes[n].parentIdx == NO_PARENT then 1 else 2)
            && after[..|before|] == before
            && (forall i :: |before| <= i < |after| ==> after[i] == None)
            && b.contexts[c].transaction == a.contexts[c].transaction
    // the branch point
    ensures b.nodes[n].child == ManyChildren
    ensures b.nodes[n].parentIdx == a.nodes[n].parentIdx && b.nodes[n].context == a.nodes[n].context
    ensures a.nodes[n].parentIdx == NO_PARENT ==> b.nodes[n].idx == a.nodes[n].idx
    ensures a.nodes[n].parentIdx != NO_PARENT ==> b.nodes[n].idx == |a.contexts[a.nodes[n].context].slots|
    // the former chain: one shared new slot, each parented on its predecessor
    ensures var chain := Chain(a, n);
            var branchIdx := |b.contexts[a.nodes[n].context].slots| - 1;
            && (forall i :: 0 <= i < |chain| ==> b.nodes[chain[i]].idx == branchIdx)
            && (|chain| > 0 ==> b.nodes[chain[0]].parentIdx == b.nodes[n].idx)
            && (forall i :: 0 < i < |chain| ==> b.nodes[chain[i]].parentIdx == b.nodes[chain[i - 1]].idx)
            && (forall m :: 0 <= m < |a.nodes| && m != n && m !in chain ==> b.nodes[m] == a.nodes[m])
  {
    b := RebuildContextTree(a, n);
    var c := a.nodes[n].context;
    RebuiltValid(a, n, b.nodes, b.nodes[n].idx, |b.contexts[c].slots| - 1, b.contexts[c].slots);
    assert b.contexts == a.contexts[c := a.contexts[c].(slots := b.contexts[c].slots)];
  }

  /** The slots `buildContextTree` adds to the branch point's context: a new
      slot for the branch point itself unless it is a root, then the branch
      slot shared by the former chain. */
  function GrowSlots(slots: seq<Option<SegmentId>>, isRoot: bool, idx: nat): (r: (seq<Option<SegmentId>>, nat, nat))
    ensures |r.0| == |slots| + (if isRoot then 1 else 2)
    ensures r.0[..|slots|] == slots
    ensures forall i :: |slots| <= i < |r.0| ==> r.0[i] == None
    ensures r.1 == (if isRoot then idx else |slots|)
    ensures r.2 == |r.0| - 1
  {
    if isRoot then (slots + [None], idx, |slots|)
    else (slots + [None, None], |slots|, |slots| + 1)
  }

  /** The node half of `buildContextTree`: the branch point takes slot
      `nodeIdx` and is marked as having many children; its former chain
      moves onto `branchIdx`. */
  method RebuildNodes(a: Arena, n: NodeId, nodeIdx: nat, branchIdx: nat) returns (nodes: seq<Contextualizer>)
    requires Valid(a) && n < |a.nodes| && a.nodes[n].child.OneChild?
    ensures |nodes| == |a.nodes|
    ensures nodes[n] == a.nodes[n].(idx := nodeIdx, child := ManyChildren)
    ensures forall m :: 0 <= m < |a.nodes| && m != n ==>
              nodes[m].child == a.nodes[m].child && nodes[m].context == a.nodes[m].context
    ensures forall m :: 0 <= m < |a.nodes| && m != n && nodes[m] != a.nodes[m] ==>
              nodes[m].context == a.nodes[n].context && nodes[m].idx == branchIdx &&
              (nodes[m].parentIdx == nodeIdx || nodes[m].parentIdx == branchIdx)
    ensures var chain := Chain(a, n);
            && (forall i :: 0 <= i < |chain| ==> nodes[chain[i]].idx == branchIdx)
            && (|chain| > 0 ==> nodes[chain[0]].parentIdx == nodeIdx)
            && (forall i :: 0 < i < |chain| ==> nodes[chain[i]].parentIdx == nodes[chain[i - 1]].idx)
            && (forall m :: 0 <= m < |a.nodes| && m != n && m !in chain ==> nodes[m] == a.nodes[m])
  {
    var x := a.nodes[n];
    ghost var chain := Chain(a, n);
    // `n` is not on its own chain, so marking it now is the same as the
    // source's marking it after the walk.
    var start := a.nodes[n := x.(idx := nodeIdx, child := ManyChildren)];
    nodes := RelabelChain(start, x.child.node, chain, x.context, nodeIdx, branchIdx);
    RelabelledShape(start, nodes, chain, x.context, nodeIdx, branchIdx);
  }

  /** The rebuilding itself; `BuildContextTree` adds that the result is
      `Valid`. */
  method RebuildContextTree(a: Arena, n: NodeId) returns (b: Arena)
    requires Valid(a) && n < |a.nodes| && a.nodes[n].child.OneChild?
    ensures |b.nodes| == |a.nodes| && b.attached == a.attached
    ensures |b.contexts| == |a.contexts|
    ensures forall c :: 0 <= c < |a.contexts| && c != a.nodes[n].context ==> b.contexts[c] == a.contexts[c]
    // existing slots are kept; one new slot, or two when the branch point is not a root
    ensures var c := a.nodes[n].context;
            var before := a.contexts[c].slots;
            var after := b.contexts[c].slots;
            && |after| == |before| + (if a.nodes[n].parentIdx == NO_PARENT then 1 else 2)
            && after[..|before|] == before
            && (forall i :: |before| <= i < |after| ==> after[i] == None)
            && b.contexts[c].transaction == a.contexts[c].transaction
    // the branch point
    ensures b.nodes[n].child == ManyChildren
    ensures b.nodes[n].parentIdx == a.nodes[n].parentIdx && b.nodes[n].context == a.nodes[n].context
    ensures a.nodes[n].parentIdx == NO_PARENT ==> b.nodes[n].idx == a.nodes[n].idx
    ensures a.nodes[n].parentIdx != NO_PARENT ==> b.nodes[n].idx == |a.contexts[a.nodes[n].context].slots|
    // only the branch point and nodes moved onto the branch slot change
    ensures forall m :: 0 <= m < |a.nodes| && m != n ==>
              b.nodes[m].child == a.nodes[m].child && b.nodes[m].context == a.nodes[m].context
    ensures var branchIdx := |b.contexts[a.nodes[n].context].slots| - 1;
            forall m :: 0 <= m < |a.nodes| && m != n && b.nodes[m] != a.nodes[m] ==>
              b.nodes[m].context == a.nodes[n].context && b.nodes[m].idx == branchIdx &&
              (b.nodes[m].parentIdx == b.nodes[n].idx || b.nodes[m].parentIdx == branchIdx)
    // the former chain: one shared new slot, each parented on its predecessor
    ensures var chain := Chain(a, n);
            var branchIdx := |b.contexts[a.nodes[n].context].slots| - 1;
            && (forall i :: 0 <= i < |chain| ==> b.nodes[chain[i]].idx == branchIdx)
            && (|chain| > 0 ==> b.nodes[chain[0]].parentIdx == b.nodes[n].idx)
            && (forall i :: 0 < i < |chain| ==> b.nodes[chain[i]].parentIdx == b.nodes[chain[i - 1]].idx)
            && (forall m :: 0 <= m < |a.nodes| && m != n && m !in chain ==> b.nodes[m] == a.nodes[m])
  {
    var x := a.nodes[n];
    assert InRange(a.contexts, x);
    var ctx := a.contexts[x.context];
    var (slots, nodeIdx, branchIdx) := GrowSlots(ctx.slots, x.parentIdx == NO_PARENT, x.idx);
    var nodes := RebuildNodes(a, n, nodeIdx, branchIdx);
    b := Arena(a.contexts[x.context := ctx.(slots := slots)], nodes, a.attached);
  }

  /** The arena `buildContextTree` leaves behind satisfies `Valid`, given
      that only the branch point and nodes moved onto the new branch slot
      changed, and the slots of their context only grew. */
  lemma RebuiltValid(a: Arena, n: NodeId, relabelled: seq<Contextualizer>, nodeIdx: nat, branchIdx: nat,
                     slots: seq<Option<SegmentId>>)
    requires Valid(a) && n < |a.nodes|
    requires |a.contexts[a.nodes[n].context].slots| <= |slots| == branchIdx + 1 && nodeIdx <= branchIdx
    requires |relabelled| == |a.nodes| && relabelled[n] == a.nodes[n].(idx := nodeIdx, child := ManyChildren)
    requires forall m :: 0 <= m < |a.nodes| && m != n ==>
               relabelled[m].child == a.nodes[m].child && relabelled[m].context == a.nodes[m].context
    requires forall m :: 0 <= m < |a.nodes| && m != n && relabelled[m] != a.nodes[m] ==>
               relabelled[m].context == a.nodes[n].context && relabelled[m].idx == branchIdx &&
               (relabelled[m].parentIdx == nodeIdx || relabelled[m].parentIdx == branchIdx)
    ensures var c := a.nodes[n].context;
            Valid(Arena(a.contexts[c := a.contexts[c].(slots := slots)], relabelled, a.attached))
  {
    var c := a.nodes[n].context;
    var contexts := a.contexts[c := a.contexts[c].(slots := slots)];
    var nodes := relabelled;
    forall m | 0 <= m < |nodes|
      ensures InRange(contexts, nodes[m])
    {
      var y := a.nodes[m];
      assert InRange(a.contexts, y);
      if m != n && relabelled[m] == y && y.context != c {
        assert contexts[y.context] == a.contexts[y.context];
      }
    }
  }

  /** What a fresh child of `p` resolves to: `p`'s own slot, or the root
      slot when that is empty. The child's parent slot is `p`'s own slot, so
      `p`'s parent slot is never consulted: while `p`'s slot is still empty
      the child falls through to the root slot. */
  function InheritedSegment(a: Arena, p: NodeId): Option<SegmentId>
    requires Valid(a) && p < |a.nodes|
  {
    var slots := SlotsOf(a, p);
    assert InRange(a.contexts, a.nodes[p]);
    if slots[a.nodes[p].idx].Some? then slots[a.nodes[p].idx] else slots[0]
  }

  /** The contextualizer `prev` carries, when it has one and it is active. */
  function LiveNode(a: Arena, prev: Option<PromiseId>, active: set<TransactionId>): (r: Option<NodeId>)
    requires Valid(a)
    ensures r.Some? ==> r.value < |a.nodes|
  {
    if prev.Some? && prev.value in a.attached && IsActive(a, a.attached[prev.value], active)
    then Some(a.attached[prev.value]) else None
  }

  /** The promise whose stale contextualizer `link` throws away. */
  function Discarded(a: Arena, prev: Option<PromiseId>, active: set<TransactionId>): set<PromiseId>
    requires Valid(a)
  {
    if prev.Some? && prev.value in a.attached && !IsActive(a, a.attached[prev.value], active)
    then {prev.value} else {}
  }

  /** A promise linked to nothing live: with a segment it becomes the root
      of a fresh context whose only slot holds that segment. */
  function AttachRoot(a: Arena, next: PromiseId, segment: SegmentId, transaction: Option<TransactionId>): (b: Arena)
    requires Valid(a)
    ensures Valid(b)
    ensures b.attached == a.attached[next := |a.nodes|]
    ensures |b.nodes| == |a.nodes| + 1 && |b.contexts| == |a.contexts| + 1
    ensures b.nodes[..|a.nodes|] == a.nodes && b.contexts[..|a.contexts|] == a.contexts
    ensures b.nodes[|a.nodes|].idx == 0 && b.nodes[|a.nodes|].parentIdx == NO_PARENT
    ensures b.nodes[|a.nodes|].context == |a.contexts| == |b.contexts| - 1
    ensures b.contexts[|a.contexts|].slots == [Some(segment)]
    ensures Resolve(b, |a.nodes|) == Some(segment)
  {
    var b := Arena(a.contexts + [Context([Some(segment)], transaction)],
                   a.nodes + [Contextualizer(0, NO_PARENT, |a.contexts|, NoChild)],
                   a.attached[next := |a.nodes|]);
    assert forall m :: 0 <= m < |a.nodes| ==> b.nodes[m] == a.nodes[m];
    assert forall c :: 0 <= c < |a.contexts| ==> b.contexts[c] == a.contexts[c];
    b
  }

  /** The first child of `p` shares `p`'s slot, inherits from it, and is
      remembered as `p`'s one child; no slot is allocated. */
  function AttachFirstChild(a: Arena, p: NodeId, next: PromiseId): (b: Arena)
    requires Valid(a) && p < |a.nodes| && a.nodes[p].child.NoChild?
    ensures Valid(b)
    ensures b.contexts == a.contexts
    ensures b.attached == a.attached[next := |a.nodes|]
    ensures |b.nodes| == |a.nodes| + 1
    ensures b.nodes[|a.nodes|] == Contextualizer(a.nodes[p].idx, a.nodes[p].idx, a.nodes[p].context, NoChild)
    ensures b.nodes[p] == a.nodes[p].(child := OneChild(|a.nodes|))
    ensures forall m :: 0 <= m < |a.nodes| && m != p ==> b.nodes[m] == a.nodes[m]
    ensures Resolve(b, |a.nodes|) == InheritedSegment(b, p)
    ensures SlotsOf(a, p)[a.nodes[p].idx].Some? || a.nodes[p].parentIdx == NO_PARENT ==>
              Resolve(b, |a.nodes|) == Resolve(a, p)
  {
    var x := a.nodes[p];
    var id := |a.nodes|;
    var b := Arena(a.contexts, (a.nodes + [Contextualizer(x.idx, x.idx, x.context, NoChild)])[p := x.(child := OneChild(id))],
                   a.attached[next := id]);
    assert InRange(a.contexts, x);
    assert forall m :: 0 <= m < |a.nodes| && m != p ==> b.nodes[m] == a.nodes[m];
    b
  }

  /** A first child does not always resolve to what its parent resolves to:
      a parent whose own slot is still empty resolves through its parent
      slot, but its child skips that slot and reads the root slot. */
  lemma FirstChildSkipsParentSlot()
    ensures var a := Arena([Context([Some(1), Some(7), None], None)], [Contextualizer(2, 1, 0, NoChild)], map[]);
            && Valid(a)
            && Resolve(a, 0) == Some(7)
            && Resolve(AttachFirstChild(a, 0, 5), 1) == Some(1)
  {
    var a := Arena([Context([Some(1), Some(7), None], None)], [Contextualizer(2, 1, 0, NoChild)], map[]);
    assert InRange(a.contexts, a.nodes[0]);
    assert Valid(a);
  }

  /** A child of `p` once `p` has many children: a freshly branched slot,
      inheriting from `p`'s slot, that no other node of the context uses. */
  method AttachManyChild(a: Arena, p: NodeId, next: PromiseId) returns (b: Arena)
    requires Valid(a) && p < |a.nodes| && a.nodes[p].child.ManyChildren?
    ensures Valid(b)
    ensures b.attached == a.attached[next := |a.nodes|]
    ensures |b.nodes| == |a.nodes| + 1 && |b.contexts| == |a.contexts|
    ensures b.nodes[..|a.nodes|] == a.nodes
    ensures forall d :: 0 <= d < |a.contexts| && d != a.nodes[p].context ==> b.contexts[d] == a.contexts[d]
    ensures SlotsOf(b, p) == SlotsOf(a, p) + [None]
    ensures TransactionOf(b, p) == TransactionOf(a, p)
    ensures b.nodes[|a.nodes|] == Contextualizer(|SlotsOf(a, p)|, a.nodes[p].idx, a.nodes[p].context, NoChild)
    ensures forall m :: 0 <= m < |a.nodes| && a.nodes[m].context == a.nodes[p].context ==>
              a.nodes[m].idx < b.nodes[|a.nodes|].idx
    ensures Resolve(b, |a.nodes|) == InheritedSegment(b, p)
  {
    var x := a.nodes[p];
    var r := BranchIn(a, x.context);
    var a1 := r.0;
    var id := |a.nodes|;
    b := Arena(a1.contexts, a.nodes + [Contextualizer(r.1, x.idx, x.context, NoChild)], a.attached[next := id]);
    assert InRange(a1.contexts, x);
    forall m | 0 <= m < |b.nodes|
      ensures InRange(b.contexts, b.nodes[m])
    {
      if m < id { assert b.nodes[m] == a1.nodes[m]; assert InRange(a1.contexts, a1.nodes[m]); }
    }
    forall m | 0 <= m < |a.nodes| && a.nodes[m].context == x.context
      ensures a.nodes[m].idx < r.1
    {
      assert InRange(a.contexts, a.nodes[m]);
    }
    assert forall m :: 0 <= m < |a.nodes| && b.nodes[m].child.OneChild? ==> b.nodes[m] == a.nodes[m];
  }

  /** A second or later child of `p`: on the second, the context tree is
      rebuilt; every such child gets a freshly branched slot that no other
      node of the context uses. */
  method AttachBranchChild(a: Arena, p: NodeId, next: PromiseId) returns (b: Arena)
    requires Valid(a) && p < |a.nodes| && !a.nodes[p].child.NoChild?
    ensures Valid(b)
    ensures b.attached == a.attached[next := |a.nodes|]
    ensures |b.nodes| == |a.nodes| + 1 && |b.contexts| == |a.contexts|
    ensures forall d :: 0 <= d < |a.contexts| && d != a.nodes[p].context ==> b.contexts[d] == a.contexts[d]
    ensures |SlotsOf(b, p)| > |SlotsOf(a, p)| && SlotsOf(b, p)[..|SlotsOf(a, p)|] == SlotsOf(a, p)
    ensures TransactionOf(b, p) == TransactionOf(a, p)
    ensures b.nodes[p].child == ManyChildren
    ensures b.nodes[|a.nodes|].context == a.nodes[p].context
    ensures b.nodes[|a.nodes|].parentIdx == b.nodes[p].idx
    ensures b.nodes[|a.nodes|].child == NoChild
    ensures b.nodes[|a.nodes|].idx == |SlotsOf(b, p)| - 1
    ensures forall m :: 0 <= m < |a.nodes| && b.nodes[m].context == a.nodes[p].context ==>
              b.nodes[m].idx < b.nodes[|a.nodes|].idx
    ensures a.nodes[p].child.ManyChildren? ==>
              b.nodes[..|a.nodes|] == a.nodes && SlotsOf(b, p) == SlotsOf(a, p) + [None]
    ensures Resolve(b, |a.nodes|) == InheritedSegment(b, p)
  {
    if a.nodes[p].child.OneChild? {
      b := AttachSecondChild(a, p, next);
    } else {
      b := AttachManyChild(a, p, next);
    }
  }

  /** The second child of `p`: rebuild the context tree, then attach as for
      any later child. */
  method AttachSecondChild(a: Arena, p: NodeId, next: PromiseId) returns (b: Arena)
    requires Valid(a) && p < |a.nodes| && a.nodes[p].child.OneChild?
    ensures Valid(b)
    ensures b.attached == a.attached[next := |a.nodes|]
    ensures |b.nodes| == |a.nodes| + 1 && |b.contexts| == |a.contexts|
    ensures forall d :: 0 <= d < |a.contexts| && d != a.nodes[p].context ==> b.contexts[d] == a.contexts[d]
    ensures |SlotsOf(b, p)| > |SlotsOf(a, p)| && SlotsOf(b, p)[..|SlotsOf(a, p)|] == SlotsOf(a, p)
    ensures TransactionOf(b, p) == TransactionOf(a, p)
    ensures b.nodes[p].child == ManyChildren
    ensures b.nodes[|a.nodes|].context == a.nodes[p].context
    ensures b.nodes[|a.nodes|].parentIdx == b.nodes[p].idx
    ensures b.nodes[|a.nodes|].child == NoChild
    ensures b.nodes[|a.nodes|].idx == |SlotsOf(b, p)| - 1
    ensures forall m :: 0 <= m < |a.nodes| && b.nodes[m].context == a.nodes[p].context ==>
              b.nodes[m].idx < b.nodes[|a.nodes|].idx
    ensures Resolve(b, |a.nodes|) == InheritedSegment(b, p)
  {
    var a2 := BuildContextTree(a, p);
    b := AttachManyChild(a2, p, next);
    assert forall m :: 0 <= m < |a.nodes| ==> b.nodes[m] == a2.nodes[m];
  }

  /** `Contextualizer.link(prev, next, segment, transaction)`: when `prev`
      carries an active contextualizer, `next` becomes its child (first or
      branching); otherwise an inactive contextualizer on `prev` is dropped
      and, given a segment, `next` roots a fresh context, while without a
      segment nothing is attached. */
  method Link(a: Arena, prev: Option<PromiseId>, next: PromiseId, segment: Option<SegmentId>,
              transaction: Option<TransactionId>, active: set<TransactionId>)
    returns (b: Arena)
    requires Valid(a)
    ensures Valid(b)
    ensures LiveNode(a, prev, active).None? && segment.Some? ==>
              b == AttachRoot(a.(attached := a.attached - Discarded(a, prev, active)), next, segment.value, transaction)
    ensures LiveNode(a, prev, active).None? && segment.None? ==>
              b == a.(attached := a.attached - Discarded(a, prev, active))
    ensures LiveNode(a, prev, active).Some? && a.nodes[LiveNode(a, prev, active).value].child.NoChild? ==>
              b == AttachFirstChild(a, LiveNode(a, prev, active).value, next)
    ensures LiveNode(a, prev, active).Some? && !a.nodes[LiveNode(a, prev, active).value].child.NoChild? ==>
              var p := LiveNode(a, prev, active).value;
              && b.attached == a.attached[next := |a.nodes|]
              && |b.nodes| == |a.nodes| + 1
              && b.nodes[p].child == ManyChildren
              && b.nodes[|a.nodes|].context == a.nodes[p].context
              && b.nodes[|a.nodes|].parentIdx == b.nodes[p].idx
              && b.nodes[|a.nodes|].idx >= |SlotsOf(a, p)|
              && (forall m :: 0 <= m < |a.nodes| && b.nodes[m].context == a.nodes[p].context ==>
                    b.nodes[m].idx < b.nodes[|a.nodes|].idx)
    // `next` carries a new contextualizer exactly when there was a live one or a segment
    ensures LiveNode(a, prev, active).Some? || segment.Some? ==>
              |b.nodes| == |a.nodes| + 1 && b.attached == (a.attached - Discarded(a, prev, active))[next := |a.nodes|]
    // the linked promise starts out on the parent's own slot, or the root slot while that is empty
    ensures LiveNode(a, prev, active).Some? ==>
              |b.nodes| == |a.nodes| + 1 && Resolve(b, |a.nodes|) == InheritedSegment(b, LiveNode(a, prev, active).value)
    ensures LiveNode(a, prev, active).None? && segment.Some? ==>
              |b.nodes| == |a.nodes| + 1 && b.attached[next] == |a.nodes| && Resolve(b, |a.nodes|) == segment
  {
    var live := LiveNode(a, prev, active);
    if live.Some? {
      var p := live.value;
      if a.nodes[p].child.NoChild? {
        b := AttachFirstChild(a, p, next);
      } else {
        b := AttachBranchChild(a, p, next);
      }
    } else {
      var a1 := a.(attached := a.attached - Discarded(a, prev, active));
      if segment.Some? {
        b := AttachRoot(a1, next, segment.value, transaction);
      } else {
        b := a1;
      }
    }
  }

  // ------------------------------------------------------ continueContext

  /** A promise's settlement, as seen by the hooks `continueContext` adds. */
  datatype Settlement = Fulfilled(value: Value) | Rejected(reason: Value)

  /** How `continueContext(prom)` hooks `prom`: not at all (it carries no
      contextualizer and is returned as is), through `finally`, or through
      a pair of then-handlers. */
  datatype Continuation = Unhooked | ViaFinally(next: NodeId) | ViaThen(next: NodeId)

  function ContinueContext(a: Arena, prom: PromiseId, hasFinally: bool): (r: Continuation)
    requires Valid(a)
    ensures r.Unhooked? <==> prom !in a.attached
    ensures !r.Unhooked? ==> r.next == a.attached[prom] && (r.ViaFinally? <==> hasFinally)
  {
    if prom !in a.attached then Unhooked
    else if hasFinally then ViaFinally(a.attached[prom])
    else ViaThen(a.attached[prom])
  }

  /** The point of `continueContext`: once the promise a handler returned
      settles, the node that handler belongs to resolves to the segment the
      returned promise's chain stood for, and the settlement is passed on
      unchanged. */
  lemma ContinueContextRestores(a: Arena, self: NodeId, prom: PromiseId, hasFinally: bool, s: Settlement)
    requires Valid(a) && self < |a.nodes| && prom in a.attached
    ensures var k := ContinueContext(a, prom, hasFinally);
            && !k.Unhooked?
            && k.next < |a.nodes|
            && OnInnerSettled(a, self, k, s).1 == s
            && (Resolve(a, a.attached[prom]).Some? ==>
                  Resolve(OnInnerSettled(a, self, k, s).0, self) == Resolve(a, a.attached[prom]))
  {
    var k := ContinueContext(a, prom, hasFinally);
    var b := OnInnerSettled(a, self, k, s).0;
    assert InRange(b.contexts, b.nodes[self]);
  }

  /** What the hook does when the inner promise settles: the current node's
      slot takes the inner chain's segment, and the settlement passes
      through untouched (a value is returned, a rejection re-thrown). */
  function OnInnerSettled(a: Arena, self: NodeId, k: Continuation, s: Settlement): (r: (Arena, Settlement))
    requires Valid(a) && self < |a.nodes| && !k.Unhooked? && k.next < |a.nodes|
    ensures Valid(r.0)
    ensures r.1 == s
    ensures r.0.nodes == a.nodes && r.0.attached == a.attached
    ensures SlotsOf(r.0, self)[a.nodes[self].idx] == Resolve(a, k.next)
  {
    var (a1, seg) := GetSegment(a, k.next);
    GetSegmentResolves(a, k.next);
    (SetSegment(a1, self, seg), s)
  }
}
