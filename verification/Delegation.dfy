/**
 * The agent-to-agent delegation tree: depth and root bookkeeping at creation
 * (internal/api/runs.go), the cancel cascade over the tree, and the cost
 * rollup (internal/api/a2a.go).
 *
 * A creation reads its parent first and inserts its row later, so creations
 * interleave: `Admit` leaves a ticket behind and `Insert` redeems it.
 */
module Delegation {
  import opened Common

  type RunId = string

  datatype Usage = Usage(promptTokens: int, completionTokens: int, totalTokens: int)

  datatype Run = Run(parent: Option<RunId>, root: Option<RunId>, depth: nat, output: Option<Usage>)

  type Runs = map<RunId, Run>

  datatype Limits = Limits(depth: nat, breadth: nat)

  // ----- Creation -----

  datatype Ticket = Ticket(parent: Option<RunId>, root: Option<RunId>, depth: nat)

  datatype Admission = Admitted(ticket: Ticket) | ParentMissing | DepthExceeded(depth: nat) | BreadthExceeded(breadth: nat)

  ghost function Children(runs: Runs, p: RunId): set<RunId> {
    set id | id in runs && runs[id].parent == Some(p)
  }

  /** The root of the tree a run belongs to: itself when it names none. */
  function RootOf(runs: Runs, id: RunId): RunId
    requires id in runs
  {
    if runs[id].root.Some? then runs[id].root.value else id
  }

  /** The checks of a creation; `siblings` is how many children the parent was seen to have. */
  function Admit(runs: Runs, parent: Option<RunId>, siblings: nat, limits: Limits): (a: Admission) {
    if parent.None? then Admitted(Ticket(None, None, 0))
    else if parent.value !in runs then ParentMissing
    else
      var depth := runs[parent.value].depth + 1;
      if depth > limits.depth then DepthExceeded(depth)
      else if siblings >= limits.breadth then BreadthExceeded(siblings)
      else Admitted(Ticket(parent, Some(RootOf(runs, parent.value)), depth))
  }

  datatype State = State(runs: Runs, tickets: seq<Ticket>)

  datatype Act =
    | Admission(parent: Option<RunId>)
    | Insert(k: nat, id: RunId)
    | Abandon(k: nat)
    | Report(id: RunId, usage: Option<Usage>)

  function Without<T>(s: seq<T>, k: nat): seq<T>
    requires k < |s|
  {
    s[..k] + s[k + 1..]
  }

  ghost function Apply(s: State, a: Act, limits: Limits): State {
    match a
    case Admission(parent) =>
      var siblings := if parent.Some? then |Children(s.runs, parent.value)| else 0;
      var answer := Admit(s.runs, parent, siblings, limits);
      if answer.Admitted? then s.(tickets := s.tickets + [answer.ticket]) else s
    case Insert(k, id) =>
      if k < |s.tickets| && id !in s.runs then
        var t := s.tickets[k];
        State(s.runs[id := Run(t.parent, t.root, t.depth, None)], Without(s.tickets, k))
      else s
    case Abandon(k) =>
      if k < |s.tickets| then s.(tickets := Without(s.tickets, k)) else s
    case Report(id, usage) =>
      if id in s.runs then s.(runs := s.runs[id := s.runs[id].(output := usage)]) else s
  }

  ghost function Play(s: State, acts: seq<Act>, limits: Limits): State
    decreases acts
  {
    if acts == [] then s else Play(Apply(s, acts[0], limits), acts[1..], limits)
  }

  // ----- What every creation keeps -----

  /** A parent, root and depth that agree with the rows they were read from. */
  predicate Lineage(runs: Runs, t: Ticket, limits: Limits) {
    match t.parent
    case None => t.root == None && t.depth == 0
    case Some(p) => p in runs && t.depth == runs[p].depth + 1 && t.depth <= limits.depth && t.root == Some(RootOf(runs, p))
  }

  function TicketOf(r: Run): Ticket {
    Ticket(r.parent, r.root, r.depth)
  }

  ghost predicate Rooted(runs: Runs, limits: Limits) {
    forall id :: id in runs ==> Lineage(runs, TicketOf(runs[id]), limits)
  }

  ghost predicate Inv(s: State, limits: Limits) {
    Rooted(s.runs, limits) && forall t :: t in s.tickets ==> Lineage(s.runs, t, limits)
  }

  /** Rows are only added; a row's parent, root and depth never change. */
  ghost predicate Extends(runs: Runs, later: Runs) {
    forall id :: id in runs ==> id in later && TicketOf(later[id]) == TicketOf(runs[id])
  }

  /** A step that only adds rows and tickets already accounted for keeps the invariant. */
  lemma InvCarried(s: State, t: State, limits: Limits)
    requires Inv(s, limits) && Extends(s.runs, t.runs)
    requires forall id :: id in t.runs && id !in s.runs ==> TicketOf(t.runs[id]) in s.tickets
    requires forall x :: x in t.tickets ==> x in s.tickets || Lineage(s.runs, x, limits)
    ensures Inv(t, limits)
  {
  }

  lemma InvKept(s: State, a: Act, limits: Limits)
    requires Inv(s, limits)
    ensures Inv(Apply(s, a, limits), limits)
    ensures Extends(s.runs, Apply(s, a, limits).runs)
  {
    var t := Apply(s, a, limits);
    assert forall x :: x in t.tickets ==> x in s.tickets || a.Admission?;
    InvCarried(s, t, limits);
  }

  lemma {:induction false} InvAlways(s: State, acts: seq<Act>, limits: Limits)
    requires Inv(s, limits)
    ensures Inv(Play(s, acts, limits), limits)
    decreases acts
  {
    if acts != [] {
      InvKept(s, acts[0], limits);
      InvAlways(Apply(s, acts[0], limits), acts[1..], limits);
    }
  }

  // ----- Walking up -----

  /** The run `k` parent steps above `id`. */
  function Up(runs: Runs, id: RunId, k: nat): Option<RunId>
    decreases k
  {
    if id !in runs then None
    else if k == 0 then Some(id)
    else if runs[id].parent.None? then None
    else Up(runs, runs[id].parent.value, k - 1)
  }

  /**
   * Whatever sequence of creations built it, a run reaches its root in exactly
   * `depth` parent steps: not earlier, and there is nothing above.
   */
  lemma {:induction false} ReachesRoot(runs: Runs, limits: Limits, id: RunId)
    requires Rooted(runs, limits) && id in runs
    ensures runs[id].depth <= limits.depth || runs[id].depth == 0
    ensures RootOf(runs, id) in runs && runs[RootOf(runs, id)].depth == 0 && runs[RootOf(runs, id)].parent == None
    ensures forall k :: 0 <= k ==> (Up(runs, id, k) == Some(RootOf(runs, id)) <==> k == runs[id].depth)
    ensures forall k :: k > runs[id].depth ==> Up(runs, id, k) == None
    decreases runs[id].depth
  {
    if runs[id].parent.Some? {
      var p := runs[id].parent.value;
      ReachesRoot(runs, limits, p);
      assert RootOf(runs, id) == RootOf(runs, p);
      forall k: nat
        ensures Up(runs, id, k) == Some(RootOf(runs, id)) <==> k == runs[id].depth
        ensures k > runs[id].depth ==> Up(runs, id, k) == None
      {
        if k > 0 {
          assert Up(runs, id, k) == Up(runs, p, k - 1);
        }
      }
    }
  }

  lemma CreatedRunsReachRoot(acts: seq<Act>, limits: Limits, id: RunId)
    requires id in Play(State(map[], []), acts, limits).runs
    ensures var runs := Play(State(map[], []), acts, limits).runs;
            && (runs[id].depth <= limits.depth || runs[id].depth == 0)
            && RootOf(runs, id) in runs && runs[RootOf(runs, id)].depth == 0
            && Up(runs, id, runs[id].depth) == Some(RootOf(runs, id))
            && forall k :: k > runs[id].depth ==> Up(runs, id, k) == None
  {
    InvAlways(State(map[], []), acts, limits);
    ReachesRoot(Play(State(map[], []), acts, limits).runs, limits, id);
  }

  // ----- Descendants -----

  /** `id` is a strict descendant of `top`, every run on the way being in `runs`. */
  ghost predicate Under(runs: Runs, top: RunId, id: RunId) {
    exists k: nat :: k > 0 && Up(runs, id, k) == Some(top)
  }

  lemma UnderStep(runs: Runs, top: RunId, id: RunId)
    requires id in runs && top in runs
    ensures Under(runs, top, id) <==>
            runs[id].parent.Some? && (runs[id].parent.value == top || Under(runs, top, runs[id].parent.value))
  {
    if runs[id].parent.Some? {
      var p := runs[id].parent.value;
      if Under(runs, top, id) {
        var k: nat :| k > 0 && Up(runs, id, k) == Some(top);
        assert Up(runs, p, k - 1) == Some(top);
      }
      if p == top {
        assert Up(runs, id, 1) == Some(top);
      }
      if Under(runs, top, p) {
        var k: nat :| k > 0 && Up(runs, p, k) == Some(top);
        assert Up(runs, id, k + 1) == Some(top);
      }
    }
  }

  /** Descendants lie strictly deeper and share the root. */
  lemma {:induction false} UnderIsDeeper(runs: Runs, limits: Limits, top: RunId, id: RunId, k: nat)
    requires Rooted(runs, limits) && top in runs
    requires k > 0 && Up(runs, id, k) == Some(top)
    ensures id in runs && runs[id].depth == runs[top].depth + k
    ensures runs[id].root == Some(RootOf(runs, top))
    decreases k
  {
    if k > 1 {
      UnderIsDeeper(runs, limits, top, runs[id].parent.value, k - 1);
    } else {
      assert Up(runs, runs[id].parent.value, 0) == Some(top);
    }
  }

  // ----- The cancel cascade -----

  const MAX_CASCADE_RUNS := 5000

  ghost predicate Distinct(s: seq<RunId>) {
    forall i, j :: 0 <= i < j < |s| ==> s[i] != s[j]
  }

  ghost function Delegated(runs: Runs, root: RunId): set<RunId> {
    set id | id in runs && runs[id].root == Some(root)
  }

  /** A run's place in the order by creation time and id. */
  type Order = RunId -> int

  /** The runs of a tree that are as new as `id`. */
  ghost function AsNew(runs: Runs, order: Order, root: RunId, id: RunId): set<RunId> {
    set x | x in Delegated(runs, root) && order(x) >= order(id)
  }

  /** What a search by root id returns: the newest runs of that tree, up to the limit. */
  ghost predicate Listing(runs: Runs, order: Order, root: RunId, tree: seq<RunId>) {
    && Distinct(tree)
    && (forall x, y :: x in Delegated(runs, root) && y in Delegated(runs, root) && order(x) == order(y) ==> x == y)
    && (forall id :: id in tree <==> id in Delegated(runs, root) && |AsNew(runs, order, root, id)| <= MAX_CASCADE_RUNS)
  }

  ghost function Ids(s: seq<RunId>): set<RunId> {
    set id | id in s
  }

  lemma IdsSplit(s: seq<RunId>)
    requires s != [] && Distinct(s)
    ensures var front, last := s[..|s| - 1], s[|s| - 1];
            Distinct(front) && last in Ids(s) && Ids(s) - {last} == Ids(front)
  {
  }

  lemma {:induction false} IdsCount(s: seq<RunId>)
    requires Distinct(s)
    ensures |Ids(s)| == |s|
    decreases s
  {
    if s != [] {
      IdsSplit(s);
      IdsCount(s[..|s| - 1]);
    }
  }

  lemma {:induction false} OldestOf(s: seq<RunId>, order: Order) returns (oldest: RunId)
    requires s != []
    ensures oldest in s && forall id :: id in s ==> order(oldest) <= order(id)
    decreases s
  {
    oldest := s[0];
    if |s| > 1 {
      var other := OldestOf(s[1..], order);
      oldest := if order(s[0]) <= order(other) then s[0] else other;
      assert s == [s[0]] + s[1..];
    }
  }

  /** The search returns rows of that tree within the limit, all of them if there are no more. */
  lemma ListingFits(runs: Runs, order: Order, root: RunId, tree: seq<RunId>)
    requires Listing(runs, order, root, tree)
    ensures |tree| <= MAX_CASCADE_RUNS
    ensures forall id :: id in tree ==> id in Delegated(runs, root)
    ensures |Delegated(runs, root)| <= MAX_CASCADE_RUNS ==> forall id :: id in Delegated(runs, root) ==> id in tree
  {
    if tree != [] {
      var oldest := OldestOf(tree, order);
      IdsCount(tree);
      SubsetSize(Ids(tree), AsNew(runs, order, root, oldest));
    }
    forall id | id in Delegated(runs, root)
      ensures |AsNew(runs, order, root, id)| <= |Delegated(runs, root)|
    {
      SubsetSize(AsNew(runs, order, root, id), Delegated(runs, root));
    }
  }

  /** The rows the cascade can see: the snapshot and the cancelled run itself. */
  function Seen(runs: Runs, tree: seq<RunId>, top: RunId): Runs {
    map id | id in runs && (id in tree || id == top) :: runs[id]
  }

  function ChildrenIn(runs: Runs, tree: seq<RunId>, p: RunId): (kids: seq<RunId>) {
    if tree == [] then []
    else
      var front := ChildrenIn(runs, tree[..|tree| - 1], p);
      var id := tree[|tree| - 1];
      if id in runs && runs[id].parent == Some(p) then front + [id] else front
  }

  lemma {:induction false} ChildrenInTree(runs: Runs, tree: seq<RunId>, p: RunId)
    requires Distinct(tree)
    ensures Distinct(ChildrenIn(runs, tree, p))
    ensures forall id :: id in ChildrenIn(runs, tree, p) <==> id in tree && id in runs && runs[id].parent == Some(p)
    decreases tree
  {
    if tree != [] {
      ChildrenInTree(runs, tree[..|tree| - 1], p);
      assert tree == tree[..|tree| - 1] + [tree[|tree| - 1]];
    }
  }

  function Kids(childrenOf: map<RunId, seq<RunId>>, p: RunId): seq<RunId> {
    if p in childrenOf then childrenOf[p] else []
  }

  method IndexChildren(runs: Runs, tree: seq<RunId>) returns (childrenOf: map<RunId, seq<RunId>>)
    requires forall id :: id in tree ==> id in runs
    ensures forall p :: Kids(childrenOf, p) == ChildrenIn(runs, tree, p)
  {
    childrenOf := map[];
    var i := 0;
    while i < |tree|
      invariant 0 <= i <= |tree|
      invariant forall p :: Kids(childrenOf, p) == ChildrenIn(runs, tree[..i], p)
    {
      var r := runs[tree[i]];
      assert tree[..i + 1][..i] == tree[..i];
      if r.parent.Some? {
        childrenOf := childrenOf[r.parent.value := Kids(childrenOf, r.parent.value) + [tree[i]]];
      }
      i := i + 1;
    }
    assert tree[..|tree|] == tree;
  }

  /** A run whose parent is `top` or already cancelled. */
  predicate Due(runs: Runs, top: RunId, cancelled: seq<RunId>, id: RunId) {
    id in runs && runs[id].parent.Some? && (runs[id].parent.value == top || runs[id].parent.value in cancelled)
  }

  /** Progress of the walk: cancelled and queued together are exactly the runs that are due. */
  ghost predicate Walk(runs: Runs, tree: seq<RunId>, top: RunId, cancelled: seq<RunId>, queue: seq<RunId>)
    requires top in runs
  {
    && Distinct(cancelled + queue)
    && (forall id :: id in cancelled + queue <==> id in tree && Due(runs, top, cancelled, id))
    && (forall id :: id in cancelled + queue ==> id in runs && runs[id].depth > runs[top].depth)
  }

  lemma WalkStarts(runs: Runs, limits: Limits, tree: seq<RunId>, top: RunId)
    requires Rooted(runs, limits) && top in runs && Distinct(tree)
    ensures Walk(runs, tree, top, [], ChildrenIn(runs, tree, top))
  {
    ChildrenInTree(runs, tree, top);
    assert [] + ChildrenIn(runs, tree, top) == ChildrenIn(runs, tree, top);
  }

  lemma DistinctConcat(a: seq<RunId>, b: seq<RunId>)
    requires Distinct(a) && Distinct(b) && forall id :: id in a ==> id !in b
    ensures Distinct(a + b)
  {
    forall i, j | 0 <= i < j < |a + b|
      ensures (a + b)[i] != (a + b)[j]
    {
      if i < |a| <= j {
        assert a[i] in a && b[j - |a|] in b;
      }
    }
  }

  /** The queue's head is neither cancelled yet nor `top`, so its children are new. */
  lemma HeadIsNew(runs: Runs, tree: seq<RunId>, top: RunId, cancelled: seq<RunId>, queue: seq<RunId>)
    requires top in runs && queue != [] && Walk(runs, tree, top, cancelled, queue)
    ensures queue[0] in tree && queue[0] in runs && runs[queue[0]].depth > runs[top].depth
    ensures queue[0] !in cancelled && queue[0] != top
    ensures forall id :: id in cancelled + queue ==> !(runs[id].parent == Some(queue[0]))
  {
    var all := cancelled + queue;
    assert all[|cancelled|] == queue[0];
    assert queue[0] in all;
    assert forall i :: 0 <= i < |cancelled| ==> all[i] == cancelled[i];
  }

  lemma ChildIsDeeper(runs: Runs, limits: Limits, p: RunId)
    requires Rooted(runs, limits)
    ensures forall id :: id in runs && runs[id].parent == Some(p) ==> p in runs && runs[id].depth == runs[p].depth + 1
  {
  }

  lemma WalkGoesOn(runs: Runs, limits: Limits, tree: seq<RunId>, top: RunId, cancelled: seq<RunId>, queue: seq<RunId>)
    requires Rooted(runs, limits) && top in runs && Distinct(tree)
    requires queue != [] && Walk(runs, tree, top, cancelled, queue)
    ensures Walk(runs, tree, top, cancelled + [queue[0]], queue[1..] + ChildrenIn(runs, tree, queue[0]))
  {
    hide ChildrenIn, Rooted, Lineage;
    var child := queue[0];
    var kids := ChildrenIn(runs, tree, child);
    ChildrenInTree(runs, tree, child);
    ChildIsDeeper(runs, limits, child);
    HeadIsNew(runs, tree, top, cancelled, queue);
    var before, after := cancelled + queue, (cancelled + [child]) + (queue[1..] + kids);
    assert after == before + kids;
    DistinctConcat(before, kids);
    forall id
      ensures id in after <==> id in tree && Due(runs, top, cancelled + [child], id)
    {
      assert id in after <==> id in before || id in kids;
      assert Due(runs, top, cancelled + [child], id) <==>
             Due(runs, top, cancelled, id) || (id in runs && runs[id].parent == Some(child));
    }
    forall id | id in after
      ensures id in runs && runs[id].depth > runs[top].depth
    {
      assert id in before || id in kids;
    }
  }

  lemma {:induction false} DistinctFits(s: seq<RunId>, t: seq<RunId>)
    requires Distinct(s) && forall id :: id in s ==> id in t
    ensures |s| <= |t|
    decreases s
  {
    if s != [] {
      assert s[0] in t;
      var k :| 0 <= k < |t| && t[k] == s[0];
      var rest := Without(t, k);
      forall id | id in s[1..]
        ensures id in rest
      {
        assert id in s && id != s[0];
        var l :| 0 <= l < |t| && t[l] == id;
        assert rest[if l < k then l else l - 1] == id;
      }
      DistinctFits(s[1..], rest);
    }
  }

  lemma {:induction false} WalkEnds(runs: Runs, limits: Limits, tree: seq<RunId>, top: RunId, cancelled: seq<RunId>, id: RunId)
    requires Rooted(runs, limits) && top in runs && Walk(runs, tree, top, cancelled, [])
    requires id in tree && id in runs
    ensures id in cancelled <==> Under(Seen(runs, tree, top), top, id)
    decreases runs[id].depth
  {
    var seen := Seen(runs, tree, top);
    UnderStep(seen, top, id);
    assert cancelled + [] == cancelled;
    if runs[id].parent.Some? {
      var p := runs[id].parent.value;
      if p != top && p in tree {
        WalkEnds(runs, limits, tree, top, cancelled, p);
      }
    }
  }

  /** With the whole tree in the snapshot, seeing it from `top` loses no descendant. */
  lemma {:induction false} SeenWhole(runs: Runs, limits: Limits, tree: seq<RunId>, top: RunId, id: RunId)
    requires Rooted(runs, limits) && top in runs && id in runs
    requires forall x :: x in Delegated(runs, RootOf(runs, top)) ==> x in tree
    ensures Under(runs, top, id) <==> id in tree && Under(Seen(runs, tree, top), top, id)
    decreases runs[id].depth
  {
    var seen := Seen(runs, tree, top);
    UnderStep(runs, top, id);
    if Under(runs, top, id) {
      var k: nat :| k > 0 && Up(runs, id, k) == Some(top);
      UnderIsDeeper(runs, limits, top, id, k);
    }
    if id in tree {
      UnderStep(seen, top, id);
      if runs[id].parent.Some? && runs[id].parent.value != top {
        SeenWhole(runs, limits, tree, top, runs[id].parent.value);
      }
    }
  }

  /**
   * Breadth-first from `top`: returns the runs in the order they are cancelled.
   * Each strict descendant in the snapshot is visited once and nothing else is;
   * a tree within the search limit loses none.
   */
  method CascadeCancelDescendants(runs: Runs, ghost limits: Limits, ghost order: Order, top: RunId, tree: seq<RunId>)
    returns (cancelled: seq<RunId>)
    requires Rooted(runs, limits) && top in runs
    requires Listing(runs, order, RootOf(runs, top), tree)
    ensures Distinct(cancelled)
    ensures forall id :: id in cancelled <==> id in tree && Under(Seen(runs, tree, top), top, id)
    ensures |Delegated(runs, RootOf(runs, top))| <= MAX_CASCADE_RUNS ==>
              forall id :: id in cancelled <==> id in runs && Under(runs, top, id)
  {
    ListingFits(runs, order, RootOf(runs, top), tree);
    var childrenOf := IndexChildren(runs, tree);
    cancelled := [];
    var queue := Kids(childrenOf, top);
    WalkStarts(runs, limits, tree, top);
    while queue != []
      invariant Walk(runs, tree, top, cancelled, queue)
      decreases |tree| - |cancelled|
    {
      var child := queue[0];
      WalkGoesOn(runs, limits, tree, top, cancelled, queue);
      cancelled := cancelled + [child];
      queue := queue[1..] + Kids(childrenOf, child);
      WalkFits(runs, tree, top, cancelled, queue);
    }
    assert cancelled + queue == cancelled;
    forall id | id in tree
      ensures id in cancelled <==> Under(Seen(runs, tree, top), top, id)
    {
      WalkEnds(runs, limits, tree, top, cancelled, id);
    }
    if |Delegated(runs, RootOf(runs, top))| <= MAX_CASCADE_RUNS {
      forall id | id in runs
        ensures id in cancelled <==> Under(runs, top, id)
      {
        SeenWhole(runs, limits, tree, top, id);
      }
    }
  }

  lemma WalkFits(runs: Runs, tree: seq<RunId>, top: RunId, cancelled: seq<RunId>, queue: seq<RunId>)
    requires top in runs && Walk(runs, tree, top, cancelled, queue)
    ensures |cancelled| <= |tree|
  {
    assert forall i :: 0 <= i < |cancelled| ==> (cancelled + queue)[i] == cancelled[i];
    forall id | id in cancelled
      ensures id in tree
    {
      assert id in cancelled + queue;
    }
    DistinctFits(cancelled, tree);
  }

  /** The snapshot lets the cascade from `top` reach everything under it. */
  ghost predicate ReachesAll(runs: Runs, top: RunId, tree: seq<RunId>) {
    forall id :: id in runs && Under(runs, top, id) ==> id in tree && Under(Seen(runs, tree, top), top, id)
  }

  lemma {:induction false} SeenUnder(runs: Runs, limits: Limits, top: RunId, tree: seq<RunId>, id: RunId)
    requires Rooted(runs, limits) && top in runs && id in runs && Under(runs, top, id)
    requires forall x :: x in runs && Under(runs, top, x) ==> x in tree
    ensures Under(Seen(runs, tree, top), top, id)
    decreases runs[id].depth
  {
    UnderStep(runs, top, id);
    UnderStep(Seen(runs, tree, top), top, id);
    var p := runs[id].parent.value;
    if p != top {
      var k: nat :| k > 0 && Up(runs, p, k) == Some(top);
      SeenUnder(runs, limits, top, tree, p);
    }
  }

  /** A cascade misses nothing exactly when the search returned all that lies under its start. */
  lemma CascadeSeesAll(runs: Runs, limits: Limits, top: RunId, tree: seq<RunId>)
    requires Rooted(runs, limits) && top in runs
    ensures ReachesAll(runs, top, tree) <==> forall id :: id in runs && Under(runs, top, id) ==> id in tree
  {
    if forall id :: id in runs && Under(runs, top, id) ==> id in tree {
      forall id | id in runs && Under(runs, top, id)
        ensures id in tree && Under(Seen(runs, tree, top), top, id)
      {
        SeenUnder(runs, limits, top, tree, id);
      }
    }
  }

  /** As can be told beforehand: a cascade from any run misses nothing exactly when no
      more runs of the tree than the limit are as new as the oldest one under it. */
  lemma CascadeCompleteIff(runs: Runs, limits: Limits, order: Order, top: RunId, tree: seq<RunId>, oldest: RunId)
    requires Rooted(runs, limits) && top in runs && Listing(runs, order, RootOf(runs, top), tree)
    requires oldest in runs && Under(runs, top, oldest)
    requires forall id :: id in runs && Under(runs, top, id) ==> order(oldest) <= order(id)
    ensures ReachesAll(runs, top, tree) <==> |AsNew(runs, order, RootOf(runs, top), oldest)| <= MAX_CASCADE_RUNS
  {
    var root := RootOf(runs, top);
    CascadeSeesAll(runs, limits, top, tree);
    forall id | id in runs && Under(runs, top, id)
      ensures id in Delegated(runs, root) && |AsNew(runs, order, root, id)| <= |AsNew(runs, order, root, oldest)|
    {
      var k: nat :| k > 0 && Up(runs, id, k) == Some(top);
      UnderIsDeeper(runs, limits, top, id, k);
      SubsetSize(AsNew(runs, order, root, id), AsNew(runs, order, root, oldest));
    }
  }

  /** A larger tree does lose some: the cascade from its root then misses a descendant. */
  lemma LargeTreeIsCutShort(runs: Runs, limits: Limits, order: Order, root: RunId, tree: seq<RunId>)
    requires Rooted(runs, limits) && root in runs && Listing(runs, order, root, tree)
    requires |Delegated(runs, root)| > MAX_CASCADE_RUNS
    ensures exists id :: id in runs && Under(runs, root, id) && id !in tree
  {
    ListingFits(runs, order, root, tree);
    assert exists id :: id in Delegated(runs, root) && id !in tree by {
      if forall id :: id in Delegated(runs, root) ==> id in tree { ListedSize(tree, Delegated(runs, root)); }
    }
    var id :| id in Delegated(runs, root) && id !in tree;
    ReachesRoot(runs, limits, id);
    assert Up(runs, id, runs[id].depth) == Some(root);
  }

  // ----- Fan-out -----

  function TicketsFor(tickets: seq<Ticket>, p: RunId): nat {
    if tickets == [] then 0 else (if tickets[0].parent == Some(p) then 1 else 0) + TicketsFor(tickets[1..], p)
  }

  lemma {:induction false} TicketsConcat(a: seq<Ticket>, b: seq<Ticket>, p: RunId)
    ensures TicketsFor(a + b, p) == TicketsFor(a, p) + TicketsFor(b, p)
    decreases a
  {
    if a == [] {
      assert a + b == b;
    } else {
      TicketsConcat(a[1..], b, p);
      assert (a + b)[1..] == a[1..] + b;
    }
  }

  lemma TicketsWithout(tickets: seq<Ticket>, k: nat, p: RunId)
    requires k < |tickets|
    ensures TicketsFor(tickets, p) == TicketsFor(Without(tickets, k), p) + (if tickets[k].parent == Some(p) then 1 else 0)
  {
    assert tickets == tickets[..k] + ([tickets[k]] + tickets[k + 1..]);
    TicketsConcat(tickets[..k], [tickets[k]] + tickets[k + 1..], p);
    TicketsConcat(tickets[..k], tickets[k + 1..], p);
  }

  /** Children of `p` and creations under way for it stay within `bound`. */
  ghost predicate FanOut(s: State, p: RunId, bound: int) {
    |Children(s.runs, p)| + TicketsFor(s.tickets, p) <= bound
  }

  /** No more than `c` creations under `p` are ever under way at once. */
  ghost predicate AtMost(s: State, acts: seq<Act>, limits: Limits, p: RunId, c: nat)
    decreases acts
  {
    && TicketsFor(s.tickets, p) <= c
    && (acts == [] || AtMost(Apply(s, acts[0], limits), acts[1..], limits, p, c))
  }

  lemma AdmissionFanOut(s: State, parent: Option<RunId>, limits: Limits, p: RunId, c: nat)
    requires FanOut(s, p, limits.breadth + c - 1)
    requires TicketsFor(Apply(s, Admission(parent), limits).tickets, p) <= c
    ensures FanOut(Apply(s, Admission(parent), limits), p, limits.breadth + c - 1)
  {
    var t := Apply(s, Admission(parent), limits);
    if t != s {
      TicketsConcat(s.tickets, t.tickets[|s.tickets|..], p);
      assert t.tickets == s.tickets + t.tickets[|s.tickets|..];
    }
  }

  lemma ChildrenWith(runs: Runs, id: RunId, r: Run, p: RunId)
    requires id !in runs
    ensures |Children(runs[id := r], p)| == |Children(runs, p)| + (if r.parent == Some(p) then 1 else 0)
  {
    if r.parent == Some(p) {
      assert Children(runs[id := r], p) == Children(runs, p) + {id};
    } else {
      assert Children(runs[id := r], p) == Children(runs, p);
    }
  }

  lemma InsertFanOut(s: State, k: nat, id: RunId, limits: Limits, p: RunId)
    ensures var t := Apply(s, Insert(k, id), limits);
            |Children(t.runs, p)| + TicketsFor(t.tickets, p) == |Children(s.runs, p)| + TicketsFor(s.tickets, p)
  {
    hide Children, TicketsFor;
    if k < |s.tickets| && id !in s.runs {
      var ticket := s.tickets[k];
      TicketsWithout(s.tickets, k, p);
      ChildrenWith(s.runs, id, Run(ticket.parent, ticket.root, ticket.depth, None), p);
    }
  }

  lemma FanOutKept(s: State, a: Act, limits: Limits, p: RunId, c: nat)
    requires FanOut(s, p, limits.breadth + c - 1)
    requires TicketsFor(Apply(s, a, limits).tickets, p) <= c
    ensures FanOut(Apply(s, a, limits), p, limits.breadth + c - 1)
  {
    match a {
      case Admission(parent) => AdmissionFanOut(s, parent, limits, p, c);
      case Insert(k, id) => InsertFanOut(s, k, id, limits, p);
      case Abandon(k) =>
        if k < |s.tickets| {
          TicketsWithout(s.tickets, k, p);
        }
      case Report(id, usage) =>
        assert Children(Apply(s, a, limits).runs, p) == Children(s.runs, p);
    }
  }

  /**
   * The breadth check and the insert are not one step, so creations racing
   * under one parent can pass the cap, but never by more than the number of
   * them that overlap, less one.
   */
  lemma {:induction false} BreadthBounded(s: State, acts: seq<Act>, limits: Limits, p: RunId, c: nat)
    requires FanOut(s, p, limits.breadth + c - 1) && AtMost(s, acts, limits, p, c)
    ensures |Children(Play(s, acts, limits).runs, p)| <= limits.breadth + c - 1
    decreases acts
  {
    if acts != [] {
      FanOutKept(s, acts[0], limits, p, c);
      BreadthBounded(Apply(s, acts[0], limits), acts[1..], limits, p, c);
    }
  }

  // ----- How far racing creations get -----

  const NOTHING := State(map[], [])

  lemma {:induction false} PlayConcat(s: State, a: seq<Act>, b: seq<Act>, limits: Limits)
    ensures Play(s, a + b, limits) == Play(Play(s, a, limits), b, limits)
    decreases a
  {
    if a == [] {
      assert a + b == b;
    } else {
      hide Apply;
      PlayConcat(Apply(s, a[0], limits), a[1..], b, limits);
      assert (a + b)[1..] == a[1..] + b;
    }
  }

  lemma {:induction false} AtMostConcat(s: State, a: seq<Act>, b: seq<Act>, limits: Limits, p: RunId, c: nat)
    requires AtMost(s, a, limits, p, c) && AtMost(Play(s, a, limits), b, limits, p, c)
    ensures AtMost(s, a + b, limits, p, c)
    decreases a
  {
    if a == [] {
      assert a + b == b;
    } else {
      hide Apply;
      AtMostConcat(Apply(s, a[0], limits), a[1..], b, limits, p, c);
      assert (a + b)[1..] == a[1..] + b;
    }
  }

  /** The `n`-th child name: longer than `p` and than the names before it. */
  function Name(p: RunId, n: nat): RunId { p + seq(n + 1, i => 'x') }

  /** `p` has `n` children, the first `n` names, and `k` creations under way; there is no other run. */
  ghost predicate Fan(s: State, limits: Limits, p: RunId, n: nat, k: nat) {
    && p in s.runs && s.runs[p].depth == 0 && s.runs[p].parent == None && s.runs[p].root == None && limits.depth >= 1
    && |Children(s.runs, p)| == n && |Delegated(s.runs, p)| == n
    && |s.tickets| == k && (forall t :: t in s.tickets ==> t.parent == Some(p) && t.root == Some(p))
    && (forall id :: id in s.runs ==> |id| <= |p| + n)
  }

  lemma {:induction false} TicketsAll(tickets: seq<Ticket>, p: RunId)
    requires forall t :: t in tickets ==> t.parent == Some(p)
    ensures TicketsFor(tickets, p) == |tickets|
    decreases tickets
  {
    if tickets != [] {
      TicketsAll(tickets[1..], p);
    }
  }

  lemma FanTickets(s: State, limits: Limits, p: RunId, n: nat, k: nat)
    requires Fan(s, limits, p, n, k)
    ensures TicketsFor(s.tickets, p) == k
  {
    TicketsAll(s.tickets, p);
  }

  lemma NoStep(s: State, limits: Limits, p: RunId, c: nat)
    ensures Play(s, [], limits) == s && (AtMost(s, [], limits, p, c) <==> TicketsFor(s.tickets, p) <= c)
  {
  }

  lemma OneStep(s: State, a: Act, rest: seq<Act>, limits: Limits, p: RunId, c: nat)
    ensures Play(s, [a] + rest, limits) == Play(Apply(s, a, limits), rest, limits)
    ensures AtMost(s, [a] + rest, limits, p, c) <==>
            TicketsFor(s.tickets, p) <= c && AtMost(Apply(s, a, limits), rest, limits, p, c)
  {
    hide Apply;
    assert ([a] + rest)[1..] == rest;
  }

  lemma AdmissionFans(s: State, limits: Limits, p: RunId, n: nat, k: nat)
    requires Fan(s, limits, p, n, k) && n < limits.breadth
    ensures Fan(Apply(s, Admission(Some(p)), limits), limits, p, n, k + 1)
  {
  }

  lemma InsertFans(s: State, limits: Limits, p: RunId, n: nat, k: nat)
    requires Fan(s, limits, p, n, k) && k > 0
    ensures Fan(Apply(s, Insert(0, Name(p, n)), limits), limits, p, n + 1, k - 1)
  {
    var id := Name(p, n);
    assert |id| == |p| + n + 1 && id !in s.runs;
    var t := Apply(s, Insert(0, id), limits);
    assert s.tickets[0] in s.tickets;
    assert Children(t.runs, p) == Children(s.runs, p) + {id};
    assert Delegated(t.runs, p) == Delegated(s.runs, p) + {id};
  }

  function Admissions(p: RunId, c: nat): seq<Act> {
    if c == 0 then [] else [Admission(Some(p))] + Admissions(p, c - 1)
  }

  function Inserts(p: RunId, n: nat, c: nat): seq<Act>
    decreases c
  {
    if c == 0 then [] else [Insert(0, Name(p, n))] + Inserts(p, n + 1, c - 1)
  }

  function OneByOne(p: RunId, n: nat, m: nat): seq<Act>
    decreases m
  {
    if m == 0 then [] else [Admission(Some(p))] + ([Insert(0, Name(p, n))] + OneByOne(p, n + 1, m - 1))
  }

  lemma {:induction false} AdmissionsFan(s: State, limits: Limits, p: RunId, n: nat, k: nat, c: nat, most: nat)
    requires Fan(s, limits, p, n, k) && n < limits.breadth && k + c <= most
    ensures Fan(Play(s, Admissions(p, c), limits), limits, p, n, k + c)
    ensures AtMost(s, Admissions(p, c), limits, p, most)
    decreases c
  {
    hide Apply, Fan;
    FanTickets(s, limits, p, n, k);
    if c > 0 {
      var a := Admission(Some(p));
      AdmissionFans(s, limits, p, n, k);
      AdmissionsFan(Apply(s, a, limits), limits, p, n, k + 1, c - 1, most);
      hide Play, AtMost;
      OneStep(s, a, Admissions(p, c - 1), limits, p, most);
    }
  }

  lemma {:induction false} InsertsFan(s: State, limits: Limits, p: RunId, n: nat, k: nat, most: nat)
    requires Fan(s, limits, p, n, k) && k <= most
    ensures Fan(Play(s, Inserts(p, n, k), limits), limits, p, n + k, 0)
    ensures AtMost(s, Inserts(p, n, k), limits, p, most)
    decreases k
  {
    hide Apply, Fan;
    FanTickets(s, limits, p, n, k);
    if k > 0 {
      var a := Insert(0, Name(p, n));
      InsertFans(s, limits, p, n, k);
      InsertsFan(Apply(s, a, limits), limits, p, n + 1, k - 1, most);
      hide Play, AtMost, Name;
      OneStep(s, a, Inserts(p, n + 1, k - 1), limits, p, most);
    }
  }

  lemma {:induction false} OneByOneFans(s: State, limits: Limits, p: RunId, n: nat, m: nat, most: nat)
    requires Fan(s, limits, p, n, 0) && n + m <= limits.breadth && 1 <= most
    ensures Fan(Play(s, OneByOne(p, n, m), limits), limits, p, n + m, 0)
    ensures AtMost(s, OneByOne(p, n, m), limits, p, most)
    decreases m
  {
    hide Apply, Fan, Play, AtMost, Name, TicketsFor, Children, Delegated;
    FanTickets(s, limits, p, n, 0);
    NoStep(s, limits, p, most);
    if m > 0 {
      var a, b, rest := Admission(Some(p)), Insert(0, Name(p, n)), OneByOne(p, n + 1, m - 1);
      var admitted := Apply(s, a, limits);
      AdmissionFans(s, limits, p, n, 0);
      FanTickets(admitted, limits, p, n, 1);
      InsertFans(admitted, limits, p, n, 1);
      OneByOneFans(Apply(admitted, b, limits), limits, p, n + 1, m - 1, most);
      OneStep(admitted, b, rest, limits, p, most);
      OneStep(s, a, [b] + rest, limits, p, most);
    }
  }

  lemma RootFans(limits: Limits, p: RunId, most: nat)
    requires limits.depth >= 1
    ensures Fan(Play(NOTHING, [Admission(None), Insert(0, p)], limits), limits, p, 0, 0)
    ensures AtMost(NOTHING, [Admission(None), Insert(0, p)], limits, p, most)
  {
    var one := Apply(NOTHING, Admission(None), limits);
    var two := Apply(one, Insert(0, p), limits);
    assert one.tickets == [Ticket(None, None, 0)] && two == State(map[p := Run(None, None, 0, None)], []);
    assert [Admission(None), Insert(0, p)][1..] == [Insert(0, p)];
    assert Play(two, [], limits) == two && Play(one, [Insert(0, p)], limits) == two;
    assert Children(two.runs, p) == {} && Delegated(two.runs, p) == {};
    assert TicketsFor(one.tickets, p) == 0 == TicketsFor(two.tickets, p);
    assert AtMost(two, [], limits, p, most) && AtMost(one, [Insert(0, p)], limits, p, most);
  }

  /** All but one place is filled in turn; then `c` creations pass the check before any of them inserts. */
  function Race(limits: Limits, p: RunId, c: nat): seq<Act>
    requires limits.breadth >= 1
  {
    [Admission(None), Insert(0, p)] +
    (OneByOne(p, 0, limits.breadth - 1) + (Admissions(p, c) + Inserts(p, limits.breadth - 1, c)))
  }

  /** The bound is reached, whatever the limits and however many creations overlap. */
  lemma BreadthAttained(limits: Limits, p: RunId, c: nat)
    requires limits.depth >= 1 && limits.breadth >= 1 && c >= 1
    ensures AtMost(NOTHING, Race(limits, p, c), limits, p, c)
    ensures Fan(Play(NOTHING, Race(limits, p, c), limits), limits, p, limits.breadth + c - 1, 0)
  {
    hide Apply, Fan, Name, Play, AtMost, OneByOne, Admissions, Inserts;
    var root, filling := [Admission(None), Insert(0, p)], OneByOne(p, 0, limits.breadth - 1);
    var passing, inserting := Admissions(p, c), Inserts(p, limits.breadth - 1, c);
    RootFans(limits, p, c);
    var s1 := Play(NOTHING, root, limits);
    OneByOneFans(s1, limits, p, 0, limits.breadth - 1, c);
    var s2 := Play(s1, filling, limits);
    AdmissionsFan(s2, limits, p, limits.breadth - 1, 0, c, c);
    var s3 := Play(s2, passing, limits);
    InsertsFan(s3, limits, p, limits.breadth - 1, c, c);
    AtMostConcat(s2, passing, inserting, limits, p, c);
    PlayConcat(s2, passing, inserting, limits);
    AtMostConcat(s1, filling, passing + inserting, limits, p, c);
    PlayConcat(s1, filling, passing + inserting, limits);
    AtMostConcat(NOTHING, root, filling + (passing + inserting), limits, p, c);
    PlayConcat(NOTHING, root, filling + (passing + inserting), limits);
  }

  /** No history with at most `c` creations under `p` at a time passes the breadth limit. */
  ghost predicate LimitHolds(limits: Limits, p: RunId, c: nat) {
    forall acts :: AtMost(NOTHING, acts, limits, p, c) ==> |Children(Play(NOTHING, acts, limits).runs, p)| <= limits.breadth
  }

  /** So the limit is one that always holds exactly when creations under one parent do not overlap. */
  lemma BreadthLimitHoldsIff(limits: Limits, p: RunId, c: nat)
    requires limits.depth >= 1 && limits.breadth >= 1
    ensures LimitHolds(limits, p, c) <==> c <= 1
  {
    if c <= 1 {
      assert Children(NOTHING.runs, p) == {};
      forall acts | AtMost(NOTHING, acts, limits, p, c)
        ensures |Children(Play(NOTHING, acts, limits).runs, p)| <= limits.breadth
      {
        BreadthBounded(NOTHING, acts, limits, p, c);
      }
    } else {
      BreadthAttained(limits, p, c);
      assert AtMost(NOTHING, Race(limits, p, c), limits, p, c);
    }
  }

  /** Two creations both see the one free place and both take it. */
  lemma TwoPassALimitOfOne()
    ensures var acts := [Admission(None), Insert(0, "p"), Admission(Some("p")), Admission(Some("p")), Insert(0, "px"), Insert(0, "pxx")];
            |Children(Play(NOTHING, acts, Limits(1, 1)).runs, "p")| == 2
  {
    var acts := [Admission(None), Insert(0, "p"), Admission(Some("p")), Admission(Some("p")), Insert(0, "px"), Insert(0, "pxx")];
    BreadthAttained(Limits(1, 1), "p", 2);
    assert Name("p", 0) == "px" && Name("p", 1) == "pxx";
    assert OneByOne("p", 0, 0) == [];
    assert Admissions("p", 1) == [Admission(Some("p"))] + Admissions("p", 0);
    assert Admissions("p", 2) == [Admission(Some("p")), Admission(Some("p"))];
    assert Inserts("p", 1, 1) == [Insert(0, "pxx")] + Inserts("p", 2, 0);
    assert Inserts("p", 0, 2) == [Insert(0, "px"), Insert(0, "pxx")];
    assert Race(Limits(1, 1), "p", 2) == acts;
  }

  /** A tree beyond the search limit is within reach of every configuration. */
  lemma LargeTreeIsReached(limits: Limits, p: RunId, order: Order)
    requires limits.depth >= 1 && limits.breadth >= 1
    ensures var runs := Play(NOTHING, Race(limits, p, MAX_CASCADE_RUNS + 1), limits).runs;
            && Rooted(runs, limits) && p in runs
            && |Delegated(runs, p)| > MAX_CASCADE_RUNS
            && forall tree :: Listing(runs, order, p, tree) ==> exists id :: id in runs && Under(runs, p, id) && id !in tree
  {
    var acts := Race(limits, p, MAX_CASCADE_RUNS + 1);
    BreadthAttained(limits, p, MAX_CASCADE_RUNS + 1);
    InvAlways(NOTHING, acts, limits);
    var runs := Play(NOTHING, acts, limits).runs;
    forall tree | Listing(runs, order, p, tree)
      ensures exists id :: id in runs && Under(runs, p, id) && id !in tree
    {
      LargeTreeIsCutShort(runs, limits, order, p, tree);
    }
  }

  // ----- The cost rollup -----

  /** Reported usage with the total filled in when a runner left it out. */
  function ExtractRunUsage(output: Option<Usage>): (u: Usage)
    ensures u.totalTokens == 0 && u.promptTokens >= 0 && u.completionTokens >= 0 ==> u.promptTokens == u.completionTokens == 0
    ensures output.Some? ==> (u.promptTokens, u.completionTokens) == (output.value.promptTokens, output.value.completionTokens)
    ensures u.totalTokens == (if output.Some? then output.value.totalTokens else 0) || u.totalTokens == u.promptTokens + u.completionTokens
    ensures output.Some? && output.value.totalTokens != 0 ==> u == output.value
  {
    match output
    case None => Usage(0, 0, 0)
    case Some(u) =>
      if u.totalTokens == 0 && (u.promptTokens > 0 || u.completionTokens > 0)
      then u.(totalTokens := u.promptTokens + u.completionTokens)
      else u
  }

  datatype Summary = Summary(root: RunId, runCount: nat, usage: Usage, listed: seq<RunId>)

  function Plus(a: Usage, b: Usage): Usage {
    Usage(a.promptTokens + b.promptTokens, a.completionTokens + b.completionTokens, a.totalTokens + b.totalTokens)
  }

  function Total(runs: Runs, listed: seq<RunId>): Usage
    requires forall id :: id in listed ==> id in runs
  {
    if listed == [] then Usage(0, 0, 0)
    else Plus(Total(runs, listed[..|listed| - 1]), ExtractRunUsage(runs[listed[|listed| - 1]].output))
  }

  /** The usage of a set of runs, each counted once. */
  ghost function Spent(runs: Runs, ids: set<RunId>): Usage
    requires forall id :: id in ids ==> id in runs
    decreases |ids|
  {
    if ids == {} then Usage(0, 0, 0)
    else
      var id :| id in ids;
      Plus(Spent(runs, ids - {id}), ExtractRunUsage(runs[id].output))
  }

  lemma SpentPick(runs: Runs, ids: set<RunId>) returns (id: RunId)
    requires ids != {} && forall x :: x in ids ==> x in runs
    ensures id in ids
    ensures Spent(runs, ids) == Plus(Spent(runs, ids - {id}), ExtractRunUsage(runs[id].output))
  {
    id :| id in ids && Spent(runs, ids) == Plus(Spent(runs, ids - {id}), ExtractRunUsage(runs[id].output));
  }

  /** The order of the additions does not matter. */
  lemma {:induction false} SpentWithout(runs: Runs, ids: set<RunId>, id: RunId)
    requires id in ids && forall x :: x in ids ==> x in runs
    ensures Spent(runs, ids) == Plus(Spent(runs, ids - {id}), ExtractRunUsage(runs[id].output))
    decreases |ids|
  {
    hide Spent, ExtractRunUsage;
    var first := SpentPick(runs, ids);
    if first != id {
      SpentWithout(runs, ids - {first}, id);
      SpentWithout(runs, ids - {id}, first);
      assert ids - {first} - {id} == ids - {id} - {first};
    }
  }

  lemma {:induction false} TotalIsSpent(runs: Runs, listed: seq<RunId>)
    requires Distinct(listed) && forall id :: id in listed ==> id in runs
    ensures Total(runs, listed) == Spent(runs, Ids(listed))
    ensures |Ids(listed)| == |listed|
    decreases listed
  {
    hide Spent;
    if listed == [] {
      NothingSpent(runs);
    } else {
      IdsSplit(listed);
      TotalIsSpent(runs, listed[..|listed| - 1]);
      SpentWithout(runs, Ids(listed), listed[|listed| - 1]);
    }
  }

  lemma NothingSpent(runs: Runs)
    ensures Spent(runs, {}) == Usage(0, 0, 0)
  {
  }

  datatype Column = PromptTokens | CompletionTokens | TotalTokens

  /** What one run adds to a column; a missing total is the sum of its two parts, if either is positive. */
  function Cell(runs: Runs, id: RunId, column: Column): int {
    if id !in runs || runs[id].output.None? then 0
    else
      var u := runs[id].output.value;
      match column
      case PromptTokens => u.promptTokens
      case CompletionTokens => u.completionTokens
      case TotalTokens => if u.totalTokens == 0 && !(u.promptTokens <= 0 && u.completionTokens <= 0) then u.promptTokens + u.completionTokens else u.totalTokens
  }

  /** A column added up over a set of runs. */
  ghost function Sum(runs: Runs, ids: set<RunId>, column: Column): int
    decreases |ids|
  {
    if ids == {} then 0
    else
      var id :| id in ids;
      Sum(runs, ids - {id}, column) + Cell(runs, id, column)
  }

  lemma SumPick(runs: Runs, ids: set<RunId>, column: Column) returns (id: RunId)
    requires ids != {}
    ensures id in ids && Sum(runs, ids, column) == Sum(runs, ids - {id}, column) + Cell(runs, id, column)
  {
    id :| id in ids && Sum(runs, ids, column) == Sum(runs, ids - {id}, column) + Cell(runs, id, column);
  }

  lemma {:induction false} SumWithout(runs: Runs, ids: set<RunId>, column: Column, id: RunId)
    requires id in ids
    ensures Sum(runs, ids, column) == Sum(runs, ids - {id}, column) + Cell(runs, id, column)
    decreases |ids|
  {
    hide Sum, Cell;
    var first := SumPick(runs, ids, column);
    if first != id {
      SumWithout(runs, ids - {first}, column, id);
      SumWithout(runs, ids - {id}, column, first);
      assert ids - {first} - {id} == ids - {id} - {first};
    }
  }

  lemma NoSum(runs: Runs, column: Column)
    ensures Sum(runs, {}, column) == 0
  {}

  lemma CellsAdd(runs: Runs, id: RunId, a: Usage)
    requires id in runs
    ensures var b := Plus(a, ExtractRunUsage(runs[id].output));
            && b.promptTokens == a.promptTokens + Cell(runs, id, PromptTokens)
            && b.completionTokens == a.completionTokens + Cell(runs, id, CompletionTokens)
            && b.totalTokens == a.totalTokens + Cell(runs, id, TotalTokens)
  {}

  /** The usage of a set of runs is, column by column, the sum of what they reported. */
  lemma {:induction false} SpentIsSums(runs: Runs, ids: set<RunId>)
    requires forall id :: id in ids ==> id in runs
    ensures Spent(runs, ids) == Usage(Sum(runs, ids, PromptTokens), Sum(runs, ids, CompletionTokens), Sum(runs, ids, TotalTokens))
    decreases |ids|
  {
    hide Sum, Spent, Cell, ExtractRunUsage, Plus;
    if ids == {} {
      NothingSpent(runs);
      NoSum(runs, PromptTokens);
      NoSum(runs, CompletionTokens);
      NoSum(runs, TotalTokens);
    } else {
      var id := SpentPick(runs, ids);
      SpentIsSums(runs, ids - {id});
      SumWithout(runs, ids, PromptTokens, id);
      SumWithout(runs, ids, CompletionTokens, id);
      SumWithout(runs, ids, TotalTokens, id);
      CellsAdd(runs, id, Spent(runs, ids - {id}));
    }
  }

  /** The members of one tree. */
  ghost function Members(runs: Runs, root: RunId): set<RunId> {
    set id | id in runs && RootOf(runs, id) == root
  }

  /** The root and the listed rows are distinct members of the tree, and all of them when none was cut off. */
  lemma RollupRows(runs: Runs, limits: Limits, order: Order, id: RunId, tree: seq<RunId>)
    requires Rooted(runs, limits) && id in runs
    requires Listing(runs, order, RootOf(runs, id), tree)
    ensures var root := RootOf(runs, id);
            && Distinct([root] + tree)
            && (forall x :: x in [root] + tree ==> x in runs && x in Members(runs, root))
            && (|Delegated(runs, root)| <= MAX_CASCADE_RUNS ==> Ids([root] + tree) == Members(runs, root))
  {
    var root := RootOf(runs, id);
    ListingFits(runs, order, root, tree);
    ReachesRoot(runs, limits, id);
    assert root !in tree;
    forall x | x in Members(runs, root)
      ensures x == root || x in Delegated(runs, root)
    {
    }
  }

  /**
   * The rollup seen from `id`.  Asked from any member, a tree within the search
   * limit gives the same root, count and sums, each member counted once.
   */
  method GetRunCost(runs: Runs, ghost limits: Limits, ghost order: Order, id: RunId, tree: seq<RunId>) returns (summary: Summary)
    requires Rooted(runs, limits) && id in runs
    requires Listing(runs, order, RootOf(runs, id), tree)
    ensures summary.root == RootOf(runs, id) && Distinct(summary.listed) && summary.runCount == |summary.listed|
    ensures forall x :: x in summary.listed ==> x in Members(runs, summary.root)
    // the sums are those of the rows listed, column by column
    ensures summary.usage.promptTokens == Sum(runs, Ids(summary.listed), PromptTokens)
    ensures summary.usage.completionTokens == Sum(runs, Ids(summary.listed), CompletionTokens)
    ensures summary.usage.totalTokens == Sum(runs, Ids(summary.listed), TotalTokens)
    ensures |Delegated(runs, summary.root)| <= MAX_CASCADE_RUNS ==>
              && Ids(summary.listed) == Members(runs, summary.root)
              && summary.runCount == |Members(runs, summary.root)|
              && summary.usage == Spent(runs, Members(runs, summary.root))
  {
    hide Rooted, Listing, Distinct, Members, Delegated, Spent, ExtractRunUsage, Sum;
    var root := RootOf(runs, id);
    RollupRows(runs, limits, order, id, tree);
    var allRuns := [root] + tree;
    var usage := Usage(0, 0, 0);
    var i := 0;
    while i < |allRuns|
      invariant 0 <= i <= |allRuns|
      invariant usage == Total(runs, allRuns[..i])
    {
      assert allRuns[..i + 1][..i] == allRuns[..i];
      usage := Plus(usage, ExtractRunUsage(runs[allRuns[i]].output));
      i := i + 1;
    }
    assert allRuns[..|allRuns|] == allRuns;
    TotalIsSpent(runs, allRuns);
    SpentIsSums(runs, Ids(allRuns));
    summary := Summary(root, |allRuns|, usage, allRuns);
  }
}
