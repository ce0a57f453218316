/** The list page: a bounded max-heap keeps the agents of the smallest instance UIDs, and only
    those are sorted. The reference it must agree with is the full sort, sliced. */
module Paging {
  import opened Fleet

  // ----- the order of instance UIDs -----

  /** Byte order, as Go compares strings. */
  predicate Before(a: Id, b: Id) {
    b != [] && (a == [] || a[0] < b[0] || (a[0] == b[0] && Before(a[1..], b[1..])))
  }

  lemma {:induction false} BeforeIsTotal(a: Id, b: Id)
    ensures Before(a, b) || Before(b, a) || a == b
    ensures !(Before(a, b) && Before(b, a)) && !Before(a, a)
  {
    if a != [] {
      BeforeIsTotal(a[1..], a[1..]);
      if b != [] {
        BeforeIsTotal(a[1..], b[1..]);
        assert a == [a[0]] + a[1..] && b == [b[0]] + b[1..];
      }
    }
  }

  lemma {:induction false} BeforeIsTransitive(a: Id, b: Id, c: Id)
    requires Before(a, b) && Before(b, c)
    ensures Before(a, c)
  {
    if a != [] && a[0] == b[0] == c[0] {
      BeforeIsTransitive(a[1..], b[1..], c[1..]);
    }
  }

  predicate AtMost(a: Agent, b: Agent) {
    !Before(b.instanceUID, a.instanceUID)
  }

  lemma AtMostChains(a: Agent, b: Agent, c: Agent)
    requires AtMost(a, b) && AtMost(b, c)
    ensures AtMost(a, c)
  {
    var x, y, z := a.instanceUID, b.instanceUID, c.instanceUID;
    BeforeIsTotal(x, y);
    BeforeIsTotal(y, z);
    BeforeIsTotal(x, z);
    if Before(x, y) && Before(y, z) {
      BeforeIsTransitive(x, y, z);
    }
  }

  lemma AtMostIsTotal(a: Agent, b: Agent)
    ensures AtMost(a, b) || AtMost(b, a)
    ensures AtMost(a, b) && AtMost(b, a) ==> a.instanceUID == b.instanceUID
  {
    BeforeIsTotal(a.instanceUID, b.instanceUID);
  }

  // ----- the heap -----

  function Parent(k: nat): (p: nat)
    requires k > 0
    ensures p < k
    ensures forall i: nat :: p == i <==> k == 2 * i + 1 || k == 2 * i + 2
  {
    (k - 1) / 2
  }

  /** No agent but the exempt one sorts after its parent. */
  ghost predicate HeapButFor(s: seq<Agent>, j: nat) {
    forall k :: 0 < k < |s| && k != j ==> AtMost(s[k], s[Parent(k)])
  }

  /** Only the children of i may sort after their parent. */
  ghost predicate HeapButUnder(s: seq<Agent>, i: nat) {
    forall k :: 0 < k < |s| && Parent(k) != i ==> AtMost(s[k], s[Parent(k)])
  }

  ghost predicate IsHeap(s: seq<Agent>) {
    forall k :: 0 < k < |s| ==> AtMost(s[k], s[Parent(k)])
  }

  /** The children of j fit under j's parent. */
  ghost predicate Bridged(s: seq<Agent>, j: nat) {
    0 < j < |s| ==> forall k :: 0 < k < |s| && Parent(k) == j ==> AtMost(s[k], s[Parent(j)])
  }

  function Swapped(s: seq<Agent>, i: nat, j: nat): seq<Agent>
    requires i < |s| && j < |s|
  {
    s[i := s[j]][j := s[i]]
  }

  lemma {:induction false} RootIsLargest(s: seq<Agent>, k: nat)
    requires IsHeap(s) && k < |s|
    ensures AtMost(s[k], s[0])
  {
    if k == 0 {
      AtMostIsTotal(s[0], s[0]);
    } else {
      RootIsLargest(s, Parent(k));
      AtMostChains(s[k], s[Parent(k)], s[0]);
    }
  }

  lemma SiftUpStep(s: seq<Agent>, j: nat)
    requires 0 < j < |s| && HeapButFor(s, j) && Bridged(s, j) && AtMost(s[Parent(j)], s[j])
    ensures HeapButFor(Swapped(s, Parent(j), j), Parent(j)) && Bridged(Swapped(s, Parent(j), j), Parent(j))
  {
    var i := Parent(j);
    var t := Swapped(s, i, j);
    forall k | 0 < k < |t| && k != i ensures AtMost(t[k], t[Parent(k)]) {
      if Parent(k) == i && k != j {
        AtMostChains(s[k], s[i], s[j]);
      }
    }
    if i > 0 {
      forall k | 0 < k < |t| && Parent(k) == i ensures AtMost(t[k], t[Parent(i)]) {
        if k != j {
          AtMostChains(s[k], s[i], s[Parent(i)]);
        }
      }
    }
  }

  lemma SiftDownStep(s: seq<Agent>, i: nat, j: nat)
    requires 0 < j < |s| && Parent(j) == i && HeapButUnder(s, i) && Bridged(s, i)
    requires AtMost(s[i], s[j]) && forall k :: 0 < k < |s| && Parent(k) == i ==> AtMost(s[k], s[j])
    ensures HeapButUnder(Swapped(s, i, j), j) && Bridged(Swapped(s, i, j), j)
  {
  }

  /** The max-heap on InstanceUID; Up and Down are container/heap's up and down. */
  class AgentMaxHeap {
    var items: seq<Agent>

    constructor ()
      ensures items == []
    {
      items := [];
    }

    /** The root is the largest: an item is less, for the heap, when its UID sorts after. */
    predicate Less(i: nat, j: nat)
      requires i < |items| && j < |items|
      reads this
    {
      Before(items[j].instanceUID, items[i].instanceUID)
    }

    method Swap(i: nat, j: nat)
      requires i < |items| && j < |items|
      modifies this
      ensures items == Swapped(old(items), i, j)
      ensures multiset(items) == multiset(old(items))
    {
      items := items[i := items[j]][j := items[i]];
    }

    method Up(j0: nat)
      requires j0 < |items| && HeapButFor(items, j0) && Bridged(items, j0)
      modifies this
      ensures IsHeap(items) && multiset(items) == multiset(old(items))
    {
      var j: nat := j0;
      while j > 0 && Less(j, Parent(j))
        invariant j < |items| && HeapButFor(items, j) && Bridged(items, j)
        invariant multiset(items) == multiset(old(items))
      {
        AtMostIsTotal(items[Parent(j)], items[j]);
        SiftUpStep(items, j);
        Swap(Parent(j), j);
        j := Parent(j);
      }
    }

    method LargerChild(i: nat) returns (j: nat)
      requires 2 * i + 1 < |items|
      ensures j < |items| && j > 0 && Parent(j) == i
      ensures forall k :: 0 < k < |items| && Parent(k) == i ==> AtMost(items[k], items[j])
    {
      j := 2 * i + 1;
      AtMostIsTotal(items[j], items[j]);
      if j + 1 < |items| {
        AtMostIsTotal(items[j], items[j + 1]);
        AtMostIsTotal(items[j + 1], items[j + 1]);
        if Less(j + 1, j) {
          j := j + 1;
        }
      }
    }

    method Down(i0: nat) returns (moved: bool)
      requires i0 < |items| && HeapButUnder(items, i0) && Bridged(items, i0)
      modifies this
      ensures IsHeap(items) && multiset(items) == multiset(old(items)) && (!moved ==> items == old(items))
    {
      var i := i0;
      while 2 * i + 1 < |items|
        invariant i0 <= i < |items| && HeapButUnder(items, i) && Bridged(items, i)
        invariant multiset(items) == multiset(old(items)) && (i == i0 ==> items == old(items))
        decreases |items| - i
      {
        var j := LargerChild(i);
        if !Less(j, i) {
          ChildrenFit(items, i, j);
          return i > i0;
        }
        AtMostIsTotal(items[i], items[j]);
        SiftDownStep(items, i, j);
        Swap(i, j);
        i := j;
      }
      moved := i > i0;
    }

    /** Restores the heap after the item at i was overwritten. */
    method Fix(i: nat)
      requires i < |items| && HeapButUnder(items, i) && Bridged(items, i)
      modifies this
      ensures IsHeap(items) && multiset(items) == multiset(old(items))
    {
      var moved := Down(i);
      if !moved {
        HeapIsBridged(items, i);
        Up(i);
      }
    }

    method Push(a: Agent)
      requires IsHeap(items)
      modifies this
      ensures IsHeap(items) && multiset(items) == multiset(old(items)) + multiset{a}
    {
      items := items + [a];
      Up(|items| - 1);
    }

    method ReplaceRoot(a: Agent)
      requires IsHeap(items) && items != []
      modifies this
      ensures IsHeap(items) && multiset(items) + multiset{old(items)[0]} == multiset(old(items)) + multiset{a}
    {
      items := items[0 := a];
      Fix(0);
    }
  }

  lemma ChildrenFit(s: seq<Agent>, i: nat, j: nat)
    requires i < |s| && j < |s| && HeapButUnder(s, i) && AtMost(s[j], s[i])
    requires forall k :: 0 < k < |s| && Parent(k) == i ==> AtMost(s[k], s[j])
    ensures IsHeap(s)
  {
    forall k | 0 < k < |s| && Parent(k) == i ensures AtMost(s[k], s[i]) {
      AtMostChains(s[k], s[j], s[i]);
    }
  }

  lemma HeapIsBridged(s: seq<Agent>, j: nat)
    requires IsHeap(s)
    ensures Bridged(s, j)
  {
    if 0 < j < |s| {
      forall k | 0 < k < |s| && Parent(k) == j ensures AtMost(s[k], s[Parent(j)]) {
        AtMostChains(s[k], s[j], s[Parent(j)]);
      }
    }
  }

  // ----- sorting -----

  predicate IsSorted(s: seq<Agent>) {
    forall i, j :: 0 <= i < j < |s| ==> AtMost(s[i], s[j])
  }

  /** What sorting by instance UID promises; ties may come out in any order. */
  ghost predicate IsSorting(agents: seq<Agent>, sorted: seq<Agent>) {
    IsSorted(sorted) && multiset(sorted) == multiset(agents)
  }

  function UidList(s: seq<Agent>): seq<Id> {
    seq(|s|, i requires 0 <= i < |s| => s[i].instanceUID)
  }

  function Insert(s: seq<Agent>, a: Agent): seq<Agent> {
    if s == [] || AtMost(s[|s| - 1], a) then s + [a]
    else Insert(s[..|s| - 1], a) + [s[|s| - 1]]
  }

  /** The reference: a full sort of the list. */
  function Sort(agents: seq<Agent>): seq<Agent> {
    if agents == [] then [] else Insert(Sort(agents[..|agents| - 1]), agents[|agents| - 1])
  }

  lemma {:induction false} InsertIsSorting(s: seq<Agent>, a: Agent)
    requires IsSorted(s)
    ensures IsSorting(s + [a], Insert(s, a))
  {
    if s != [] {
      var most, last := s[..|s| - 1], s[|s| - 1];
      assert s == most + [last];
      AtMostIsTotal(last, a);
      if AtMost(last, a) {
        forall i | 0 <= i < |s| ensures AtMost(s[i], a) {
          AtMostIsTotal(s[i], s[i]);
          AtMostChains(s[i], last, a);
        }
      } else {
        InsertIsSorting(most, a);
        LastOnTop(Insert(most, a), most + [a], last);
      }
    }
  }

  /** Appending an agent no smaller than any other keeps a list sorted. */
  lemma LastOnTop(s: seq<Agent>, from: seq<Agent>, last: Agent)
    requires IsSorting(from, s) && forall i :: 0 <= i < |from| ==> AtMost(from[i], last)
    ensures IsSorted(s + [last])
  {
    forall i | 0 <= i < |s| ensures AtMost(s[i], last) {
      assert s[i] in multiset(from);
    }
  }

  lemma {:induction false} SortIsSorting(agents: seq<Agent>)
    ensures IsSorting(agents, Sort(agents))
  {
    if agents != [] {
      var most, last := agents[..|agents| - 1], agents[|agents| - 1];
      assert agents == most + [last];
      SortIsSorting(most);
      InsertIsSorting(Sort(most), last);
    }
  }

  lemma Cancel<T>(a: multiset<T>, b: multiset<T>, x: T)
    requires a + multiset{x} == b + multiset{x}
    ensures a == b
  {
    assert a == a + multiset{x} - multiset{x};
    assert b == b + multiset{x} - multiset{x};
  }

  lemma SplitAt<T>(t: seq<T>, k: nat)
    requires k < |t|
    ensures t == t[..k] + [t[k]] + t[k + 1..]
    ensures multiset(t) == multiset(t[..k] + t[k + 1..]) + multiset{t[k]}
  {
  }

  lemma UidListWithout(t: seq<Agent>, k: nat)
    requires k < |t|
    ensures UidList(t)[..k] + UidList(t)[k + 1..] == UidList(t[..k] + t[k + 1..])
  {
  }

  lemma {:induction false} UidBag(s: seq<Agent>, t: seq<Agent>)
    requires multiset(s) == multiset(t)
    ensures multiset(UidList(s)) == multiset(UidList(t))
  {
    if s == [] {
      assert |multiset(t)| == 0;
    } else {
      var n, a := |s| - 1, s[|s| - 1];
      assert a in multiset(t);
      var k :| 0 <= k < |t| && t[k] == a;
      SplitAt(s, n);
      SplitAt(t, k);
      Cancel(multiset(s[..n] + s[n + 1..]), multiset(t[..k] + t[k + 1..]), a);
      UidBag(s[..n] + s[n + 1..], t[..k] + t[k + 1..]);
      UidBagWith(s, n);
      UidBagWith(t, k);
    }
  }

  lemma UidBagWith(t: seq<Agent>, k: nat)
    requires k < |t|
    ensures multiset(UidList(t)) == multiset(UidList(t[..k] + t[k + 1..])) + multiset{t[k].instanceUID}
  {
    UidListWithout(t, k);
    SplitAt(UidList(t), k);
  }

  /** A sorted list's UIDs are fixed by which UIDs it has. */
  lemma {:induction false} SortedUidsAreUnique(s: seq<Agent>, t: seq<Agent>)
    requires IsSorted(s) && IsSorted(t) && multiset(UidList(s)) == multiset(UidList(t))
    ensures UidList(s) == UidList(t)
  {
    assert |s| == |multiset(UidList(s))| == |t|;
    if s != [] {
      var n := |s| - 1;
      LastDominates(s, t);
      LastDominates(t, s);
      AtMostIsTotal(s[n], t[n]);
      assert UidList(s) == UidList(s[..n]) + [s[n].instanceUID];
      assert UidList(t) == UidList(t[..n]) + [t[n].instanceUID];
      Cancel(multiset(UidList(s[..n])), multiset(UidList(t[..n])), s[n].instanceUID);
      SortedUidsAreUnique(s[..n], t[..n]);
    }
  }

  lemma LastDominates(s: seq<Agent>, t: seq<Agent>)
    requires s != [] && t != [] && IsSorted(t) && multiset(UidList(s)) == multiset(UidList(t))
    ensures AtMost(s[|s| - 1], t[|t| - 1])
  {
    var id := s[|s| - 1].instanceUID;
    assert id == UidList(s)[|s| - 1];
    assert id in multiset(UidList(t));
    var k :| 0 <= k < |t| && UidList(t)[k] == id;
    AtMostIsTotal(t[k], t[k]);
    assert AtMost(t[k], t[|t| - 1]);
  }

  /** Any two ways of sorting a list agree on its UIDs, and on its agents when no UID repeats. */
  lemma SortingsAgree(agents: seq<Agent>, s: seq<Agent>, t: seq<Agent>)
    requires IsSorting(agents, s) && IsSorting(agents, t)
    ensures UidList(s) == UidList(t)
    ensures DistinctUids(agents) ==> s == t
  {
    UidBag(s, t);
    SortedUidsAreUnique(s, t);
    if DistinctUids(agents) {
      forall i | 0 <= i < |s| ensures s[i] == t[i] {
        assert UidList(s)[i] == UidList(t)[i];
        SameUidSameAgent(agents, s[i], t[i]);
      }
    }
  }

  lemma SameUidSameAgent(agents: seq<Agent>, a: Agent, b: Agent)
    requires DistinctUids(agents) && a in multiset(agents) && b in multiset(agents) && a.instanceUID == b.instanceUID
    ensures a == b
  {
  }

  /** Stands for the library sort: callers learn only what any sort promises. */
  method SortByInstanceUID(agents: seq<Agent>) returns (sorted: seq<Agent>)
    ensures IsSorting(agents, sorted)
  {
    SortIsSorting(agents);
    sorted := Sort(agents);
  }

  // ----- the page -----

  /** The heap holds the smallest of the agents seen; dropped are the others. */
  ghost predicate KeepsSmallest(seen: seq<Agent>, kept: seq<Agent>, dropped: seq<Agent>) {
    && multiset(seen) == multiset(kept) + multiset(dropped)
    && forall i, j :: 0 <= i < |kept| && 0 <= j < |dropped| ==> AtMost(kept[i], dropped[j])
  }

  lemma KeepMore(seen: seq<Agent>, kept: seq<Agent>, a: Agent, kept': seq<Agent>)
    requires KeepsSmallest(seen, kept, []) && multiset(kept') == multiset(kept) + multiset{a}
    ensures KeepsSmallest(seen + [a], kept', [])
  {
  }

  lemma DropNew(seen: seq<Agent>, kept: seq<Agent>, dropped: seq<Agent>, a: Agent)
    requires IsHeap(kept) && kept != [] && KeepsSmallest(seen, kept, dropped) && AtMost(kept[0], a)
    ensures KeepsSmallest(seen + [a], kept, dropped + [a])
  {
    forall i | 0 <= i < |kept| ensures AtMost(kept[i], a) {
      RootIsLargest(kept, i);
      AtMostChains(kept[i], kept[0], a);
    }
  }

  lemma Exchange<T>(all: multiset<T>, kept: multiset<T>, dropped: multiset<T>, kept': multiset<T>, out: T, a: T)
    requires all == kept + dropped && kept' + multiset{out} == kept + multiset{a}
    ensures all + multiset{a} == kept' + (dropped + multiset{out})
  {
    assert all + multiset{a} == kept + multiset{a} + dropped;
    assert kept' + (dropped + multiset{out}) == kept' + multiset{out} + dropped;
  }

  lemma DropRoot(seen: seq<Agent>, kept: seq<Agent>, dropped: seq<Agent>, a: Agent, kept': seq<Agent>)
    requires IsHeap(kept) && kept != [] && KeepsSmallest(seen, kept, dropped) && AtMost(a, kept[0])
    requires multiset(kept') + multiset{kept[0]} == multiset(kept) + multiset{a}
    ensures KeepsSmallest(seen + [a], kept', dropped + [kept[0]])
  {
    forall i, j | 0 <= i < |kept'| && 0 <= j < |dropped| + 1 ensures AtMost(kept'[i], (dropped + [kept[0]])[j]) {
      assert kept'[i] in multiset(kept) + multiset{a} by {
        assert kept'[i] in multiset(kept');
      }
      BelowRoot(kept, a, kept'[i]);
      if j < |dropped| {
        AtMostChains(kept'[i], kept[0], dropped[j]);
      }
    }
    Exchange(multiset(seen), multiset(kept), multiset(dropped), multiset(kept'), kept[0], a);
  }

  lemma BelowRoot(kept: seq<Agent>, a: Agent, x: Agent)
    requires IsHeap(kept) && kept != [] && AtMost(a, kept[0]) && (x == a || x in multiset(kept))
    ensures AtMost(x, kept[0])
  {
    if x != a {
      var k :| 0 <= k < |kept| && kept[k] == x;
      RootIsLargest(kept, k);
    }
  }

  /** Sorting what was kept gives the front of sorting everything. */
  lemma FrontOfSort(agents: seq<Agent>, kept: seq<Agent>, dropped: seq<Agent>, sorted: seq<Agent>)
    requires KeepsSmallest(agents, kept, dropped) && IsSorting(kept, sorted)
    ensures |sorted| <= |agents| && IsSorting(agents, sorted + Sort(dropped))
  {
    SortIsSorting(dropped);
    var rest := Sort(dropped);
    forall i, j | 0 <= i < |sorted| && 0 <= j < |rest| ensures AtMost(sorted[i], rest[j]) {
      assert sorted[i] in multiset(kept) && rest[j] in multiset(dropped);
    }
    assert |multiset(agents)| == |agents| && |multiset(kept)| == |kept| == |multiset(sorted)|;
  }

  /** What a page is: the slice of a full sort, up to the order of agents sharing a UID. */
  ghost predicate IsPage(agents: seq<Agent>, start: nat, end: nat, page: seq<Agent>)
    requires start <= end <= |Sort(agents)|
  {
    && UidList(page) == UidList(Sort(agents))[start..end]
    && (DistinctUids(agents) ==> page == Sort(agents)[start..end])
  }

  lemma UidListSlice(s: seq<Agent>, start: nat, end: nat)
    requires start <= end <= |s|
    ensures UidList(s[start..end]) == UidList(s)[start..end]
  {
  }

  lemma SortLength(agents: seq<Agent>, sorted: seq<Agent>)
    requires IsSorting(agents, sorted)
    ensures |sorted| == |agents|
  {
    assert |multiset(sorted)| == |sorted| && |multiset(agents)| == |agents|;
  }

  lemma SortKeepsLength(agents: seq<Agent>)
    ensures |Sort(agents)| == |agents|
  {
    SortIsSorting(agents);
    SortLength(agents, Sort(agents));
  }

  lemma SliceIsPage(agents: seq<Agent>, sorted: seq<Agent>, start: nat, end: nat)
    requires start <= end <= |agents| && IsSorting(agents, sorted)
    ensures |sorted| == |Sort(agents)| == |agents| && IsPage(agents, start, end, sorted[start..end])
  {
    SortIsSorting(agents);
    SortLength(agents, sorted);
    SortLength(agents, Sort(agents));
    SortingsAgree(agents, sorted, Sort(agents));
    UidListSlice(sorted, start, end);
  }

  /** One turn of the loop: the heap is not yet full, or the agent beats its root, or it is dropped. */
  method Consider(h: AgentMaxHeap, a: Agent, end: nat, ghost seen: seq<Agent>, ghost dropped: seq<Agent>)
    returns (ghost dropped': seq<Agent>)
    requires 0 < end && IsHeap(h.items) && |h.items| <= end && KeepsSmallest(seen, h.items, dropped)
    requires |h.items| < end ==> dropped == []
    modifies h
    ensures IsHeap(h.items) && KeepsSmallest(seen + [a], h.items, dropped')
    ensures |h.items| == Min(|old(h.items)| + 1, end) && (|h.items| < end ==> dropped' == [])
  {
    ghost var kept := h.items;
    dropped' := dropped;
    if |h.items| < end {
      h.Push(a);
      KeepMore(seen, kept, a, h.items);
      assert |multiset(h.items)| == |h.items|;
    } else if Before(a.instanceUID, h.items[0].instanceUID) {
      AtMostIsTotal(a, kept[0]);
      h.ReplaceRoot(a);
      DropRoot(seen, kept, dropped, a, h.items);
      dropped' := dropped + [kept[0]];
      assert |multiset(h.items)| == |h.items|;
    } else {
      DropNew(seen, kept, dropped, a);
      dropped' := dropped + [a];
    }
  }

  /** The heap keeps the end smallest of the agents. */
  method Smallest(agents: seq<Agent>, end: nat) returns (kept: seq<Agent>, ghost dropped: seq<Agent>)
    requires 0 < end < |agents|
    ensures |kept| == end && KeepsSmallest(agents, kept, dropped)
  {
    var h := new AgentMaxHeap();
    dropped := [];
    for n := 0 to |agents|
      invariant IsHeap(h.items) && KeepsSmallest(agents[..n], h.items, dropped)
      invariant |h.items| == Min(n, end) && (|h.items| < end ==> dropped == [])
    {
      assert agents[..n + 1] == agents[..n] + [agents[n]];
      dropped := Consider(h, agents[n], end, agents[..n], dropped);
    }
    assert agents[..|agents|] == agents;
    kept := h.items;
  }

  method PageByInstanceUID(agents: seq<Agent>, start: nat, end: nat) returns (page: seq<Agent>)
    requires start <= end <= |agents|
    ensures end <= |Sort(agents)| && IsPage(agents, start, end, page)
  {
    SortKeepsLength(agents);
    if end == 0 {
      SortIsSorting(agents);
      SliceIsPage(agents, Sort(agents), 0, 0);
      return [];
    }
    if end >= |agents| {
      var sorted := SortByInstanceUID(agents);
      SliceIsPage(agents, sorted, start, end);
      return sorted[start..end];
    }
    var kept, dropped := Smallest(agents, end);
    var sorted := SortByInstanceUID(kept);
    FrontOfSort(agents, kept, dropped, sorted);
    SliceIsPage(agents, sorted + Sort(dropped), start, end);
    SortLength(kept, sorted);
    assert (sorted + Sort(dropped))[start..end] == sorted[start..end];
    page := sorted[start..end];
  }

  function Min(a: nat, b: nat): nat {
    if a < b then a else b
  }

  /** The window of a list request. */
  method ListPage(agents: seq<Agent>, limit: nat, offset: nat) returns (page: seq<Agent>)
    requires limit > 0
    ensures UidList(page) == Window(UidList(Sort(agents)), limit, offset)
    ensures DistinctUids(agents) ==> page == Window(Sort(agents), limit, offset)
  {
    SortKeepsLength(agents);
    var start := Min(offset, |agents|);
    var end := Min(start + limit, |agents|);
    page := PageByInstanceUID(agents, start, end);
  }

  function Window<T>(list: seq<T>, limit: nat, offset: nat): seq<T> {
    var start := Min(offset, |list|);
    list[start..Min(start + limit, |list|)]
  }

  /** The pages a client reads by adding limit to offset until one comes back empty. */
  function Walk<T>(list: seq<T>, limit: nat, offset: nat): (all: seq<T>)
    requires limit > 0
    decreases |list| - offset
  {
    if Window(list, limit, offset) == [] then [] else Window(list, limit, offset) + Walk(list, limit, offset + limit)
  }

  /** Consecutive pages, whatever their size, concatenate to the rest of the sorted list. */
  lemma {:induction false} PagesConcatenate<T>(list: seq<T>, limit: nat, offset: nat)
    requires limit > 0
    ensures Walk(list, limit, offset) == list[Min(offset, |list|)..]
    decreases |list| - offset
  {
    if offset < |list| {
      PagesConcatenate(list, limit, offset + limit);
    }
  }
}
