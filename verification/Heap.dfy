/** The binary heap that orders ready and delayed jobs: what sifting does to the sequence of
    entries, and the heap object that does it in place and keeps every item's index. */
module Heap {
  // A job as a heap sees it: ready jobs are keyed by priority, delayed ones by deadline, and
  // equal keys are ordered by job id.
  datatype Entry = Entry(key: int, id: nat)

  predicate Less(a: Entry, b: Entry) {
    a.key < b.key || (a.key == b.key && a.id < b.id)
  }

  function Parent(i: nat): nat {
    if i == 0 then 0 else (i - 1) / 2
  }

  lemma Family(i: nat)
    ensures Parent(2 * i + 1) == i && Parent(2 * i + 2) == i && (i > 0 ==> Parent(i) < i) && Parent(0) == 0
    ensures forall k: nat :: k > 0 && Parent(k) == i ==> k == 2 * i + 1 || k == 2 * i + 2
  {
  }

  function Swap(s: seq<Entry>, i: nat, j: nat): (s': seq<Entry>)
    requires i < |s| && j < |s|
    ensures |s'| == |s| && s'[i] == s[j] && s'[j] == s[i]
    ensures forall k :: 0 <= k < |s| && k != i && k != j ==> s'[k] == s[k]
  {
    s[i := s[j]][j := s[i]]
  }

  // Moves the entry at j towards the root.
  function Up(s: seq<Entry>, j: nat): (s': seq<Entry>)
    requires j < |s|
    ensures |s'| == |s|
    decreases j
  {
    var i := Parent(j);
    if i == j || !Less(s[j], s[i]) then s else Up(Swap(s, i, j), i)
  }

  // The smaller child of i among the first n entries.
  function SmallerChild(s: seq<Entry>, i: nat, n: nat): (j: nat)
    requires n <= |s| && 2 * i + 1 < n
    ensures 2 * i + 1 <= j <= 2 * i + 2 && j < n
    ensures !Less(s[2 * i + 1], s[j]) && (2 * i + 2 < n ==> !Less(s[2 * i + 2], s[j]))
  {
    if 2 * i + 2 < n && Less(s[2 * i + 2], s[2 * i + 1]) then 2 * i + 2 else 2 * i + 1
  }

  // Moves the entry at i away from the root, within the first n entries.
  function Down(s: seq<Entry>, i: nat, n: nat): (s': seq<Entry>)
    requires n <= |s|
    ensures |s'| == |s|
    decreases n - i
  {
    if 2 * i + 1 >= n then s
    else
      var j := SmallerChild(s, i, n);
      if !Less(s[j], s[i]) then s else Down(Swap(s, i, j), j, n)
  }

  predicate Moves(s: seq<Entry>, i: nat, n: nat)
    requires n <= |s|
  {
    2 * i + 1 < n && Less(s[SmallerChild(s, i, n)], s[i])
  }

  function Pushed(s: seq<Entry>, e: Entry): seq<Entry> {
    Up(s + [e], |s|)
  }

  // Moves the entry at i away from the root or, if it stays, towards it.
  function Settled(s: seq<Entry>, i: nat, n: nat): (s': seq<Entry>)
    requires i < n <= |s|
    ensures |s'| == |s|
  {
    if Moves(s, i, n) then Down(s, i, n) else Up(s, i)
  }

  // What is left after taking out the entry at i.
  function Removed(s: seq<Entry>, i: nat): (s': seq<Entry>)
    requires i < |s|
    ensures |s'| == |s| - 1
  {
    var n := |s| - 1;
    if n == i then s[..n]
    else Settled(Swap(s, i, n), i, n)[..n]
  }

  // ---------- The order of a heap ----------

  predicate InOrderAt(s: seq<Entry>, k: nat)
    requires k < |s|
  {
    !Less(s[k], s[Parent(k)])
  }

  // The first n entries form a heap.
  predicate OrderedTo(s: seq<Entry>, n: nat)
    requires n <= |s|
  {
    forall k :: 0 <= k < n ==> InOrderAt(s, k)
  }

  predicate Ordered(s: seq<Entry>) {
    OrderedTo(s, |s|)
  }

  // As a heap, but for the entry at i: it may be too small for its place.
  predicate TooSmallAt(s: seq<Entry>, i: nat, n: nat)
    requires i < n <= |s|
  {
    && (forall k :: 0 <= k < n && k != i ==> InOrderAt(s, k))
    && ChildrenFit(s, i, n)
  }

  // As a heap, but for the entry at i: it may be too small or too large for its place.
  predicate MisplacedAt(s: seq<Entry>, i: nat, n: nat)
    requires i < n <= |s|
  {
    && (forall k :: 0 <= k < n && k != i && Parent(k) != i ==> InOrderAt(s, k))
    && ChildrenFit(s, i, n)
  }

  // The children of i are in order with its parent.
  predicate ChildrenFit(s: seq<Entry>, i: nat, n: nat)
    requires i < n <= |s|
  {
    forall k :: 0 < k < n && i > 0 && Parent(k) == i ==> !Less(s[k], s[Parent(i)])
  }

  lemma {:induction false} UpOrders(s: seq<Entry>, j: nat, n: nat)
    requires j < n <= |s| && TooSmallAt(s, j, n)
    ensures OrderedTo(Up(s, j), n)
    ensures forall k :: n <= k < |s| ==> Up(s, j)[k] == s[k]
    decreases j
  {
    var i := Parent(j);
    if i != j && Less(s[j], s[i]) {
      var s' := Swap(s, i, j);
      forall k | 0 <= k < n && k != i
        ensures InOrderAt(s', k)
      {
        assert k != j ==> InOrderAt(s, k);
      }
      forall k | 0 < k < n && i > 0 && Parent(k) == i
        ensures !Less(s'[k], s'[Parent(i)])
      {
        assert InOrderAt(s, i);
        assert k != j ==> InOrderAt(s, k);
      }
      UpOrders(s', i, n);
    }
  }

  // Swapping the misplaced entry with its smaller child leaves it misplaced, one level down,
  // and not too small there.
  lemma DownStep(s: seq<Entry>, i: nat, n: nat)
    requires i < n <= |s| && MisplacedAt(s, i, n) && Moves(s, i, n)
    ensures var j := SmallerChild(s, i, n);
            j < n && MisplacedAt(Swap(s, i, j), j, n) && InOrderAt(Swap(s, i, j), j)
  {
    hide Parent;
    var j := SmallerChild(s, i, n);
    var s' := Swap(s, i, j);
    Family(i);
    Family(j);
    forall k | 0 <= k < n && k != j && Parent(k) != j
      ensures InOrderAt(s', k)
    {
      Family(k);
      assert k != i && Parent(k) != i ==> InOrderAt(s, k);
    }
    forall k | 0 < k < n && Parent(k) == j
      ensures !Less(s'[k], s'[Parent(j)])
    {
      assert InOrderAt(s, k);
    }
  }

  // An entry moved down at least once ends in its place; the caller has seen the first move.
  lemma {:induction false} DownOrders(s: seq<Entry>, i: nat, n: nat)
    requires i < n <= |s| && MisplacedAt(s, i, n) && (Moves(s, i, n) || InOrderAt(s, i))
    ensures OrderedTo(Down(s, i, n), n)
    ensures forall k :: n <= k < |s| ==> Down(s, i, n)[k] == s[k]
    decreases n - i
  {
    hide Parent, Less, InOrderAt, ChildrenFit;
    if Moves(s, i, n) {
      DownStep(s, i, n);
      var j := SmallerChild(s, i, n);
      DownOrders(Swap(s, i, j), j, n);
    } else {
      StillIsTooSmall(s, i, n);
    }
  }

  lemma StillIsTooSmall(s: seq<Entry>, i: nat, n: nat)
    requires i < n <= |s| && MisplacedAt(s, i, n) && !Moves(s, i, n)
    ensures TooSmallAt(s, i, n)
  {
    hide Parent;
    Family(i);
    forall k | 0 <= k < n && k != i
      ensures InOrderAt(s, k)
    {
      Family(k);
    }
  }

  lemma SwapKeepsAll(s: seq<Entry>, i: nat, j: nat)
    requires i < |s| && j < |s|
    ensures multiset(Swap(s, i, j)) == multiset(s)
  {
  }

  lemma {:induction false} UpKeepsAll(s: seq<Entry>, j: nat)
    requires j < |s|
    ensures multiset(Up(s, j)) == multiset(s)
    decreases j
  {
    var i := Parent(j);
    if i != j && Less(s[j], s[i]) {
      SwapKeepsAll(s, i, j);
      UpKeepsAll(Swap(s, i, j), i);
    }
  }

  lemma {:induction false} DownKeepsAll(s: seq<Entry>, i: nat, n: nat)
    requires n <= |s|
    ensures multiset(Down(s, i, n)) == multiset(s)
    decreases n - i
  {
    if Moves(s, i, n) {
      var j := SmallerChild(s, i, n);
      SwapKeepsAll(s, i, j);
      DownKeepsAll(Swap(s, i, j), j, n);
    }
  }

  /** Pushing keeps the heap in order and adds just the entry pushed. */
  lemma PushKeeps(s: seq<Entry>, e: Entry)
    requires Ordered(s)
    ensures Ordered(Pushed(s, e)) && multiset(Pushed(s, e)) == multiset(s) + multiset{e}
  {
    var s' := s + [e];
    forall k | 0 <= k < |s'| && k != |s|
      ensures InOrderAt(s', k)
    {
      assert InOrderAt(s, k);
    }
    UpOrders(s', |s|, |s'|);
    UpKeepsAll(s', |s|);
  }

  lemma LastTakenOff(s: seq<Entry>, s': seq<Entry>, i: nat)
    requires i < |s| == |s'| && multiset(s') == multiset(s) && s'[|s| - 1] == s[i]
    ensures multiset(s'[..|s| - 1]) == multiset(s) - multiset{s[i]}
  {
    assert s' == s'[..|s| - 1] + [s[i]];
  }

  lemma SwappedIsMisplaced(s: seq<Entry>, i: nat)
    requires Ordered(s) && i < |s| - 1
    ensures MisplacedAt(Swap(s, i, |s| - 1), i, |s| - 1)
  {
    hide Parent;
    var n := |s| - 1;
    var s' := Swap(s, i, n);
    Family(i);
    forall k | 0 <= k < n && k != i && Parent(k) != i
      ensures InOrderAt(s', k)
    {
      Family(k);
      assert InOrderAt(s, k);
    }
    forall k | 0 < k < n && i > 0 && Parent(k) == i
      ensures !Less(s'[k], s'[Parent(i)])
    {
      assert InOrderAt(s, k) && InOrderAt(s, i);
    }
  }

  lemma PrefixOrdered(s: seq<Entry>, n: nat)
    requires n <= |s| && OrderedTo(s, n)
    ensures Ordered(s[..n])
  {
    hide Less;
    forall k | 0 <= k < n
      ensures InOrderAt(s[..n], k)
    {
      Family(k);
      assert InOrderAt(s, k);
    }
  }

  lemma SwappedSettles(s: seq<Entry>, i: nat)
    requires Ordered(s) && i < |s| - 1
    ensures var n := |s| - 1;
            var s2 := Settled(Swap(s, i, n), i, n);
            OrderedTo(s2, n) && multiset(s2) == multiset(s) && s2[n] == s[i]
  {
    hide InOrderAt, Parent, Less, OrderedTo;
    var n := |s| - 1;
    var s1 := Swap(s, i, n);
    SwapKeepsAll(s, i, n);
    SwappedIsMisplaced(s, i);
    if Moves(s1, i, n) {
      DownOrders(s1, i, n);
      DownKeepsAll(s1, i, n);
    } else {
      StillIsTooSmall(s1, i, n);
      UpOrders(s1, i, n);
      UpKeepsAll(s1, i);
    }
  }

  /** Removing the entry at any index keeps the heap in order and takes out just that one. */
  lemma RemoveKeeps(s: seq<Entry>, i: nat)
    requires Ordered(s) && i < |s|
    ensures Ordered(Removed(s, i)) && multiset(Removed(s, i)) == multiset(s) - multiset{s[i]}
  {
    hide InOrderAt, Settled, Swap;
    var n := |s| - 1;
    if n == i {
      PrefixOrdered(s, n);
      LastTakenOff(s, s, i);
    } else {
      SwappedSettles(s, i);
      var s2 := Settled(Swap(s, i, n), i, n);
      LastTakenOff(s, s2, i);
      PrefixOrdered(s2, n);
    }
  }

  /** The root of a heap has the least key and, of those with this key, the least id. */
  lemma {:induction false} RootIsLeast(s: seq<Entry>, k: nat)
    requires Ordered(s) && k < |s|
    ensures s[0].key < s[k].key || (s[0].key == s[k].key && s[0].id <= s[k].id)
    decreases k
  {
    if k > 0 {
      assert InOrderAt(s, k);
      RootIsLeast(s, Parent(k));
    }
  }

  // ---------- The heap object ----------

  class Item {
    const value: Entry
    var index: int

    constructor (value: Entry)
      ensures this.value == value && index == -1
    {
      this.value, index := value, -1;
    }
  }

  function Values(items: seq<Item>): (s: seq<Entry>)
    ensures |s| == |items|
    ensures forall i :: 0 <= i < |s| ==> s[i] == items[i].value
  {
    seq(|items|, i requires 0 <= i < |items| => items[i].value)
  }

  // Every item knows where it is; so no item is in two places.
  ghost predicate Indexed(items: seq<Item>)
    reads items
  {
    forall i :: 0 <= i < |items| ==> items[i].index == i
  }

  lemma DownInSteps(s: seq<Entry>, i: nat, n: nat)
    requires n <= |s| && 2 * i + 1 < n
    ensures var j := SmallerChild(s, i, n);
            && (Moves(s, i, n) <==> Less(s[j], s[i]))
            && Down(s, i, n) == if Moves(s, i, n) then Down(Swap(s, i, j), j, n) else s
  {
    hide Less;
  }

  lemma DownEnds(s: seq<Entry>, i: nat, n: nat)
    requires n <= |s|
    ensures 2 * i + 1 >= n ==> Down(s, i, n) == s && !Moves(s, i, n)
  {
  }

  lemma UpInSteps(s: seq<Entry>, j: nat)
    requires j < |s|
    ensures var i := Parent(j);
            (i == j || i < j) &&
            Up(s, j) == if i == j || !Less(s[j], s[i]) then s else Up(Swap(s, i, j), i)
  {
  }

  // The same items, those from index n on where they were.
  ghost predicate Shuffled(a: seq<Item>, b: seq<Item>, n: nat) {
    && |b| == |a| && multiset(b) == multiset(a)
    && (forall k :: 0 <= k < |b| ==> b[k] in a)
    && (forall k :: n <= k < |a| ==> b[k] == a[k])
  }

  lemma ShuffledMeans(a: seq<Item>, b: seq<Item>, n: nat)
    requires Shuffled(a, b, n)
    ensures |b| == |a| && (forall k :: 0 <= k < |b| ==> b[k] in a)
  {
  }

  lemma ShuffledBag(a: seq<Item>, b: seq<Item>, n: nat)
    requires Shuffled(a, b, n)
    ensures |b| == |a| && multiset(b) == multiset(a)
  {
  }

  lemma ShuffledAt(a: seq<Item>, b: seq<Item>, n: nat, k: nat)
    requires Shuffled(a, b, n) && n <= k < |a|
    ensures |b| == |a| && b[k] == a[k]
  {
  }

  lemma ShuffledNot(a: seq<Item>, n: nat)
    ensures Shuffled(a, a, n)
  {
  }

  lemma ShuffledMore(a: seq<Item>, b: seq<Item>, n: nat, m: nat)
    requires Shuffled(a, b, n) && n <= m
    ensures Shuffled(a, b, m)
  {
  }

  lemma ShuffledTwice(a: seq<Item>, b: seq<Item>, c: seq<Item>, n: nat)
    requires Shuffled(a, b, n) && Shuffled(b, c, n)
    ensures Shuffled(a, c, n)
  {
    forall k | 0 <= k < |c|
      ensures c[k] in a
    {
      assert c[k] in b;
    }
  }

  lemma DownStays(s: seq<Entry>, i: nat, n: nat)
    requires n <= |s| && !Moves(s, i, n)
    ensures Down(s, i, n) == s
  {
  }

  lemma RemovedInSteps(s: seq<Entry>, i: nat, n: nat)
    requires i < |s| == n + 1
    ensures Removed(s, i) == if n == i then s[..n] else Settled(Swap(s, i, n), i, n)[..n]
  {
  }

  lemma RootRemoved(s: seq<Entry>, n: nat)
    requires |s| == n + 1
    ensures Removed(s, 0) == Down(Swap(s, 0, n), 0, n)[..n]
  {
  }

  class Heap {
    var items: seq<Item>

    constructor ()
      ensures items == []
    {
      items := [];
    }

    ghost predicate Valid()
      reads this, items
    {
      Indexed(items) && Ordered(Values(items))
    }

    method SwapItems(i: nat, j: nat, ghost n: nat)
      requires i < n <= |items| && j < n && Indexed(items)
      modifies this, items
      ensures Indexed(items) && Shuffled(old(items), items, n) && Values(items) == Swap(Values(old(items)), i, j)
      ensures items[i] == old(items)[j] && items[j] == old(items)[i]
    {
      var a, b := items[i], items[j];
      items := items[i := b][j := a];
      b.index := i;
      a.index := j;
    }

    // Moves the item at j0 towards the root.
    method SiftUp(j0: nat, ghost n: nat)
      requires j0 < n <= |items| && Indexed(items)
      modifies this, items
      ensures Indexed(items) && Shuffled(old(items), items, n) && Values(items) == Up(Values(old(items)), j0)
    {
      hide Less, Shuffled, Up, Indexed, Swap, Parent;
      var j: nat := j0;
      ShuffledNot(items, n);
      while true
        invariant j <= j0 && n <= |items| && Indexed(items) && Shuffled(old(items), items, n)
        invariant Up(Values(items), j) == Up(Values(old(items)), j0)
        decreases j
      {
        ghost var was := items;
        ShuffledMeans(old(items), items, n);
        UpInSteps(Values(items), j);
        var i := Parent(j);
        if i == j || !Less(items[j].value, items[i].value) {
          break;
        }
        SwapItems(i, j, n);
        ShuffledTwice(old(items), was, items, n);
        j := i;
      }
    }

    // Moves the item at i0 away from the root, among the first n items; says if it moved.
    method SiftDown(i0: nat, n: nat) returns (moved: bool)
      requires n <= |items| && Indexed(items)
      modifies this, items
      ensures Indexed(items) && Shuffled(old(items), items, n) && Values(items) == Down(Values(old(items)), i0, n)
      ensures moved == Moves(Values(old(items)), i0, n)
    {
      hide Less, Down, Moves, Shuffled, Indexed, Swap;
      var i: nat := i0;
      ShuffledNot(items, n);
      while 2 * i + 1 < n
        invariant i0 <= i && n <= |items| && Indexed(items) && Shuffled(old(items), items, n)
        invariant Down(Values(items), i, n) == Down(Values(old(items)), i0, n)
        invariant if i > i0 then Moves(Values(old(items)), i0, n) else items == old(items)
        decreases n - i
      {
        ghost var was, vs := items, Values(items);
        ShuffledMeans(old(items), items, n);
        DownInSteps(vs, i, n);
        var j := 2 * i + 1;
        if j + 1 < n && Less(items[j + 1].value, items[j].value) {
          j := j + 1;
        }
        assert j == SmallerChild(vs, i, n);
        if !Less(items[j].value, items[i].value) {
          break;
        }
        SwapItems(i, j, n);
        ShuffledTwice(old(items), was, items, n);
        i := j;
      }
      DownEnds(Values(items), i, n);
      moved := i > i0;
    }

    /** Adds an item. */
    method Push(item: Item)
      requires Valid() && item !in items
      modifies this, items, item
      ensures Valid() && Values(items) == Pushed(Values(old(items)), item.value)
      ensures multiset(items) == multiset(old(items)) + multiset{item}
    {
      hide Ordered, Up, Less;
      item.index := |items|;
      items := items + [item];
      PushKeeps(Values(old(items)), item.value);
      assert Values(items) == Values(old(items)) + [item.value];
      SiftUp(|items| - 1, |items|);
    }

    // Takes the last item off.
    method PopLast() returns (item: Item)
      requires items != [] && Indexed(items)
      modifies this, items
      ensures Indexed(items) && items == old(items)[..|old(items)| - 1] && item == old(items)[|old(items)| - 1]
      ensures |items| == |old(items)| - 1 && item.index == -1 && Values(items) == Values(old(items))[..|items|]
      ensures multiset(items) == multiset(old(items)) - multiset{item}
    {
      assert items == items[..|items| - 1] + [items[|items| - 1]];
      var n := |items|;
      item := items[n - 1];
      item.index := -1;
      items := items[..n - 1];
    }

    // Finds the place of the item at idx among the first n items.
    method Settle(idx: nat, n: nat)
      requires idx < n <= |items| && Indexed(items)
      modifies this, items
      ensures Indexed(items) && Shuffled(old(items), items, n) && Values(items) == Settled(Values(old(items)), idx, n)
    {
      hide Less, Up, Down, Moves, Swap, Indexed, Shuffled, Parent;
      var moved := SiftDown(idx, n);
      if !moved {
        DownStays(Values(old(items)), idx, n);
        ghost var before := items;
        ShuffledMeans(old(items), before, n);
        SiftUp(idx, n);
        ShuffledTwice(old(items), before, items, n);
      }
    }

    // Puts the item at idx last and the last one where it belongs.
    method PutLast(idx: nat, n: nat)
      requires Indexed(items) && idx < n == |items| - 1
      modifies this, items
      ensures Indexed(items) && Shuffled(old(items), items, |old(items)|) && |items| == |old(items)|
      ensures items[n] == old(items)[idx] && Values(items)[..n] == Removed(Values(old(items)), idx)
    {
      hide Settled, Swap, Shuffled, Indexed, Removed;
      RemovedInSteps(Values(items), idx, n);
      ghost var all := |items|;
      SwapItems(idx, n, all);
      ghost var was := items;
      ShuffledMeans(old(items), was, all);
      Settle(idx, n);
      ShuffledAt(was, items, n, n);
      ShuffledMore(was, items, n, all);
      ShuffledTwice(old(items), was, items, all);
    }

    /** Takes out the item at idx. */
    method Remove(idx: nat) returns (item: Item)
      requires Valid() && idx < |items|
      modifies this, items
      ensures Valid() && item == old(items)[idx] && item.index == -1
      ensures Values(items) == Removed(Values(old(items)), idx)
      ensures multiset(items) == multiset(old(items)) - multiset{item}
    {
      hide Ordered, Settled, Swap, Shuffled, Indexed, Removed;
      ghost var vs := Values(items);
      RemoveKeeps(vs, idx);
      var n := |items| - 1;
      RemovedInSteps(vs, idx, n);
      if n != idx {
        PutLast(idx, n);
        ShuffledBag(old(items), items, |old(items)|);
        ShuffledMeans(old(items), items, |old(items)|);
      }
      item := PopLast();
    }

    /** Takes out the root, which is the least entry of all. */
    method Pop() returns (item: Item)
      requires Valid() && items != []
      modifies this, items
      ensures Valid() && item == old(items)[0] && item.index == -1
      ensures Values(items) == Removed(Values(old(items)), 0)
      ensures multiset(items) == multiset(old(items)) - multiset{item}
    {
      hide Ordered, Less, Up, Down, Moves, Swap, Removed;
      RemoveKeeps(Values(items), 0);
      var n := |items| - 1;
      RootRemoved(Values(items), n);
      SwapItems(0, n, n + 1);
      var _ := SiftDown(0, n);
      item := PopLast();
    }
  }
}
