/** The circular lists that link jobs: a list is a ring whose first node, the head, stands for
    the list itself. A job that is in no list is a ring of its own. */
module JobList {

  class Node {
    var prev: Node?
    var next: Node?

    constructor ()
      ensures Ring([this])
    {
      prev, next := this, this;
    }
  }

  // Going round from the first of the nodes by next visits them in this order and comes back;
  // by prev, the other way round.
  ghost predicate Ring(nodes: seq<Node>)
    reads nodes
  {
    && nodes != [] && (forall i, j :: 0 <= i < j < |nodes| ==> nodes[i] != nodes[j])
    && (forall i :: 0 <= i < |nodes| - 1 ==> nodes[i].next == nodes[i + 1])
    && (forall i :: 0 < i < |nodes| ==> nodes[i].prev == nodes[i - 1])
    && nodes[|nodes| - 1].next == nodes[0] && nodes[0].prev == nodes[|nodes| - 1]
  }

  ghost predicate Apart(a: seq<Node>, b: seq<Node>) {
    forall i, j :: 0 <= i < |a| && 0 <= j < |b| ==> a[i] != b[j]
  }

  method JobListEmpty(j: Node, ghost nodes: seq<Node>) returns (empty: bool)
    requires Ring(nodes) && nodes[0] == j
    ensures empty == (nodes == [j])
  {
    empty := j.next == j && j.prev == j;
    if |nodes| > 1 {
      assert nodes[0].next == nodes[1];
    } else {
      assert nodes == [j];
    }
  }

  // The job is in this list, or in another ring.
  ghost predicate InOrApart(list: seq<Node>, own: seq<Node>, j: Node) {
    Apart(list, own) || (j in list && j != list[0])
  }

  // A job in a list is not alone.
  lemma ListedIsNotAlone(list: seq<Node>, j: Node)
    requires Ring(list) && j in list && j != list[0]
    ensures j.prev != j && !Ring([j])
  {
    var i :| 0 <= i < |list| && list[i] == j;
    assert list[i].prev == list[i - 1];
    assert [j][|[j]| - 1] == j && [j][0] == j;
  }

  /** Appends a job to a list. A job that is in a list already, this one or another, stays where
      it is. */
  method JobListInsert(head: Node, j: Node, ghost list: seq<Node>, ghost own: seq<Node>)
    requires Ring(list) && list[0] == head && Ring(own) && own[0] == j && InOrApart(list, own, j)
    modifies list, own
    ensures own == [j] ==> Ring(list + [j])
    ensures own != [j] ==> Ring(list) && Ring(own)
  {
    var empty := JobListEmpty(j, own);
    if !empty {
      return;
    }
    if j in list && j != list[0] {
      ListedIsNotAlone(list, j);
    }
    ghost var n := |list|;
    j.prev := head.prev;
    j.next := head;
    head.prev.next := j;
    head.prev := j;
    ghost var all := list + [j];
    forall i | 0 <= i < n
      ensures all[i].next == all[i + 1]
    {
      assert i < n - 1 ==> old(list[i].next) == list[i + 1];
    }
    forall i | 0 < i <= n
      ensures all[i].prev == all[i - 1]
    {
      assert i < n ==> old(list[i].prev) == list[i - 1];
    }
  }

  ghost function Dropped(nodes: seq<Node>, i: nat): seq<Node>
    requires i < |nodes|
  {
    nodes[..i] + nodes[i + 1..]
  }

  /** Takes a job out of the list it is in; the head of a list, or a job that is in none, is
      not taken out. */
  method JobListRemove(j: Node, ghost nodes: seq<Node>, ghost i: nat) returns (r: Node?)
    requires Ring(nodes) && i < |nodes| && nodes[i] == j && (i > 0 || |nodes| == 1)
    modifies nodes
    ensures |nodes| == 1 ==> r == null && Ring(nodes)
    ensures |nodes| > 1 ==> r == j && Ring(Dropped(nodes, i)) && Ring([j])
  {
    ghost var n := |nodes|;
    if i > 0 {
      assert nodes[i].prev == nodes[i - 1];
    }
    if i < n - 1 {
      assert nodes[i].next == nodes[i + 1];
    }
    if j.next == j && j.prev == j {
      return null;
    }
    j.next.prev := j.prev;
    j.prev.next := j.next;
    j.prev := j;
    j.next := j;
    ghost var rest := Dropped(nodes, i);
    assert |rest| == n - 1;
    forall k | 0 <= k < n - 1
      ensures rest[k] == if k < i then nodes[k] else nodes[k + 1]
    {
    }
    forall k | 0 <= k < n - 2
      ensures rest[k].next == rest[k + 1]
    {
      assert k < n - 1 && old(nodes[k].next) == nodes[k + 1] && old(nodes[k + 1].next) == nodes[k + 2];
    }
    forall k | 0 < k < n - 1
      ensures rest[k].prev == rest[k - 1]
    {
      assert old(nodes[k].prev) == nodes[k - 1] && old(nodes[k + 1].prev) == nodes[k];
    }
    r := j;
  }

  /** Burying a job hands its list head and the job to the insertion the wrong way round. The
      job is put on its tube's list of buried jobs exactly when that list was empty; else it
      stays alone. */
  method BuryInsert(j: Node, buried: Node, ghost list: seq<Node>)
    requires Ring([j]) && Ring(list) && list[0] == buried && Apart([j], list)
    modifies list, j
    ensures list == [buried] ==> Ring([buried, j])
    ensures list != [buried] ==> Ring(list) && Ring([j])
  {
    JobListInsert(j, buried, [j], list);
    if list == [buried] {
      ghost var all := [j] + [buried];
      assert all[0] == j && all[1] == buried;
      assert Ring(all);
      assert all[0].next == all[1] && all[1].prev == all[0];
    }
  }
}
