/** The circular doubly linked list of the kernel and the sequence operations it refines.
    A list is read from its head; the head moves when the ring is rotated. */

module Sequences {

  /** First element moved to the end. */
  function Rotated<T>(s: seq<T>): seq<T>
  {
    if s == [] then [] else s[1..] + [s[0]]
  }

  function InsertedAt<T>(s: seq<T>, i: nat, x: T): seq<T>
    requires i <= |s|
  {
    s[..i] + [x] + s[i..]
  }

  function RemovedAt<T>(s: seq<T>, i: nat): seq<T>
    requires i < |s|
  {
    s[..i] + s[i + 1..]
  }

  /** Position right behind the first element, or the only position of an empty sequence. */
  function Prepended<T>(s: seq<T>, x: T): seq<T>
  {
    if s == [] then [x] else InsertedAt(s, 1, x)
  }

  /** Where an insertion lands that looks at one pair of neighbours only: short sequences grow at
      the end, longer ones right behind the first or the second element. */
  function SortedSlot(n: nat, answer: bool): (i: nat)
    ensures i <= n
    ensures n > 0 ==> i > 0
  {
    if n <= 1 then n else if answer then 1 else 2
  }

  /** The sequence without its first occurrence of x. */
  function Without<T(==)>(s: seq<T>, x: T): seq<T>
  {
    if s == [] then [] else if s[0] == x then s[1..] else [s[0]] + Without(s[1..], x)
  }

  lemma WithoutIsRemovedAt<T>(s: seq<T>, x: T, i: nat)
    requires i < |s| && s[i] == x && x !in s[..i]
    ensures Without(s, x) == RemovedAt(s, i)
  {
    if i > 0 {
      assert s[0] in s[..i];
      assert x !in s[1..][..i - 1] by {
        assert s[1..][..i - 1] == s[..i][1..];
      }
      WithoutIsRemovedAt(s[1..], x, i - 1);
    }
  }

  /** Removal takes exactly one occurrence out and nothing else. */
  lemma {:induction false} WithoutMultiset<T>(s: seq<T>, x: T)
    requires x in s
    ensures multiset(s) == multiset(Without(s, x)) + multiset{x}
    ensures |Without(s, x)| == |s| - 1
  {
    assert s == [s[0]] + s[1..];
    if s[0] != x {
      WithoutMultiset(s[1..], x);
    }
  }

  lemma RotatedMultiset<T>(s: seq<T>)
    ensures multiset(Rotated(s)) == multiset(s)
  {
    if s != [] {
      assert s == [s[0]] + s[1..];
    }
  }

  lemma InsertedMultiset<T>(s: seq<T>, i: nat, x: T)
    requires i <= |s|
    ensures multiset(InsertedAt(s, i, x)) == multiset(s) + multiset{x}
  {
    assert s == s[..i] + s[i..];
  }

  /** Two positions of a sequence that hold the same value count that value twice. */
  lemma TwiceInMultiset<T>(s: seq<T>, i: nat, j: nat)
    requires i < j < |s| && s[i] == s[j]
    ensures multiset(s)[s[i]] >= 2
  {
    assert s == s[..j] + [s[j]] + s[j + 1..];
    assert s[i] in s[..j];
    assert multiset(s[..j])[s[i]] >= 1;
    assert multiset(s) == multiset(s[..j]) + multiset([s[j]]) + multiset(s[j + 1..]);
  }
}

module Rings {
  import opened Sequences

  datatype Option<+T> = None | Some(value: T)

  function Succ(i: nat, n: nat): (j: nat)
    requires i < n
    ensures j < n
  {
    if i + 1 == n then 0 else i + 1
  }

  function Pred(i: nat, n: nat): (j: nat)
    requires i < n
    ensures j < n
    ensures Succ(j, n) == i
  {
    if i == 0 then n - 1 else i - 1
  }

  class Item<T> {
    var next: Item?<T>
    var prev: Item?<T>
    var data: T

    constructor (data: T)
      ensures next == null && prev == null && this.data == data
    {
      next, prev := null, null;
      this.data := data;
    }
  }

  class List<T(==)> {
    var head: Item?<T>
    var length: nat
    ghost var nodes: seq<Item<T>>
    ghost var contents: seq<T>
    ghost var repr: set<object>

    /** next and prev are mutually inverse, and following next from head is one cycle through
        exactly `length` distinct nodes. */
    ghost predicate Valid()
      reads this, repr
      ensures Valid() ==> this in repr
    {
      && this in repr && (forall n <- nodes :: n in repr)
      && length == |nodes|
      && (nodes != [] ==> head == nodes[0])
      && Linked(nodes)
      && Holds(nodes, contents)
    }

    constructor ()
      ensures Valid() && contents == [] && fresh(repr)
    {
      head := null;
      length := 0;
      nodes, contents, repr := [], [], {this};
    }

    static ghost predicate Distinct(s: seq<Item<T>>)
    {
      forall i, j :: 0 <= i < j < |s| ==> s[i] != s[j]
    }

    static ghost predicate Holds(s: seq<Item<T>>, c: seq<T>)
      reads s
    {
      |s| == |c| && forall i :: 0 <= i < |s| ==> s[i].data == c[i]
    }

    /** The nodes of s, in this order, form one cycle. */
    static ghost predicate Linked(s: seq<Item<T>>)
      reads s
    {
      && Distinct(s)
      && (forall i {:trigger s[i].next} :: 0 <= i < |s| ==> s[i].next == s[Succ(i, |s|)])
      && (forall i {:trigger s[i].prev} :: 0 <= i < |s| ==> s[i].prev == s[Pred(i, |s|)])
    }

    /** Splicing a node in behind position k - 1 of a ring gives the ring with the node inserted at k. */
    static lemma LinkedIn(s: seq<Item<T>>, k: nat, item: Item<T>)
      requires 0 < k <= |s| && item !in s
      requires Distinct(s)
      requires s[k - 1].next == item && item.prev == s[k - 1]
      requires s[Succ(k - 1, |s|)].prev == item && item.next == s[Succ(k - 1, |s|)]
      requires forall i {:trigger s[i].next} :: 0 <= i < |s| && i != k - 1 ==> s[i].next == s[Succ(i, |s|)]
      requires forall i {:trigger s[i].prev} :: 0 <= i < |s| && i != Succ(k - 1, |s|) ==> s[i].prev == s[Pred(i, |s|)]
      ensures Linked(InsertedAt(s, k, item))
    {
      var t := InsertedAt(s, k, item);
      forall i | 0 <= i < |t| ensures t[i].next == t[Succ(i, |t|)] {
        if i < k - 1 { assert t[i] == s[i]; } else if i > k { assert t[i] == s[i - 1]; }
      }
      forall i | 0 <= i < |t| ensures t[i].prev == t[Pred(i, |t|)] {
        if 0 < i < k { assert t[i] == s[i]; } else if i > k { assert t[i] == s[i - 1]; }
      }
    }

    static lemma HoldsIn(s: seq<Item<T>>, c: seq<T>, k: nat, item: Item<T>)
      requires Holds(s, c) && k <= |s|
      ensures Holds(InsertedAt(s, k, item), InsertedAt(c, k, item.data))
    {
    }

    static lemma HoldsSeam(s: seq<Item<T>>, c: seq<T>, item: Item<T>)
      requires Holds(s, c)
      ensures Holds(s + [item], c + [item.data]) && Holds([item] + s, [item.data] + c)
    {
    }

    static lemma HoldsOut(s: seq<Item<T>>, c: seq<T>, k: nat)
      requires Holds(s, c) && k < |s|
      ensures Holds(RemovedAt(s, k), RemovedAt(c, k))
    {
      forall i | 0 <= i < |s| - 1 ensures RemovedAt(s, k)[i].data == RemovedAt(c, k)[i] {
        assert RemovedAt(s, k)[i] == s[if i < k then i else i + 1];
      }
    }

    /** Bridging over position k of a ring leaves the ring without it. */
    static lemma LinkedOut(s: seq<Item<T>>, k: nat)
      requires k < |s| && |s| > 1
      requires Distinct(s)
      requires s[Pred(k, |s|)].next == s[Succ(k, |s|)] && s[Succ(k, |s|)].prev == s[Pred(k, |s|)]
      requires forall i {:trigger s[i].next} ::
                 0 <= i < |s| && i != k && i != Pred(k, |s|) ==> s[i].next == s[Succ(i, |s|)]
      requires forall i {:trigger s[i].prev} ::
                 0 <= i < |s| && i != k && i != Succ(k, |s|) ==> s[i].prev == s[Pred(i, |s|)]
      ensures Linked(RemovedAt(s, k))
    {
      var t := RemovedAt(s, k);
      forall i | 0 <= i < |t| ensures t[i].next == t[Succ(i, |t|)] {
        assert t[i] == s[if i < k then i else i + 1];
      }
      forall i | 0 <= i < |t| ensures t[i].prev == t[Pred(i, |t|)] {
        assert t[i] == s[if i < k then i else i + 1];
      }
    }

    /** A ring read from its second node is the same ring. */
    static lemma LinkedRotated(s: seq<Item<T>>)
      requires Linked(s)
      ensures Linked(Rotated(s))
    {
      if s != [] {
        LinkedShifted(s, Rotated(s), 1);
      }
    }

    /** A ring read from any of its nodes is the same ring. */
    static lemma LinkedShifted(s: seq<Item<T>>, t: seq<Item<T>>, k: nat)
      requires Linked(s) && k <= |s| && |t| == |s|
      requires t == s[k..] + s[..k]
      ensures Linked(t)
    {
      var n := |s|;
      forall i, j | 0 <= i < j < n ensures t[i] != t[j] {
        assert t[i] == s[if i < n - k then i + k else i + k - n];
        assert t[j] == s[if j < n - k then j + k else j + k - n];
      }
      forall i | 0 <= i < n ensures t[i].next == t[Succ(i, n)] && t[i].prev == t[Pred(i, n)] {
        var j := if i < n - k then i + k else i + k - n;
        assert t[i] == s[j];
        assert t[Succ(i, n)] == s[Succ(j, n)];
        assert t[Pred(i, n)] == s[Pred(j, n)];
        assert s[j].next == s[Succ(j, n)] && s[j].prev == s[Pred(j, n)];
      }
    }

    /** Splicing a node in between the last and the first: it can be read as the new last node or
        as the new first one. */
    static lemma LinkedAtSeam(s: seq<Item<T>>, item: Item<T>)
      requires |s| > 0 && item !in s && Distinct(s)
      requires s[|s| - 1].next == item && item.prev == s[|s| - 1] && s[0].prev == item && item.next == s[0]
      requires forall i {:trigger s[i].next} :: 0 <= i < |s| - 1 ==> s[i].next == s[i + 1]
      requires forall i {:trigger s[i].prev} :: 0 < i < |s| ==> s[i].prev == s[i - 1]
      ensures Linked(s + [item]) && Linked([item] + s)
    {
      LinkedIn(s, |s|, item);
      assert InsertedAt(s, |s|, item) == s + [item];
      LinkedShifted(s + [item], [item] + s, |s|);
    }

    /** The one-node ring, which three of the insertions start. */
    method First(item: Item<T>)
      requires Valid() && length == 0
      modifies this, item
      ensures Valid() && contents == [old(item.data)] && repr == old(repr) + {item}
    {
      head := item;
      item.next := item;
      item.prev := item;
      length := 1;
      nodes, contents, repr := [item], [item.data], repr + {item};
    }

    method Append(x: T)
      requires Valid()
      modifies repr
      ensures Valid() && contents == old(contents) + [x]
      ensures fresh(repr - old(repr))
    {
      var item := new Item(x);
      if length == 0 {
        First(item);
      } else {
        LinkTail(item);
      }
    }

    /** Links a node in behind the tail. */
    method LinkTail(item: Item<T>)
      requires Valid() && length > 0 && item !in repr
      modifies repr, item
      ensures Valid() && contents == old(contents) + [old(item.data)] && repr == old(repr) + {item}
    {
      var tail := head.prev;
      tail.next := item;
      item.prev := tail;
      item.next := head;
      head.prev := item;
      length := length + 1;
      ghost var s, c := nodes, contents;
      nodes, contents, repr := s + [item], c + [item.data], repr + {item};
      LinkedAtSeam(s, item);
      HoldsSeam(s, c, item);
      hide Linked, Holds;
    }

    /** `answer` is what the comparison function said about the one pair it was shown. */
    method InsertSorted(x: T, answer: bool)
      requires Valid()
      modifies repr
      ensures Valid()
      ensures contents == InsertedAt(old(contents), SortedSlot(|old(contents)|, answer), x)
      ensures fresh(repr - old(repr))
    {
      if length <= 1 {
        Append(x);
        return;
      }
      var previous := head;
      if !answer {
        previous := previous.next;
      }
      InsertBehind(previous, x, SortedSlot(|contents|, answer));
    }

    method InsertBehind(previous: Item<T>, x: T, ghost k: nat)
      requires Valid() && 0 < k <= |nodes| && previous == nodes[k - 1]
      modifies repr
      ensures Valid() && contents == InsertedAt(old(contents), k, x)
      ensures fresh(repr - old(repr))
    {
      assert previous.next == nodes[Succ(k - 1, |nodes|)];
      var item := new Item(x);
      var nextItem := previous.next;
      previous.next := item;
      item.prev := previous;
      item.next := nextItem;
      nextItem.prev := item;
      length := length + 1;
      ghost var s, c := nodes, contents;
      nodes, contents, repr := InsertedAt(s, k, item), InsertedAt(c, k, x), repr + {item};
      LinkedIn(s, k, item);
      HoldsIn(s, c, k, item);
      hide Linked, Holds;
    }

    method Prepend(x: T)
      requires Valid()
      modifies repr
      ensures Valid() && contents == Prepended(old(contents), x)
      ensures fresh(repr - old(repr))
    {
      var item := new Item(x);
      if length == 0 {
        First(item);
      } else {
        LinkSecond(item);
      }
    }

    /** Links a node in right behind the head. */
    method LinkSecond(item: Item<T>)
      requires Valid() && length > 0 && item !in repr
      modifies repr, item
      ensures Valid() && contents == InsertedAt(old(contents), 1, old(item.data)) && repr == old(repr) + {item}
    {
      assert head.next == nodes[Succ(0, |nodes|)];
      item.next := head.next;
      item.prev := head;
      item.next.prev := item;
      head.next := item;
      length := length + 1;
      ghost var s, c := nodes, contents;
      nodes, contents, repr := InsertedAt(s, 1, item), InsertedAt(c, 1, item.data), repr + {item};
      LinkedIn(s, 1, item);
      HoldsIn(s, c, 1, item);
      hide Linked, Holds;
    }

    method InsertHead(x: T)
      requires Valid()
      modifies repr
      ensures Valid() && contents == [x] + old(contents)
      ensures fresh(repr - old(repr))
    {
      var item := new Item(x);
      if length == 0 {
        First(item);
      } else {
        LinkHead(item);
      }
    }

    /** Links a node in before the head and makes it the head. */
    method LinkHead(item: Item<T>)
      requires Valid() && length > 0 && item !in repr
      modifies repr, item
      ensures Valid() && contents == [old(item.data)] + old(contents) && repr == old(repr) + {item}
    {
      ghost var last := nodes[|nodes| - 1];
      assert head.prev == last;
      item.next := head;
      item.prev := head.prev;
      head.prev.next := item;
      head.prev := item;
      head := item;
      length := length + 1;
      ghost var s, c := nodes, contents;
      nodes, contents, repr := [item] + s, [item.data] + c, repr + {item};
      LinkedAtSeam(s, item);
      HoldsSeam(s, c, item);
      hide Linked, Holds;
    }

    /** Makes the two neighbours of a node point past it, and the head too when it was the head. */
    method Bridge(item: Item<T>, ghost k: nat)
      requires Valid() && k < |nodes| && nodes[k] == item
      modifies this`head, nodes
      ensures |nodes| > 1 ==> head == RemovedAt(nodes, k)[0]
      ensures Linked(RemovedAt(nodes, k)) && Holds(RemovedAt(nodes, k), RemovedAt(contents, k))
    {
      ghost var before, after := nodes[Pred(k, |nodes|)], nodes[Succ(k, |nodes|)];
      assert item.prev == before && item.next == after;
      assert head == item <==> k == 0;
      if head == item {
        head := item.next;
        head.prev := item.prev;
        item.prev.next := item.next;
        if head.next == item {
          head.next := head;
        }
      } else {
        item.prev.next := item.next;
        item.next.prev := item.prev;
        // The two self-link repairs that follow in the source never apply: a node that is not
        // the head has a neighbour other than itself, already bridged.
        if item.next.next == item || item.prev.prev == item {
          assert false;
        }
      }
      HoldsOut(nodes, contents, k);
      if |nodes| > 1 {
        LinkedOut(nodes, k);
      }
    }

    /** `k` is the position of the node, known to the caller that found it. */
    method Remove(item: Item<T>, ghost k: nat)
      requires Valid()
      requires length > 0 ==> k < |nodes| && nodes[k] == item
      modifies repr
      ensures Valid()
      ensures contents == if old(contents) == [] then [] else RemovedAt(old(contents), k)
      ensures repr <= old(repr)
    {
      if length == 0 {
        return;
      }
      Bridge(item, k);
      length := length - 1;
      nodes, contents, repr := RemovedAt(nodes, k), RemovedAt(contents, k), repr - {item};
    }

    method GetHead() returns (x: T)
      requires Valid() && contents != []
      ensures x == contents[0]
    {
      x := head.data;
    }

    method GetFollowingHeadItem() returns (x: T)
      requires Valid() && contents != []
      ensures x == Rotated(contents)[0]
    {
      assert nodes[0].next == nodes[Succ(0, |nodes|)];
      x := head.next.data;
    }

    method GetTail() returns (x: T)
      requires Valid() && contents != []
      ensures x == contents[|contents| - 1]
    {
      assert nodes[0].prev == nodes[Pred(0, |nodes|)];
      x := head.prev.data;
    }

    method IsEmpty() returns (b: bool)
      requires Valid()
      ensures b <==> contents == []
    {
      b := length == 0;
    }

    /** Finds the first node that holds x, or nothing when no node does. */
    method GetItemWithData(x: T) returns (item: Item?<T>, ghost k: nat)
      requires Valid()
      ensures item == null <==> x !in contents
      ensures item != null ==> k < |nodes| && nodes[k] == item && contents[k] == x && x !in contents[..k]
    {
      k := 0;
      if length == 0 {
        return null, k;
      }
      if head.data == x {
        return head, k;
      }
      item := head.next;
      k := Succ(0, |nodes|);
      while item != head
        invariant k < |nodes| && nodes[k] == item
        invariant k == 0 ==> x !in contents
        invariant k > 0 ==> x !in contents[..k]
        decreases if k == 0 then 0 else |nodes| - k
      {
        if item.data == x {
          return;
        }
        assert nodes[k].next == nodes[Succ(k, |nodes|)];
        item := item.next;
        k := Succ(k, |nodes|);
      }
      return null, k;
    }

    /** Moves the head one node on; the nodes and their links stay as they are. */
    method Rotate() returns (x: Option<T>)
      requires Valid()
      modifies this
      ensures Valid() && contents == Rotated(old(contents))
      ensures x == if contents == [] then None else Some(contents[0])
      ensures repr == old(repr)
    {
      if length == 0 {
        return None;
      }
      head := head.next;
      LinkedRotated(nodes);
      assert Holds(Rotated(nodes), Rotated(contents));
      nodes, contents := Rotated(nodes), Rotated(contents);
      x := Some(head.data);
    }
  }
}
