/**
 * The cache itself: a ring of linked elements around a root, as in Go's container/list,
 * and a map from keys to elements. Every operation is proved to refine the pure
 * recency sequence of module Recency.
 */
module Lru {
  import opened Options
  import R = Recency

  /** One list element. The root of a ring carries no entry. */
  class Element<V> {
    var next: Element?<V>
    var prev: Element?<V>
    var entry: Option<R.Entry<V>>

    constructor (entry: Option<R.Entry<V>>)
      ensures this.entry == entry
    {
      this.entry := entry;
      next, prev := null, null;
    }
  }

  /** Each element of the sequence is linked to the one behind it, in both directions. */
  ghost predicate Linked<V>(s: seq<Element<V>>)
    reads s
  {
    forall i :: 0 <= i < |s| - 1 ==> s[i].next == s[i + 1] && s[i + 1].prev == s[i]
  }

  lemma LoopOfCut<T>(root: T, nodes: seq<T>, i: nat)
    requires i < |nodes| && root !in nodes && R.Distinct(nodes)
    ensures [root] + R.Cut(nodes, i) + [root] == R.Cut([root] + nodes + [root], i + 1)
    ensures R.Distinct(([root] + nodes + [root])[1..])
    ensures root !in R.Cut(nodes, i) && nodes[i] !in R.Cut(nodes, i) && R.Distinct(R.Cut(nodes, i))
  {
  }

  /** Links the neighbours of a ring's element with each other. */
  method Unlink<V>(e: Element<V>, ghost loop: seq<Element<V>>, ghost i: nat)
    requires 0 < i < |loop| - 1 && loop[i] == e
    requires R.Distinct(loop[1..]) && loop[|loop| - 1] == loop[0] && Linked(loop)
    modifies loop
    ensures Linked(R.Cut(loop, i))
    ensures forall n :: n in loop ==> n.entry == old(n.entry)
  {
    assert loop[i - 1].next == loop[i] && loop[i].next == loop[i + 1];
    var p, n := e.prev, e.next;
    p.next := n;
    n.prev := p;
    e.next, e.prev := null, null;
    ghost var cut := R.Cut(loop, i);
    forall j | 0 <= j < |cut| - 1
      ensures cut[j].next == cut[j + 1] && cut[j + 1].prev == cut[j]
    {
      ghost var k := if j < i then j else j + 1;
      assert old(loop[k].next == loop[k + 1] && loop[k + 1].prev == loop[k]);
      assert loop[1..][k] == loop[k + 1] && loop[1..][i - 1] == loop[i] && loop[1..][i] == loop[i + 1];
    }
  }

  class EntryList<V> {
    const root: Element<V>
    var len: nat
    ghost var nodes: seq<Element<V>>
    ghost var contents: seq<R.Entry<V>>

    /** The ring from the root back to the root. */
    ghost function Loop(): seq<Element<V>>
      reads this
    {
      [root] + nodes + [root]
    }

    ghost predicate Valid()
      reads this, root, nodes
    {
      && len == |nodes| == |contents|
      && root !in nodes
      && R.Distinct(nodes)
      && Linked(Loop())
      && (forall i :: 0 <= i < |nodes| ==> nodes[i].entry == Some(contents[i]))
    }

    constructor ()
      ensures Valid() && nodes == [] && fresh(root)
    {
      root := new Element<V>(None);
      len, nodes, contents := 0, [], [];
      new;
      root.next, root.prev := root, root;
    }

    method Back() returns (e: Element?<V>)
      requires Valid()
      ensures nodes == [] <==> e == null
      ensures nodes != [] ==> e == nodes[|nodes| - 1]
    {
      ghost var loop := Loop();
      assert loop[0].next == loop[1] && loop[|nodes| + 1].prev == loop[|nodes|];
      e := if root.next == root then null else root.prev;
    }

    /** Takes an element out of the ring. */
    method Remove(e: Element<V>, ghost i: nat)
      requires Valid() && i < |nodes| && nodes[i] == e
      modifies root, nodes, this
      ensures Valid() && nodes == R.Cut(old(nodes), i) && e !in nodes
      ensures contents == R.Cut(old(contents), i)
      ensures e.entry == old(e.entry)
    {
      ghost var loop := Loop();
      LoopOfCut(root, nodes, i);
      Unlink(e, loop, i + 1);
      len := len - 1;
      nodes, contents := R.Cut(nodes, i), R.Cut(contents, i);
    }

    method InsertFront(e: Element<V>)
      requires Valid() && e != root && e !in nodes && e.entry.Some?
      modifies root, nodes, this, e
      ensures Valid() && nodes == [e] + old(nodes)
      ensures contents == [old(e.entry.value)] + old(contents)
    {
      ghost var loop := Loop();
      assert loop[0].next == loop[1];
      var n := root.next;
      e.prev, e.next := root, n;
      root.next := e;
      n.prev := e;
      len := len + 1;
      nodes, contents := [e] + nodes, [e.entry.value] + contents;
      ghost var loop' := [root, e] + loop[1..];
      assert Loop() == loop';
      assert Linked(loop') by {
        forall j | 0 <= j < |loop'| - 1
          ensures loop'[j].next == loop'[j + 1] && loop'[j + 1].prev == loop'[j]
        {
          if j > 1 { assert loop'[j] == loop[j - 1] && loop'[j + 1] == loop[j]; }
        }
      }
    }

    method MoveToFront(e: Element<V>, ghost i: nat)
      requires Valid() && i < |nodes| && nodes[i] == e
      modifies root, nodes, this
      ensures Valid() && nodes == [e] + R.Cut(old(nodes), i)
      ensures contents == [old(contents)[i]] + R.Cut(old(contents), i)
    {
      Remove(e, i);
      InsertFront(e);
    }

    /** Overwrites the value of the first element. */
    method SetFirst(e: Element<V>, entry: R.Entry<V>)
      requires Valid() && nodes != [] && nodes[0] == e
      modifies e, this
      ensures Valid() && nodes == old(nodes) && contents == [entry] + old(contents)[1..]
    {
      e.entry := Some(entry);
      contents := [entry] + contents[1..];
      assert Linked(Loop());
    }
  }

  class LruCache<V> {
    const size: int
    const entries: EntryList<V>
    var data: map<string, Element<V>>

    ghost var Repr: set<object>

    /** The list and the map hold the same keys, with one element each. */
    ghost predicate Consistent()
      reads this, Repr
      ensures Consistent() ==> this in Repr && entries in Repr
    {
      && {this, entries, entries.root} <= Repr
      && (forall n :: n in entries.nodes ==> n in Repr)
      && entries.Valid() && Indexes(data, entries.nodes, entries.contents)
    }

    /** Between operations the number of entries also respects a positive size. */
    ghost predicate Valid()
      reads this, Repr
      ensures Valid() ==> this in Repr && entries in Repr
    {
      Consistent() && (size > 0 ==> |View()| <= size)
    }

    /** The cache as a pure sequence, the most recently used entry first. */
    ghost function View(): seq<R.Entry<V>>
      reads entries
    {
      entries.contents
    }

    constructor (size: int)
      ensures Valid() && View() == [] && this.size == size
      ensures fresh(Repr)
    {
      this.size := size;
      var list := new EntryList<V>();
      entries, data := list, map[];
      Repr := {this, list, list.root};
    }

    method Set(key: string, value: V)
      requires Valid()
      modifies Repr
      ensures Valid() && fresh(Repr - old(Repr))
      ensures View() == R.Set(old(View()), size, key, value)
    {
      ghost var i := Position(data, entries.nodes, entries.contents, key);
      if key in data {
        Update(key, value, i);
        return;
      }
      Push(key, value);
      if size > 0 && entries.len > size {
        RemoveOldest();
      }
    }

    method Update(key: string, value: V, ghost i: nat)
      requires Valid() && key in data && i < |entries.nodes| && entries.nodes[i] == data[key]
      modifies Repr
      ensures Valid() && Repr == old(Repr)
      ensures View() == [R.Entry(key, value)] + R.Cut(old(View()), i)
    {
      var e := data[key];
      entries.MoveToFront(e, i);
      MovedIndexes(data, old(entries.nodes), old(entries.contents), i, R.Entry(key, value));
      entries.SetFirst(e, R.Entry(key, value));
    }

    method Push(key: string, value: V)
      requires Consistent() && key !in data
      modifies Repr
      ensures Consistent() && fresh(Repr - old(Repr))
      ensures View() == [R.Entry(key, value)] + old(View())
    {
      var e := new Element<V>(Some(R.Entry(key, value)));
      entries.InsertFront(e);
      Repr := Repr + {e};
      data := data[key := e];
      PushedIndexes(old(data), old(entries.nodes), old(entries.contents), e, R.Entry(key, value));
    }

    method Get(key: string) returns (value: Option<V>)
      requires Valid()
      modifies Repr
      ensures Valid() && Repr == old(Repr)
      ensures value == R.Lookup(old(View()), key)
      ensures View() == R.Get(old(View()), key)
    {
      ghost var i := Position(data, entries.nodes, entries.contents, key);
      if key in data {
        var e := data[key];
        entries.MoveToFront(e, i);
        MovedIndexes(data, old(entries.nodes), old(entries.contents), i, old(entries.contents)[i]);
        assert entries.nodes[0] == e;
        return Some(e.entry.value.value);
      }
      return None;
    }

    method Remove(key: string)
      requires Valid()
      modifies Repr
      ensures Valid() && Repr == old(Repr)
      ensures View() == R.Without(old(View()), key)
    {
      ghost var i := Position(data, entries.nodes, entries.contents, key);
      if key in data {
        RemoveElement(data[key], i);
      }
    }

    method RemoveOldest()
      requires Consistent()
      modifies Repr
      ensures Consistent() && Repr == old(Repr)
      ensures View() == R.RemoveOldest(old(View())) && (old(Valid()) ==> Valid())
    {
      var e := entries.Back();
      if e != null {
        RemoveElement(e, |entries.nodes| - 1);
      }
    }

    method RemoveElement(e: Element<V>, ghost i: nat)
      requires Consistent() && i < |entries.nodes| && entries.nodes[i] == e
      modifies Repr
      ensures Consistent() && Repr == old(Repr)
      ensures View() == R.Cut(old(View()), i)
    {
      entries.Remove(e, i);
      data := data - {e.entry.value.key};
      RemovedIndexes(old(data), old(entries.nodes), old(entries.contents), i);
    }

    method Len() returns (n: nat)
      requires Valid()
      ensures n == |View()|
    {
      n := entries.len;
    }
  }

  /** `data` maps exactly the keys of `contents` to the elements at the same positions of `nodes`. */
  ghost predicate Indexes<V>(data: map<string, Element<V>>, nodes: seq<Element<V>>, contents: seq<R.Entry<V>>) {
    && |nodes| == |contents|
    && (forall i :: 0 <= i < |nodes| ==> contents[i].key in data && data[contents[i].key] == nodes[i])
    && (forall k :: k in data ==> data[k] in nodes)
    && (forall k, i :: k in data && 0 <= i < |nodes| && data[k] == nodes[i] ==> contents[i].key == k)
  }

  /** The list position of a key's element is its position in the pure sequence. */
  lemma Position<V>(data: map<string, Element<V>>, nodes: seq<Element<V>>, contents: seq<R.Entry<V>>, key: string)
    returns (i: nat)
    requires Indexes(data, nodes, contents)
    requires R.Distinct(nodes)
    ensures i == R.Find(contents, key)
    ensures key in data <==> i < |nodes|
    ensures key in data ==> nodes[i] == data[key]
  {
    i := R.Find(contents, key);
    if key in data {
      var j :| 0 <= j < |nodes| && nodes[j] == data[key];
    }
  }

  lemma MovedIndexes<V>(data: map<string, Element<V>>, nodes: seq<Element<V>>, contents: seq<R.Entry<V>>,
                        i: nat, e: R.Entry<V>)
    requires Indexes(data, nodes, contents) && i < |nodes| && e.key == contents[i].key
    ensures Indexes(data, [nodes[i]] + R.Cut(nodes, i), [e] + R.Cut(contents, i))
  {
  }

  lemma PushedIndexes<V>(data: map<string, Element<V>>, nodes: seq<Element<V>>, contents: seq<R.Entry<V>>,
                         n: Element<V>, e: R.Entry<V>)
    requires Indexes(data, nodes, contents) && e.key !in data && n !in nodes
    ensures Indexes(data[e.key := n], [n] + nodes, [e] + contents)
  {
  }

  lemma RemovedIndexes<V>(data: map<string, Element<V>>, nodes: seq<Element<V>>, contents: seq<R.Entry<V>>, i: nat)
    requires Indexes(data, nodes, contents) && i < |nodes|
    requires R.Distinct(nodes)
    ensures Indexes(data - {contents[i].key}, R.Cut(nodes, i), R.Cut(contents, i))
  {
  }
}
