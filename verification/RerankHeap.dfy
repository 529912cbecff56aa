/** The order candidates are ranked by and the bounded heap that keeps the best of a stream
    (src/agent_memory_gateway/hybrid_retrieval.py). */
module RerankHeap {
  import opened TextOrder

  /** content is the normalised text; the feature vector is a function of it. */
  datatype Candidate = Candidate(id: string, content: string, score: real, group: string, tokens: nat)

  /** Higher score first, then smaller id. */
  predicate Better(a: Candidate, b: Candidate) {
    a.score > b.score || (a.score == b.score && Before(a.id, b.id))
  }

  /** Better is a strict weak order, and total on distinct ids. */
  lemma BetterIsOrder(a: Candidate, b: Candidate, c: Candidate)
    ensures !(Better(a, b) && Better(b, a))
    ensures Better(a, b) && Better(b, c) ==> Better(a, c)
    ensures !Better(a, b) && !Better(b, c) ==> !Better(a, c)
    ensures a.id != b.id ==> Better(a, b) || Better(b, a)
  {
    BeforeIsTotal(a.id, b.id);
    BeforeIsTotal(b.id, c.id);
    BeforeIsTotal(a.id, c.id);
    if Before(a.id, b.id) && Before(b.id, c.id) { BeforeIsTransitive(a.id, b.id, c.id); }
    if Before(c.id, b.id) && Before(b.id, a.id) { BeforeIsTransitive(c.id, b.id, a.id); }
  }

  // ---- heap order on sequences: the worst candidate at the root

  function Parent(i: nat): nat
    requires i > 0
  {
    (i - 1) / 2
  }

  /** Element i is not worse than its parent. */
  predicate InPlace(s: seq<Candidate>, i: nat)
    requires i < |s|
  {
    i > 0 ==> !Better(s[Parent(i)], s[i])
  }

  predicate Heap(s: seq<Candidate>) {
    forall i | 0 <= i < |s| :: InPlace(s, i)
  }

  /** A heap but for the element at pos, which may be worse than its parent. */
  predicate HeapBut(s: seq<Candidate>, pos: nat) {
    && (forall i | 0 <= i < |s| && i != pos :: InPlace(s, i))
    && (forall i | 0 < i < |s| && pos > 0 && Parent(i) == pos && pos < |s| :: !Better(s[Parent(pos)], s[i]))
  }

  /** As above, and the element at pos may also be better than its children. */
  predicate HoleAt(s: seq<Candidate>, pos: nat) {
    && (forall i | 0 < i < |s| && i != pos && Parent(i) != pos :: InPlace(s, i))
    && (forall i | 0 < i < |s| && pos > 0 && Parent(i) == pos && pos < |s| :: !Better(s[Parent(pos)], s[i]))
  }

  function Swap(s: seq<Candidate>, i: nat, j: nat): (t: seq<Candidate>)
    requires i < |s| && j < |s|
    ensures multiset(t) == multiset(s)
  {
    s[i := s[j]][j := s[i]]
  }

  lemma {:induction false} RootIsWorst(s: seq<Candidate>, i: nat)
    requires Heap(s) && i < |s|
    ensures !Better(s[0], s[i])
  {
    if i > 0 {
      RootIsWorst(s, Parent(i));
      assert InPlace(s, i);
      BetterIsOrder(s[0], s[Parent(i)], s[i]);
    } else {
      BetterIsOrder(s[0], s[0], s[0]);
    }
  }

  /** Moving an element above a better parent. */
  lemma RiseKeeps(s: seq<Candidate>, pos: nat)
    requires 0 < pos < |s| && HeapBut(s, pos) && Better(s[Parent(pos)], s[pos])
    ensures HeapBut(Swap(s, pos, Parent(pos)), Parent(pos))
  {
    hide Better;
    var p := Parent(pos);
    var t := Swap(s, pos, p);
    forall i | 0 <= i < |t| && i != p ensures InPlace(t, i) {
      if i > 0 && Parent(i) == p && i != pos {
        assert InPlace(s, i);
        BetterIsOrder(s[pos], s[i], s[p]);
        BetterIsOrder(s[p], s[pos], s[i]);
        BetterIsOrder(s[pos], s[p], s[i]);
      } else if i == pos {
        BetterIsOrder(s[p], s[pos], s[p]);
      } else {
        assert InPlace(s, i);
      }
    }
    forall i | 0 < i < |t| && p > 0 && Parent(i) == p ensures !Better(t[Parent(p)], t[i]) {
      assert InPlace(s, p);
      if i != pos {
        assert InPlace(s, i);
        BetterIsOrder(s[Parent(p)], s[p], s[i]);
      }
    }
  }

  /** Moving the worse child up into the hole. */
  lemma FallKeeps(s: seq<Candidate>, pos: nat, child: nat)
    requires pos < |s| && 0 < child < |s| && Parent(child) == pos && HoleAt(s, pos)
    requires forall i | 0 < i < |s| && Parent(i) == pos :: !Better(s[child], s[i])
    ensures HoleAt(Swap(s, pos, child), child)
  {
    hide Better;
    var t := Swap(s, pos, child);
    forall i | 0 < i < |t| && i != child && Parent(i) != child ensures InPlace(t, i) {
      if i != pos && Parent(i) != pos { assert InPlace(s, i); }
    }
    forall i | 0 < i < |t| && Parent(i) == child ensures !Better(t[pos], t[i]) {
      assert InPlace(s, i);
    }
  }

  lemma LeafHole(s: seq<Candidate>, pos: nat)
    requires pos < |s| && HoleAt(s, pos) && |s| <= 2 * pos + 1
    ensures HeapBut(s, pos)
  {
  }

  /** heapq over an array of fixed capacity. */
  class BoundedHeap {
    const items: array<Candidate>
    var size: nat

    ghost predicate Valid()
      reads this, items
    {
      size <= items.Length && Heap(items[..size])
    }

    constructor (capacity: nat)
      ensures Valid() && fresh(items) && items.Length == capacity && size == 0
    {
      items := new Candidate[capacity](_ => Candidate("", "", 0.0, "", 0));
      size := 0;
    }

    method Exchange(i: nat, j: nat)
      requires i < size <= items.Length && j < size
      modifies items
      ensures items[..size] == Swap(old(items[..size]), i, j)
    {
      items[i], items[j] := items[j], items[i];
    }

    /** Let the element at pos rise to its place. */
    method Rise(start: nat)
      requires size <= items.Length && start < size && HeapBut(items[..size], start)
      modifies items
      ensures Valid() && multiset(items[..size]) == multiset(old(items[..size]))
    {
      var pos: nat := start;
      while pos > 0 && Better(items[Parent(pos)], items[pos])
        invariant pos < size && HeapBut(items[..size], pos)
        invariant multiset(items[..size]) == multiset(old(items[..size]))
      {
        var parent := Parent(pos);
        ghost var before := items[..size];
        RiseKeeps(before, pos);
        Exchange(pos, parent);
        pos := parent;
      }
      assert InPlace(items[..size], pos);
    }

    /** Move the hole at the root down to a leaf, then let its element rise. */
    method Sink()
      requires 0 < size <= items.Length && HoleAt(items[..size], 0)
      modifies items
      ensures Valid() && multiset(items[..size]) == multiset(old(items[..size]))
    {
      var pos: nat := 0;
      hide HoleAt, Heap, HeapBut, InPlace, Better, Swap;
      while 2 * pos + 1 < size
        invariant pos < size && HoleAt(items[..size], pos)
        invariant multiset(items[..size]) == multiset(old(items[..size]))
        decreases size - pos
      {
        pos := PullUp(pos);
      }
      LeafHole(items[..size], pos);
      Rise(pos);
    }

    /** Fill the hole with its worse child, which leaves the hole where the child was. */
    method PullUp(pos: nat) returns (child: nat)
      requires 2 * pos + 1 < size <= items.Length && HoleAt(items[..size], pos)
      modifies items
      ensures pos < child < size && HoleAt(items[..size], child)
      ensures multiset(items[..size]) == multiset(old(items[..size]))
    {
      hide HoleAt, Better, Swap, InPlace;
      child := 2 * pos + 1;
      ghost var before := items[..size];
      if child + 1 < size && !Better(items[child + 1], items[child]) { child := child + 1; }
      ChildIsWorse(before, pos, child);
      FallKeeps(before, pos, child);
      Exchange(pos, child);
    }

    method Push(c: Candidate)
      requires Valid() && size < items.Length
      modifies this`size, items
      ensures Valid() && size == old(size) + 1
      ensures multiset(items[..size]) == multiset(old(items[..size])) + multiset{c}
    {
      ghost var before := items[..size];
      items[size] := c;
      size := size + 1;
      assert items[..size] == before + [c];
      AppendKeeps(before, c);
      Rise(size - 1);
    }

    /** Replace the worst candidate. */
    method Replace(c: Candidate)
      requires Valid() && size > 0
      modifies items
      ensures Valid()
      ensures multiset(items[..size]) == multiset(old(items[..size])) - multiset{old(items[0])} + multiset{c}
    {
      ghost var before := items[..size];
      items[0] := c;
      assert items[..size] == before[0 := c];
      RootReplaced(before, c);
      Sink();
    }
  }

  lemma ChildIsWorse(s: seq<Candidate>, pos: nat, child: nat)
    requires pos < |s| && 2 * pos + 1 < |s|
    requires child == if 2 * pos + 2 < |s| && !Better(s[2 * pos + 2], s[2 * pos + 1]) then 2 * pos + 2 else 2 * pos + 1
    ensures 0 < child < |s| && Parent(child) == pos && forall i | 0 < i < |s| && Parent(i) == pos :: !Better(s[child], s[i])
  {
    hide Better;
    forall i | 0 < i < |s| && Parent(i) == pos ensures !Better(s[child], s[i]) {
      assert i == 2 * pos + 1 || i == 2 * pos + 2;
      BetterIsOrder(s[child], s[i], s[i]);
    }
  }

  lemma AppendKeeps(s: seq<Candidate>, c: Candidate)
    requires Heap(s)
    ensures HeapBut(s + [c], |s|) && multiset(s + [c]) == multiset(s) + multiset{c}
  {
    forall i | 0 <= i < |s| ensures InPlace(s + [c], i) { assert InPlace(s, i); }
  }

  lemma RootReplaced(s: seq<Candidate>, c: Candidate)
    requires Heap(s) && s != []
    ensures HoleAt(s[0 := c], 0) && multiset(s[0 := c]) == multiset(s) - multiset{s[0]} + multiset{c}
  {
    forall i | 0 < i < |s| && Parent(i) != 0 ensures InPlace(s[0 := c], i) { assert InPlace(s, i); }
  }
}
