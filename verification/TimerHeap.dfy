/** The binary heap behind TimerManager's priority queue: a vector with sift-up and sift-down. */
module TimerHeap {

  /** A timer as the queue orders it. `repeats` is how many fires follow the next one. */
  datatype Entry = Entry(id: nat, expiry: int, repeats: int, interval: int)

  /** cmp(b, a): a comes out of the queue before b. */
  predicate Before(a: Entry, b: Entry) {
    if a.expiry == b.expiry then a.repeats < b.repeats else a.expiry < b.expiry
  }

  predicate Leq(a: Entry, b: Entry) {
    !Before(b, a)
  }

  function Parent(i: nat): nat
    requires i > 0
  {
    (i - 1) / 2
  }

  function Exchange(h: seq<Entry>, i: nat, j: nat): seq<Entry>
    requires i < |h| && j < |h|
  {
    h[i := h[j]][j := h[i]]
  }

  function SiftUp(h: seq<Entry>, i: nat): seq<Entry>
    requires i < |h|
    decreases i
  {
    if i == 0 || !Before(h[i], h[Parent(i)]) then h
    else SiftUp(Exchange(h, i, Parent(i)), Parent(i))
  }

  /** The child of `i` that comes out first. */
  function FirstChild(h: seq<Entry>, i: nat): nat
    requires 2 * i + 1 < |h|
  {
    if 2 * i + 2 < |h| && Before(h[2 * i + 2], h[2 * i + 1]) then 2 * i + 2 else 2 * i + 1
  }

  function SiftDown(h: seq<Entry>, i: nat): seq<Entry>
    requires i < |h|
    decreases |h| - i
  {
    if 2 * i + 1 >= |h| || !Before(h[FirstChild(h, i)], h[i]) then h
    else SiftDown(Exchange(h, i, FirstChild(h, i)), FirstChild(h, i))
  }

  function Push(h: seq<Entry>, t: Entry): seq<Entry> {
    SiftUp(h + [t], |h|)
  }

  /** The last element takes the root's place; the old root's key plays no part. */
  function Pop(h: seq<Entry>): seq<Entry>
    requires h != []
  {
    if |h| == 1 then [] else SiftDown([h[|h| - 1]] + h[1..|h| - 1], 0)
  }

  // ------------------------------------------------------------ order

  ghost predicate IsHeap(h: seq<Entry>) {
    forall i | 0 < i < |h| :: Leq(h[Parent(i)], h[i])
  }

  lemma {:induction false} RootIsLeast(h: seq<Entry>, i: nat)
    requires IsHeap(h) && i < |h|
    ensures Leq(h[0], h[i])
  {
    if i > 0 {
      RootIsLeast(h, Parent(i));
    }
  }

  /** A heap but for the edge above `i`. */
  ghost predicate HoleAbove(h: seq<Entry>, i: nat) {
    && i < |h|
    && (forall j | 0 < j < |h| && j != i :: Leq(h[Parent(j)], h[j]))
    && (i > 0 ==> forall j | 0 < j < |h| && Parent(j) == i :: Leq(h[Parent(i)], h[j]))
  }

  /** A heap but for the edges below `i`. */
  ghost predicate HoleBelow(h: seq<Entry>, i: nat) {
    && i < |h|
    && (forall j | 0 < j < |h| && Parent(j) != i :: Leq(h[Parent(j)], h[j]))
    && (i > 0 ==> forall j | 0 < j < |h| && Parent(j) == i :: Leq(h[Parent(i)], h[j]))
  }

  lemma ExchangeBag(h: seq<Entry>, i: nat, j: nat)
    requires i < |h| && j < |h|
    ensures multiset(Exchange(h, i, j)) == multiset(h)
  {
  }

  lemma {:induction false} SiftUpHeap(h: seq<Entry>, i: nat)
    requires HoleAbove(h, i)
    ensures IsHeap(SiftUp(h, i)) && multiset(SiftUp(h, i)) == multiset(h)
    decreases i
  {
    if i > 0 && Before(h[i], h[Parent(i)]) {
      ExchangeBag(h, i, Parent(i));
      SiftUpHeap(Exchange(h, i, Parent(i)), Parent(i));
    }
  }

  /** The only edges below `i` lead to its children, and FirstChild bounds both. */
  lemma Children(h: seq<Entry>, i: nat, j: nat)
    requires 0 < j < |h| && Parent(j) == i
    ensures 2 * i + 1 < |h| && (j == 2 * i + 1 || j == 2 * i + 2) && Leq(h[FirstChild(h, i)], h[j])
  {
  }

  lemma HoleMovesDown(h: seq<Entry>, i: nat)
    requires HoleBelow(h, i) && 2 * i + 1 < |h| && Before(h[FirstChild(h, i)], h[i])
    ensures HoleBelow(Exchange(h, i, FirstChild(h, i)), FirstChild(h, i))
  {
    var c := FirstChild(h, i);
    var g := Exchange(h, i, c);
    assert Parent(c) == i;
    forall j | 0 < j < |g| && Parent(j) != c
      ensures Leq(g[Parent(j)], g[j])
    {
      if Parent(j) == i {
        Children(h, i, j);
      } else if j == i {
        assert Leq(h[Parent(i)], h[c]);
      } else {
        assert Leq(h[Parent(j)], h[j]);
      }
    }
    forall j | 0 < j < |g| && Parent(j) == c
      ensures Leq(g[Parent(c)], g[j])
    {
      assert Leq(h[c], h[j]);
    }
  }

  lemma {:induction false} SiftDownHeap(h: seq<Entry>, i: nat)
    requires HoleBelow(h, i)
    ensures IsHeap(SiftDown(h, i)) && multiset(SiftDown(h, i)) == multiset(h)
    decreases |h| - i
  {
    if 2 * i + 1 < |h| && Before(h[FirstChild(h, i)], h[i]) {
      ExchangeBag(h, i, FirstChild(h, i));
      HoleMovesDown(h, i);
      SiftDownHeap(Exchange(h, i, FirstChild(h, i)), FirstChild(h, i));
    } else {
      forall j | 0 < j < |h| ensures Leq(h[Parent(j)], h[j]) {
        if Parent(j) == i {
          Children(h, i, j);
        }
      }
    }
  }

  lemma PushHeap(h: seq<Entry>, t: Entry)
    requires IsHeap(h)
    ensures IsHeap(Push(h, t)) && multiset(Push(h, t)) == multiset(h) + multiset{t}
  {
    assert forall j | 0 < j < |h| :: (h + [t])[Parent(j)] == h[Parent(j)];
    SiftUpHeap(h + [t], |h|);
  }

  lemma LastToRoot(h: seq<Entry>)
    requires IsHeap(h) && |h| > 1
    ensures var g := [h[|h| - 1]] + h[1..|h| - 1];
      HoleBelow(g, 0) && multiset(g) == multiset(h) - multiset{h[0]}
  {
    var last := |h| - 1;
    var g := [h[last]] + h[1..last];
    forall j | 0 < j < |g| && Parent(j) != 0
      ensures Leq(g[Parent(j)], g[j])
    {
      assert g[Parent(j)] == h[Parent(j)] && g[j] == h[j];
    }
    assert h == [h[0]] + h[1..last] + [h[last]];
  }

  lemma PopHeap(h: seq<Entry>)
    requires IsHeap(h) && h != []
    ensures IsHeap(Pop(h)) && multiset(Pop(h)) == multiset(h) - multiset{h[0]}
  {
    if |h| == 1 {
      assert h == [h[0]];
    } else {
      LastToRoot(h);
      SiftDownHeap([h[|h| - 1]] + h[1..|h| - 1], 0);
    }
  }

  /**
   * Popping takes out the root and leaves a heap, even when the root's key was
   * changed in place to anything at all just before.
   */
  lemma PopRaisedRoot(h: seq<Entry>, raised: Entry)
    requires IsHeap(h) && h != []
    ensures var g := Pop(h[0 := raised]);
      g == Pop(h) && IsHeap(g) && multiset(g) == multiset(h) - multiset{h[0]}
  {
    var last := |h| - 1;
    if last > 0 {
      assert h[0 := raised][1..last] == h[1..last];
    }
    PopHeap(h);
  }

  /** A timer that comes out later than the root never displaces it. */
  lemma {:induction false} SiftUpKeepsRoot(h: seq<Entry>, i: nat)
    requires i < |h| && (i > 0 ==> Before(h[0], h[i]))
    ensures |SiftUp(h, i)| == |h| && SiftUp(h, i)[0] == h[0]
    decreases i
  {
    if i > 0 && Before(h[i], h[Parent(i)]) {
      SiftUpKeepsRoot(Exchange(h, i, Parent(i)), Parent(i));
    }
  }
}
