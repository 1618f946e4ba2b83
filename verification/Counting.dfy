/** Chunks in another order: what does not change, and how often a position is named. */
module Counting {
  import opened TaskList

  /** A queue without its k-th item. */
  function Without(inflight: seq<Chunk>, k: nat): seq<Chunk>
    requires k < |inflight|
  {
    inflight[..k] + inflight[k + 1..]
  }

  /** The bags of all chunks together. */
  ghost function Sum<X>(bag: Chunk -> multiset<X>, q: seq<Chunk>): multiset<X> {
    if q == [] then multiset{} else bag(q[0]) + Sum(bag, q[1..])
  }

  lemma {:induction false} SumAppend<X>(bag: Chunk -> multiset<X>, a: seq<Chunk>, b: seq<Chunk>)
    ensures Sum(bag, a + b) == Sum(bag, a) + Sum(bag, b)
  {
    if a == [] {
      assert a + b == b;
    } else {
      assert (a + b)[1..] == a[1..] + b;
      SumAppend(bag, a[1..], b);
    }
  }

  lemma SumOne<X>(bag: Chunk -> multiset<X>, c: Chunk)
    ensures Sum(bag, [c]) == bag(c)
  {
    assert [c][1..] == [];
  }

  lemma {:induction false} TakeOut<X>(bag: Chunk -> multiset<X>, q: seq<Chunk>, k: nat)
    requires k < |q|
    ensures multiset(q) == multiset{q[k]} + multiset(Without(q, k))
    ensures Sum(bag, q) == bag(q[k]) + Sum(bag, Without(q, k))
  {
    var a, b := q[..k], q[k + 1..];
    assert q == (a + [q[k]]) + b;
    SumAppend(bag, a + [q[k]], b);
    SumAppend(bag, a, [q[k]]);
    SumAppend(bag, a, b);
    SumOne(bag, q[k]);
  }

  /** The same chunks in another order have the same bags together. */
  lemma {:induction false} SumOfPermutation<X>(bag: Chunk -> multiset<X>, a: seq<Chunk>, b: seq<Chunk>)
    requires multiset(a) == multiset(b)
    ensures Sum(bag, a) == Sum(bag, b)
    decreases |a|
  {
    if a == [] {
      assert |b| == |multiset(b)| == 0;
    } else {
      assert a[0] in multiset(b);
      var k :| 0 <= k < |b| && b[k] == a[0];
      TakeOut(bag, a, 0);
      TakeOut(bag, b, k);
      assert multiset(Without(a, 0)) == multiset(a) - multiset{a[0]};
      assert multiset(Without(b, k)) == multiset(b) - multiset{b[k]};
      SumOfPermutation(bag, Without(a, 0), Without(b, k));
    }
  }

  lemma WithoutPermutes(front: seq<Chunk>, q: seq<Chunk>, k: nat)
    requires k < |q|
    ensures multiset((front + [q[k]]) + Without(q, k)) == multiset(front + q)
  {
    assert q == q[..k] + [q[k]] + q[k + 1..];
  }

  /** What a chunk stands for, as a bag. */
  function CellBag(c: Chunk): multiset<Cell> {
    multiset(Cells(c))
  }

  lemma {:induction false} DenoteBag(q: seq<Chunk>)
    ensures multiset(Denote(q)) == Sum(CellBag, q)
  {
    if q != [] {
      DenoteBag(q[1..]);
    }
  }

  /** How often a queue stands for an archive position. */
  function Count(q: seq<Chunk>, p: int): nat {
    multiset(Denote(q))[At(p)]
  }

  predicate Covers(c: Chunk, p: int) {
    c.FileChunk? && c.start <= p < c.start + c.length
  }

  lemma {:induction false} RangeHasEachOnce(start: int, length: nat, p: int)
    ensures multiset(Range(start, length))[At(p)] == if start <= p < start + length then 1 else 0
    decreases length
  {
    if length != 0 {
      RangeHasEachOnce(start, length - 1, p);
      RangeAppend(start, length - 1, 1);
      assert Range(start + (length - 1), 1) == [At(start + length - 1)];
    }
  }

  lemma CountOne(c: Chunk, p: int)
    ensures Count([c], p) == if Covers(c, p) then 1 else 0
  {
    DenoteOne(c);
    match c {
      case FileChunk(start, length) =>
        RangeHasEachOnce(start, length, p);
      case RAMChunk(data) =>
        assert At(p) !in Cells(c);
    }
  }

  lemma CountAppend(q: seq<Chunk>, c: Chunk, p: int)
    ensures Count(q + [c], p) == Count(q, p) + if Covers(c, p) then 1 else 0
  {
    DenoteAppend(q, [c]);
    CountOne(c, p);
  }

  lemma CountOfPermutation(a: seq<Chunk>, b: seq<Chunk>, p: int)
    requires multiset(a) == multiset(b)
    ensures Count(a, p) == Count(b, p)
  {
    SumOfPermutation(CellBag, a, b);
    DenoteBag(a);
    DenoteBag(b);
  }
}
