/**
 The object pool: chunks of objects, allocated on demand up to a maximum, a free
 list, and a vector of chunks through which an object is found by its index.
 */
module Mpool {
  import opened Bits
  import opened Shifts

  const TWO31 := 0x8000_0000
  const TWO32 := 0x1_0000_0000

  /** An object with its header.  `puts` counts how often it was returned. */
  class Element {
    const index: nat
    var gen: nat
    ghost var puts: nat

    constructor (i: nat)
      ensures index == i && gen == 0 && puts == 0
    {
      index, gen, puts := i, 0, 0;
    }
  }

  ghost predicate NoDup(q: seq<Element>) { forall i, j :: 0 <= i < j < |q| ==> q[i] != q[j] }

  /** A 32-bit count looks the same again after a multiple of 2^32, and only then. */
  lemma GenerationsDiffer(before: nat, after: nat)
    requires before <= after
    ensures before % TWO32 == after % TWO32 <==> (after - before) % TWO32 == 0
  {
  }

  /** The vector leads to object i by chunk number and place in the chunk. */
  ghost predicate LeadsTo(all: seq<Element>, vector: seq<seq<Element>>, perChunk: nat, i: nat)
    requires perChunk > 0 && i < |all|
  {
    && all[i].index == i && i / perChunk < |vector| && i % perChunk < |vector[i / perChunk]|
    && vector[i / perChunk][i % perChunk] == all[i]
  }

  ghost predicate Indexed(all: seq<Element>, vector: seq<seq<Element>>, perChunk: nat) {
    perChunk > 0 && forall i {:trigger all[i]} :: 0 <= i < |all| ==> LeadsTo(all, vector, perChunk, i)
  }

  /** Every object is either free or handed out, and only once. */
  ghost predicate Divided(all: seq<Element>, free: seq<Element>, out: set<Element>) {
    && NoDup(free) && |free| + |out| == |all|
    && (forall e :: e in free ==> e !in out && e in all)
    && (forall e :: e in out ==> e in all)
    && (forall e :: e in all ==> e in out || e in free)
  }

  lemma GrowIndexed(all: seq<Element>, vector: seq<seq<Element>>, perChunk: nat, chunk: seq<Element>)
    requires Indexed(all, vector, perChunk) && |all| == |vector| * perChunk && |chunk| == perChunk
    requires forall k :: 0 <= k < perChunk ==> chunk[k].index == |all| + k
    ensures Indexed(all + chunk, vector + [chunk], perChunk)
  {
    forall i | 0 <= i < |all + chunk| ensures LeadsTo(all + chunk, vector + [chunk], perChunk, i) {
      if i < |all| {
        assert all[i].index == i;
        LeadsStill(all, vector, perChunk, chunk, i);
      } else {
        LeadsNow(all, vector, perChunk, chunk, i - |all|);
      }
    }
  }

  lemma LeadsStill(all: seq<Element>, vector: seq<seq<Element>>, perChunk: nat, chunk: seq<Element>, i: nat)
    requires perChunk > 0 && i < |all| && LeadsTo(all, vector, perChunk, i)
    ensures LeadsTo(all + chunk, vector + [chunk], perChunk, i)
  {
  }

  lemma LeadsNow(all: seq<Element>, vector: seq<seq<Element>>, perChunk: nat, chunk: seq<Element>, k: nat)
    requires k < |chunk| == perChunk && |all| == |vector| * perChunk && chunk[k].index == |all| + k
    ensures LeadsTo(all + chunk, vector + [chunk], perChunk, |all| + k)
  {
    DivUnique(|all| + k, perChunk, |vector|, k);
  }

  lemma GrowDivided(all: seq<Element>, free: seq<Element>, out: set<Element>, chunk: seq<Element>, free': seq<Element>)
    requires Divided(all, free, out) && NoDup(free') && |free'| == |free| + |chunk|
    requires forall e :: e in free' <==> e in free || e in chunk
    requires forall e :: e in chunk ==> e !in all
    ensures Divided(all + chunk, free', out)
  {
  }

  class Pool {
    const perChunk: nat
    const maxTotal: nat
    const vectorShift: nat
    const vectorSize: nat
    var vector: seq<seq<Element>>
    var free: seq<Element>
    var numObj: nat
    var inUse: nat
    ghost var all: seq<Element>
    ghost var out: set<Element>

    constructor (perChunk: nat, maxTotal: nat, shift: nat)
      requires perChunk == Pow2(shift) && IsPow2(maxTotal) && perChunk <= maxTotal < TWO32
      ensures Valid() && all == [] && free == [] && out == {} && this.perChunk == perChunk && this.maxTotal == maxTotal
    {
      this.perChunk, this.maxTotal, vectorShift := perChunk, maxTotal, shift;
      vectorSize := maxTotal / perChunk;
      VectorCovers(perChunk, maxTotal);
      vector, free, numObj, inUse, all, out := [], [], 0, 0, [], {};
    }

    ghost predicate Sizes()
      reads this
    {
      && perChunk == Pow2(vectorShift) && perChunk <= maxTotal == vectorSize * perChunk && maxTotal <= TWO31
      && numObj == |all| == |vector| * perChunk && |all| <= maxTotal
    }

    ghost predicate Counted()
      reads this, all
    {
      forall i {:trigger all[i]} :: 0 <= i < |all| ==> all[i].gen == all[i].puts % TWO32
    }

    ghost predicate Valid()
      reads this, all
    {
      Sizes() && Indexed(all, vector, perChunk) && Divided(all, free, out) && |out| == inUse && Counted()
    }

    /** Find an object by its index: shift to the chunk, mask to the place. */
    method FindByIndex(index: int) returns (e: Element?)
      requires Valid()
      ensures e != null <==> 0 <= index < |all|
      ensures e != null ==> e == all[index]
    {
      if index < 0 || index >= numObj { return null; }
      ShrIsDiv(index, vectorShift);
      MaskIsMod(index, vectorShift);
      assert all[index].index == index;
      e := vector[Shr(index, vectorShift)][And(index, perChunk - 1)];
    }

    /** Index and object name each other. */
    lemma IndexOfObject(e: Element)
      requires Valid() && e in all
      ensures e.index < |all| && all[e.index] == e
    {
    }

    /**
     A pair of index and generation taken earlier: the object found at the index is
     the same, and its generation is the same if and only if the object was returned
     a multiple of 2^32 times since.
     */
    twostate lemma StaleGeneration(e: Element)
      requires old(Valid()) && Valid() && e in old(all) && old(all) <= all && e.puts >= old(e.puts)
      ensures e.index < |all| && all[e.index] == e
      ensures e.gen == old(e.gen) <==> (e.puts - old(e.puts)) % TWO32 == 0
      ensures 0 < e.puts - old(e.puts) < TWO32 ==> e.gen != old(e.gen)
    {
      IndexOfObject(e);
      GenerationsDiffer(old(e.puts), e.puts);
      assert old(e.gen) == old(e.puts) % TWO32 by {
        ghost var i :| 0 <= i < |old(all)| && old(all)[i] == e;
        assert old(all[i].gen == all[i].puts % TWO32);
      }
    }

    /** Return an object.  `wake` asks for the callback that tells users memory is available again. */
    method Put(e: Element) returns (wake: bool)
      requires Valid() && e in out
      modifies this`free, this`inUse, this`out, e`gen, e`puts
      ensures Valid() && out == old(out) - {e} && free == [e] + old(free) && all == old(all)
      ensures e.puts == old(e.puts) + 1 && e.gen != old(e.gen)
      ensures wake <==> |old(out)| == maxTotal
    {
      e.gen, e.puts := (e.gen + 1) % TWO32, e.puts + 1;
      GenerationsDiffer(e.puts - 1, e.puts);
      NextGeneration(e.puts - 1);
      wake := inUse == maxTotal;
      free := [e] + free;
      inUse, out := inUse - 1, out - {e};
    }

    lemma NextGeneration(n: nat)
      ensures (n % TWO32 + 1) % TWO32 == (n + 1) % TWO32
    {
    }

    /** Make the objects of one chunk and put them on the free list. */
    method FillChunk() returns (chunk: seq<Element>)
      modifies this`free
      ensures |chunk| == perChunk && |free| == |old(free)| + perChunk
      ensures forall k :: 0 <= k < perChunk ==>
                fresh(chunk[k]) && chunk[k].index == numObj + k && chunk[k].gen == chunk[k].puts == 0
      ensures forall e :: e in free <==> e in old(free) || e in chunk
      ensures NoDup(old(free)) ==> NoDup(free)
    {
      chunk := [];
      for i := 0 to perChunk
        invariant |chunk| == i && |free| == |old(free)| + i
        invariant forall k :: 0 <= k < i ==>
                    fresh(chunk[k]) && chunk[k].index == numObj + k && chunk[k].gen == chunk[k].puts == 0
        invariant forall e :: e in free <==> e in old(free) || e in chunk
        invariant NoDup(old(free)) ==> NoDup(free)
      {
        var e := new Element(numObj + i);
        chunk := chunk + [e];
        free := [e] + free;
      }
    }

    /**
     One more chunk, if it fits.  The sum in the test has 32 bits.  For one chunk of
     2^31 objects, all of them there, it comes to zero: the test passes, and the chunk
     is entered behind the end of the vector.  That write is where `fault` stops.
     */
    method AllocateChunk(canAlloc: bool) returns (ok: bool, fault: bool)
      requires Valid()
      modifies this`vector, this`free, this`numObj, this`all
      ensures Valid() && (ok <==> canAlloc && |old(all)| + perChunk <= maxTotal)
      ensures fault <==> canAlloc && |old(all)| == perChunk == maxTotal == TWO31
      ensures ok ==> free != [] && old(all) <= all && |all| == |old(all)| + perChunk && fresh(all[|old(all)|..])
      ensures !ok ==> all == old(all) && free == old(free)
    {
      Sum32(numObj, perChunk, maxTotal);
      VectorFull();
      if (numObj + perChunk) % TWO32 > maxTotal || !canAlloc { return false, false; }
      if |vector| == vectorSize { return false, true; }
      AddChunk();
      return true, false;
    }

    method AddChunk()
      requires Valid() && |all| + perChunk <= maxTotal
      modifies this`vector, this`free, this`numObj, this`all
      ensures Valid() && free != [] && |all| == |old(all)| + perChunk
      ensures old(all) <= all && fresh(all[|old(all)|..])
    {
      var chunk := FillChunk();
      GrowIndexed(all, vector, perChunk, chunk);
      GrowDivided(all, old(free), out, chunk, free);
      EnterChunk(chunk);
    }

    /** The vector has room exactly for the chunks that fit below the maximum. */
    lemma VectorFull()
      requires Sizes()
      ensures |all| + perChunk <= maxTotal <==> |vector| < vectorSize
      ensures |vector| <= vectorSize && (|vector| == vectorSize <==> |all| == maxTotal)
    {
      if |vector| < vectorSize { MulGap(vectorSize, |vector|, perChunk); }
      if |vector| > vectorSize { MulGap(|vector|, vectorSize, perChunk); }
    }

    /** The chunk becomes part of the pool. */
    method EnterChunk(chunk: seq<Element>)
      requires Sizes() && |all| + perChunk <= maxTotal && |chunk| == perChunk && |out| == inUse && Counted()
      requires Indexed(all + chunk, vector + [chunk], perChunk) && Divided(all + chunk, free, out)
      requires forall k :: 0 <= k < perChunk ==> chunk[k].gen == chunk[k].puts == 0
      modifies this`vector, this`numObj, this`all
      ensures Valid() && all == old(all) + chunk
    {
      OneMore(|vector|, perChunk);
      vector, numObj, all := vector + [chunk], numObj + perChunk, all + chunk;
    }

    /**
     Hand out an object.  With memory to be had this fails exactly when the maximum is
     in use; with a single chunk of 2^31 objects it then goes wrong (`fault`).
     */
    method Get(canAlloc: bool) returns (e: Element?, fault: bool)
      requires Valid()
      modifies this
      ensures Valid() && old(all) <= all && old(out) <= out && fresh(all[|old(all)|..])
      ensures e != null ==> e in all && e !in old(out) && out == old(out) + {e}
      ensures e == null ==> out == old(out) && all == old(all)
      ensures canAlloc ==> (e == null <==> |old(out)| == maxTotal)
      ensures e == null ==> |old(out)| == |old(all)|
      ensures fault <==> canAlloc && |old(out)| == perChunk == maxTotal == TWO31
      ensures old(free) != [] ==> e == old(free)[0] && free == old(free)[1..] && all == old(all)
    {
      fault := false;
      if free == [] {
        var ok;
        ok, fault := AllocateChunk(canAlloc);
        if !ok {
          VectorFull();
          return null, fault;
        }
      }
      e := Pop();
    }

    /** Hand out the object at the head of the free list. */
    method Pop() returns (e: Element)
      requires Valid() && free != []
      modifies this`free, this`inUse, this`out
      ensures Valid() && e in all && e !in old(out) && out == old(out) + {e}
      ensures e == old(free)[0] && free == old(free)[1..]
    {
      e := free[0];
      free := free[1..];
      inUse, out := inUse + 1, out + {e};
    }
  }

  /** A power of two below 2^32 is at most 2^31, and a smaller one divides it. */
  lemma VectorCovers(perChunk: nat, maxTotal: nat)
    requires IsPow2(perChunk) && IsPow2(maxTotal) && perChunk <= maxTotal < TWO32
    ensures maxTotal <= TWO31 && maxTotal / perChunk * perChunk == maxTotal
  {
    var k := Pow2Divides(perChunk, maxTotal);
    DivUnique(maxTotal, perChunk, k, 0);
    Pow31();
    var s: nat :| maxTotal == Pow2(s);
    if s > 31 { Pow2Grows(32, s); } else { Pow2Grows(s, 31); }
  }

  lemma Pow31()
    ensures Pow2(31) == TWO31 && Pow2(32) == TWO32
  {
    assert Pow2(8) == 256;
    Pow2Sum(8, 8);
    Pow2Sum(16, 15);
    Pow2Sum(16, 16);
    assert Pow2(15) * 2 == Pow2(16);
  }

  lemma OneMore(n: nat, d: nat)
    ensures (n + 1) * d == n * d + d
  {
  }

  /** A sum of two numbers up to 2^31 keeps its value in 32 bits, unless both are 2^31. */
  lemma Sum32(a: nat, b: nat, max: nat)
    requires a <= max <= TWO31 && b <= max
    ensures (a + b) % TWO32 == if a == b == TWO31 then 0 else a + b
  {
  }

  /** The shift that takes an index to its chunk number. */
  method VectorShift(perChunk: nat) returns (shift: nat)
    requires IsPow2(perChunk)
    ensures Pow2(shift) == perChunk
  {
    ghost var n: nat :| perChunk == Pow2(n);
    shift := 0;
    var s := 1;
    while s < perChunk
      invariant s == Pow2(shift) && shift <= n
      decreases perChunk - s
    {
      if shift == n { assert false; }
      s, shift := 2 * s, shift + 1;
    }
    Pow2Grows(shift, n);
  }

  /**
   A pool with its first chunk, if both sizes are powers of two, in order, and
   memory is to be had.  The test lets zero through, and the division by the size
   of a chunk then fails: `fault`.
   */
  method Create(perChunk: nat, maxTotal: nat, canAlloc: bool) returns (p: Pool?, fault: bool)
    requires perChunk < TWO32 && maxTotal < TWO32
    ensures fault <==> perChunk == 0 && (maxTotal == 0 || IsPow2(maxTotal)) && canAlloc
    ensures p != null <==> IsPow2(perChunk) && IsPow2(maxTotal) && perChunk <= maxTotal && canAlloc
    ensures p != null ==> fresh(p) && p.Valid() && p.perChunk == perChunk && p.maxTotal == maxTotal
    ensures p != null ==> |p.all| == perChunk && p.out == {} && fresh(p.all)
  {
    p, fault := null, false;
    PowerOfTwoTest(perChunk);
    PowerOfTwoTest(maxTotal);
    if !PowerOfTwo(perChunk) || !PowerOfTwo(maxTotal) || maxTotal < perChunk { return; }
    if !canAlloc { return; }
    if perChunk == 0 { return null, true; }
    var shift := VectorShift(perChunk);
    p := new Pool(perChunk, maxTotal, shift);
    var ok;
    ok, fault := p.AllocateChunk(canAlloc);
    assert ok && p.all[0..] == p.all;
  }

  /** Get, return, get again: the object is the same, and the old pair of index and generation no longer matches. */
  method Recycle() returns (index: nat, gen: nat, found: Element?)
    ensures found != null && found.index == index && found.gen != gen
  {
    assert IsPow2(2) && IsPow2(4) by { assert 2 == Pow2(1) && 4 == Pow2(2); }
    var p, fault := Create(2, 4, true);
    var e;
    e, fault := p.Get(true);
    index, gen := e.index, e.gen;
    var wake := p.Put(e);
    var again;
    again, fault := p.Get(true);
    assert !wake && again == e;
    p.IndexOfObject(e);
    found := p.FindByIndex(index);
  }

  /** A pool of one chunk of 2^31 objects, used up: the next request writes behind the vector. */
  method Overflow() returns (fault: bool)
    ensures fault
  {
    Pow31();
    var p;
    p, fault := Create(TWO31, TWO31, true);
    ghost var all := p.all;
    while p.inUse < TWO31
      invariant p.Valid() && p.all == all
      decreases TWO31 - |p.out|
    {
      var e;
      assert p.free != [];
      e, fault := p.Get(true);
    }
    var e;
    e, fault := p.Get(true);
  }
}
