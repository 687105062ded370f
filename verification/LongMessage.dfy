/**
 Long active messages: one message is cut into LONG or HUGE packets, each with
 its offset in the destination; the receiver stores every packet and runs the
 handler on the last one.
 */
module LongMessage {
  import opened Basics

  const HUGE_BYTES := 1024 * 1024
  const BULK_HEADER := 40
  const LONG_MTU := 8192 - BULK_HEADER
  const HUGE_MTU := 524288
  const TWO32 := 0x1_0000_0000

  datatype Form = Long | LongEnd | Huge | HugeEnd

  /** A bulk packet together with the type of the short packet that names it. */
  datatype Fragment = Fragment(form: Form, off: nat, bytes: seq<Byte>)

  function End(f: Fragment): nat { f.off + |f.bytes| }

  predicate Last(f: Fragment) { f.form.LongEnd? || f.form.HugeEnd? }

  predicate IsHuge(f: Fragment) { f.form.Huge? || f.form.HugeEnd? }

  /** Fragments cover `src` from 0 on without gap or overlap. */
  ghost predicate Covers(fs: seq<Fragment>, src: seq<Byte>) {
    && (forall i :: 0 <= i < |fs| ==>
            fs[i].bytes != [] && End(fs[i]) <= |src| && fs[i].bytes == src[fs[i].off..End(fs[i])])
    && (forall i :: 0 <= i < |fs| ==> fs[i].off == if i == 0 then 0 else End(fs[i - 1]))
  }

  /** They cover all of it, and the last one and only that is marked as the end. */
  ghost predicate Tiles(fs: seq<Fragment>, src: seq<Byte>) {
    && Covers(fs, src)
    && (if fs == [] then src == [] else End(fs[|fs| - 1]) == |src|)
    && (forall i :: 0 <= i < |fs| ==> (Last(fs[i]) <==> i == |fs| - 1))
  }

  function Mtu(huge: bool): nat { if huge then HUGE_MTU else LONG_MTU }

  /** A fragment as the sender makes it: full unless it reaches the end, marked if it does. */
  ghost predicate WellCut(f: Fragment, src: seq<Byte>) {
    var huge := |src| >= HUGE_BYTES;
    && IsHuge(f) == huge && |f.bytes| <= Mtu(huge)
    && (if End(f) == |src| then Last(f) else !Last(f) && |f.bytes| == Mtu(huge))
  }

  /** LONG packets of messages below 1 MB, 8 KB each with the header; HUGE ones of 512 KB from there on. */
  predicate FitsSlot(f: Fragment, len: nat) {
    if len < 0x10_0000 then !IsHuge(f) && |f.bytes| + BULK_HEADER <= 8192 else IsHuge(f) && |f.bytes| <= 0x8_0000
  }

  /** Only the last of the fragments that cover a message reaches its end. */
  lemma EndsLast(fs: seq<Fragment>, src: seq<Byte>, i: nat)
    requires Covers(fs, src) && i + 1 < |fs|
    ensures End(fs[i]) < |src|
  {
    assert fs[i + 1].off == End(fs[i]) && fs[i + 1].bytes != [] && End(fs[i + 1]) <= |src|;
  }

  lemma CoversMore(fs: seq<Fragment>, src: seq<Byte>, f: Fragment)
    requires Covers(fs, src) && f.bytes != [] && End(f) <= |src| && f.bytes == src[f.off..End(f)]
    requires f.off == if fs == [] then 0 else End(fs[|fs| - 1])
    ensures Covers(fs + [f], src)
  {
  }

  /** The sending loop. */
  method SendLong(src: seq<Byte>) returns (fs: seq<Fragment>)
    requires |src| < TWO32
    ensures Tiles(fs, src) && forall i :: 0 <= i < |fs| ==> WellCut(fs[i], src)
    ensures forall i :: 0 <= i < |fs| ==> FitsSlot(fs[i], |src|)
  {
    var bytesLeft, off := |src|, 0;
    var form := if bytesLeft >= HUGE_BYTES then Huge else Long;
    var mtu := if form.Huge? then HUGE_MTU else LONG_MTU;
    fs := [];
    while bytesLeft > 0
      invariant off + bytesLeft == |src| && Covers(fs, src) && off == (if fs == [] then 0 else End(fs[|fs| - 1]))
      invariant bytesLeft > 0 ==> form == if |src| >= HUGE_BYTES then Huge else Long
      invariant forall i :: 0 <= i < |fs| ==> WellCut(fs[i], src)
    {
      var bytesThis := Min(bytesLeft, mtu);
      bytesLeft := bytesLeft - bytesThis;
      if bytesLeft == 0 { form := if form.Huge? then HugeEnd else LongEnd; }
      var f := Fragment(form, off, src[off..off + bytesThis]);
      CoversMore(fs, src, f);
      assert WellCut(f, src);
      fs, off := fs + [f], off + bytesThis;
    }
    forall i | 0 <= i < |fs| ensures Last(fs[i]) <==> i == |fs| - 1 {
      assert WellCut(fs[i], src);
      if i + 1 < |fs| { EndsLast(fs, src, i); }
    }
  }

  // ---- the receiving process ----------------------------------------------------------

  /** A handler run: for which destination, with what length. */
  datatype Ran = Ran(dest: nat, len: nat)

  class Target {
    const mem: array<Byte>
    var runs: seq<Ran>

    constructor (m: array<Byte>)
      ensures mem == m && runs == []
    {
      mem := m;
      runs := [];
    }

    /** One bulk packet: store it, and run the handler on the last one. */
    method Process(dest: nat, f: Fragment)
      requires dest + End(f) <= mem.Length
      modifies mem, this`runs
      ensures mem[..] == Overwrite(old(mem[..]), dest + f.off, f.bytes)
      ensures runs == old(runs) + if Last(f) then [Ran(dest, End(f))] else []
    {
      var base := dest + f.off;
      for k := 0 to |f.bytes|
        invariant runs == old(runs)
        invariant forall a :: 0 <= a < mem.Length ==>
                    mem[a] == if base <= a < base + k then f.bytes[a - base] else old(mem[a])
      {
        mem[base + k] := f.bytes[k];
      }
      runs := runs + if Last(f) then [Ran(dest, End(f))] else [];
      assert mem[..] == Overwrite(old(mem[..]), base, f.bytes);
    }
  }

  // ---- any interleaving of several messages --------------------------------------------

  datatype Transfer = Transfer(dest: nat, src: seq<Byte>, frags: seq<Fragment>)

  /** `pos` counts the packets of each transfer that have been processed. */
  datatype World = World(mem: seq<Byte>, pos: seq<nat>, runs: seq<Ran>)

  ghost predicate Apart(ts: seq<Transfer>, size: nat) {
    && (forall m :: 0 <= m < |ts| ==> ts[m].dest + |ts[m].src| <= size && Tiles(ts[m].frags, ts[m].src))
    && (forall m, n :: 0 <= m < |ts| && 0 <= n < |ts| && m != n && ts[m].src != [] && ts[n].src != [] ==>
          ts[m].dest + |ts[m].src| <= ts[n].dest || ts[n].dest + |ts[n].src| <= ts[m].dest)
  }

  ghost predicate CanProcess(ts: seq<Transfer>, w: World, m: nat) {
    && m < |ts| == |w.pos| && w.pos[m] < |ts[m].frags|
    && ts[m].dest + End(ts[m].frags[w.pos[m]]) <= |w.mem|
  }

  /** What Target.Process does for the next packet of transfer m. */
  ghost function Next(ts: seq<Transfer>, w: World, m: nat): World
    requires CanProcess(ts, w, m)
  {
    var t, f := ts[m], ts[m].frags[w.pos[m]];
    World(Overwrite(w.mem, t.dest + f.off, f.bytes), w.pos[m := w.pos[m] + 1],
          w.runs + if Last(f) then [Ran(t.dest, End(f))] else [])
  }

  ghost predicate CanRun(ts: seq<Transfer>, w: World, order: seq<nat>)
    decreases |order|
  {
    order == [] || (CanProcess(ts, w, order[0]) && CanRun(ts, Next(ts, w, order[0]), order[1..]))
  }

  ghost function RunAll(ts: seq<Transfer>, w: World, order: seq<nat>): World
    requires CanRun(ts, w, order)
    decreases |order|
  {
    if order == [] then w else RunAll(ts, Next(ts, w, order[0]), order[1..])
  }

  ghost function Arrived(t: Transfer, k: nat): nat
    requires k <= |t.frags|
  {
    if k == 0 then 0 else End(t.frags[k - 1])
  }

  ghost predicate Within(t: Transfer, k: nat, a: nat)
    requires k <= |t.frags|
  {
    t.dest <= a < t.dest + Arrived(t, k)
  }

  ghost predicate Positions(ts: seq<Transfer>, w: World) {
    |w.pos| == |ts| && forall m :: 0 <= m < |ts| ==> w.pos[m] <= |ts[m].frags|
  }

  /** Address a is in no fragment processed so far. */
  ghost predicate Spared(ts: seq<Transfer>, w: World, a: nat)
    requires Positions(ts, w)
  {
    forall m :: 0 <= m < |ts| ==> !Within(ts[m], w.pos[m], a)
  }

  /** If address a belongs to a processed fragment of t, it holds that byte of the source. */
  ghost predicate Placed(t: Transfer, k: nat, mem: seq<Byte>, a: nat)
    requires k <= |t.frags| && a < |mem|
  {
    Within(t, k, a) ==> a - t.dest < |t.src| && mem[a] == t.src[a - t.dest]
  }

  /** Memory holds exactly the fragments processed so far, over the original contents. */
  ghost predicate MemOk(ts: seq<Transfer>, w: World, mem0: seq<Byte>)
    requires Positions(ts, w)
  {
    && |w.mem| == |mem0|
    && (forall m: nat, a: nat {:trigger Placed(ts[m], w.pos[m], w.mem, a)} :: m < |ts| && a < |w.mem| ==>
            Placed(ts[m], w.pos[m], w.mem, a))
    && (forall a: nat {:trigger Spared(ts, w, a)} :: a < |w.mem| && Spared(ts, w, a) ==> w.mem[a] == mem0[a])
  }

  /** The finished transfers, in some order, are the handler runs. */
  ghost predicate RunsOk(ts: seq<Transfer>, w: World)
    requires Positions(ts, w)
  {
    && (forall m :: 0 <= m < |ts| && ts[m].src != [] ==>
          (w.pos[m] == |ts[m].frags| <==> Ran(ts[m].dest, |ts[m].src|) in w.runs))
    && (forall i :: 0 <= i < |w.runs| ==>
            exists m :: 0 <= m < |ts| && ts[m].src != [] && w.runs[i] == Ran(ts[m].dest, |ts[m].src|))
    && (forall i, j :: 0 <= i < j < |w.runs| ==> w.runs[i] != w.runs[j])
  }

  lemma ArrivedBound(t: Transfer, k: nat)
    requires Tiles(t.frags, t.src) && k <= |t.frags|
    ensures Arrived(t, k) <= |t.src| && (Arrived(t, k) == |t.src| <==> k == |t.frags|)
    ensures k < |t.frags| ==> t.frags[k].off == Arrived(t, k) < End(t.frags[k]) == Arrived(t, k + 1)
  {
    if k < |t.frags| { assert t.frags[k].bytes != [] && End(t.frags[k]) <= |t.src|; }
    if k > 0 { assert End(t.frags[k - 1]) <= |t.src|; }
  }

  /** Storing its next packet places its bytes and keeps those that were placed. */
  lemma StoreHolds(t: Transfer, k: nat, mem: seq<Byte>, a: nat)
    requires Tiles(t.frags, t.src) && k < |t.frags| && t.dest + End(t.frags[k]) <= |mem| && a < |mem|
    requires Placed(t, k, mem, a)
    ensures Placed(t, k + 1, Overwrite(mem, t.dest + t.frags[k].off, t.frags[k].bytes), a)
  {
    ArrivedBound(t, k);
    var f := t.frags[k];
    if f.off <= a - t.dest < End(f) { assert f.bytes[a - t.dest - f.off] == t.src[f.off..End(f)][a - t.dest - f.off]; }
  }

  /** Transfer n keeps what it has when a packet of transfer m is stored. */
  lemma NextHolds(ts: seq<Transfer>, w: World, m: nat, n: nat, a: nat)
    requires Apart(ts, |w.mem|) && CanProcess(ts, w, m) && Positions(ts, w) && n < |ts| && a < |w.mem|
    requires Placed(ts[n], w.pos[n], w.mem, a)
    ensures Placed(ts[n], Next(ts, w, m).pos[n], Next(ts, w, m).mem, a)
  {
    if n == m {
      StoreHolds(ts[m], w.pos[m], w.mem, a);
    } else {
      ArrivedBound(ts[m], w.pos[m]);
      ArrivedBound(ts[n], w.pos[n]);
    }
  }

  lemma NextMem(ts: seq<Transfer>, w: World, m: nat, mem0: seq<Byte>)
    requires Apart(ts, |w.mem|) && CanProcess(ts, w, m) && Positions(ts, w) && MemOk(ts, w, mem0)
    ensures Positions(ts, Next(ts, w, m)) && MemOk(ts, Next(ts, w, m), mem0)
  {
    var w' := Next(ts, w, m);
    forall n: nat, a: nat {:trigger Placed(ts[n], w'.pos[n], w'.mem, a)} | n < |ts| && a < |w'.mem|
      ensures Placed(ts[n], w'.pos[n], w'.mem, a)
    {
      assert Placed(ts[n], w.pos[n], w.mem, a);
      NextHolds(ts, w, m, n, a);
    }
    forall a: nat | a < |w'.mem| && Spared(ts, w', a) ensures w'.mem[a] == mem0[a] {
      NextSpares(ts, w, m, a);
    }
  }

  lemma NextSpares(ts: seq<Transfer>, w: World, m: nat, a: nat)
    requires Apart(ts, |w.mem|) && CanProcess(ts, w, m) && Positions(ts, w) && a < |w.mem|
    requires Positions(ts, Next(ts, w, m)) && Spared(ts, Next(ts, w, m), a)
    ensures Next(ts, w, m).mem[a] == w.mem[a] && Spared(ts, w, a)
  {
  }

  lemma NextRuns(ts: seq<Transfer>, w: World, m: nat)
    requires Apart(ts, |w.mem|) && CanProcess(ts, w, m) && Positions(ts, w) && RunsOk(ts, w)
    ensures Positions(ts, Next(ts, w, m)) && RunsOk(ts, Next(ts, w, m))
  {
  }

  lemma {:induction false} RunAllKeeps(ts: seq<Transfer>, w: World, order: seq<nat>, mem0: seq<Byte>)
    requires Apart(ts, |w.mem|) && CanRun(ts, w, order) && Positions(ts, w) && MemOk(ts, w, mem0) && RunsOk(ts, w)
    ensures var w' := RunAll(ts, w, order); Positions(ts, w') && MemOk(ts, w', mem0) && RunsOk(ts, w')
    decreases |order|
  {
    if order != [] {
      NextMem(ts, w, order[0], mem0);
      NextRuns(ts, w, order[0]);
      RunAllKeeps(ts, Next(ts, w, order[0]), order[1..], mem0);
    }
  }

  ghost function Begin(ts: seq<Transfer>, mem0: seq<Byte>): World { World(mem0, seq(|ts|, _ => 0), []) }

  ghost predicate AllDone(ts: seq<Transfer>, w: World)
    requires |w.pos| == |ts|
  {
    forall m :: 0 <= m < |ts| ==> w.pos[m] == |ts[m].frags|
  }

  ghost predicate Untouched(ts: seq<Transfer>, a: nat) {
    forall m :: 0 <= m < |ts| ==> !(ts[m].dest <= a < ts[m].dest + |ts[m].src|)
  }

  /** Whatever the interleaving, each destination ends up with its source and nothing else changes. */
  lemma EachArrivesWhole(ts: seq<Transfer>, mem0: seq<Byte>, order: seq<nat>)
    requires Apart(ts, |mem0|) && CanRun(ts, Begin(ts, mem0), order)
    requires |RunAll(ts, Begin(ts, mem0), order).pos| == |ts| && AllDone(ts, RunAll(ts, Begin(ts, mem0), order))
    ensures var w := RunAll(ts, Begin(ts, mem0), order);
            && |w.mem| == |mem0|
            && (forall m :: 0 <= m < |ts| ==> w.mem[ts[m].dest..ts[m].dest + |ts[m].src|] == ts[m].src)
            && (forall a :: 0 <= a < |mem0| && Untouched(ts, a) ==> w.mem[a] == mem0[a])
  {
    BeginOk(ts, mem0);
    RunAllKeeps(ts, Begin(ts, mem0), order, mem0);
    DoneMem(ts, RunAll(ts, Begin(ts, mem0), order), mem0);
  }

  lemma DoneMem(ts: seq<Transfer>, w: World, mem0: seq<Byte>)
    requires Apart(ts, |mem0|) && Positions(ts, w) && MemOk(ts, w, mem0) && AllDone(ts, w)
    ensures forall m :: 0 <= m < |ts| ==> w.mem[ts[m].dest..ts[m].dest + |ts[m].src|] == ts[m].src
    ensures forall a :: 0 <= a < |mem0| && Untouched(ts, a) ==> w.mem[a] == mem0[a]
  {
    forall m | 0 <= m < |ts| ensures w.mem[ts[m].dest..ts[m].dest + |ts[m].src|] == ts[m].src {
      ArrivedBound(ts[m], w.pos[m]);
      forall i | 0 <= i < |ts[m].src| ensures w.mem[ts[m].dest + i] == ts[m].src[i] {
        assert Placed(ts[m], w.pos[m], w.mem, ts[m].dest + i) && Within(ts[m], w.pos[m], ts[m].dest + i);
      }
    }
    forall a | 0 <= a < |mem0| && Untouched(ts, a) ensures w.mem[a] == mem0[a] {
      forall m | 0 <= m < |ts| ensures !Within(ts[m], w.pos[m], a) { ArrivedBound(ts[m], w.pos[m]); }
      assert Spared(ts, w, a);
    }
  }

  /** At every moment a handler has run once, with the full length, for each complete message, and for no other. */
  lemma HandlerRunsOnce(ts: seq<Transfer>, mem0: seq<Byte>, order: seq<nat>, m: nat)
    requires Apart(ts, |mem0|) && CanRun(ts, Begin(ts, mem0), order) && m < |ts| && ts[m].src != []
    ensures var w := RunAll(ts, Begin(ts, mem0), order);
            && |w.pos| == |ts|
            && (w.pos[m] == |ts[m].frags| <==> Ran(ts[m].dest, |ts[m].src|) in w.runs)
            && (forall i, j :: 0 <= i < j < |w.runs| ==> w.runs[i] != w.runs[j])
            && (forall i :: 0 <= i < |w.runs| ==>
                    exists n :: 0 <= n < |ts| && ts[n].src != [] && w.runs[i] == Ran(ts[n].dest, |ts[n].src|))
  {
    BeginOk(ts, mem0);
    RunAllKeeps(ts, Begin(ts, mem0), order, mem0);
  }

  lemma BeginOk(ts: seq<Transfer>, mem0: seq<Byte>)
    requires Apart(ts, |mem0|)
    ensures Positions(ts, Begin(ts, mem0)) && RunsOk(ts, Begin(ts, mem0)) && MemOk(ts, Begin(ts, mem0), mem0)
  {
  }
}
