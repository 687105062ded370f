/**
 Communication indexes: a growing table of endpoints in which the index given
 out is the table index shifted, modulo 2^16, by a base chosen at start-up.
 */
module EpState {
  import opened Basics

  const CHUNK := 128
  const TWO16 := 65536
  const COMMIDX_MAX := 65535

  datatype Code = Ok | NoMemory | TooMany

  /** What reading a cell of the table comes to; `Outside` is a read past the memory of the table. */
  datatype Access = Nothing | Found(cell: Cell) | Outside

  /** epid 0 marks a free cell. */
  datatype Cell = Cell(epid: nat, addr: nat)

  const FREE := Cell(0, 0)

  // ---- 16-bit index arithmetic ------------------------------------------------------------

  function ToCommIdx(j: nat, base: nat): (c: nat)
    requires base < TWO16
    ensures c < TWO16
  {
    (j + TWO16 - base) % TWO16
  }

  function ToTableIdx(c: nat, base: nat): (j: nat)
    ensures j < TWO16
  {
    (c + base) % TWO16
  }

  /** The two conversions undo each other on 16-bit indexes. */
  lemma IndexRoundTrip(j: nat, base: nat)
    requires j < TWO16 && base < TWO16
    ensures ToTableIdx(ToCommIdx(j, base), base) == j && ToCommIdx(ToTableIdx(j, base), base) == j
    ensures (ToCommIdx(j, base) + base) % TWO16 == j
  {
  }

  // ---- occupancy ----------------------------------------------------------------------------

  predicate Taken(x: Cell) { x.epid != 0 }

  function Occupied(tab: seq<Cell>): nat { Count(tab, Taken) }

  /** Every index given out and not taken back leads to its endpoint. */
  ghost predicate Leads(tab: seq<Cell>, base: nat, given: map<nat, Cell>) {
    forall c :: c in given ==>
      && c < TWO16 && given[c].epid != 0
      && ToTableIdx(c, base) < |tab| && ToTableIdx(c, base) < COMMIDX_MAX && tab[ToTableIdx(c, base)] == given[c]
  }

  /** Filling a free cell disturbs no index, and yields a new one unless it lies too high. */
  lemma FillLeads(tab: seq<Cell>, base: nat, given: map<nat, Cell>, j: nat, x: Cell)
    requires Leads(tab, base, given) && base < TWO16 && j < |tab| && tab[j].epid == 0 && x.epid != 0
    ensures Leads(tab[j := x], base, given)
    ensures j < COMMIDX_MAX ==> ToCommIdx(j, base) !in given
    ensures j < COMMIDX_MAX ==> Leads(tab[j := x], base, given[ToCommIdx(j, base) := x])
  {
  }

  /** Clearing the cell of one index disturbs no other. */
  lemma ClearLeads(tab: seq<Cell>, base: nat, given: map<nat, Cell>, c: nat)
    requires Leads(tab, base, given) && base < TWO16 && c in given
    ensures Leads(tab[ToTableIdx(c, base) := FREE], base, given - {c})
  {
    forall x | x in given && x != c ensures ToTableIdx(x, base) != ToTableIdx(c, base) {
      IndexRoundTrip(x, base);
      IndexRoundTrip(c, base);
    }
  }

  /** A table with free cells behind it. */
  function Padded(cells: seq<Cell>, n: nat): (r: seq<Cell>)
    requires |cells| <= n
    ensures |r| == n
  {
    cells + seq(n - |cells|, _ => FREE)
  }

  /** Cell k is passed on the way round from `from` to j. */
  predicate Between(from: nat, k: nat, j: nat) {
    if from <= j then from <= k < j else k >= from || k < j
  }

  /** Cell j is the first free one from `from` on, going round. */
  ghost predicate FirstFree(cells: seq<Cell>, from: nat, j: nat) {
    j < |cells| && cells[j].epid == 0 && forall k :: 0 <= k < |cells| && Between(from, k, j) ==> cells[k].epid != 0
  }

  class Table {
    const base: nat
    var tab: array?<Cell>
    var tabSize: nat
    var used: nat
    var nextIdx: nat
    ghost var given: map<nat, Cell>

    constructor (base: nat)
      requires base < TWO16
      ensures Valid() && given == map[] && this.base == base && tab == null && tabSize == 0
    {
      this.base, tab, tabSize, used, nextIdx, given := base, null, 0, 0, 0, map[];
    }

    ghost function Cells(): seq<Cell>
      reads this, tab
    {
      if tab == null then [] else tab[..]
    }

    /** The fields fit together; `used` may count more than the taken cells. */
    ghost predicate InShape()
      reads this, tab
    {
      && base < TWO16 && |Cells()| == tabSize && Occupied(Cells()) <= used <= tabSize
      && (nextIdx < tabSize || nextIdx == tabSize == 0)
    }

    ghost predicate Valid()
      reads this, tab
    {
      InShape() && used == Occupied(Cells()) && Leads(Cells(), base, given)
    }

    /** Find the cell of an index; an index beyond the size finds nothing. */
    function Lookup(c: nat): (r: Access)
      requires c < TWO16
      reads this, tab
      ensures r.Outside? <==> |Cells()| <= ToTableIdx(c, base) < tabSize
      ensures Valid() && c in given ==> r == Found(given[c])
    {
      var idx := ToTableIdx(c, base);
      if idx >= tabSize then Nothing else if tab == null || idx >= tab.Length then Outside else Found(tab[idx])
    }

    /** Distinct live endpoints have distinct indexes: each cell backs one index. */
    lemma OneIndexEach(c: nat, c': nat)
      requires Valid() && c in given && c' in given && c != c'
      ensures ToTableIdx(c, base) != ToTableIdx(c', base)
    {
    }

    /** More room.  The size is raised before the memory is known to be there. */
    method Grow(canAlloc: bool) returns (ok: bool)
      requires |Cells()| == tabSize
      modifies this`tab, this`tabSize
      ensures ok == canAlloc && tabSize == old(tabSize) + CHUNK
      ensures ok ==> fresh(tab) && tab.Length == tabSize
      ensures ok ==> Occupied(tab[..]) == old(Occupied(Cells())) && tab[..] == Padded(old(Cells()), tabSize)
      ensures !ok ==> tab == old(tab)
    {
      tabSize := tabSize + CHUNK;
      if !canAlloc { return false; }
      var newTab := new Cell[tabSize](_ => FREE);
      ghost var cells := old(Cells());
      if tab != null {
        for i := 0 to tabSize - CHUNK
          invariant tabSize == old(tabSize) + CHUNK && tab == old(tab)
          invariant forall k :: 0 <= k < newTab.Length ==> newTab[k] == if k < i then cells[k] else FREE
        {
          newTab[i] := tab[i];
        }
      }
      tab := newTab;
      assert tab[..][..|cells|] == cells && tab[..] == Padded(cells, tabSize);
      CountHead(tab[..], Taken, |cells|);
      return true;
    }

    /**
     The first free cell from nextIdx on, going round.  If the size says more than
     there is, the scan reads past the table exactly if no cell from nextIdx on is
     free.
     */
    method FindHole() returns (j: nat, outside: bool)
      requires nextIdx < tabSize && |Cells()| <= tabSize && nextIdx <= |Cells()|
      requires |Cells()| == tabSize ==> Occupied(Cells()) < tabSize
      ensures outside <==>
                |Cells()| < tabSize && forall k :: nextIdx <= k < |Cells()| ==> Cells()[k].epid != 0
      ensures !outside ==> FirstFree(Cells(), nextIdx, j)
    {
      j := nextIdx;
      ghost var cells := Cells();
      for i := 0 to tabSize
        invariant j == if nextIdx + i <= tabSize then nextIdx + i else nextIdx + i - tabSize
        invariant |cells| < tabSize ==> nextIdx + i <= |cells|
        invariant forall k :: 0 <= k < |cells| && nextIdx <= k < nextIdx + i ==> cells[k].epid != 0
        invariant forall k :: 0 <= k < |cells| && k + tabSize < nextIdx + i ==> cells[k].epid != 0
      {
        if j == tabSize { j := 0; }
        if tab == null || j >= tab.Length { return j, true; }
        if tab[j].epid == 0 { return j, false; }
        j := j + 1;
      }
      CountAll(cells, Taken);
      assert false;
    }

    /**
     Give out an index.  Three things can happen: an index is given, memory for
     more cells is not to be had, or the table index is too big.  In the last
     case the cell stays occupied although no index was given.  The table is in
     order afterwards if and only if there was memory and the packed epid, which
     marks the cell as taken, is not zero.
     */
    method Add(epid: nat, addr: nat, canAlloc: bool) returns (code: Code, commidx: nat, ghost j: nat)
      requires InShape()
      modifies this, tab
      ensures tab == old(tab) || fresh(tab)
      ensures code == NoMemory <==> old(used) == old(tabSize) && !canAlloc
      ensures InShape() <==> code != NoMemory
      ensures old(Valid()) ==> (Valid() <==> code != NoMemory && epid != 0)
      ensures code == Ok ==> commidx == ToCommIdx(j, base) && given == old(given)[commidx := Cell(epid, addr)]
      ensures code == Ok && old(Valid()) ==> commidx !in old(given)
      ensures code != Ok ==> given == old(given)
      ensures used == old(used) + 1 && tabSize == old(tabSize) + if old(used) == old(tabSize) then CHUNK else 0
      ensures code != NoMemory ==> j < tabSize && (code == TooMany <==> j >= COMMIDX_MAX)
      ensures code != NoMemory ==> FirstFree(Padded(old(Cells()), tabSize), old(nextIdx), j)
      ensures code != NoMemory ==> Cells() == Padded(old(Cells()), tabSize)[j := Cell(epid, addr)]
      ensures nextIdx == if code == NoMemory then old(nextIdx) else if j + 1 == tabSize then 0 else j + 1
      ensures code == NoMemory ==> Cells() == old(Cells())
    {
      commidx := 0;
      var ok := MakeRoom(canAlloc);
      j := 0;
      if !ok { return NoMemory, 0, 0; }
      var hole, outside := FindHole();
      j := hole;
      nextIdx := if hole + 1 == tabSize then 0 else hole + 1;
      commidx := ToCommIdx(hole, base);
      Fill(hole, Cell(epid, addr));
      if hole >= COMMIDX_MAX { return TooMany, 0, j; }
      code, given := Ok, given[commidx := Cell(epid, addr)];
    }

    /**
     What a failed growth breaks: the size was raised over the old memory, so looking
     up the first index beyond it reads past the table, and so does the next hole scan.
     */
    method FailedGrowth(epid: nat, addr: nat) returns (code: Code, r: Access, outside: bool)
      requires Valid() && used == tabSize < TWO16
      modifies this, tab
      ensures code == NoMemory && r.Outside? && outside && !Valid()
    {
      AllTaken(Cells());
      var commidx;
      ghost var j;
      IndexRoundTrip(tabSize, base);
      var c := ToCommIdx(tabSize, base);
      code, commidx, j := Add(epid, addr, false);
      r := Lookup(c);
      var hole;
      hole, outside := FindHole();
    }

    /** Count the newcomer, and grow the table if it would not fit. */
    method MakeRoom(canAlloc: bool) returns (ok: bool)
      requires InShape()
      modifies this`tab, this`tabSize, this`used
      ensures ok <==> canAlloc || old(used) < old(tabSize)
      ensures tabSize == old(tabSize) + if old(used) == old(tabSize) then CHUNK else 0
      ensures used == old(used) + 1 && (!ok ==> tab == old(tab))
      ensures ok ==>
                && tab != null && (tab == old(tab) || fresh(tab)) && tab.Length == tabSize
                && used <= tabSize && Occupied(tab[..]) == old(Occupied(Cells())) && nextIdx < tabSize
                && tab[..] == Padded(old(Cells()), tabSize)
    {
      used := used + 1;
      ok := true;
      if used > tabSize { ok := Grow(canAlloc); } else { assert tab[..] == Padded(tab[..], tabSize); }
    }

    method Fill(j: nat, x: Cell)
      requires base < TWO16 && tab != null && j < tab.Length && tab[j].epid == 0
      modifies tab
      ensures tab[..] == old(tab[..])[j := x]
      ensures Occupied(tab[..]) == old(Occupied(tab[..])) + if x.epid != 0 then 1 else 0
      ensures old(Leads(tab[..], base, given)) && j < COMMIDX_MAX ==> ToCommIdx(j, base) !in given
      ensures old(Leads(tab[..], base, given)) && x.epid != 0 ==> Leads(tab[..], base, given)
      ensures old(Leads(tab[..], base, given)) && x.epid != 0 && j < COMMIDX_MAX ==>
                Leads(tab[..], base, given[ToCommIdx(j, base) := x])
    {
      CountUpdate(tab[..], Taken, j, x);
      if Leads(tab[..], base, given) {
        FillLeads(tab[..], base, given, j, Cell(1, 0));
        if x.epid != 0 { FillLeads(tab[..], base, given, j, x); }
      }
      ghost var cells := tab[..];
      tab[j] := x;
      assert tab[..] == cells[j := x];
    }

    method Delete(c: nat)
      requires Valid() && c in given
      modifies this`used, this`given, tab
      ensures Valid() && given == old(given) - {c}
    {
      var idx := ToTableIdx(c, base);
      CountUpdate(tab[..], Taken, idx, FREE);
      ClearLeads(tab[..], base, given, c);
      ghost var cells := tab[..];
      tab[idx] := FREE;
      assert tab[..] == cells[idx := FREE];
      used, given := used - 1, given - {c};
    }
  }

  lemma {:induction false} AllTaken(cells: seq<Cell>)
    requires Occupied(cells) == |cells|
    ensures forall k :: 0 <= k < |cells| ==> cells[k].epid != 0
  {
    if cells != [] {
      var n := |cells| - 1;
      assert Taken(cells[n]);
      AllTaken(cells[..n]);
      forall k | 0 <= k < n ensures cells[k].epid != 0 { assert cells[..n][k] == cells[k]; }
    }
  }

  /** Two endpoints enter, one leaves; the other is still found. */
  method TwoEndpoints() returns (r: Access)
    ensures r == Found(Cell(8, 80))
  {
    var t := new Table(65000);
    var code, a, b;
    ghost var j;
    code, a, j := t.Add(7, 70, true);
    assert code == Ok;
    code, b, j := t.Add(8, 80, true);
    assert code == Ok;
    t.Delete(a);
    r := t.Lookup(b);
  }

  /** A table of which every cell but one is taken, and that one was given to an endpoint whose packed epid is zero. */
  method FillAround(base: nat, addr: nat) returns (t: Table, c: nat)
    requires base < TWO16
    ensures fresh(t) && t.InShape() && t.base == base && t.tabSize == t.used == CHUNK && t.nextIdx == 0
    ensures (t.tab == null || fresh(t.tab)) && t.Cells()[0].epid == 0
    ensures c == ToCommIdx(0, base) && c in t.given && t.given[c] == Cell(0, addr)
  {
    t := new Table(base);
    var code;
    ghost var j;
    code, c, j := t.Add(0, addr, true);
    assert Padded([], CHUNK)[0] == FREE && !Between(0, 0, j);
    var i := 1;
    while i < CHUNK
      invariant fresh(t) && t.InShape() && t.base == base && t.tabSize == CHUNK && (t.tab == null || fresh(t.tab))
      invariant 1 <= i == t.used <= CHUNK && t.nextIdx == if i == CHUNK then 0 else i
      invariant t.Cells()[0].epid == 0 && forall k :: i <= k < CHUNK ==> t.Cells()[k].epid == 0
      invariant c in t.given && t.given[c] == Cell(0, addr)
    {
      ghost var cells, given := t.Cells(), t.given;
      var d;
      code, d, j := t.Add(i, i, true);
      assert Padded(cells, CHUNK) == cells;
      assert !Between(i, i, j);
      IndexRoundTrip(0, base);
      IndexRoundTrip(j, base);
      i := i + 1;
    }
  }

  /** What a packed epid of zero breaks: once the scan comes round, a second endpoint is given the same index. */
  method ZeroEpid(base: nat) returns (first: nat, second: nat, r: Access)
    requires base < TWO16
    ensures first == second && r == Found(Cell(9, 90))
  {
    var t;
    t, first := FillAround(base, 70);
    ghost var cells := t.Cells();
    var code;
    ghost var j;
    code, second, j := t.Add(9, 90, true);
    assert Padded(cells, 2 * CHUNK)[0] == cells[0] && !Between(0, 0, j);
    IndexRoundTrip(0, base);
    r := t.Lookup(first);
  }
}
