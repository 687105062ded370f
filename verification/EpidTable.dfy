/**
 The global endpoint table: open addressing with linear probing, tombstones and
 growth by rehashing.  It refines a bag of entries keyed by the 64-bit hash of
 (endpoint, epid), which is all a probe compares.  Nothing keeps a key from being
 entered twice; as long as none is, the bag is a finite map and the table agrees
 with it.
 */
module EpidTable {
  import opened Basics

  const CHUNK := 128

  datatype Slot = Empty | Deleted | Live(key: nat, ep: nat, epid: nat, entry: nat)

  /** The number of slots that may be in use before the table grows: a load of 0.7. */
  function Limit(size: nat): nat { 7 * size / 10 }

  // ---- probing -------------------------------------------------------------------------

  function Home(key: nat, size: nat): (h: nat)
    requires size > 0
    ensures h < size
  {
    key % size
  }

  /** The slot reached after d steps from `home`. */
  function At(home: nat, d: nat, size: nat): (i: nat)
    requires home < size && d < size
    ensures i < size
  {
    if home + d < size then home + d else home + d - size
  }

  function Dist(home: nat, i: nat, size: nat): (d: nat)
    requires home < size && i < size
    ensures d < size && At(home, d, size) == i
    ensures forall c :: 0 <= c < size && c != d ==> At(home, c, size) != i
  {
    if i >= home then i - home else i + size - home
  }

  /** No probe for `key` stops before slot i. */
  ghost predicate Path(tab: seq<Slot>, key: nat, i: nat)
    requires i < |tab|
  {
    forall d :: 0 <= d < Dist(Home(key, |tab|), i, |tab|) ==> !tab[At(Home(key, |tab|), d, |tab|)].Empty?
  }

  /** Every live entry is on the probe sequence of its key. */
  ghost predicate Reachable(tab: seq<Slot>) {
    forall i :: 0 <= i < |tab| && tab[i].Live? ==> Path(tab, tab[i].key, i)
  }

  predicate Occupied(s: Slot) { !s.Empty? }

  function Filled(tab: seq<Slot>): nat { Count(tab, Occupied) }

  // ---- the entries as a bag ----------------------------------------------------------------

  function Bag(s: Slot): multiset<Slot> { if s.Live? then multiset{s} else multiset{} }

  /** The live entries of a table. */
  function Entries(tab: seq<Slot>): multiset<Slot> {
    if tab == [] then multiset{} else Entries(tab[..|tab| - 1]) + Bag(tab[|tab| - 1])
  }

  lemma EntriesPrefix(tab: seq<Slot>, i: nat)
    requires i < |tab|
    ensures Entries(tab[..i + 1]) == Entries(tab[..i]) + Bag(tab[i])
  {
    assert tab[..i + 1][..i] == tab[..i];
  }

  lemma Commute(a: multiset<Slot>, x: multiset<Slot>, y: multiset<Slot>)
    ensures (a + x) + y == (a + y) + x
  {
  }

  lemma Exchange(a: multiset<Slot>, x: multiset<Slot>, b: multiset<Slot>, y: multiset<Slot>, c: multiset<Slot>)
    requires a + x == b + y
    ensures (a + c) + x == (b + c) + y
  {
    Commute(a, c, x);
    Commute(b, c, y);
  }

  /** One slot is changed. */
  lemma {:induction false} EntriesUpdate(tab: seq<Slot>, tab': seq<Slot>, i: nat)
    requires i < |tab| == |tab'| && forall j :: 0 <= j < |tab| && j != i ==> tab'[j] == tab[j]
    ensures Entries(tab') + Bag(tab[i]) == Entries(tab) + Bag(tab'[i])
    decreases |tab|
  {
    var n := |tab| - 1;
    var e, e' := Entries(tab[..n]), Entries(tab'[..n]);
    if i == n {
      assert tab'[..n] == tab[..n];
      Commute(e, Bag(tab'[n]), Bag(tab[n]));
    } else {
      EntriesUpdate(tab[..n], tab'[..n], i);
      Exchange(e', Bag(tab[i]), e, Bag(tab'[i]), Bag(tab[n]));
    }
  }

  lemma {:induction false} EntryAt(tab: seq<Slot>, i: nat)
    requires i < |tab| && tab[i].Live?
    ensures tab[i] in Entries(tab)
  {
    if i < |tab| - 1 { EntryAt(tab[..|tab| - 1], i); }
  }

  lemma {:induction false} EntryWhere(tab: seq<Slot>, s: Slot) returns (i: nat)
    requires s in Entries(tab)
    ensures i < |tab| && tab[i] == s && s.Live?
  {
    var n := |tab| - 1;
    if s in Entries(tab[..n]) { i := EntryWhere(tab[..n], s); } else { i := n; }
  }

  lemma {:induction false} NoEntries(tab: seq<Slot>)
    requires forall i :: 0 <= i < |tab| ==> !tab[i].Live?
    ensures Entries(tab) == multiset{}
  {
    if tab != [] { NoEntries(tab[..|tab| - 1]); }
  }

  ghost predicate HasKey(bag: multiset<Slot>, key: nat) { exists s :: s in bag && s.Live? && s.key == key }

  /** The bag holds one entry for each key of the map, and no other. */
  ghost predicate Maps(bag: multiset<Slot>, m: map<nat, Slot>) {
    && (forall k :: k in m ==> m[k].Live? && m[k].key == k && bag[m[k]] == 1)
    && (forall s :: s in bag ==> s.Live? && s.key in m && m[s.key] == s)
  }

  lemma KeyIn(bag: multiset<Slot>, m: map<nat, Slot>, key: nat)
    requires Maps(bag, m)
    ensures key in m <==> HasKey(bag, key)
  {
  }

  /** While keys are not doubled, entering and removing are what they are for a map. */
  lemma MapsOn(bag: multiset<Slot>, m: map<nat, Slot>, s: Slot)
    requires Maps(bag, m)
    ensures s.Live? && s.key !in m ==> Maps(bag + multiset{s}, m[s.key := s])
    ensures s in bag ==> Maps(bag - multiset{s}, m - {s.key})
  {
  }

  lemma MapsWithout(bag: multiset<Slot>, key: nat)
    requires !HasKey(bag, key)
    ensures forall m: map<nat, Slot> :: Maps(bag, m) ==> Maps(bag, m - {key})
  {
    forall m: map<nat, Slot> | Maps(bag, m) ensures m - {key} == m { KeyIn(bag, m, key); }
  }

  lemma MapsLess(bag: multiset<Slot>, s: Slot)
    requires s in bag && s.Live?
    ensures forall m: map<nat, Slot> :: Maps(bag, m) ==> Maps(bag - multiset{s}, m - {s.key})
  {
    forall m: map<nat, Slot> | Maps(bag, m) ensures Maps(bag - multiset{s}, m - {s.key}) { MapsOn(bag, m, s); }
  }

  lemma MapsMore(bag: multiset<Slot>, s: Slot)
    requires s.Live?
    ensures forall m: map<nat, Slot> :: Maps(bag, m) && s.key !in m ==> Maps(bag + multiset{s}, m[s.key := s])
  {
    forall m: map<nat, Slot> | Maps(bag, m) && s.key !in m ensures Maps(bag + multiset{s}, m[s.key := s]) {
      MapsOn(bag, m, s);
    }
  }

  // ---- probes --------------------------------------------------------------------------------

  /** A probe that has passed every slot has met no empty one. */
  lemma ProbedAll(tab: seq<Slot>, home: nat)
    requires home < |tab| && forall d :: 0 <= d < |tab| ==> !tab[At(home, d, |tab|)].Empty?
    ensures Filled(tab) == |tab|
  {
    forall i | 0 <= i < |tab| ensures !tab[i].Empty? {
      assert !tab[At(home, Dist(home, i, |tab|), |tab|)].Empty?;
    }
    CountAll(tab, Occupied);
  }

  /** An entry lies before the first empty slot of its probe sequence. */
  lemma EntryBeforeEmpty(tab: seq<Slot>, i: nat, d: nat)
    requires Reachable(tab) && i < |tab| && tab[i].Live? && d < |tab|
    requires tab[At(Home(tab[i].key, |tab|), d, |tab|)].Empty?
    ensures Dist(Home(tab[i].key, |tab|), i, |tab|) < d
  {
  }

  /** A probe that ends at an empty slot has seen every entry of its key. */
  lemma ProbeMisses(tab: seq<Slot>, key: nat, d: nat)
    requires Reachable(tab) && d < |tab| && tab[At(Home(key, |tab|), d, |tab|)].Empty?
    requires forall c :: 0 <= c < d ==>
               var s := tab[At(Home(key, |tab|), c, |tab|)]; !(s.Live? && s.key == key)
    ensures !HasKey(Entries(tab), key)
  {
    forall s | s in Entries(tab) && s.Live? ensures s.key != key {
      var i := EntryWhere(tab, s);
      if s.key == key { EntryBeforeEmpty(tab, i, d); }
    }
  }

  lemma StoreReachable(tab: seq<Slot>, i: nat, s: Slot)
    requires Reachable(tab) && i < |tab| && s.Live? && Path(tab, s.key, i)
    ensures Reachable(tab[i := s])
  {
  }

  lemma EraseReachable(tab: seq<Slot>, i: nat)
    requires Reachable(tab) && i < |tab|
    ensures Reachable(tab[i := Deleted])
  {
  }

  // ---- iteration -------------------------------------------------------------------------------

  predicate Shown(s: Slot, ep: Option<nat>) { s.Live? && (ep.Some? ==> s.ep == ep.value) }

  /** The shown entries of a table, in its order. */
  function Listed(tab: seq<Slot>, ep: Option<nat>): seq<Slot> {
    if tab == [] then []
    else Listed(tab[..|tab| - 1], ep) + if Shown(tab[|tab| - 1], ep) then [tab[|tab| - 1]] else []
  }

  lemma {:induction false} ListedOn(tab: seq<Slot>, i: nat, next: nat, ep: Option<nat>)
    requires i <= next <= |tab| && forall j :: i <= j < next ==> !Shown(tab[j], ep)
    ensures Listed(tab[..next], ep) == Listed(tab[..i], ep)
  {
    if i < next {
      ListedOn(tab, i, next - 1, ep);
      assert tab[..next][..next - 1] == tab[..next - 1];
    }
  }

  lemma ListedNext(tab: seq<Slot>, i: nat, next: nat, ep: Option<nat>)
    requires i < next <= |tab| && Shown(tab[next - 1], ep) && forall j :: i <= j < next - 1 ==> !Shown(tab[j], ep)
    ensures Listed(tab[..next], ep) == Listed(tab[..i], ep) + [tab[next - 1]]
  {
    ListedOn(tab, i, next - 1, ep);
    assert tab[..next][..next - 1] == tab[..next - 1];
  }

  /** Each entry is listed as often as it was entered. */
  lemma {:induction false} ListedAll(tab: seq<Slot>, ep: Option<nat>)
    ensures forall s :: multiset(Listed(tab, ep))[s] == if Shown(s, ep) then Entries(tab)[s] else 0
  {
    if tab != [] { ListedAll(tab[..|tab| - 1], ep); }
  }

  /** What filled the old table, and one more, is within the limit of the grown one. */
  lemma GrownFits(size: nat, filled: nat, extra: nat, lost: nat)
    requires lost <= extra && filled + extra <= Limit(size) + lost
    ensures filled + 1 < size + CHUNK && filled + extra + 1 <= Limit(size + CHUNK) + lost
  {
  }

  class Table {
    var table: array?<Slot>
    var used: nat
    ghost var reused: nat
    ghost var lost: nat

    constructor ()
      ensures Valid() && Contents() == multiset{} && table == null && used == reused == lost == 0
    {
      table, used, reused, lost := null, 0, 0, 0;
    }

    function Size(): nat
      reads this
    {
      if table == null then 0 else table.Length
    }

    ghost function Slots(): seq<Slot>
      reads this, table
    {
      if table == null then [] else table[..]
    }

    /** What has been entered and not removed. */
    ghost function Contents(): multiset<Slot>
      reads this, table
    {
      Entries(Slots())
    }

    /**
     `used` counts more than the filled slots: an entry that was put on a tombstone
     (`reused`), and one that was not put anywhere for want of memory (`lost`), count
     for ever.  A table is never full.
     */
    ghost predicate Valid()
      reads this, table
    {
      && used == Filled(Slots()) + reused + lost && used <= Limit(Size()) + lost
      && (table != null ==> table.Length > 0 && Filled(table[..]) < table.Length)
      && Reachable(Slots())
    }

    /** Follow the probe sequence of `key` to its first live slot, or to an empty one. */
    method Probe(key: nat) returns (idx: nat, found: bool)
      requires Valid() && table != null
      ensures idx < table.Length && (found <==> HasKey(Contents(), key))
      ensures if found then table[idx].Live? && table[idx].key == key else table[idx].Empty?
    {
      ghost var home, tab := Home(key, table.Length), table[..];
      idx := Home(key, table.Length);
      ghost var d := 0;
      while !table[idx].Empty?
        invariant idx < table.Length && d < table.Length && idx == At(home, d, table.Length)
        invariant forall c :: 0 <= c < d ==> !tab[At(home, c, |tab|)].Empty?
        invariant forall c :: 0 <= c < d ==> !(tab[At(home, c, |tab|)].Live? && tab[At(home, c, |tab|)].key == key)
        decreases table.Length - d
      {
        if table[idx].Live? && table[idx].key == key {
          EntryAt(tab, idx);
          return idx, true;
        }
        if d + 1 == table.Length { ProbedAll(tab, home); }
        idx := if idx + 1 == table.Length then 0 else idx + 1;
        d := d + 1;
      }
      ProbeMisses(tab, key, d);
      return idx, false;
    }

    /** Some entry of the key is found if there is one; the entry, if keys are not doubled. */
    method Lookup(key: nat) returns (r: Option<nat>)
      requires Valid()
      ensures r.Some? <==> HasKey(Contents(), key)
      ensures r.Some? ==> exists s :: s in Contents() && s.Live? && s.key == key && s.entry == r.value
      ensures forall m: map<nat, Slot> :: Maps(Contents(), m) ==> r == if key in m then Some(m[key].entry) else None
    {
      if table == null { return None; }
      var idx, found := Probe(key);
      if found { EntryAt(table[..], idx); }
      forall m: map<nat, Slot> | Maps(Contents(), m) ensures key in m <==> found { KeyIn(Contents(), m, key); }
      return if found then Some(table[idx].entry) else None;
    }

    /** Remove the entry that `Lookup` finds. */
    method Remove(key: nat) returns (r: Option<nat>, ghost s: Slot)
      requires Valid()
      modifies table
      ensures Valid() && (r.Some? <==> old(HasKey(Contents(), key)))
      ensures r.Some? ==> s in old(Contents()) && s.Live? && s.key == key && s.entry == r.value
      ensures Contents() == old(Contents()) - if r.Some? then multiset{s} else multiset{}
      ensures forall m: map<nat, Slot> :: Maps(old(Contents()), m) ==> Maps(Contents(), m - {key})
    {
      s := Empty;
      if table == null { return None, s; }
      var idx, found := Probe(key);
      if !found {
        MapsWithout(Contents(), key);
        return None, s;
      }
      s := table[idx];
      r := Some(table[idx].entry);
      ghost var bag := Contents();
      Erase(idx);
      MapsLess(bag, s);
    }

    method Erase(idx: nat)
      requires Valid() && table != null && idx < table.Length && table[idx].Live?
      modifies table
      ensures Valid() && old(table[idx]) in old(Contents()) && Contents() == old(Contents()) - multiset{old(table[idx])}
    {
      ghost var was := table[..];
      EntryAt(was, idx);
      EntriesUpdate(was, was[idx := Deleted], idx);
      EraseReachable(was, idx);
      CountUpdate(was, Occupied, idx, Deleted);
      table[idx] := Deleted;
      assert table[..] == was[idx := Deleted];
      assert Entries(table[..]) + multiset{was[idx]} == Entries(was);
    }

    /** The first slot on the probe sequence of `key` that holds no entry. */
    static method FreeSlot(tab: array<Slot>, key: nat) returns (i: nat)
      requires tab.Length > 0 && Filled(tab[..]) < tab.Length
      ensures i < tab.Length && !tab[i].Live? && Path(tab[..], key, i)
      ensures forall d :: 0 <= d < Dist(Home(key, tab.Length), i, tab.Length) ==>
                tab[At(Home(key, tab.Length), d, tab.Length)].Live?
    {
      ghost var home, s, d := Home(key, tab.Length), tab[..], 0;
      i := Home(key, tab.Length);
      while tab[i].Live?
        invariant i < tab.Length && d < tab.Length && i == At(home, d, tab.Length)
        invariant forall c :: 0 <= c < d ==> s[At(home, c, |s|)].Live?
        decreases tab.Length - d
      {
        if d + 1 == tab.Length { ProbedAll(s, home); }
        i := if i + 1 == tab.Length then 0 else i + 1;
        d := d + 1;
      }
    }

    /** Store a live entry at the free slot its probe sequence leads to. */
    static method Store(tab: array<Slot>, s: Slot) returns (ghost idx: nat)
      requires tab.Length > 0 && Reachable(tab[..]) && s.Live? && Filled(tab[..]) < tab.Length
      modifies tab
      ensures idx < tab.Length && !old(tab[idx].Live?) && tab[..] == old(tab[..])[idx := s]
      ensures Reachable(tab[..]) && Entries(tab[..]) == old(Entries(tab[..])) + multiset{s}
      ensures Filled(tab[..]) == Filled(old(tab[..])) + if old(tab[idx].Empty?) then 1 else 0
    {
      var i := FreeSlot(tab, s.key);
      ghost var was := tab[..];
      StoreReachable(was, i, s);
      CountUpdate(was, Occupied, i, s);
      EntriesUpdate(was, was[i := s], i);
      tab[i] := s;
      assert tab[..] == was[i := s];
      idx := i;
    }

    /** One slot of the old table: a live entry is entered, a tombstone is no longer counted. */
    static method MoveSlot(newTab: array<Slot>, x: Slot, count: nat) returns (used: nat)
      requires newTab.Length > 0 && Reachable(newTab[..]) && Filled(newTab[..]) < newTab.Length
      requires forall j :: 0 <= j < newTab.Length ==> !newTab[j].Deleted?
      requires x.Deleted? ==> count > 0
      modifies newTab
      ensures Reachable(newTab[..]) && forall j :: 0 <= j < newTab.Length ==> !newTab[j].Deleted?
      ensures Entries(newTab[..]) == old(Entries(newTab[..])) + Bag(x)
      ensures Filled(newTab[..]) == old(Filled(newTab[..])) + if x.Live? then 1 else 0
      ensures used == count - if x.Deleted? then 1 else 0
    {
      used := count;
      match x
      case Empty =>
      case Deleted => used := used - 1;
      case Live(_, _, _, _) =>
        ghost var idx := Store(newTab, x);
    }

    /** Move the live entries of `tab` to the empty table `newTab`. */
    static method Rehash(tab: array<Slot>, newTab: array<Slot>, count: nat) returns (used: nat)
      requires tab != newTab && tab.Length < newTab.Length && Filled(tab[..]) <= count
      requires forall i :: 0 <= i < newTab.Length ==> newTab[i].Empty?
      modifies newTab
      ensures Reachable(newTab[..]) && Entries(newTab[..]) == Entries(tab[..])
      ensures Filled(newTab[..]) <= Filled(tab[..]) && used == count - (Filled(tab[..]) - Filled(newTab[..]))
    {
      CountNone(newTab[..], Occupied);
      NoEntries(newTab[..]);
      used := count;
      ghost var s := tab[..];
      for i := 0 to tab.Length
        invariant Reachable(newTab[..]) && forall j :: 0 <= j < newTab.Length ==> !newTab[j].Deleted?
        invariant Entries(newTab[..]) == Entries(s[..i])
        invariant Filled(newTab[..]) <= Filled(s[..i]) <= i && Filled(s[..i]) <= Filled(s)
        invariant used == count - (Filled(s[..i]) - Filled(newTab[..]))
      {
        CountPrefix(s, Occupied, i);
        EntriesPrefix(s, i);
        used := MoveSlot(newTab, tab[i], used);
      }
      assert s[..tab.Length] == s;
    }

    /** Enter an entry.  It fails only if the table must grow and cannot. */
    method Add(key: nat, ep: nat, epid: nat, entry: nat, canAlloc: bool) returns (ok: bool)
      requires Valid()
      modifies this, table
      ensures Valid() && (table == old(table) || fresh(table))
      ensures ok <==> canAlloc || old(used) < Limit(old(Size()))
      ensures Contents() == old(Contents()) + if ok then multiset{Live(key, ep, epid, entry)} else multiset{}
      ensures forall m: map<nat, Slot> :: Maps(old(Contents()), m) && key !in m && ok ==>
                Maps(Contents(), m[key := Live(key, ep, epid, entry)])
      ensures lost == old(lost) + if ok then 0 else 1
      ensures Size() == old(Size()) + if ok && old(used) >= Limit(old(Size())) then CHUNK else 0
      ensures Size() == old(Size()) ==> used == old(used) + 1
    {
      ghost var bag := Contents();
      var s := Live(key, ep, epid, entry);
      used := used + 1;
      if used > Limit(Size()) {
        if !canAlloc {
          lost := lost + 1;
          return false;
        }
        Grow();
      }
      Insert(s);
      MapsMore(bag, s);
      return true;
    }

    /** Room has been made and counted. */
    method Insert(s: Slot)
      requires table != null && Reachable(table[..]) && s.Live?
      requires used == Filled(table[..]) + reused + lost + 1 && used <= Limit(Size()) + lost
      requires Filled(table[..]) + 1 < table.Length
      modifies this`reused, table
      ensures Valid() && Contents() == old(Contents()) + multiset{s}
    {
      ghost var idx := Store(table, s);
      if !old(table[idx].Empty?) { reused := reused + 1; }
    }

    /** `used` already counts the entry about to be added. */
    method Grow()
      requires used == Filled(Slots()) + reused + lost + 1 && used - 1 <= Limit(Size()) + lost && used > Limit(Size())
      requires table != null ==> Filled(table[..]) < table.Length
      modifies this`table, this`used
      ensures table != null && fresh(table) && table.Length == old(Size()) + CHUNK && Reachable(table[..])
      ensures Contents() == old(Contents()) && used == Filled(table[..]) + reused + lost + 1
      ensures Filled(table[..]) + 1 < table.Length && used <= Limit(Size()) + lost
    {
      ghost var was, size := Slots(), Size();
      var newTab := new Slot[Size() + CHUNK](_ => Empty);
      if table != null {
        used := Rehash(table, newTab, used);
      } else {
        CountNone(newTab[..], Occupied);
        NoEntries(newTab[..]);
      }
      assert used == Filled(newTab[..]) + reused + lost + 1 && Filled(newTab[..]) <= Filled(was);
      GrownFits(size, Filled(was), reused + lost, lost);
      table := newTab;
    }

    // ---- iteration -----------------------------------------------------------------------------

    /** The next entry from position i on, of endpoint `ep` or of all. */
    method Next(i: nat, ep: Option<nat>) returns (next: nat, r: Option<Slot>)
      requires Valid() && i <= Size()
      ensures i <= next <= Size()
      ensures r.Some? ==> i < next && table[next - 1] == r.value && Shown(r.value, ep)
      ensures r.None? ==> next == Size()
      ensures forall j :: i <= j < next && (r.Some? ==> j < next - 1) ==> !Shown(table[j], ep)
    {
      if table == null { return 0, None; }
      for j := i to table.Length
        invariant forall c :: i <= c < j ==> !Shown(table[c], ep)
      {
        if Shown(table[j], ep) { return j + 1, Some(table[j]); }
      }
      return table.Length, None;
    }

    /** Iterating to the end visits each entry as often as it was entered, and nothing else. */
    method All(ep: Option<nat>) returns (seen: seq<Slot>)
      requires Valid()
      ensures forall s :: multiset(seen)[s] == if Shown(s, ep) then Contents()[s] else 0
    {
      seen := [];
      ListedAll(Slots(), ep);
      if table == null { return; }
      ghost var tab := table[..];
      var i := 0;
      while true
        invariant i <= table.Length && seen == Listed(tab[..i], ep)
        decreases table.Length - i
      {
        var next, r := Next(i, ep);
        if r.None? {
          ListedOn(tab, i, next, ep);
          assert tab[..next] == tab;
          break;
        }
        ListedNext(tab, i, next, ep);
        seen, i := seen + [r.value], next;
      }
    }
  }

  // ---- runs --------------------------------------------------------------------------------------

  /** What is entered is found, and not after it was removed. */
  method EnterFindRemove() returns (found: Option<nat>, gone: Option<nat>)
    ensures found == Some(30) && gone == None
  {
    var t := new Table();
    assert Maps(t.Contents(), map[]);
    var ok := t.Add(1, 10, 20, 30, true);
    ghost var m := map[1 := Live(1, 10, 20, 30)];
    assert m == map[][1 := Live(1, 10, 20, 30)] && Maps(t.Contents(), m);
    found := t.Lookup(1);
    var r;
    ghost var s;
    r, s := t.Remove(1);
    assert Maps(t.Contents(), m - {1});
    gone := t.Lookup(1);
  }

  /**
   The size is not bounded by what is in the table: one key, entered and removed in
   turn, takes the table to any size.  Each entry goes on the tombstone of the last,
   and is counted again.
   */
  method Bloat(target: nat) returns (t: Table)
    ensures t.Valid() && t.Contents() == multiset{} && t.Size() >= target
  {
    t := new Table();
    while t.Size() < target
      invariant t.Valid() && t.Contents() == multiset{} && t.lost == 0
      invariant fresh(t) && (t.table == null || fresh(t.table))
      decreases target - t.Size(), Limit(t.Size()) - t.used
    {
      var ok := t.Add(1, 0, 0, 1, true);
      var r;
      ghost var s;
      r, s := t.Remove(1);
      assert t.Contents() == multiset{};
    }
  }
}
