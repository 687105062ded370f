/**
 The timer queue.  Its head expires last and its tail first; the earliest
 time-out is cached.  Time-outs up to PRIO_LAST are priority levels: delayed
 operations, of which the newest of a level runs first.

 A pass over what is due reads its next entry from the links of the one it has
 just run, after the callback.  A callback that requests its own timer again has
 moved those links, so the pass may leave due entries out, run an entry twice, or
 never end.  `Fired` is one callback as the code makes it; `Order` says, without
 putting anything back into the queue, what a pass runs for the first time.
 */
module Timer {
  const PRIO_LAST := 4
  const INFINITE := 0xFFFF_FFFF_FFFF_FFFF

  class Entry {
    var timeout: nat
    var pending: bool
    ghost var stamp: nat

    constructor ()
      ensures !pending
    {
      timeout, pending, stamp := 0, false, 0;
    }
  }

  /** An entry with its time-out and the moment of its request. */
  datatype Item = Item(entry: Entry, timeout: nat, stamp: nat)

  /** Item a stands nearer the head than b, so it expires after b. */
  predicate Later(a: Item, b: Item) {
    || a.timeout > b.timeout
    || (a.timeout == b.timeout && if a.timeout > PRIO_LAST then a.stamp > b.stamp else a.stamp < b.stamp)
  }

  /** A queue from last to first. */
  ghost predicate Sorted(q: seq<Item>) {
    forall i, j {:trigger Later(q[i], q[j])} :: 0 <= i < j < |q| ==> q[i].entry != q[j].entry && Later(q[i], q[j])
  }

  lemma SortedAt(q: seq<Item>, i: nat, j: nat)
    requires Sorted(q) && i < j < |q|
    ensures q[i].entry != q[j].entry && Later(q[i], q[j])
  {
    assert Later(q[i], q[j]);
  }

  function Without(q: seq<Item>, c: nat): seq<Item>
    requires c < |q|
  {
    q[..c] + q[c + 1..]
  }

  lemma SortedWithout(q: seq<Item>, c: nat)
    requires Sorted(q) && c < |q|
    ensures Sorted(Without(q, c)) && Sorted(q[..c])
  {
    var r := Without(q, c);
    forall i, j | 0 <= i < j < |r| ensures r[i].entry != r[j].entry && Later(r[i], r[j]) {
      SortedAt(q, if i < c then i else i + 1, if j < c then j else j + 1);
    }
    forall i, j | 0 <= i < j < c ensures q[..c][i].entry != q[..c][j].entry && Later(q[..c][i], q[..c][j]) {
      SortedAt(q, i, j);
    }
  }

  /** A timer requested for w goes nearer the head than y, so that the pass leaves y behind. */
  predicate Passed(y: Item, w: nat) {
    if w > PRIO_LAST then y.timeout <= w else y.timeout < w
  }

  /** Where a timer requested for w goes. */
  function PlaceOf(q: seq<Item>, w: nat): (p: nat)
    ensures p <= |q|
  {
    if q == [] || !Passed(q[|q| - 1], w) then |q| else PlaceOf(q[..|q| - 1], w)
  }

  lemma {:induction false} PlaceIs(q: seq<Item>, w: nat, p: nat)
    requires p <= |q|
    requires (forall i :: 0 <= i < p ==> !Passed(q[i], w)) && (forall i :: p <= i < |q| ==> Passed(q[i], w))
    ensures PlaceOf(q, w) == p
  {
    if p < |q| { PlaceIs(q[..|q| - 1], w, p); }
  }

  lemma {:induction false} PlaceSplits(q: seq<Item>, w: nat)
    requires Sorted(q)
    ensures forall i :: 0 <= i < |q| ==> (Passed(q[i], w) <==> PlaceOf(q, w) <= i)
  {
    if q != [] {
      var n := |q| - 1;
      forall i | 0 <= i < n ensures q[i].timeout >= q[n].timeout { SortedAt(q, i, n); }
      if Passed(q[n], w) {
        SortedWithout(q, n);
        PlaceSplits(q[..n], w);
      }
    }
  }

  /** The queue with t in its place. */
  function Put(q: seq<Item>, t: Item): (q': seq<Item>)
    ensures |q'| == |q| + 1
  {
    var p := PlaceOf(q, t.timeout);
    q[..p] + [t] + q[p..]
  }

  lemma PutSorted(q: seq<Item>, t: Item)
    requires Sorted(q) && forall i :: 0 <= i < |q| ==> q[i].entry != t.entry && q[i].stamp < t.stamp
    ensures Sorted(Put(q, t))
  {
    var p, r := PlaceOf(q, t.timeout), Put(q, t);
    PlaceSplits(q, t.timeout);
    forall i, j | 0 <= i < j < |r| ensures r[i].entry != r[j].entry && Later(r[i], r[j]) {
      if i != p && j != p { SortedAt(q, if i < p then i else i - 1, if j < p then j else j - 1); }
    }
  }

  lemma PutGood(q: seq<Item>, clock: nat, t: Item)
    requires Good(Pass(q, |q| - 1, clock)) && t.stamp == clock && forall i :: 0 <= i < |q| ==> q[i].entry != t.entry
    ensures Good(Pass(Put(q, t), |q|, clock + 1))
  {
    PutSorted(q, t);
  }

  // The pass.

  /** A pass under way: the queue, the position of its cursor (-1 beyond the head), and the clock of requests. */
  datatype Pass = Pass(queue: seq<Item>, at: int, clock: nat)

  ghost predicate Good(s: Pass) {
    && Sorted(s.queue) && -1 <= s.at < |s.queue|
    && forall i :: 0 <= i < |s.queue| ==> s.queue[i].stamp < s.clock
  }

  predicate Running(s: Pass, now: nat)
    requires -1 <= s.at < |s.queue|
  {
    s.at >= 0 && s.queue[s.at].timeout <= now
  }

  /** The cursor after t, taken from position c, has run and left `rest`. */
  function Next(t: Item, c: int, rest: seq<Item>, rearm: map<Entry, nat>): (n: int)
    requires 0 <= c <= |rest|
    ensures -1 <= n < |rest|
  {
    if t.entry in rearm then PlaceOf(rest, rearm[t.entry]) - 1 else c - 1
  }

  /** Run the entry at the cursor; one in `rearm` requests itself again. */
  function Fired(s: Pass, rearm: map<Entry, nat>): (s': Pass)
    requires 0 <= s.at < |s.queue|
    ensures -1 <= s'.at < |s'.queue|
  {
    var t, rest := s.queue[s.at], Without(s.queue, s.at);
    var n := Next(t, s.at, rest, rearm);
    if t.entry in rearm then
      Pass(Put(rest, Item(t.entry, rearm[t.entry], s.clock)), n, s.clock + 1)
    else
      Pass(rest, n, s.clock)
  }

  lemma FiredGood(s: Pass, rearm: map<Entry, nat>)
    requires Good(s) && s.at >= 0
    ensures Good(Fired(s, rearm)) && |Fired(s, rearm).queue| <= |s.queue|
  {
    var t, rest := s.queue[s.at], Without(s.queue, s.at);
    SortedWithout(s.queue, s.at);
    if t.entry in rearm {
      forall i | 0 <= i < |rest| ensures rest[i].entry != t.entry {
        SortedAt(s.queue, if i < s.at then i else s.at, if i < s.at then s.at else i + 1);
      }
      PutSorted(rest, Item(t.entry, rearm[t.entry], s.clock));
    }
  }

  /** A request for w leaves behind exactly the entries due up to w, for a priority those due before it. */
  lemma Skips(s: Pass, rearm: map<Entry, nat>, y: Item)
    requires Good(s) && s.at >= 0 && s.queue[s.at].entry in rearm
    requires y in s.queue && y != s.queue[s.at]
    ensures var s', w := Fired(s, rearm), rearm[s.queue[s.at].entry];
            y in s'.queue[s'.at + 1..] <==> if w > PRIO_LAST then y.timeout <= w else y.timeout < w
  {
    var w, rest := rearm[s.queue[s.at].entry], Without(s.queue, s.at);
    var s' := Fired(s, rearm);
    SortedWithout(s.queue, s.at);
    PlaceSplits(rest, w);
    assert y in rest;
    var p := PlaceOf(rest, w);
    assert s'.queue[p..] == [Item(s.queue[s.at].entry, w, s.clock)] + rest[p..];
    var i :| 0 <= i < |rest| && rest[i] == y;
    if p <= i { assert rest[p..][i - p] == y; }
    assert y.stamp < s.clock;
  }

  // What runs for the first time.

  /** The first runs from position c on: an entry that has run is gone. */
  function Order(u: seq<Item>, c: int, now: nat, rearm: map<Entry, nat>): seq<Item>
    requires -1 <= c < |u|
    decreases |u|
  {
    if c < 0 || u[c].timeout > now then []
    else [u[c]] + Order(Without(u, c), Next(u[c], c, Without(u, c), rearm), now, rearm)
  }

  /** The items requested before the pass began at `since`. */
  function First(q: seq<Item>, since: nat): seq<Item> {
    if q == [] then [] else First(q[..|q| - 1], since) + if q[|q| - 1].stamp < since then [q[|q| - 1]] else []
  }

  lemma {:induction false} FirstIn(q: seq<Item>, since: nat)
    ensures forall i :: 0 <= i < |First(q, since)| ==> First(q, since)[i] in q && First(q, since)[i].stamp < since
  {
    if q != [] { FirstIn(q[..|q| - 1], since); }
  }

  lemma {:induction false} FirstConcat(a: seq<Item>, b: seq<Item>, since: nat)
    ensures First(a + b, since) == First(a, since) + First(b, since)
  {
    if b == [] {
      assert a + b == a;
    } else {
      assert (a + b)[..|a + b| - 1] == a + b[..|b| - 1];
      FirstConcat(a, b[..|b| - 1], since);
    }
  }

  /** Every entry that has run during the pass and is back is where its callback asked for. */
  ghost predicate PutBack(s: Pass, since: nat, rearm: map<Entry, nat>) {
    since <= s.clock
    && forall i :: 0 <= i < |s.queue| && s.queue[i].stamp >= since ==>
         s.queue[i].entry in rearm && s.queue[i].timeout == rearm[s.queue[i].entry]
  }

  lemma FiredAgain(s: Pass, since: nat, rearm: map<Entry, nat>)
    requires Good(s) && s.at >= 0 && PutBack(s, since, rearm)
    ensures PutBack(Fired(s, rearm), since, rearm)
  {
  }

  /** How many old entries stand up to position c. */
  function Ahead(q: seq<Item>, c: int, since: nat): (n: nat)
    requires -1 <= c < |q|
    ensures n <= |First(q, since)|
  {
    FirstConcat(q[..c + 1], q[c + 1..], since);
    assert q == q[..c + 1] + q[c + 1..];
    |First(q[..c + 1], since)|
  }

  /** The old entries around position c. */
  lemma Around(q: seq<Item>, c: nat, since: nat)
    requires c < |q|
    ensures var a, b := First(q[..c], since), First(q[c + 1..], since);
            var t := if q[c].stamp < since then [q[c]] else [];
            && First(q, since) == a + t + b && First(Without(q, c), since) == a + b
            && Ahead(q, c, since) == |a + t|
  {
    assert q[..c + 1][..c] == q[..c];
    FirstConcat(q[..c + 1], q[c + 1..], since);
    assert q == q[..c + 1] + q[c + 1..];
    FirstConcat(q[..c], q[c + 1..], since);
  }

  /** u are the entries that have not run, and c is where the pass stands among them. */
  ghost predicate Standing(s: Pass, since: nat, u: seq<Item>, c: int) {
    -1 <= s.at < |s.queue| && u == First(s.queue, since) && c == Ahead(s.queue, s.at, since) - 1
  }

  /** Where the queue is cut by a request, its old entries are cut too. */
  lemma PlaceOfFirst(q: seq<Item>, since: nat, w: nat)
    requires Sorted(q)
    ensures PlaceOf(First(q, since), w) == |First(q[..PlaceOf(q, w)], since)|
  {
    var p := PlaceOf(q, w);
    PlaceSplits(q, w);
    FirstConcat(q[..p], q[p..], since);
    assert q == q[..p] + q[p..];
    var a, b := First(q[..p], since), First(q[p..], since);
    FirstIn(q[..p], since);
    FirstIn(q[p..], since);
    forall i | 0 <= i < |a| ensures !Passed(a[i], w) { assert a[i] in q[..p]; }
    forall i | 0 <= i < |b| ensures Passed(b[i], w) { assert b[i] in q[p..]; }
    PlaceIs(a + b, w, |a|);
  }

  /** An entry that is put back does not show among the old ones. */
  lemma OldSame(rest: seq<Item>, t: Item, since: nat)
    requires t.stamp >= since
    ensures First(Put(rest, t), since) == First(rest, since)
  {
    var p, q := PlaceOf(rest, t.timeout), Put(rest, t);
    Around(q, p, since);
    assert Without(q, p) == rest;
  }

  /** It cuts them at its place. */
  lemma OldCut(rest: seq<Item>, t: Item, since: nat)
    requires Sorted(rest) && t.stamp >= since
    ensures Ahead(Put(rest, t), PlaceOf(rest, t.timeout) - 1, since) == PlaceOf(First(rest, since), t.timeout)
  {
    var p := PlaceOf(rest, t.timeout);
    assert Put(rest, t)[..p] == rest[..p];
    PlaceOfFirst(rest, since, t.timeout);
  }

  /** An entry's first run is a step of `Order`. */
  lemma FirstRun(s: Pass, since: nat, now: nat, rearm: map<Entry, nat>, u: seq<Item>, c: int)
    requires Good(s) && Running(s, now) && since <= s.clock && s.queue[s.at].stamp < since && Standing(s, since, u, c)
    ensures 0 <= c < |u| && u[c] == s.queue[s.at]
    ensures Standing(Fired(s, rearm), since, Without(u, c), Next(u[c], c, Without(u, c), rearm))
  {
    var q, i := s.queue, s.at;
    var t, rest := q[i], Without(q, i);
    var a, b := First(q[..i], since), First(q[i + 1..], since);
    Around(q, i, since);
    assert Without(a + [t] + b, |a|) == a + b;
    if t.entry in rearm {
      SortedWithout(q, i);
      OldSame(rest, Item(t.entry, rearm[t.entry], s.clock), since);
      OldCut(rest, Item(t.entry, rearm[t.entry], s.clock), since);
    } else {
      assert rest[..i] == q[..i];
    }
  }

  /** The old entries are cut at an entry that is back as its own request cuts them. */
  lemma CutAtBack(q: seq<Item>, c: nat, since: nat)
    requires Sorted(q) && c < |q| && q[c].stamp >= since
    ensures PlaceOf(First(Without(q, c), since), q[c].timeout) == |First(q[..c], since)|
  {
    var w, a, b := q[c].timeout, First(q[..c], since), First(q[c + 1..], since);
    Around(q, c, since);
    FirstIn(q[..c], since);
    FirstIn(q[c + 1..], since);
    forall i | 0 <= i < |a| ensures !Passed(a[i], w) {
      var j :| 0 <= j < c && q[..c][j] == a[i];
      SortedAt(q, j, c);
    }
    forall i | 0 <= i < |b| ensures Passed(b[i], w) {
      var j :| 0 <= j < |q| - c - 1 && q[c + 1..][j] == b[i];
      SortedAt(q, c, c + 1 + j);
    }
    PlaceIs(a + b, w, |a|);
  }

  lemma OldKept(q: seq<Item>, c: nat, t: Item, since: nat)
    requires Sorted(q) && c < |q| && q[c].stamp >= since && t.stamp >= since && t.timeout == q[c].timeout
    ensures First(Put(Without(q, c), t), since) == First(q, since)
    ensures Ahead(Put(Without(q, c), t), PlaceOf(Without(q, c), t.timeout) - 1, since) == Ahead(q, c, since)
  {
    SortedWithout(q, c);
    OldSame(Without(q, c), t, since);
    OldCut(Without(q, c), t, since);
    CutAtBack(q, c, since);
    Around(q, c, since);
  }

  /** A further run changes nothing for those that have not run. */
  lemma FurtherRun(s: Pass, since: nat, now: nat, rearm: map<Entry, nat>, u: seq<Item>, c: int)
    requires Good(s) && Running(s, now) && PutBack(s, since, rearm) && s.queue[s.at].stamp >= since
    requires Standing(s, since, u, c)
    ensures Standing(Fired(s, rearm), since, u, c)
  {
    var q, i := s.queue, s.at;
    OldKept(q, i, Item(q[i].entry, q[i].timeout, s.clock), since);
  }

  lemma AheadAt(q: seq<Item>, c: int, since: nat, i: nat) returns (j: nat)
    requires -1 <= c < |q| && i < Ahead(q, c, since)
    ensures j <= c && q[j] == First(q, since)[i]
  {
    var a := q[..c + 1];
    FirstConcat(a, q[c + 1..], since);
    assert q == a + q[c + 1..];
    FirstIn(a, since);
    j :| 0 <= j < |a| && a[j] == First(a, since)[i];
  }

  /** Once the pass has ended, so has `Order`. */
  lemma NothingToCome(s: Pass, since: nat, now: nat, u: seq<Item>, c: int)
    requires Good(s) && !Running(s, now) && Standing(s, since, u, c)
    ensures c < 0 || (c < |u| && u[c].timeout > now)
  {
    if c >= 0 {
      var j := AheadAt(s.queue, s.at, since, c);
      assert j == s.at || Later(s.queue[j], s.queue[s.at]);
    }
  }

  /** A pass in good order, with what has not run. */
  ghost predicate Under(s: Pass, since: nat, rearm: map<Entry, nat>, u: seq<Item>, c: int) {
    Good(s) && PutBack(s, since, rearm) && Standing(s, since, u, c) && -1 <= c < |u|
  }

  /** One callback: the first run of its entry is a step of `Order`, a further one is none. */
  lemma OneRun(s: Pass, since: nat, now: nat, rearm: map<Entry, nat>, u: seq<Item>, c: int)
      returns (u': seq<Item>, c': int)
    requires Under(s, since, rearm, u, c) && Running(s, now)
    ensures Under(Fired(s, rearm), since, rearm, u', c')
    ensures Order(u, c, now, rearm) ==
            (if s.queue[s.at].stamp < since then [s.queue[s.at]] else []) + Order(u', c', now, rearm)
  {
    FiredGood(s, rearm);
    FiredAgain(s, since, rearm);
    if s.queue[s.at].stamp < since {
      FirstRun(s, since, now, rearm, u, c);
      u', c' := Without(u, c), Next(u[c], c, Without(u, c), rearm);
    } else {
      FurtherRun(s, since, now, rearm, u, c);
      u', c' := u, c;
    }
  }

  // When the pass ends.

  /** The entries of some items. */
  function Names(o: seq<Item>): set<Entry> {
    if o == [] then {} else Names(o[..|o| - 1]) + {o[|o| - 1].entry}
  }

  lemma {:induction false} NamesConcat(a: seq<Item>, b: seq<Item>)
    ensures Names(a + b) == Names(a) + Names(b)
  {
    if b == [] {
      assert a + b == a;
    } else {
      assert (a + b)[..|a + b| - 1] == a + b[..|b| - 1];
      NamesConcat(a, b[..|b| - 1]);
    }
  }

  lemma {:induction false} NamesAt(o: seq<Item>, i: nat)
    requires i < |o|
    ensures o[i].entry in Names(o)
  {
    if i < |o| - 1 { NamesAt(o[..|o| - 1], i); }
  }

  /** Both request themselves at the same priority, which is due at once. */
  predicate Share(a: Entry, b: Entry, now: nat, rearm: map<Entry, nat>) {
    a != b && a in rearm && b in rearm && rearm[a] == rearm[b] <= PRIO_LAST && rearm[a] <= now
  }

  ghost predicate Apart(names: set<Entry>, now: nat, rearm: map<Entry, nat>) {
    forall a, b :: a in names && b in names ==> !Share(a, b, now, rearm)
  }

  /** The cursor is on one of two entries that put each other in front. */
  ghost predicate Locked(s: Pass, since: nat, now: nat) {
    exists c, d :: 0 <= c < |s.queue| && 0 <= d < |s.queue| && c != d && c == s.at
      && s.queue[c].stamp >= since && s.queue[d].stamp >= since
      && s.queue[c].timeout == s.queue[d].timeout <= PRIO_LAST && s.queue[c].timeout <= now
  }

  /** Position of the entry y of the queue once the one at c is gone and another one was put in at p. */
  lemma Moved(q: seq<Item>, c: nat, p: nat, put: Item, d: nat) returns (e: nat)
    requires c < |q| && d < |q| && c != d && p < |q|
    ensures var rest := Without(q, c); var q' := rest[..p] + [put] + rest[p..];
            && e < |q'| && e != p && q'[e] == q[d] && q'[p] == put
            && (e < p ==> rest[e] == q[d]) && (e > p ==> rest[e - 1] == q[d])
  {
    var f := if d < c then d else d - 1;
    e := if f < p then f else f + 1;
  }

  /** Whoever is run at a level that another one is waiting at meets one of the two next. */
  lemma Meet(s: Pass, since: nat, now: nat, rearm: map<Entry, nat>, d: nat)
    requires Good(s) && Running(s, now) && PutBack(s, since, rearm)
    requires d < |s.queue| && d != s.at && s.queue[d].stamp >= since
    requires s.queue[s.at].entry in rearm && rearm[s.queue[s.at].entry] == s.queue[d].timeout <= PRIO_LAST
    requires s.queue[d].timeout <= now
    ensures Locked(Fired(s, rearm), since, now)
  {
    var w, rest, s' := s.queue[d].timeout, Without(s.queue, s.at), Fired(s, rearm);
    var p, put := PlaceOf(rest, w), Item(s.queue[s.at].entry, w, s.clock);
    SortedWithout(s.queue, s.at);
    PlaceSplits(rest, w);
    var e := Moved(s.queue, s.at, p, put, d);
    FiredGood(s, rearm);
    assert e < p && s'.at == p - 1 && s'.queue[p] == put;
    assert rest[p - 1] == s'.queue[p - 1] && !Passed(rest[p - 1], w);
    assert e == p - 1 || Later(s'.queue[e], s'.queue[p - 1]);
  }

  lemma LockedStays(s: Pass, since: nat, now: nat, rearm: map<Entry, nat>)
    requires Good(s) && PutBack(s, since, rearm) && Locked(s, since, now)
    ensures Running(s, now) && Locked(Fired(s, rearm), since, now)
  {
    var d :| 0 <= d < |s.queue| && s.at != d && s.queue[d].stamp >= since
             && s.queue[s.at].timeout == s.queue[d].timeout <= PRIO_LAST;
    Meet(s, since, now, rearm, d);
  }

  /** Those that have run and request themselves are back in the queue. */
  ghost predicate Back(ran: set<Entry>, s: Pass, since: nat, rearm: map<Entry, nat>) {
    forall e :: e in ran && e in rearm ==>
      exists i :: 0 <= i < |s.queue| && s.queue[i].entry == e && s.queue[i].stamp >= since
  }

  lemma FiredBack(ran: set<Entry>, s: Pass, since: nat, rearm: map<Entry, nat>)
    requires Good(s) && s.at >= 0 && since <= s.clock && Back(ran, s, since, rearm)
    ensures Back(ran + {s.queue[s.at].entry}, Fired(s, rearm), since, rearm)
  {
    var s', t := Fired(s, rearm), s.queue[s.at];
    forall e | e in ran + {t.entry} && e in rearm
      ensures exists i :: 0 <= i < |s'.queue| && s'.queue[i].entry == e && s'.queue[i].stamp >= since
    {
      if e == t.entry {
        assert s'.queue[s'.at + 1].entry == t.entry;
      } else {
        var i :| 0 <= i < |s.queue| && s.queue[i].entry == e && s.queue[i].stamp >= since;
        if t.entry in rearm {
          var d := Moved(s.queue, s.at, s'.at + 1, Item(t.entry, rearm[t.entry], s.clock), i);
        } else {
          assert s'.queue[if i < s.at then i else i - 1] == s.queue[i];
        }
      }
    }
  }

  /** A first run either keeps all levels apart or locks the pass. */
  lemma ApartOrLocked(ran: set<Entry>, s: Pass, since: nat, now: nat, rearm: map<Entry, nat>)
    requires Good(s) && Running(s, now) && PutBack(s, since, rearm) && Back(ran, s, since, rearm)
    requires Apart(ran, now, rearm)
    ensures Apart(ran + {s.queue[s.at].entry}, now, rearm) || Locked(Fired(s, rearm), since, now)
  {
    var t := s.queue[s.at].entry;
    if e :| e in ran && Share(e, t, now, rearm) {
      var d :| 0 <= d < |s.queue| && s.queue[d].entry == e && s.queue[d].stamp >= since;
      Meet(s, since, now, rearm, d);
    }
  }

  /** All that is back has run. */
  ghost predicate Known(ran: set<Entry>, s: Pass, since: nat) {
    forall i :: 0 <= i < |s.queue| && s.queue[i].stamp >= since ==> s.queue[i].entry in ran
  }

  lemma FiredKnown(ran: set<Entry>, s: Pass, since: nat, rearm: map<Entry, nat>)
    requires Good(s) && s.at >= 0 && Known(ran, s, since)
    ensures Known(ran + {s.queue[s.at].entry}, Fired(s, rearm), since)
  {
  }

  /** A further run takes the cursor towards the head, unless two share a level. */
  lemma FurtherOn(ran: set<Entry>, s: Pass, since: nat, now: nat, rearm: map<Entry, nat>)
    requires Good(s) && Running(s, now) && PutBack(s, since, rearm) && Known(ran, s, since) && Apart(ran, now, rearm)
    requires s.queue[s.at].stamp >= since
    ensures Fired(s, rearm).at < s.at
  {
    var q, c := s.queue, s.at;
    var rest, w := Without(q, c), q[c].timeout;
    SortedWithout(q, c);
    PlaceSplits(rest, w);
    if c < |rest| && !Passed(rest[c], w) {
      assert rest[c] == q[c + 1];
      SortedAt(q, c, c + 1);
      assert Share(q[c].entry, q[c + 1].entry, now, rearm);
    }
  }

  /** What has run: it is known to the queue, and its levels are apart or lock the pass. */
  ghost predicate Ran(ran: set<Entry>, s: Pass, since: nat, now: nat, rearm: map<Entry, nat>) {
    && Back(ran, s, since, rearm) && Known(ran, s, since)
    && (Apart(ran, now, rearm) || Locked(s, since, now))
  }

  lemma RanOn(ran: set<Entry>, s: Pass, since: nat, now: nat, rearm: map<Entry, nat>)
    requires Good(s) && PutBack(s, since, rearm) && Running(s, now) && Ran(ran, s, since, now, rearm)
    ensures Ran(ran + {s.queue[s.at].entry}, Fired(s, rearm), since, now, rearm)
  {
    FiredBack(ran, s, since, rearm);
    FiredKnown(ran, s, since, rearm);
    if Locked(s, since, now) {
      LockedStays(s, since, now, rearm);
    } else {
      ApartOrLocked(ran, s, since, now, rearm);
    }
  }

  /** A bound for the callbacks to come, with `order` still to run and the cursor at c of at most n. */
  function ToGo(order: seq<Item>, n: nat, c: int): int {
    |order| * (n + 1) + c + 1
  }

  /** While no two entries of one level come to run, every callback brings the end nearer. */
  lemma Nearer(
      ran: set<Entry>, s: Pass, since: nat, now: nat, rearm: map<Entry, nat>, n: nat, o: seq<Item>, o': seq<Item>)
    requires Good(s) && PutBack(s, since, rearm) && Running(s, now) && |s.queue| <= n
    requires Known(ran, s, since) && Apart(ran, now, rearm)
    requires o == (if s.queue[s.at].stamp < since then [s.queue[s.at]] else []) + o'
    ensures ToGo(o', n, Fired(s, rearm).at) < ToGo(o, n, s.at)
  {
    FiredGood(s, rearm);
    if s.queue[s.at].stamp < since {
      Less(|o|, n);
    } else {
      assert o == o';
      FurtherOn(ran, s, since, now, rearm);
    }
  }

  lemma Less(o: nat, n: nat)
    ensures o * (n + 1) >= 0
    ensures o > 0 ==> o * (n + 1) == (o - 1) * (n + 1) + n + 1
    ensures o <= n ==> o * (n + 1) + n <= (n + 1) * (n + 1)
  {
    if o <= n { assert o * (n + 1) <= n * (n + 1); }
  }

  // When all that is due runs in its turn.

  /** What is due, in the order of expiry. */
  function DueInTurn(q: seq<Item>, now: nat): seq<Item> {
    if q == [] || q[|q| - 1].timeout > now then [] else [q[|q| - 1]] + DueInTurn(q[..|q| - 1], now)
  }

  /** No due entry requests itself for a time that passes over another due one behind it. */
  ghost predicate PassesNone(q: seq<Item>, now: nat, rearm: map<Entry, nat>) {
    forall i, j :: 0 <= i < j < |q| && q[i].timeout <= now && q[j].entry in rearm ==> !Passed(q[i], rearm[q[j].entry])
  }

  /** Entry t passes over none of `rest` that is due. */
  ghost predicate LeavesNone(t: Item, rest: seq<Item>, now: nat, rearm: map<Entry, nat>) {
    t.entry in rearm ==> forall i :: 0 <= i < |rest| && rest[i].timeout <= now ==> !Passed(rest[i], rearm[t.entry])
  }

  /** From position n the pass goes on as from the tail. */
  predicate LikeTail(rest: seq<Item>, n: int, now: nat)
    requires -1 <= n < |rest|
  {
    n == |rest| - 1 || rest[|rest| - 1].timeout > now
  }

  lemma NextInTurn(t: Item, rest: seq<Item>, now: nat, rearm: map<Entry, nat>)
    requires Sorted(rest)
    ensures LikeTail(rest, Next(t, |rest|, rest, rearm), now) <==> LeavesNone(t, rest, now, rearm)
  {
    if t.entry in rearm {
      PlaceSplits(rest, rearm[t.entry]);
      forall i | 0 <= i < |rest| - 1 ensures rest[i].timeout >= rest[|rest| - 1].timeout {
        SortedAt(rest, i, |rest| - 1);
      }
    }
  }

  lemma PassesNoneOn(q: seq<Item>, now: nat, rearm: map<Entry, nat>)
    requires q != []
    ensures var rest := q[..|q| - 1];
            PassesNone(q, now, rearm) <==> PassesNone(rest, now, rearm) && LeavesNone(q[|q| - 1], rest, now, rearm)
  {
  }

  /** Where the next entry is not the next in turn, the first runs are others. */
  lemma OrderFrom(rest: seq<Item>, now: nat, rearm: map<Entry, nat>, n: int)
    requires Sorted(rest) && -1 <= n < |rest|
    ensures LikeTail(rest, n, now) ==> Order(rest, n, now, rearm) == Order(rest, |rest| - 1, now, rearm)
    ensures !LikeTail(rest, n, now) ==> Order(rest, n, now, rearm) != DueInTurn(rest, now)
  {
    if 0 <= n < |rest| - 1 { SortedAt(rest, n, |rest| - 1); }
    if !LikeTail(rest, n, now) { assert DueInTurn(rest, now)[0] == rest[|rest| - 1]; }
  }

  lemma OrderOn(q: seq<Item>, now: nat, rearm: map<Entry, nat>)
    requires q != [] && q[|q| - 1].timeout <= now
    ensures var rest := q[..|q| - 1]; var n := Next(q[|q| - 1], |rest|, rest, rearm);
            Order(q, |q| - 1, now, rearm) == DueInTurn(q, now) <==> Order(rest, n, now, rearm) == DueInTurn(rest, now)
  {
    var c := |q| - 1;
    var rest := q[..c];
    assert Without(q, c) == rest;
    var o, due := Order(rest, Next(q[c], c, rest, rearm), now, rearm), DueInTurn(rest, now);
    assert Order(q, c, now, rearm) == [q[c]] + o && DueInTurn(q, now) == [q[c]] + due;
    assert ([q[c]] + o)[1..] == o && ([q[c]] + due)[1..] == due;
  }

  /** All that is due comes to run, in the order of expiry, if and only if none of it is passed over. */
  lemma {:induction false} InTurn(q: seq<Item>, now: nat, rearm: map<Entry, nat>)
    requires Sorted(q)
    ensures Order(q, |q| - 1, now, rearm) == DueInTurn(q, now) <==> PassesNone(q, now, rearm)
  {
    if q != [] && q[|q| - 1].timeout <= now {
      var t, rest := q[|q| - 1], q[..|q| - 1];
      SortedWithout(q, |q| - 1);
      InTurn(rest, now, rearm);
      NextInTurn(t, rest, now, rearm);
      OrderFrom(rest, now, rearm, Next(t, |rest|, rest, rearm));
      OrderOn(q, now, rearm);
      PassesNoneOn(q, now, rearm);
    } else {
      forall i | 0 <= i < |q| - 1 ensures q[i].timeout > now { SortedAt(q, i, |q| - 1); }
    }
  }

  /**
   What came to run for the first time is the beginning of `Order`, and all of it
   if the pass has ended.  The pass ends if and only if no two of `Order` request
   themselves at one priority.
   */
  ghost predicate Exact(q: seq<Item>, now: nat, rearm: map<Entry, nat>, k: nat, first: seq<Item>, ended: bool) {
    var order := Order(q, |q| - 1, now, rearm);
    && first <= order && (ended ==> first == order && Apart(Names(order), now, rearm))
    && (Apart(Names(order), now, rearm) && k >= (|q| + 1) * (|q| + 1) ==> ended)
  }

  /** Where a pass over q is after k callbacks that ran `first` for the first time. */
  ghost predicate Track(
    q: seq<Item>, since: nat, now: nat, rearm: map<Entry, nat>, k: nat, first: seq<Item>, s: Pass, u: seq<Item>, c: int)
  {
    && Under(s, since, rearm, u, c) && |s.queue| <= |q| && Ran(Names(first), s, since, now, rearm)
    && Order(q, |q| - 1, now, rearm) == first + Order(u, c, now, rearm)
    && (Apart(Names(Order(q, |q| - 1, now, rearm)), now, rearm) ==>
          k + ToGo(Order(u, c, now, rearm), |q|, s.at) <= (|q| + 1) * (|q| + 1))
  }

  /** The same without saying what is left to run. */
  ghost predicate Tracked(
    q: seq<Item>, since: nat, now: nat, rearm: map<Entry, nat>, k: nat, first: seq<Item>, s: Pass)
  {
    exists c :: Track(q, since, now, rearm, k, first, s, First(s.queue, since), c)
  }

  lemma UnderStart(q: seq<Item>, since: nat, rearm: map<Entry, nat>)
    requires Good(Pass(q, |q| - 1, since))
    ensures Under(Pass(q, |q| - 1, since), since, rearm, q, |q| - 1) && First(q, since) == q
  {
    assert q[..|q|] == q;
    AllFirst(q, since);
  }

  lemma StartToGo(q: seq<Item>, now: nat, rearm: map<Entry, nat>)
    ensures ToGo(Order(q, |q| - 1, now, rearm), |q|, |q| - 1) <= (|q| + 1) * (|q| + 1)
  {
    OrderShort(q, |q| - 1, now, rearm);
    Less(|Order(q, |q| - 1, now, rearm)|, |q|);
  }

  lemma TrackStart(q: seq<Item>, since: nat, now: nat, rearm: map<Entry, nat>)
    requires Good(Pass(q, |q| - 1, since))
    ensures Tracked(q, since, now, rearm, 0, [], Pass(q, |q| - 1, since))
  {
    var s, c := Pass(q, |q| - 1, since), |q| - 1;
    var o := Order(q, c, now, rearm);
    UnderStart(q, since, rearm);
    StartToGo(q, now, rearm);
    assert [] + o == o;
    assert Track(q, since, now, rearm, 0, [], s, q, c);
  }

  /** The first runs, after the entry at the cursor has run. */
  function FirstOn(first: seq<Item>, s: Pass, since: nat): seq<Item>
    requires 0 <= s.at < |s.queue|
  {
    first + if s.queue[s.at].stamp < since then [s.queue[s.at]] else []
  }

  lemma RanFirst(first: seq<Item>, s: Pass, since: nat, now: nat, rearm: map<Entry, nat>)
    requires Good(s) && PutBack(s, since, rearm) && Running(s, now) && Ran(Names(first), s, since, now, rearm)
    ensures Names(FirstOn(first, s, since)) == Names(first) + {s.queue[s.at].entry}
    ensures Ran(Names(FirstOn(first, s, since)), Fired(s, rearm), since, now, rearm)
  {
    RanOn(Names(first), s, since, now, rearm);
    if s.queue[s.at].stamp < since {
      assert (first + [s.queue[s.at]])[..|first|] == first;
    } else {
      assert FirstOn(first, s, since) == first;
      assert Names(first) == Names(first) + {s.queue[s.at].entry};
    }
  }

  lemma FirstJoins(first: seq<Item>, s: Pass, since: nat, o: seq<Item>, o': seq<Item>)
    requires 0 <= s.at < |s.queue|
    requires o == (if s.queue[s.at].stamp < since then [s.queue[s.at]] else []) + o'
    ensures first + o == FirstOn(first, s, since) + o'
  {
  }

  /** The order and the bound, one callback later. */
  lemma OrderedOn(
      first: seq<Item>, s: Pass, since: nat, now: nat, rearm: map<Entry, nat>, n: nat, o: seq<Item>, o': seq<Item>)
    requires Good(s) && PutBack(s, since, rearm) && Running(s, now) && |s.queue| <= n && Known(Names(first), s, since)
    requires o == (if s.queue[s.at].stamp < since then [s.queue[s.at]] else []) + o'
    ensures first + o == FirstOn(first, s, since) + o'
    ensures Apart(Names(first + o), now, rearm) ==> ToGo(o', n, Fired(s, rearm).at) < ToGo(o, n, s.at)
  {
    FirstJoins(first, s, since, o, o');
    if Apart(Names(first + o), now, rearm) {
      NamesConcat(first, o);
      Nearer(Names(first), s, since, now, rearm, n, o, o');
    }
  }

  /** One callback, whatever it asks for. */
  lemma TrackOn(q: seq<Item>, since: nat, now: nat, rearm: map<Entry, nat>, k: nat, first: seq<Item>, s: Pass)
    requires Tracked(q, since, now, rearm, k, first, s) && -1 <= s.at < |s.queue| && Running(s, now)
    ensures Tracked(q, since, now, rearm, k + 1, FirstOn(first, s, since), Fired(s, rearm))
    ensures Names(FirstOn(first, s, since)) == Names(first) + {s.queue[s.at].entry} && PutBack(s, since, rearm)
  {
    var u := First(s.queue, since);
    var c :| Track(q, since, now, rearm, k, first, s, u, c);
    FiredGood(s, rearm);
    var u', c' := OneRun(s, since, now, rearm, u, c);
    RanFirst(first, s, since, now, rearm);
    OrderedOn(first, s, since, now, rearm, |q|, Order(u, c, now, rearm), Order(u', c', now, rearm));
    assert Track(q, since, now, rearm, k + 1, FirstOn(first, s, since), Fired(s, rearm), u', c');
  }

  /** A pass that is tracked is exact, whether it has ended or used up its k callbacks. */
  lemma TrackEnd(q: seq<Item>, since: nat, now: nat, rearm: map<Entry, nat>, k: nat, first: seq<Item>, s: Pass)
    requires Tracked(q, since, now, rearm, k, first, s) && -1 <= s.at < |s.queue|
    ensures Exact(q, now, rearm, k, first, !Running(s, now))
  {
    var u := First(s.queue, since);
    var c :| Track(q, since, now, rearm, k, first, s, u, c);
    var o := Order(u, c, now, rearm);
    if Running(s, now) {
      Less(|o|, |q|);
    } else {
      NothingToCome(s, since, now, u, c);
      assert o == [] && first + o == first;
      if Locked(s, since, now) { LockedStays(s, since, now, rearm); }
    }
  }

  lemma {:induction false} AllFirst(q: seq<Item>, since: nat)
    requires forall i :: 0 <= i < |q| ==> q[i].stamp < since
    ensures First(q, since) == q
  {
    if q != [] { AllFirst(q[..|q| - 1], since); }
  }

  lemma {:induction false} OrderShort(u: seq<Item>, c: int, now: nat, rearm: map<Entry, nat>)
    requires -1 <= c < |u|
    ensures |Order(u, c, now, rearm)| <= |u|
    decreases |u|
  {
    if c >= 0 && u[c].timeout <= now {
      OrderShort(Without(u, c), Next(u[c], c, Without(u, c), rearm), now, rearm);
    }
  }

  /**
   A pass ends having run all that was due, each for the first time in the order
   of expiry, if and only if no due entry requests itself for a time that passes
   over another due one, and no two of them request themselves at one priority.
   */
  ghost predicate TurnExact(q: seq<Item>, now: nat, rearm: map<Entry, nat>, k: nat, first: seq<Item>, ended: bool) {
    var due, fair := DueInTurn(q, now), PassesNone(q, now, rearm);
    && (ended && first == due ==> fair && Apart(Names(due), now, rearm))
    && (fair && Apart(Names(due), now, rearm) && k >= (|q| + 1) * (|q| + 1) ==> ended && first == due)
    && (fair ==> first <= due && (ended ==> first == due) && ByTime(first))
  }

  lemma AllInTurn(q: seq<Item>, now: nat, rearm: map<Entry, nat>, k: nat, first: seq<Item>, ended: bool)
    requires Sorted(q) && Exact(q, now, rearm, k, first, ended)
    ensures TurnExact(q, now, rearm, k, first, ended)
  {
    InTurn(q, now, rearm);
    TailFirst(q, now);
  }

  /** Expiry is by time; of equal ordinary time-outs the one requested first, of equal priorities the last. */
  ghost predicate ByTime(due: seq<Item>) {
    forall i, j :: 0 <= i < j < |due| ==>
      && due[i].timeout <= due[j].timeout
      && (due[i].timeout == due[j].timeout > PRIO_LAST ==> due[i].stamp < due[j].stamp)
      && (due[i].timeout == due[j].timeout <= PRIO_LAST ==> due[i].stamp > due[j].stamp)
  }

  lemma {:induction false} TurnAt(q: seq<Item>, now: nat, i: nat)
    requires i < |DueInTurn(q, now)|
    ensures i < |q| && DueInTurn(q, now)[i] == q[|q| - 1 - i]
  {
    if i > 0 { TurnAt(q[..|q| - 1], now, i - 1); }
  }

  lemma TailFirst(q: seq<Item>, now: nat)
    requires Sorted(q)
    ensures ByTime(DueInTurn(q, now))
  {
    var due := DueInTurn(q, now);
    forall i, j | 0 <= i < j < |due| ensures Later(due[j], due[i]) {
      TurnAt(q, now, i);
      TurnAt(q, now, j);
      SortedAt(q, |q| - 1 - j, |q| - 1 - i);
    }
  }

  lemma {:induction false} AllDue(q: seq<Item>, now: nat, x: Item)
    requires Sorted(q)
    ensures x in DueInTurn(q, now) <==> x in q && x.timeout <= now
  {
    if q != [] {
      var n := |q| - 1;
      SortedWithout(q, n);
      AllDue(q[..n], now, x);
      assert q == q[..n] + [q[n]];
      forall i | 0 <= i < n ensures q[i].timeout >= q[n].timeout { SortedAt(q, i, n); }
    }
  }

  /** Due entries that request themselves ask for a time that is not before their own. */
  ghost predicate Forward(q: seq<Item>, now: nat, rearm: map<Entry, nat>) {
    forall i :: 0 <= i < |q| && q[i].timeout <= now && q[i].entry in rearm ==> Passed(q[i], rearm[q[i].entry])
  }

  /** The cursor moves further away from what it has passed. */
  lemma MovesAway(u: seq<Item>, c: nat, now: nat, rearm: map<Entry, nat>, i: nat)
    requires Sorted(u) && Forward(u, now, rearm) && c < i < |u| && u[c].timeout <= now
    ensures var rest := Without(u, c);
            && Sorted(rest) && Forward(rest, now, rearm) && -1 <= Next(u[c], c, rest, rearm) < i - 1 < |rest|
            && rest[i - 1] == u[i] && u[i] != u[c]
  {
    var t, rest := u[c], Without(u, c);
    SortedWithout(u, c);
    SortedAt(u, c, i);
    if t.entry in rearm { PlaceSplits(rest, rearm[t.entry]); }
    assert rest[i - 1] == u[i];
  }

  /** Then what the cursor has passed is never run. */
  lemma {:induction false} BehindStays(u: seq<Item>, c: int, now: nat, rearm: map<Entry, nat>, i: nat)
    requires Sorted(u) && Forward(u, now, rearm) && -1 <= c < i < |u|
    ensures u[i] !in Order(u, c, now, rearm)
    decreases |u|
  {
    if c >= 0 && u[c].timeout <= now {
      MovesAway(u, c, now, rearm, i);
      BehindStays(Without(u, c), Next(u[c], c, Without(u, c), rearm), now, rearm, i - 1);
    }
  }

  /** An entry that runs and passes over another one leaves it out. */
  lemma {:induction false} PassedStays(u: seq<Item>, c: int, now: nat, rearm: map<Entry, nat>, i: nat, j: nat)
    requires Sorted(u) && Forward(u, now, rearm) && -1 <= c < |u| && i < j < |u|
    requires u[j].entry in rearm && Passed(u[i], rearm[u[j].entry]) && u[j] in Order(u, c, now, rearm)
    ensures u[i] !in Order(u, c, now, rearm)
    decreases |u|
  {
    if c < j { BehindStays(u, c, now, rearm, j); }
    var t, rest := u[c], Without(u, c);
    var n := Next(t, c, rest, rearm);
    SortedWithout(u, c);
    SortedAt(u, i, j);
    assert rest[i] == u[i] && Forward(rest, now, rearm);
    if c == j {
      PlaceSplits(rest, rearm[t.entry]);
      BehindStays(rest, n, now, rearm, i);
    } else {
      SortedAt(u, j, c);
      SortedAt(u, i, c);
      PassedStays(rest, n, now, rearm, i, j);
    }
  }

  /** With such requests all that is due comes to run if and only if none of it is passed over. */
  lemma AllRan(q: seq<Item>, now: nat, rearm: map<Entry, nat>)
    requires Sorted(q) && Forward(q, now, rearm)
    ensures (forall i :: 0 <= i < |q| && q[i].timeout <= now ==> q[i] in Order(q, |q| - 1, now, rearm))
            <==> PassesNone(q, now, rearm)
  {
    InTurn(q, now, rearm);
    forall i | 0 <= i < |q| ensures q[i].timeout <= now ==> q[i] in DueInTurn(q, now) { AllDue(q, now, q[i]); }
    if !PassesNone(q, now, rearm) {
      var i, j :| 0 <= i < j < |q| && q[i].timeout <= now && q[j].entry in rearm && Passed(q[i], rearm[q[j].entry]);
      SortedAt(q, i, j);
      if q[j] in Order(q, |q| - 1, now, rearm) { PassedStays(q, |q| - 1, now, rearm, i, j); }
    }
  }

  lemma {:induction false} OrderIn(u: seq<Item>, c: int, now: nat, rearm: map<Entry, nat>)
    requires -1 <= c < |u|
    ensures forall i :: 0 <= i < |Order(u, c, now, rearm)| ==> Order(u, c, now, rearm)[i] in u
    decreases |u|
  {
    if c >= 0 && u[c].timeout <= now {
      OrderIn(Without(u, c), Next(u[c], c, Without(u, c), rearm), now, rearm);
    }
  }

  // The queue in memory.

  ghost function View(q: seq<Entry>): (v: seq<Item>)
    reads q
    ensures |v| == |q|
  {
    seq(|q|, i requires 0 <= i < |q| reads q => Item(q[i], q[i].timeout, q[i].stamp))
  }

  class Control {
    var queue: seq<Entry>
    var nextExpire: nat
    ghost var clock: nat

    constructor ()
      ensures Valid() && queue == [] && clock == 0
    {
      queue, nextExpire, clock := [], INFINITE, 0;
    }

    /** Every pending entry is in its place. */
    ghost predicate Ordered()
      reads `queue, `clock, queue
    {
      && Good(Pass(View(queue), |queue| - 1, clock))
      && forall i :: 0 <= i < |queue| ==> queue[i].pending && queue[i].timeout <= INFINITE
    }

    /** The cached time-out is the one at the tail. */
    ghost predicate Cached()
      reads `queue, `nextExpire, queue
    {
      nextExpire == if queue == [] then INFINITE else queue[|queue| - 1].timeout
    }

    ghost predicate Valid()
      reads this, queue
    {
      Ordered() && Cached()
    }

    /** The cached value is the minimum of the pending time-outs. */
    lemma NextIsEarliest()
      requires Valid()
      ensures forall t :: t in queue ==> nextExpire <= t.timeout
      ensures queue != [] ==> exists t :: t in queue && t.timeout == nextExpire
    {
      var v := View(queue);
      forall i | 0 <= i < |queue| ensures nextExpire <= queue[i].timeout {
        assert i == |v| - 1 || Later(v[i], v[|v| - 1]);
      }
    }

    method Request(t: Entry, when: nat)
      requires Ordered() && !t.pending && when <= INFINITE
      modifies this, t
      ensures Ordered() && (old(Cached()) ==> Cached())
      ensures t.pending && View(queue) == Put(old(View(queue)), Item(t, when, old(clock))) && clock == old(clock) + 1
      ensures var p := PlaceOf(old(View(queue)), when); queue == old(queue)[..p] + [t] + old(queue)[p..]
    {
      var p := Place(when);
      Stamp(t, when);
      EnterAt(t, p);
    }

    /** Renew the cached time-out and link the entry in. */
    method EnterAt(t: Entry, p: nat)
      requires p == PlaceOf(View(queue), t.timeout) && t.pending && t.timeout <= INFINITE && Sorted(View(queue))
      requires forall i :: 0 <= i < |queue| ==> queue[i].pending && queue[i].timeout <= INFINITE
      requires Good(Pass(Put(View(queue), Item(t, t.timeout, t.stamp)), |queue|, clock))
      modifies this`queue, this`nextExpire
      ensures Ordered() && (old(Cached()) ==> Cached()) && queue == old(queue)[..p] + [t] + old(queue)[p..]
      ensures View(queue) == Put(View(old(queue)), Item(t, t.timeout, t.stamp))
    {
      NewNext(t, p);
      Enter(t, p);
    }

    /** Set the fields of a new request. */
    method Stamp(t: Entry, when: nat)
      requires Ordered() && !t.pending
      modifies t, this`clock
      ensures t.pending && t.timeout == when && t.stamp == old(clock) && clock == old(clock) + 1
      ensures t !in queue && View(queue) == old(View(queue))
      ensures forall i :: 0 <= i < |queue| ==> queue[i].pending && queue[i].timeout <= INFINITE
      ensures Good(Pass(Put(View(queue), Item(t, when, t.stamp)), |queue|, clock)) && Sorted(View(queue))
    {
      ghost var v := View(queue);
      PutGood(v, clock, Item(t, when, clock));
      t.timeout, t.pending, t.stamp, clock := when, true, clock, clock + 1;
      assert View(queue) == v;
    }

    /** Enter t at p. */
    method Enter(t: Entry, p: nat)
      requires p == PlaceOf(View(queue), t.timeout) && t.pending && t.timeout <= INFINITE
      requires forall i :: 0 <= i < |queue| ==> queue[i].pending && queue[i].timeout <= INFINITE
      requires Good(Pass(Put(View(queue), Item(t, t.timeout, t.stamp)), |queue|, clock))
      modifies this`queue
      ensures Ordered() && queue == old(queue)[..p] + [t] + old(queue)[p..]
      ensures queue[|queue| - 1] == if p == |old(queue)| then t else old(queue)[|old(queue)| - 1]
      ensures View(queue) == Put(View(old(queue)), Item(t, t.timeout, t.stamp))
    {
      ghost var q := queue;
      queue := queue[..p] + [t] + queue[p..];
      assert View(queue) == Put(View(q), Item(t, t.timeout, t.stamp));
    }

    /** Keep the cached time-out when t is entered at p. */
    method NewNext(t: Entry, p: nat)
      requires p == PlaceOf(View(queue), t.timeout)
      modifies this`nextExpire
      ensures old(Cached()) && Sorted(View(queue)) ==>
                nextExpire == if p == |queue| then t.timeout else queue[|queue| - 1].timeout
    {
      var when := t.timeout;
      if Sorted(View(queue)) { PlaceSplits(View(queue), when); }
      if queue == [] {
        nextExpire := when;
      } else if when > PRIO_LAST {
        if p == |queue| { nextExpire := when; }
      } else if p > 0 {
        nextExpire := if when < nextExpire then when else nextExpire;
      }
    }

    /** Where a new entry goes: the walk is from the head for a time and from the tail for a priority. */
    method Place(when: nat) returns (p: nat)
      requires Ordered()
      ensures p == PlaceOf(View(queue), when)
    {
      ghost var v := View(queue);
      if when > PRIO_LAST {
        p := 0;
        while p < |queue| && queue[p].timeout > when
          invariant p <= |queue| && forall i :: 0 <= i < p ==> v[i].timeout > when
        {
          p := p + 1;
        }
        assert forall i :: p < i < |v| ==> Later(v[p], v[i]);
      } else {
        p := |queue|;
        while p > 0 && queue[p - 1].timeout < when
          invariant p <= |queue| && forall i :: p <= i < |queue| ==> v[i].timeout < when
        {
          p := p - 1;
        }
        assert forall i :: 0 <= i < p - 1 ==> Later(v[i], v[p - 1]);
      }
      PlaceIs(v, when, p);
    }

    method Cancel(t: Entry)
      requires Valid() && t in queue
      modifies this`queue, this`nextExpire, t`pending
      ensures Valid() && !t.pending && t !in queue
      ensures exists c :: 0 <= c < |old(queue)| && old(queue)[c] == t && View(queue) == Without(old(View(queue)), c)
    {
      ghost var c :| 0 <= c < |queue| && queue[c] == t;
      Take(t, c);
      Refresh();
    }

    /** The entry at position c is no longer pending. */
    method Take(t: Entry, ghost c: nat)
      requires Ordered() && c < |queue| && queue[c] == t
      modifies this`queue, t`pending
      ensures Ordered() && !t.pending && t !in queue && queue == old(queue)[..c] + old(queue)[c + 1..]
      ensures View(queue) == Without(old(View(queue)), c)
    {
      ghost var v := View(queue);
      t.pending := false;
      assert View(queue) == v;
      Unlink(t, c);
    }

    /** Take the entry at position c out of the queue. */
    method Unlink(t: Entry, ghost c: nat)
      requires c < |queue| && queue[c] == t && Good(Pass(View(queue), |queue| - 1, clock))
      modifies this`queue
      ensures queue == old(queue)[..c] + old(queue)[c + 1..] && t !in queue
      ensures View(queue) == Without(View(old(queue)), c) && Good(Pass(View(queue), |queue| - 1, clock))
    {
      var i := Find(t, c);
      SortedWithout(View(queue), c);
      Distinct(queue, c);
      queue := queue[..i] + queue[i + 1..];
    }

    lemma Distinct(q: seq<Entry>, c: nat)
      requires c < |q| && Sorted(View(q))
      ensures forall i :: 0 <= i < |q| && i != c ==> q[i] != q[c]
    {
      forall i | 0 <= i < |q| && i != c ensures q[i] != q[c] {
        SortedAt(View(q), if i < c then i else c, if i < c then c else i);
      }
    }

    method Find(t: Entry, ghost c: nat) returns (i: nat)
      requires c < |queue| && queue[c] == t && Sorted(View(queue))
      ensures i == c
    {
      Distinct(queue, c);
      i := 0;
      while queue[i] != t
        invariant i <= c
        decreases c - i
      {
        i := i + 1;
      }
    }

    /** The entry at position c - 1, or none. */
    method Previous(t: Entry, ghost c: nat) returns (prev: Entry?)
      requires c < |queue| && queue[c] == t && Sorted(View(queue))
      ensures prev == if c == 0 then null else queue[c - 1]
    {
      var i := Find(t, c);
      prev := if i == 0 then null else queue[i - 1];
    }

    /** The queue is that of s. */
    ghost predicate Is(s: Pass)
      reads this, queue
    {
      s.queue == View(queue) && s.clock == clock && -1 <= s.at < |queue|
    }

    /** The entry the cursor of s is on. */
    ghost function Cursor(s: Pass): (c: Entry?)
      requires -1 <= s.at < |s.queue|
    {
      if s.at < 0 then null else s.queue[s.at].entry
    }

    /**
     Run the entry at the cursor and move the cursor on.  The entry keeps its
     links when it is taken out, so without a request they lead to the entry that
     was before it, and with one to the entry before its new place.
     */
    method Fire(t: Entry, rearm: map<Entry, nat>, ghost s: Pass) returns (cursor: Entry?)
      requires Ordered() && Is(s) && Cursor(s) == t && (t in rearm ==> rearm[t] <= INFINITE)
      modifies this, t
      ensures Ordered() && Is(Fired(s, rearm)) && cursor == Cursor(Fired(s, rearm))
      ensures forall x :: x in queue <==> x in old(queue) && (x != t || t in rearm)
    {
      cursor := TakeFired(t, s);
      if t in rearm {
        cursor := Again(t, rearm[t]);
        assert Fired(s, rearm).queue == View(queue);
      } else {
        assert Fired(s, rearm).queue == View(queue);
      }
    }

    /** Unlink the entry at the cursor, and step back. */
    method TakeFired(t: Entry, ghost s: Pass) returns (cursor: Entry?)
      requires Ordered() && Is(s) && Cursor(s) == t
      modifies this, t
      ensures Ordered() && !t.pending && View(queue) == Without(s.queue, s.at) && clock == s.clock
      ensures cursor == if s.at == 0 then null else s.queue[s.at - 1].entry
      ensures forall x :: x in queue <==> x in old(queue) && x != t
    {
      cursor := Previous(t, s.at);
      Take(t, s.at);
    }

    /** A callback requests its own entry; then the links lead to the entry before its new place. */
    method Again(t: Entry, when: nat) returns (cursor: Entry?)
      requires Ordered() && !t.pending && when <= INFINITE
      modifies this, t
      ensures Ordered() && View(queue) == Put(old(View(queue)), Item(t, when, old(clock))) && clock == old(clock) + 1
      ensures forall x :: x in queue <==> x in old(queue) || x == t
      ensures var p := PlaceOf(old(View(queue)), when); cursor == if p == 0 then null else queue[p - 1]
    {
      ghost var p := PlaceOf(View(queue), when);
      Request(t, when);
      cursor := Previous(t, p);
    }

    /** What the pass has run, and what it has left in the queue. */
    ghost predicate Gone(q: seq<Entry>, fired: seq<Entry>, first: seq<Item>, rearm: map<Entry, nat>)
      reads `queue
    {
      && (forall i :: 0 <= i < |queue| ==> queue[i] in q && (queue[i] !in fired || queue[i] in rearm))
      && (forall i :: 0 <= i < |q| && (q[i] !in fired || q[i] in rearm) ==> q[i] in queue)
      && (forall i :: 0 <= i < |fired| ==> fired[i] in Names(first))
      && (forall e :: e in Names(first) ==> e in fired)
      && (rearm == map[] ==> |fired| == |first| && forall i :: 0 <= i < |fired| ==> fired[i] == first[i].entry)
    }

    /** What has not run is as it was. */
    ghost predicate Kept(q: seq<Item>, fired: seq<Entry>)
      reads set i | 0 <= i < |q| :: q[i].entry
    {
      forall i :: 0 <= i < |q| && q[i].entry !in fired ==>
        Item(q[i].entry, q[i].entry.timeout, q[i].entry.stamp) == q[i]
    }

    /** The entry under the cursor was in the queue from the start. */
    lemma CursorIsOld(s: Pass, t: Entry, q: seq<Entry>, fired: seq<Entry>, first: seq<Item>, rearm: map<Entry, nat>)
      requires Is(s) && Cursor(s) == t && Gone(q, fired, first, rearm)
      ensures t in q
    {
      assert t == queue[s.at];
    }

    /** The firing loop, for at most `budget` callbacks. */
    method RunDue(now: nat, rearm: map<Entry, nat>, budget: nat)
        returns (fired: seq<Entry>, cursor: Entry?, ghost first: seq<Item>, ghost s: Pass)
      requires Ordered() && forall t :: t in rearm ==> rearm[t] <= INFINITE
      requires Tracked(View(queue), clock, now, rearm, 0, [], Pass(View(queue), |queue| - 1, clock))
      modifies this, queue
      ensures Ordered() && Is(s) && cursor == Cursor(s)
      ensures |fired| <= budget && (cursor != null && cursor.timeout <= now ==> |fired| == budget)
      ensures Tracked(old(View(queue)), old(clock), now, rearm, |fired|, first, s)
      ensures Gone(old(queue), fired, first, rearm) && Kept(old(View(queue)), fired)
    {
      ghost var q, since, k := View(queue), clock, 0;
      fired, first, s := [], [], Pass(View(queue), |queue| - 1, clock);
      cursor := if queue == [] then null else queue[|queue| - 1];
      while |fired| < budget && cursor != null && cursor.timeout <= now
        invariant Ordered() && Is(s) && cursor == Cursor(s) && |fired| <= budget
        invariant k == |fired| && Tracked(q, since, now, rearm, k, first, s)
        invariant Gone(old(queue), fired, first, rearm) && Kept(q, fired)
        decreases budget - |fired|
      {
        var t: Entry := cursor;
        CursorIsOld(s, t, old(queue), fired, first, rearm);
        cursor, first, s := Round(t, now, rearm, s, since, k, first, old(queue), fired, q);
        fired, k := fired + [t], k + 1;
      }
    }

    /** One round of the loop. */
    method Round(
        t: Entry, now: nat, rearm: map<Entry, nat>, ghost s: Pass, ghost since: nat, ghost k: nat,
        ghost first: seq<Item>, ghost q: seq<Entry>, ghost fired: seq<Entry>, ghost v: seq<Item>)
        returns (cursor: Entry?, ghost first': seq<Item>, ghost s': Pass)
      requires Ordered() && Is(s) && Cursor(s) == t && t.timeout <= now && (t in rearm ==> rearm[t] <= INFINITE)
      requires Tracked(v, since, now, rearm, k, first, s) && Gone(q, fired, first, rearm) && Kept(v, fired)
      modifies this, t
      ensures Ordered() && Is(s') && cursor == Cursor(s')
      ensures Tracked(v, since, now, rearm, k + 1, first', s') && Gone(q, fired + [t], first', rearm)
      ensures Kept(v, fired + [t])
    {
      assert t == queue[s.at];
      first', s' := FirstOn(first, s, since), Fired(s, rearm);
      TrackOn(v, since, now, rearm, k, first, s);
      cursor := FireNext(t, rearm, s, since, first, q, fired, v);
    }

    /** The same with what has run. */
    method FireNext(
        t: Entry, rearm: map<Entry, nat>, ghost s: Pass, ghost since: nat, ghost first: seq<Item>,
        ghost q: seq<Entry>, ghost fired: seq<Entry>, ghost v: seq<Item>)
        returns (cursor: Entry?)
      requires Ordered() && Is(s) && Cursor(s) == t && (t in rearm ==> rearm[t] <= INFINITE)
      requires PutBack(s, since, rearm) && Gone(q, fired, first, rearm) && Kept(v, fired)
      requires Names(FirstOn(first, s, since)) == Names(first) + {t}
      modifies this, t
      ensures Ordered() && Is(Fired(s, rearm)) && cursor == Cursor(Fired(s, rearm))
      ensures Gone(q, fired + [t], FirstOn(first, s, since), rearm) && Kept(v, fired + [t])
    {
      assert t == queue[s.at];
      ghost var was := queue;
      cursor := Fire(t, rearm, s);
      forall i | 0 <= i < |q| && (q[i] !in fired + [t] || q[i] in rearm) ensures q[i] in queue {
        assert q[i] in was;
      }
      forall i | 0 <= i < |queue|
        ensures queue[i] in q && (queue[i] !in fired + [t] || queue[i] in rearm)
      {
        assert queue[i] in was;
      }
      forall i | 0 <= i < |v| && v[i].entry !in fired + [t]
        ensures Item(v[i].entry, v[i].entry.timeout, v[i].entry.stamp) == v[i]
      {
        assert v[i].entry !in fired && v[i].entry != t;
      }
    }

    method Refresh()
      requires Ordered()
      modifies this`nextExpire
      ensures Valid()
    {
      nextExpire := if queue == [] then INFINITE else queue[|queue| - 1].timeout;
    }

    /** The loop, and the cached time-out renewed behind it. */
    method Sweep(now: nat, rearm: map<Entry, nat>, budget: nat)
        returns (fired: seq<Entry>, ended: bool, ghost first: seq<Item>)
      requires Valid() && forall t :: t in rearm ==> rearm[t] <= INFINITE
      modifies this, queue
      ensures Ordered() && (ended ==> Valid()) && (!ended ==> |fired| == budget)
      ensures Gone(old(queue), fired, first, rearm) && Kept(old(View(queue)), fired)
      ensures Exact(old(View(queue)), now, rearm, |fired|, first, ended)
    {
      fired, ended, first := RunTracked(now, rearm, budget);
      if ended { Refresh(); }
    }

    method RunTracked(now: nat, rearm: map<Entry, nat>, budget: nat)
        returns (fired: seq<Entry>, ended: bool, ghost first: seq<Item>)
      requires Ordered() && forall t :: t in rearm ==> rearm[t] <= INFINITE
      modifies this, queue
      ensures Ordered() && (!ended ==> |fired| == budget)
      ensures Gone(old(queue), fired, first, rearm) && Kept(old(View(queue)), fired)
      ensures Exact(old(View(queue)), now, rearm, |fired|, first, ended)
    {
      ghost var q, since := View(queue), clock;
      TrackStart(q, since, now, rearm);
      var cursor;
      ghost var s;
      fired, cursor, first, s := RunDue(now, rearm, budget);
      ended := cursor == null || cursor.timeout > now;
      TrackEnd(q, since, now, rearm, |fired|, first, s);
    }

    /**
     Run what is due at `now`, from the tail on.  The callback of an entry in
     `rearm` requests the entry again, for any time; the others leave the queue
     alone.  `first` are the first runs, with their time-outs and stamps of before.
     `ended` says whether the pass is over after at most `budget` callbacks.
     */
    method ProcessExpired(now: nat, rearm: map<Entry, nat>, budget: nat)
        returns (fired: seq<Entry>, ended: bool, ghost first: seq<Item>)
      requires Valid() && forall t :: t in rearm ==> rearm[t] <= INFINITE
      modifies this, queue
      ensures Ordered() && (ended ==> Valid()) && (!ended ==> |fired| == budget)
      ensures Gone(old(queue), fired, first, rearm) && Kept(old(View(queue)), fired)
      ensures forall i :: 0 <= i < |first| ==> first[i] in old(View(queue))
      ensures Exact(old(View(queue)), now, rearm, |fired|, first, ended)
      ensures TurnExact(old(View(queue)), now, rearm, |fired|, first, ended)
    {
      ghost var q := View(queue);
      fired, ended, first := Sweep(now, rearm, budget);
      AllInTurn(q, now, rearm, |fired|, first, ended);
      OrderIn(q, |q| - 1, now, rearm);
    }
  }

  // Runs that show what requests do to a pass.

  /** Two timers, b due at 50 and a at 100. */
  function Two(a: Entry, b: Entry): seq<Item> {
    [Item(a, 100, 0), Item(b, 50, 1)]
  }

  method OneTimer() returns (c: Control, a: Entry)
    ensures fresh(c) && fresh(a) && c.Valid() && c.queue == [a] && View(c.queue) == [Item(a, 100, 0)] && c.clock == 1
  {
    c := new Control();
    a := new Entry();
    c.Request(a, 100);
    assert c.queue == [a];
  }

  method TwoTimers() returns (c: Control, a: Entry, b: Entry)
    ensures fresh(c) && fresh(a) && fresh(b) && a != b
    ensures c.Valid() && c.queue == [a, b] && View(c.queue) == Two(a, b) && c.clock == 2
  {
    c, a := OneTimer();
    b := new Entry();
    PutTwo(a, b);
    c.Request(b, 50);
    assert c.queue == [a, b];
  }

  lemma PutTwo(a: Entry, b: Entry)
    ensures Put([], Item(a, 100, 0)) == [Item(a, 100, 0)] && PlaceOf([], 100) == 0
    ensures Put([Item(a, 100, 0)], Item(b, 50, 1)) == Two(a, b) && PlaceOf([Item(a, 100, 0)], 50) == 1
  {
    var q := [Item(a, 100, 0)];
    assert q[..1] == q && q[1..] == [];
  }

  /** b asks for w when it runs: a comes next if and only if w is before the time of a. */
  lemma AfterB(a: Entry, b: Entry, w: nat)
    requires a != b
    ensures var o := Order(Two(a, b), 1, 100, map[b := w]);
            o == if w >= 100 then [Item(b, 50, 1)] else [Item(b, 50, 1), Item(a, 100, 0)]
  {
    var rest, rearm := [Item(a, 100, 0)], map[b := w];
    assert Without(Two(a, b), 1) == rest;
    assert rest[..0] == [] && PlaceOf([], w) == 0;
    assert PlaceOf(rest, w) == if w >= 100 then 0 else 1;
    assert Without(rest, 0) == [];
    assert Order(rest, 0, 100, rearm) == rest;
  }

  /** b asks for 100, when a is due too: the pass ends without having run a. */
  method LeftOut() returns (fired: seq<Entry>, ended: bool, a: Entry, b: Entry)
    ensures ended && b in fired && a !in fired && a.timeout == 100
  {
    var c;
    c, a, b := TwoTimers();
    ghost var first;
    AfterB(a, b, 100);
    assert Names([Item(b, 50, 1)]) == {b};
    fired, ended, first := c.ProcessExpired(100, map[b := 100], 9);
    assert first == [Item(b, 50, 1)];
  }

  /** b asks for priority 1: all that was due runs, although b is not the last to run. */
  method NotLeftOut() returns (fired: seq<Entry>, ended: bool, a: Entry, b: Entry)
    ensures ended && b in fired && a in fired
  {
    var c;
    c, a, b := TwoTimers();
    ghost var first;
    AfterB(a, b, 1);
    assert Names([Item(b, 50, 1), Item(a, 100, 0)]) == {a, b} by { NamesConcat([Item(b, 50, 1)], [Item(a, 100, 0)]); }
    fired, ended, first := c.ProcessExpired(100, map[b := 1], 9);
    assert first == [Item(b, 50, 1), Item(a, 100, 0)];
  }

  /** Nobody asks: by time, whatever the order of the requests. */
  method Plain() returns (fired: seq<Entry>, ended: bool, a: Entry, b: Entry)
    ensures ended && fired == [b, a]
  {
    var c;
    c, a, b := TwoTimers();
    ghost var first;
    ghost var q := View(c.queue);
    assert q[..1] == [Item(a, 100, 0)] && q[..1][..0] == [];
    assert DueInTurn(q[..1], 100) == [Item(a, 100, 0)];
    assert DueInTurn(q, 100) == [Item(b, 50, 1), Item(a, 100, 0)];
    fired, ended, first := c.ProcessExpired(100, map[], 9);
  }

  /** b passes over x to a, and a takes the pass back to x: all run, out of turn. */
  lemma OutOfTurn(a: Entry, x: Entry, b: Entry)
    requires a != x && x != b && a != b
    ensures var q := [Item(a, 100, 0), Item(x, 3, 1), Item(b, 2, 2)];
            Order(q, 2, 100, map[b := 4, a := 0]) == [q[2], q[0], q[1]]
  {
    var q, rearm := [Item(a, 100, 0), Item(x, 3, 1), Item(b, 2, 2)], map[b := 4, a := 0];
    var r, l := [q[0], q[1]], [q[1]];
    assert Without(q, 2) == r && Without(l, 0) == [];
    assert r[..0] + r[1..] == l;
    PlaceIs(r, 4, 1);
    PlaceIs(l, 0, 1);
    assert Order(l, 0, 100, rearm) == l;
    assert Order(r, 0, 100, rearm) == [q[0]] + l;
  }

  /** Both ask for priority 1: whatever the budget, the pass has not ended. */
  method NeverEnds(budget: nat) returns (ended: bool)
    ensures !ended
  {
    var c, a, b := TwoTimers();
    BothAsk(a, b);
    ghost var first;
    var fired;
    fired, ended, first := c.ProcessExpired(100, map[a := 1, b := 1], budget);
  }

  lemma BothAsk(a: Entry, b: Entry)
    requires a != b
    ensures var rearm := map[a := 1, b := 1]; !Apart(Names(Order(Two(a, b), 1, 100, rearm)), 100, rearm)
  {
    var rearm := map[a := 1, b := 1];
    assert Without(Two(a, b), 1) == [Item(a, 100, 0)];
    var o := Order(Two(a, b), 1, 100, rearm);
    assert PlaceOf([Item(a, 100, 0)], 1) == 1;
    assert Order([Item(a, 100, 0)], 0, 100, rearm)[0] == Item(a, 100, 0);
    assert o[0] == Item(b, 50, 1) && o[1] == Item(a, 100, 0);
    NamesAt(o, 0);
    NamesAt(o, 1);
    assert Share(a, b, 100, rearm);
  }
}
