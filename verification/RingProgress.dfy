/**
 What the shared-memory rings get done: from every state that any interleaving has
 led to, steps of the producers and the consumer hand over every packet and free
 every slot.
 */
module RingProgress {
  import opened Basics
  import opened ShmRing
  import Shifts

  // ---- one packet is handed over ------------------------------------------------------------

  /** A polling consumer that finds the slot at the head ready hands over that packet. */
  lemma TakeHands(s: Shm)
    requires Reached(s) && s.cons.Polling? && s.head < |s.ring| && s.ring[s.head].flag.Ready?
    ensures Shaped(s) && s.freed < |s.log| && Step(s, Take).Some?
    ensures var s' := Step(s, Take).value; s'.cons.Handling? && s'.taken == s.taken + [s.log[s.freed].pkt]
  {
    ReachedInv(s);
    TakeKeepsInv(s);
    assert At(s.ring, s.freed).flag.Ready?;
  }

  // ---- no bulk slot is lost ---------------------------------------------------------------------

  ghost predicate HeldByProducer(prods: seq<Producer>, b: Place) {
    exists p :: 0 <= p < |prods| && Holds(prods[p]) == Some(b)
  }

  ghost predicate HeldByEntry(log: seq<Entry>, held: nat, b: Place) {
    exists k :: held <= k < |log| && log[k].bulk == Some(b)
  }

  /** A bulk slot that is not free is held by a producer, or named by a packet that has not been dealt with. */
  ghost predicate Accounted(s: Shm, b: Place) {
    b in s.bulk && !s.bulk[b].flag.Free? ==> HeldByProducer(s.prods, b) || HeldByEntry(s.log, Held(s), b)
  }

  /** Producer p changes, and what it holds does not. */
  lemma SameHolder(prods: seq<Producer>, p: nat, w: Producer, b: Place)
    requires p < |prods| && HeldByProducer(prods, b) && (Holds(prods[p]) == Some(b) ==> Holds(w) == Some(b))
    ensures HeldByProducer(prods[p := w], b)
  {
    var q :| 0 <= q < |prods| && Holds(prods[q]) == Some(b);
    assert Holds(prods[p := w][q]) == Some(b);
  }

  lemma ProducerAccounted(s: Shm, s': Shm, p: nat, b: Place)
    requires p < |s.prods| == |s'.prods| && Accounted(s, b) && s'.prods == s.prods[p := s'.prods[p]]
    requires s'.log == s.log && Held(s') == Held(s)
    requires b in s'.bulk && !s'.bulk[b].flag.Free? ==>
               Holds(s'.prods[p]) == Some(b) || (b in s.bulk && !s.bulk[b].flag.Free?)
    requires Holds(s.prods[p]) == Some(b) ==> Holds(s'.prods[p]) == Some(b)
    ensures Accounted(s', b)
  {
    if b in s'.bulk && !s'.bulk[b].flag.Free? {
      if Holds(s'.prods[p]) != Some(b) && HeldByProducer(s.prods, b) { SameHolder(s.prods, p, s'.prods[p], b); }
    }
  }

  lemma GrabAccounted(s: Shm, p: nat, b: Place)
    requires Inv(s) && p < |s.prods| && Accounted(s, b)
    ensures Accounted(DoGrabShort(s, p), b)
  {
    var s', w := DoGrabShort(s, p), s.prods[p];
    if w.WantShort? && s.ring[s.tail].flag.Free? {
      if HeldByEntry(s.log, Held(s), b) {
        var k :| Held(s) <= k < |s.log| && s.log[k].bulk == Some(b);
        assert s'.log[k].bulk == Some(b);
      } else if w.bulk == Some(b) {
        assert s'.log[|s.log|].bulk == Some(b) && Held(s) <= |s.log|;
      } else if HeldByProducer(s.prods, b) {
        SameHolder(s.prods, p, s'.prods[p], b);
      }
    }
  }

  lemma ConsumerAccounted(s: Shm, s': Shm, b: Place)
    requires Inv(s) && Accounted(s, b) && (s' == DoFreeBulk(s) || s' == DoAdvance(s))
    ensures Accounted(s', b)
  {
    if s' != s {
      assert EntryOk(s.ring, s.prods, s.log[s.freed], s.freed);
      if HeldByEntry(s.log, Held(s), b) && b in s'.bulk && !s'.bulk[b].flag.Free? {
        var k :| Held(s) <= k < |s.log| && s.log[k].bulk == Some(b);
        assert s'.log[k].bulk == Some(b) && k != s.freed;
      }
    }
  }

  lemma GrabBulkAccounted(s: Shm, p: nat, b: Place)
    requires Inv(s) && Accounted(s, b) && p < |s.prods|
    ensures Accounted(DoGrabBulk(s, p), b)
  {
    ProducerAccounted(s, DoGrabBulk(s, p), p, b);
  }

  lemma FillBulkAccounted(s: Shm, p: nat, b: Place)
    requires Inv(s) && Accounted(s, b) && p < |s.prods|
    ensures Accounted(DoWriteBulk(s, p), b) && Accounted(DoBulkReady(s, p), b)
  {
    ProducerAccounted(s, DoWriteBulk(s, p), p, b);
    ProducerAccounted(s, DoBulkReady(s, p), p, b);
  }

  lemma ShortStepAccounted(s: Shm, ev: Event, b: Place)
    requires Inv(s) && Accounted(s, b) && (ev.Begin? || ev.WriteShort? || ev.ShortReady?) && ev.p < |s.prods|
    ensures Accounted(Step(s, ev).value, b)
  {
    ProducerAccounted(s, Step(s, ev).value, ev.p, b);
  }

  lemma StepAccounted(s: Shm, ev: Event, b: Place)
    requires Inv(s) && Accounted(s, b) && Step(s, ev).Some?
    ensures Accounted(Step(s, ev).value, b)
  {
    if ev.Take? {
    } else if ev.FreeBulk? || ev.Advance? {
      ConsumerAccounted(s, Step(s, ev).value, b);
    } else if ev.p < |s.prods| {
      if ev.GrabShort? { GrabAccounted(s, ev.p, b); }
      else if ev.GrabBulk? { GrabBulkAccounted(s, ev.p, b); }
      else if ev.WriteBulk? || ev.BulkReady? { FillBulkAccounted(s, ev.p, b); }
      else { ShortStepAccounted(s, ev, b); }
    }
  }

  lemma FirstStep(s: Shm, evs: seq<Event>, f: Shm) returns (s': Shm)
    requires Inv(s) && evs != [] && Run(s, evs) == Some(f)
    ensures Step(s, evs[0]) == Some(s') && Inv(s') && Run(s', evs[1..]) == Some(f)
  {
    s' := Step(s, evs[0]).value;
    StepKeepsInv(s, evs[0]);
  }

  lemma {:induction false} RunAccounted(s: Shm, evs: seq<Event>, f: Shm, b: Place)
    requires Inv(s) && Accounted(s, b) && Run(s, evs) == Some(f)
    ensures Accounted(f, b)
    decreases |evs|
  {
    if evs != [] {
      var s' := FirstStep(s, evs, f);
      StepAccounted(s, evs[0], b);
      RunAccounted(s', evs[1..], f, b);
    }
  }

  ghost predicate NoLeak(s: Shm) { forall b :: b in s.bulk ==> Accounted(s, b) }

  lemma ReachedNoLeak(s: Shm)
    requires Reached(s)
    ensures NoLeak(s)
  {
    var s0, evs :| Fresh(s0) && Run(s0, evs) == Some(s);
    FreshInv(s0);
    forall b | b in s.bulk ensures Accounted(s, b) { RunAccounted(s0, evs, s, b); }
  }

  // ---- how much is left to do ----------------------------------------------------------------

  function Left(w: Producer): int {
    match w
    case Idle => 0
    case WantBulk(pkt) => |pkt.payload| + |pkt.words| + 9
    case FillBulk(pkt, _, n) => |pkt.payload| - n + |pkt.words| + 8
    case WantShort(pkt, _) => |pkt.words| + 6
    case FillShort(pkt, _, _, n) => |pkt.words| + 2 - n
  }

  function AllLeft(prods: seq<Producer>): int {
    if prods == [] then 0 else AllLeft(prods[..|prods| - 1]) + Left(prods[|prods| - 1])
  }

  function ConsumerLeft(s: Shm): int {
    3 * (|s.log| - s.freed) - if s.cons.Polling? then 0 else if s.cons.Handling? then 1 else 2
  }

  /** Steps until all is handed over. */
  function Work(s: Shm): int { AllLeft(s.prods) + ConsumerLeft(s) }

  lemma {:induction false} LeftUpdate(prods: seq<Producer>, p: nat, w: Producer)
    requires p < |prods|
    ensures AllLeft(prods[p := w]) == AllLeft(prods) - Left(prods[p]) + Left(w)
    decreases |prods|
  {
    var n := |prods| - 1;
    if p == n {
      assert prods[p := w][..n] == prods[..n];
    } else {
      LeftUpdate(prods[..n], p, w);
      assert prods[p := w][..n] == prods[..n][p := w];
    }
  }

  lemma {:induction false} AllLeftNat(s: Shm, n: nat)
    requires |s.ring| > 0 && Producers(s) && n <= |s.prods|
    ensures AllLeft(s.prods[..n]) >= 0
    decreases n
  {
    if n > 0 {
      AllLeftNat(s, n - 1);
      assert s.prods[..n][..n - 1] == s.prods[..n - 1];
      assert ProducerOk(s, s.prods[n - 1]);
    }
  }

  lemma WorkNat(s: Shm)
    requires Inv(s)
    ensures Work(s) >= 0
  {
    AllLeftNat(s, |s.prods|);
    assert s.prods[..|s.prods|] == s.prods;
  }

  // ---- somebody can always go on -----------------------------------------------------------------

  /** Everything has been handed over. */
  ghost predicate AtRest(s: Shm) {
    s.cons.Polling? && s.freed == |s.log| && forall p :: 0 <= p < |s.prods| ==> s.prods[p].Idle?
  }

  /** An event that is no new send and brings the rings closer to rest. */
  ghost predicate Moves(s: Shm, ev: Event) {
    Shaped(s) && !ev.Begin? && Step(s, ev).Some? && Work(Step(s, ev).value) < Work(s)
  }

  lemma FillerMoves(s: Shm, p: nat) returns (ev: Event)
    requires Inv(s) && p < |s.prods| && (s.prods[p].FillBulk? || s.prods[p].FillShort?)
    ensures Moves(s, ev)
  {
    var w := s.prods[p];
    assert ProducerOk(s, w);
    if w.FillBulk? {
      ev := if w.n <= |w.pkt.payload| then WriteBulk(p) else BulkReady(p);
      BulkFillMoves(s, p, ev);
    } else {
      ev := if w.n <= |w.pkt.words| then WriteShort(p) else ShortReady(p);
      ShortFillMoves(s, p, ev);
    }
  }

  lemma BulkFillMoves(s: Shm, p: nat, ev: Event)
    requires Shaped(s) && p < |s.prods| && s.prods[p].FillBulk? && ProducerOk(s, s.prods[p])
    requires ev == if s.prods[p].n <= |s.prods[p].pkt.payload| then WriteBulk(p) else BulkReady(p)
    ensures Moves(s, ev)
  {
    LeftUpdate(s.prods, p, Step(s, ev).value.prods[p]);
  }

  lemma ShortFillMoves(s: Shm, p: nat, ev: Event)
    requires Shaped(s) && p < |s.prods| && s.prods[p].FillShort? && ProducerOk(s, s.prods[p])
    requires ev == if s.prods[p].n <= |s.prods[p].pkt.words| then WriteShort(p) else ShortReady(p)
    ensures Moves(s, ev)
  {
    LeftUpdate(s.prods, p, Step(s, ev).value.prods[p]);
  }

  lemma ConsumerMoves(s: Shm) returns (ev: Event)
    requires Inv(s) && s.freed < |s.log| && (s.cons.Polling? ==> s.ring[s.head].flag.Ready?)
    ensures Moves(s, ev)
  {
    assert EntryOk(s.ring, s.prods, s.log[s.freed], s.freed);
    if s.cons.Polling? {
      TakeKeepsInv(s);
      ev := Take;
    } else {
      if s.cons.Handling? { assert Carries(s.bulk, s.log[s.freed].pkt, s.log[s.freed].bulk); }
      ev := if s.cons.Handling? && s.ring[s.head].bulk.Some? then FreeBulk else Advance;
    }
  }

  /** Once the ring is empty, a producer that waits for a short slot gets it. */
  lemma ShortMoves(s: Shm, p: nat) returns (ev: Event)
    requires Inv(s) && s.freed == |s.log| && p < |s.prods| && s.prods[p].WantShort?
    ensures Moves(s, ev)
  {
    assert At(s.ring, |s.log|).flag.Free?;
    ev := GrabShort(p);
    LeftUpdate(s.prods, p, Step(s, ev).value.prods[p]);
  }

  /** And once no other producer holds a bulk slot, one that waits for such a slot gets it. */
  lemma BulkMoves(s: Shm, p: nat) returns (ev: Event)
    requires Inv(s) && NoLeak(s) && s.freed == |s.log| && s.cons.Polling? && p < |s.prods| && s.prods[p].WantBulk?
    requires forall q :: 0 <= q < |s.prods| ==> Holds(s.prods[q]).None?
    ensures Moves(s, ev)
  {
    assert ProducerOk(s, s.prods[p]);
    var c := s.prods[p].pkt.kind.value;
    var b := Place(c, s.btail[c]);
    assert b in s.bulk && Accounted(s, b);
    ev := GrabBulk(p);
    LeftUpdate(s.prods, p, Step(s, ev).value.prods[p]);
  }

  lemma EmptyRingMoves(s: Shm) returns (ev: Event)
    requires Inv(s) && NoLeak(s) && s.freed == |s.log| && s.cons.Polling? && !AtRest(s)
    ensures Moves(s, ev)
  {
    if p :| 0 <= p < |s.prods| && (s.prods[p].FillBulk? || s.prods[p].FillShort?) {
      ev := FillerMoves(s, p);
    } else if p :| 0 <= p < |s.prods| && s.prods[p].WantShort? {
      ev := ShortMoves(s, p);
    } else {
      var p :| 0 <= p < |s.prods| && !s.prods[p].Idle?;
      ev := BulkMoves(s, p);
    }
  }

  lemma SomeoneMoves(s: Shm) returns (ev: Event)
    requires Inv(s) && NoLeak(s) && !AtRest(s)
    ensures Moves(s, ev)
  {
    if s.freed < |s.log| {
      assert !At(s.ring, s.freed).flag.Free? && EntryOk(s.ring, s.prods, s.log[s.freed], s.freed);
      if s.ring[s.head].flag.Used? {
        ev := FillerMoves(s, s.log[s.freed].who);
      } else {
        ev := ConsumerMoves(s);
      }
    } else {
      ev := EmptyRingMoves(s);
    }
  }

  // ---- every run can be brought to rest -------------------------------------------------------------

  ghost predicate NoSends(evs: seq<Event>) { forall i :: 0 <= i < |evs| ==> !evs[i].Begin? }

  lemma StepNoLeak(s: Shm, ev: Event, s': Shm)
    requires Inv(s) && NoLeak(s) && Step(s, ev) == Some(s')
    ensures NoLeak(s') && Inv(s')
  {
    StepKeepsInv(s, ev);
    forall b | b in s'.bulk ensures Accounted(s', b) { StepAccounted(s, ev, b); }
  }

  lemma BegunStays(s: Shm, ev: Event, s': Shm)
    requires Shaped(s) && !ev.Begin? && Step(s, ev) == Some(s')
    ensures s'.begun == s.begun
  {
  }

  lemma RunFirst(s: Shm, ev: Event, s': Shm, evs: seq<Event>)
    requires Shaped(s) && Step(s, ev) == Some(s')
    ensures Run(s, [ev] + evs) == Run(s', evs)
  {
    assert ([ev] + evs)[1..] == evs;
  }

  lemma {:induction false} ComesToRest(s: Shm) returns (evs: seq<Event>, f: Shm)
    requires Inv(s) && NoLeak(s) && InSendOrder(s)
    ensures NoSends(evs) && Run(s, evs) == Some(f)
    ensures Inv(f) && NoLeak(f) && InSendOrder(f) && AtRest(f) && f.begun == s.begun
    decreases Work(s)
  {
    WorkNat(s);
    if AtRest(s) {
      evs, f := [], s;
    } else {
      var ev := SomeoneMoves(s);
      var s' := Step(s, ev).value;
      StepNoLeak(s, ev, s');
      StepKeepsSendOrder(s, ev);
      BegunStays(s, ev, s');
      WorkNat(s');
      var rest;
      rest, f := ComesToRest(s');
      RunFirst(s, ev, s', rest);
      evs := [ev] + rest;
    }
  }

  /** The packets of producer p among those taken. */
  function TakenOf(log: seq<Entry>, taken: seq<Packet>, p: nat): seq<Packet>
    requires |taken| <= |log|
  {
    if taken == [] then []
    else TakenOf(log, taken[..|taken| - 1], p)
         + if log[|taken| - 1].who == p then [taken[|taken| - 1]] else []
  }

  lemma {:induction false} TakenOfLogged(log: seq<Entry>, taken: seq<Packet>, p: nat)
    requires |taken| <= |log| && forall k :: 0 <= k < |taken| ==> taken[k] == log[k].pkt
    ensures TakenOf(log, taken, p) == OfProducer(log[..|taken|], p)
    decreases |taken|
  {
    if taken != [] {
      var n := |taken| - 1;
      TakenOfLogged(log, taken[..n], p);
      assert log[..n + 1][..n] == log[..n];
    }
  }

  /** At rest all is free, and what each producer set out to send has been handed over. */
  lemma RestIsDone(f: Shm)
    requires Inv(f) && NoLeak(f) && InSendOrder(f) && AtRest(f)
    ensures |f.taken| == |f.log|
    ensures forall i :: 0 <= i < |f.ring| ==> f.ring[i].flag.Free?
    ensures forall b :: b in f.bulk ==> f.bulk[b].flag.Free?
    ensures forall p :: 0 <= p < |f.prods| ==> TakenOf(f.log, f.taken, p) == f.begun[p]
  {
    forall i | 0 <= i < |f.ring| ensures f.ring[i].flag.Free? { RingFree(f, i); }
    forall b | b in f.bulk ensures f.bulk[b].flag.Free? { assert Accounted(f, b); }
    forall p | 0 <= p < |f.prods| ensures TakenOf(f.log, f.taken, p) == f.begun[p] {
      TakenOfLogged(f.log, f.taken, p);
      assert f.log[..|f.log|] == f.log;
    }
  }

  /** Every slot is one of the next |ring| in turn. */
  lemma RingFree(f: Shm, i: nat)
    requires |f.ring| > 0 && Window(f.ring, f.tail, f.head, f.freed, |f.log|) && f.freed == |f.log| && i < |f.ring|
    ensures f.ring[i].flag.Free?
  {
    var n, h := |f.ring|, f.freed % |f.ring|;
    var k := if h <= i then f.freed - h + i else f.freed - h + i + n;
    SlotOf(f.freed, n, k, i);
    assert At(f.ring, k).flag.Free?;
  }

  lemma SlotOf(freed: nat, n: nat, k: nat, i: nat)
    requires n > 0 && i < n && k == if freed % n <= i then freed - freed % n + i else freed - freed % n + i + n
    ensures freed <= k < freed + n && k % n == i
  {
    var q := freed / n;
    assert freed == q * n + freed % n;
    if freed % n <= i {
      Shifts.DivUnique(k, n, q, i);
    } else {
      assert k == q * n + n + i == (q + 1) * n + i;
      Shifts.DivUnique(k, n, q + 1, i);
    }
  }

  /**
   From every state that any interleaving has led to, steps of the producers and of
   the consumer lead to rest: each producer's packets have been handed over, all of
   them and in order, and every slot is free.
   */
  lemma Settles(s: Shm) returns (evs: seq<Event>, f: Shm)
    requires Reached(s)
    ensures NoSends(evs) && Run(s, evs) == Some(f) && f.begun == s.begun && |f.prods| == |s.begun|
    ensures |f.taken| == |f.log| && forall p :: 0 <= p < |f.prods| ==> f.prods[p].Idle?
    ensures forall p :: 0 <= p < |f.prods| ==> TakenOf(f.log, f.taken, p) == s.begun[p]
    ensures forall i :: 0 <= i < |f.ring| ==> f.ring[i].flag.Free?
    ensures forall b :: b in f.bulk ==> f.bulk[b].flag.Free?
  {
    ReachedInv(s);
    ReachedNoLeak(s);
    evs, f := ComesToRest(s);
    RestIsDone(f);
  }

  // ---- what producers set out to send is what they were given --------------------------------------

  /** The packet of producer p that a step accepts. */
  function Accepts(s: Shm, ev: Event, p: nat): seq<Packet>
    requires p < |s.prods|
  {
    if ev.Begin? && ev.p == p && s.prods[p].Idle? && Fits(s.lay, ev.pkt) then [ev.pkt] else []
  }

  ghost function AllAccepted(s: Shm, evs: seq<Event>, p: nat): seq<Packet>
    decreases |evs|
  {
    if evs == [] || p >= |s.prods| || !Shaped(s) || Step(s, evs[0]).None? then []
    else Accepts(s, evs[0], p) + AllAccepted(Step(s, evs[0]).value, evs[1..], p)
  }

  lemma StepBegins(s: Shm, ev: Event, s': Shm, p: nat)
    requires Shaped(s) && Step(s, ev) == Some(s') && p < |s.prods|
    ensures |s'.prods| == |s.prods| == |s'.begun| && s'.begun[p] == s.begun[p] + Accepts(s, ev, p)
  {
  }

  /** What producer p has begun are the packets it was given, each while it was idle, in turn. */
  lemma {:induction false} RunBegins(s: Shm, evs: seq<Event>, f: Shm, p: nat)
    requires Inv(s) && Run(s, evs) == Some(f) && p < |s.prods|
    ensures |f.begun| == |s.prods| && f.begun[p] == s.begun[p] + AllAccepted(s, evs, p)
    decreases |evs|
  {
    if evs != [] {
      var s' := FirstStep(s, evs, f);
      StepBegins(s, evs[0], s', p);
      RunBegins(s', evs[1..], f, p);
      Joined(f.begun[p], s'.begun[p], s.begun[p], Accepts(s, evs[0], p), AllAccepted(s', evs[1..], p));
    }
  }

  lemma Joined(t': seq<Packet>, t1: seq<Packet>, t: seq<Packet>, a: seq<Packet>, b: seq<Packet>)
    requires t' == t1 + b && t1 == t + a
    ensures t' == t + (a + b)
  {
  }
}
