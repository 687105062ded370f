/**
 The shared-memory packet queues: one ring of short packets with many producers
 and one consumer, and rings of bulk slots that short packets refer to.

 Every access to shared memory is one step; a spin-locked section is one step.
 Steps of different processes interleave freely.  `log` lists packets in the
 order in which their short slots were reserved, `taken` lists what the
 consumer handed to its handlers, `begun` what each producer set out to send.
 */
module ShmRing {
  import opened Basics
  import opened Shifts

  datatype Flag = Free | Used | Ready

  /** `kind` selects the bulk ring (medium, long or huge) when the payload does not fit inline. */
  datatype Packet = Packet(words: seq<int>, kind: Option<nat>, payload: seq<int>)

  /** A slot of a bulk ring. */
  datatype Place = Place(kind: nat, idx: nat)

  /** Slot memory keeps stale contents until it is overwritten, word by word. */
  datatype Short = Short(flag: Flag, mem: seq<int>, len: nat, bulk: Option<Place>)
  datatype Bulk = Bulk(flag: Flag, mem: seq<int>, len: nat)

  /**
   Where a producer is in sending one packet: `n` counts the writes made to the
   slot it holds, `ticket` is the packet's position in the log.
   */
  datatype Producer =
    | Idle
    | WantBulk(pkt: Packet)
    | FillBulk(pkt: Packet, at: Place, n: nat)
    | WantShort(pkt: Packet, bulk: Option<Place>)
    | FillShort(pkt: Packet, bulk: Option<Place>, ticket: nat, n: nat)

  datatype Entry = Entry(who: nat, pkt: Packet, bulk: Option<Place>)

  /** The consumer is between packets, running a handler, or has also released the bulk slot. */
  datatype Consumer = Polling | Handling | Released

  /** Slot sizes of the short ring and slot counts and sizes of the bulk rings. */
  datatype Layout = Layout(cap: nat, bcount: seq<nat>, bcap: seq<nat>)

  datatype Shm = Shm(lay: Layout, ring: seq<Short>, tail: nat, head: nat,
                     bulk: map<Place, Bulk>, btail: seq<nat>,
                     prods: seq<Producer>, cons: Consumer,
                     log: seq<Entry>, freed: nat, taken: seq<Packet>, begun: seq<seq<Packet>>)

  datatype Event =
    | Begin(p: nat, pkt: Packet)
    | GrabBulk(p: nat)
    | WriteBulk(p: nat)
    | BulkReady(p: nat)
    | GrabShort(p: nat)
    | WriteShort(p: nat)
    | ShortReady(p: nat)
    | Take
    | FreeBulk
    | Advance

  function Next(i: nat, n: nat): nat { if i + 1 == n then 0 else i + 1 }

  /** The packet fits the slots it will travel in. */
  predicate Fits(lay: Layout, pkt: Packet) {
    && |pkt.words| <= lay.cap
    && match pkt.kind
       case None => pkt.payload == []
       case Some(c) => c < |lay.bcap| && |pkt.payload| <= lay.bcap[c]
  }

  ghost predicate BulkShaped(lay: Layout, bulk: map<Place, Bulk>, btail: seq<nat>) {
    && |btail| == |lay.bcount| == |lay.bcap|
    && (forall c :: 0 <= c < |btail| ==> btail[c] < lay.bcount[c])
    && (forall b :: b in bulk <==> b.kind < |lay.bcount| && b.idx < lay.bcount[b.kind])
    && (forall b :: b in bulk ==> |bulk[b].mem| == lay.bcap[b.kind])
  }

  ghost predicate Shaped(s: Shm) {
    && |s.ring| > 0 && s.tail < |s.ring| && s.head < |s.ring| && |s.begun| == |s.prods|
    && (forall i :: 0 <= i < |s.ring| ==> |s.ring[i].mem| == s.lay.cap)
    && BulkShaped(s.lay, s.bulk, s.btail)
  }

  // ---- steps -----------------------------------------------------------------

  function DoBegin(s: Shm, p: nat, pkt: Packet): Shm
    requires Shaped(s) && p < |s.prods|
  {
    if s.prods[p].Idle? && Fits(s.lay, pkt) then
      s.(prods := s.prods[p := if pkt.kind.Some? then WantBulk(pkt) else WantShort(pkt, None)],
         begun := s.begun[p := s.begun[p] + [pkt]])
    else s
  }

  /** Reserve the bulk slot at the tail if it is free, whatever the state of the others. */
  function DoGrabBulk(s: Shm, p: nat): Shm
    requires Shaped(s) && p < |s.prods|
  {
    var w := s.prods[p];
    if w.WantBulk? && w.pkt.kind.Some? && w.pkt.kind.value < |s.btail| then
      var c := w.pkt.kind.value;
      var b := Place(c, s.btail[c]);
      if s.bulk[b].flag.Free? then
        s.(prods := s.prods[p := FillBulk(w.pkt, b, 0)],
           bulk := s.bulk[b := s.bulk[b].(flag := Used)],
           btail := s.btail[c := Next(s.btail[c], s.lay.bcount[c])])
      else s
    else s
  }

  /** Write the next payload byte, or the length once all bytes are in place. */
  function DoWriteBulk(s: Shm, p: nat): Shm
    requires Shaped(s) && p < |s.prods|
  {
    var w := s.prods[p];
    if w.FillBulk? && w.at in s.bulk && w.n <= |w.pkt.payload| then
      var x := s.bulk[w.at];
      if w.n == |w.pkt.payload| then
        s.(prods := s.prods[p := FillBulk(w.pkt, w.at, w.n + 1)], bulk := s.bulk[w.at := x.(len := w.n)])
      else if w.n < |x.mem| then
        s.(prods := s.prods[p := FillBulk(w.pkt, w.at, w.n + 1)],
           bulk := s.bulk[w.at := x.(mem := x.mem[w.n := w.pkt.payload[w.n]])])
      else s
    else s
  }

  function DoBulkReady(s: Shm, p: nat): Shm
    requires Shaped(s) && p < |s.prods|
  {
    var w := s.prods[p];
    if w.FillBulk? && w.at in s.bulk && w.n == |w.pkt.payload| + 1 then
      s.(prods := s.prods[p := WantShort(w.pkt, Some(w.at))], bulk := s.bulk[w.at := s.bulk[w.at].(flag := Ready)])
    else s
  }

  function DoGrabShort(s: Shm, p: nat): Shm
    requires Shaped(s) && p < |s.prods|
  {
    var w := s.prods[p];
    if w.WantShort? && s.ring[s.tail].flag.Free? then
      s.(prods := s.prods[p := FillShort(w.pkt, w.bulk, |s.log|, 0)],
         ring := s.ring[s.tail := s.ring[s.tail].(flag := Used)], tail := Next(s.tail, |s.ring|),
         log := s.log + [Entry(p, w.pkt, w.bulk)])
    else s
  }

  /** Write the header first, then the arguments one at a time. */
  function DoWriteShort(s: Shm, p: nat): Shm
    requires Shaped(s) && p < |s.prods|
  {
    var w := s.prods[p];
    if w.FillShort? && w.n <= |w.pkt.words| then
      var i := w.ticket % |s.ring|;
      var x := s.ring[i];
      var next := FillShort(w.pkt, w.bulk, w.ticket, w.n + 1);
      if w.n == 0 then
        s.(prods := s.prods[p := next], ring := s.ring[i := x.(len := |w.pkt.words|, bulk := w.bulk)])
      else if w.n - 1 < |x.mem| then
        s.(prods := s.prods[p := next], ring := s.ring[i := x.(mem := x.mem[w.n - 1 := w.pkt.words[w.n - 1]])])
      else s
    else s
  }

  function DoShortReady(s: Shm, p: nat): Shm
    requires Shaped(s) && p < |s.prods|
  {
    var w := s.prods[p];
    if w.FillShort? && w.n == |w.pkt.words| + 1 then
      var i := w.ticket % |s.ring|;
      s.(prods := s.prods[p := Idle], ring := s.ring[i := s.ring[i].(flag := Ready)])
    else s
  }

  predicate Readable(bulk: map<Place, Bulk>, x: Short) {
    && x.len <= |x.mem|
    && (x.bulk.Some? ==>
          x.bulk.value in bulk && bulk[x.bulk.value].flag.Ready? && bulk[x.bulk.value].len <= |bulk[x.bulk.value].mem|)
  }

  /** The packet a ready short slot stands for, as the consumer reads it. */
  function ReadPacket(bulk: map<Place, Bulk>, x: Short): Packet
    requires Readable(bulk, x)
  {
    match x.bulk
    case None => Packet(x.mem[..x.len], None, [])
    case Some(b) => Packet(x.mem[..x.len], Some(b.kind), bulk[b].mem[..bulk[b].len])
  }

  /** None stands for a read of a bulk slot that is not ready, or past the end of a slot. */
  function DoTake(s: Shm): Option<Shm>
    requires Shaped(s)
  {
    var x := s.ring[s.head];
    if !(s.cons.Polling? && x.flag.Ready?) then Some(s)
    else if Readable(s.bulk, x) then Some(s.(cons := Handling, taken := s.taken + [ReadPacket(s.bulk, x)]))
    else None
  }

  function DoFreeBulk(s: Shm): Shm
    requires Shaped(s)
  {
    var x := s.ring[s.head];
    if s.cons.Handling? && x.bulk.Some? && x.bulk.value in s.bulk then
      s.(bulk := s.bulk[x.bulk.value := s.bulk[x.bulk.value].(flag := Free)], cons := Released)
    else s
  }

  function DoAdvance(s: Shm): Shm
    requires Shaped(s)
  {
    if s.cons.Released? || (s.cons.Handling? && s.ring[s.head].bulk.None?) then
      s.(ring := s.ring[s.head := s.ring[s.head].(flag := Free)], head := Next(s.head, |s.ring|),
         cons := Polling, freed := s.freed + 1)
    else s
  }

  function Step(s: Shm, ev: Event): Option<Shm>
    requires Shaped(s)
  {
    if ev.Take? then DoTake(s)
    else if ev.FreeBulk? then Some(DoFreeBulk(s))
    else if ev.Advance? then Some(DoAdvance(s))
    else if ev.p >= |s.prods| then Some(s)
    else match ev
      case Begin(p, pkt) => Some(DoBegin(s, p, pkt))
      case GrabBulk(p) => Some(DoGrabBulk(s, p))
      case WriteBulk(p) => Some(DoWriteBulk(s, p))
      case BulkReady(p) => Some(DoBulkReady(s, p))
      case GrabShort(p) => Some(DoGrabShort(s, p))
      case WriteShort(p) => Some(DoWriteShort(s, p))
      case ShortReady(p) => Some(DoShortReady(s, p))
  }

  // ---- invariant ---------------------------------------------------------------

  /** The slot of log entry k. */
  function At(ring: seq<Short>, k: nat): Short
    requires |ring| > 0
  {
    ring[k % |ring|]
  }

  /** The occupied slots are exactly the circular range from head to tail. */
  ghost predicate Window(ring: seq<Short>, tail: nat, head: nat, freed: nat, logged: nat)
    requires |ring| > 0
  {
    && freed <= logged <= freed + |ring|
    && tail == logged % |ring| && head == freed % |ring|
    && (forall k {:trigger At(ring, k)} :: freed <= k < freed + |ring| ==> (At(ring, k).flag.Free? <==> logged <= k))
  }

  /** An occupied slot is being filled by the producer that reserved it, or holds its packet. */
  ghost predicate EntryOk(ring: seq<Short>, prods: seq<Producer>, e: Entry, k: nat)
    requires |ring| > 0
  {
    var x := At(ring, k);
    && e.who < |prods|
    && (x.flag.Used? ==> prods[e.who].FillShort? && prods[e.who].ticket == k)
    && (x.flag.Ready? ==> x.len == |e.pkt.words| <= |x.mem| && x.mem[..x.len] == e.pkt.words && x.bulk == e.bulk)
  }

  function Upto(n: nat, len: nat): nat { if n <= len then n else len }

  /** The payload, if it travels in a bulk slot, stands there complete. */
  ghost predicate Carries(bulk: map<Place, Bulk>, pkt: Packet, at: Option<Place>) {
    match at
    case None => pkt.kind.None? && pkt.payload == []
    case Some(b) =>
      && b in bulk && pkt.kind == Some(b.kind) && bulk[b].flag.Ready?
      && bulk[b].len == |pkt.payload| <= |bulk[b].mem| && bulk[b].mem[..bulk[b].len] == pkt.payload
  }

  ghost predicate FillingBulk(bulk: map<Place, Bulk>, pkt: Packet, b: Place, n: nat) {
    && b in bulk && pkt.kind == Some(b.kind) && n <= |pkt.payload| + 1 && bulk[b].flag.Used?
    && |pkt.payload| <= |bulk[b].mem|
    && bulk[b].mem[..Upto(n, |pkt.payload|)] == pkt.payload[..Upto(n, |pkt.payload|)]
    && (n == |pkt.payload| + 1 ==> bulk[b].len == |pkt.payload|)
  }

  ghost predicate FillingShort(ring: seq<Short>, pkt: Packet, at: Option<Place>, k: nat, n: nat)
    requires |ring| > 0
  {
    var x := At(ring, k);
    && x.flag.Used? && n <= |pkt.words| + 1 && |pkt.words| <= |x.mem|
    && (n > 0 ==> x.len == |pkt.words| && x.bulk == at && x.mem[..n - 1] == pkt.words[..n - 1])
  }

  /** What a producer has achieved so far, apart from its log entry. */
  ghost predicate ProducerOk(s: Shm, w: Producer)
    requires |s.ring| > 0
  {
    match w
    case Idle => true
    case WantBulk(pkt) => Fits(s.lay, pkt) && pkt.kind.Some?
    case FillBulk(pkt, b, n) => Fits(s.lay, pkt) && FillingBulk(s.bulk, pkt, b, n)
    case WantShort(pkt, at) => Fits(s.lay, pkt) && Carries(s.bulk, pkt, at)
    case FillShort(pkt, at, k, n) => FillingShort(s.ring, pkt, at, k, n)
  }

  /** First log entry whose bulk slot has not been given back. */
  function Held(s: Shm): nat { if s.cons.Released? then s.freed + 1 else s.freed }

  /** The bulk slot a producer holds before its packet is in the log. */
  function Holds(w: Producer): Option<Place> {
    match w
    case FillBulk(_, b, _) => Some(b)
    case WantShort(_, b) => b
    case _ => None
  }

  /** No bulk slot is held twice, by producers or by outstanding packets. */
  ghost predicate Exclusive(prods: seq<Producer>, log: seq<Entry>, held: nat) {
    && (forall p, q :: 0 <= p < q < |prods| && Holds(prods[p]).Some? ==> Holds(prods[p]) != Holds(prods[q]))
    && (forall k, j :: held <= k < j < |log| && log[k].bulk.Some? ==> log[k].bulk != log[j].bulk)
    && (forall p, k :: 0 <= p < |prods| && held <= k < |log| && log[k].bulk.Some? ==> Holds(prods[p]) != log[k].bulk)
  }

  /** Each producer filling a short slot owns the log entry its ticket names. */
  ghost predicate Tickets(prods: seq<Producer>, log: seq<Entry>, freed: nat) {
    forall p :: 0 <= p < |prods| && prods[p].FillShort? ==>
      && freed <= prods[p].ticket < |log|
      && log[prods[p].ticket] == Entry(p, prods[p].pkt, prods[p].bulk)
  }

  ghost predicate ConsumerOk(s: Shm)
    requires |s.ring| > 0
  {
    && |s.taken| == (if s.cons.Polling? then s.freed else s.freed + 1) && |s.taken| <= |s.log|
    && (!s.cons.Polling? ==> At(s.ring, s.freed).flag.Ready?)
    && (s.cons.Released? ==> s.log[s.freed].bulk.Some?)
    && (forall k :: 0 <= k < |s.taken| ==> s.taken[k] == s.log[k].pkt)
  }

  ghost predicate Entries(ring: seq<Short>, prods: seq<Producer>, log: seq<Entry>, freed: nat)
    requires |ring| > 0
  {
    forall k :: freed <= k < |log| ==> EntryOk(ring, prods, log[k], k)
  }

  ghost predicate Producers(s: Shm)
    requires |s.ring| > 0
  {
    forall p :: 0 <= p < |s.prods| ==> ProducerOk(s, s.prods[p])
  }

  ghost predicate Cargo(bulk: map<Place, Bulk>, log: seq<Entry>, held: nat) {
    forall k :: held <= k < |log| ==> Carries(bulk, log[k].pkt, log[k].bulk)
  }

  ghost predicate Inv(s: Shm) {
    && Shaped(s) && Window(s.ring, s.tail, s.head, s.freed, |s.log|)
    && Entries(s.ring, s.prods, s.log, s.freed) && Producers(s) && Cargo(s.bulk, s.log, Held(s))
    && Tickets(s.prods, s.log, s.freed) && Exclusive(s.prods, s.log, Held(s)) && ConsumerOk(s)
  }

  // ---- circular indexes ------------------------------------------------------

  lemma ModNext(k: nat, n: nat)
    requires n > 0
    ensures (k + 1) % n == Next(k % n, n)
  {
    var q, r := k / n, k % n;
    assert k == q * n + r;
    if r + 1 == n { DivUnique(k + 1, n, q + 1, 0); } else { DivUnique(k + 1, n, q, r + 1); }
  }

  lemma ModDistinct(a: nat, b: nat, n: nat)
    requires n > 0 && a < b < a + n
    ensures a % n != b % n
  {
    if a % n == b % n {
      var x, y := a / n, b / n;
      assert b - a == (y - x) * n by { assert a == x * n + a % n && b == y * n + b % n; }
      if y - x >= 1 { MulMono(1, y - x, n); } else if y - x <= -1 { MulMono(1, x - y, n); }
    }
  }

  // ---- steps of a producer -------------------------------------------------------

  /** Producer p moves between stages that hold no short slot. */
  lemma ProducerMoves(prods: seq<Producer>, log: seq<Entry>, held: nat, freed: nat, ring: seq<Short>, p: nat,
                      w: Producer)
    requires p < |prods| && |ring| > 0 && !prods[p].FillShort? && !w.FillShort?
    requires Tickets(prods, log, freed) && Exclusive(prods, log, held) && Entries(ring, prods, log, freed)
    requires Holds(w).None? || Holds(w) == Holds(prods[p]) ||
             (&& (forall q :: 0 <= q < |prods| ==> Holds(prods[q]) != Holds(w))
              && (forall k :: held <= k < |log| ==> log[k].bulk != Holds(w)))
    ensures Tickets(prods[p := w], log, freed) && Exclusive(prods[p := w], log, held)
    ensures Entries(ring, prods[p := w], log, freed)
  {
  }

  lemma BeginKeepsInv(s: Shm, p: nat, pkt: Packet)
    requires Inv(s) && p < |s.prods|
    ensures Inv(DoBegin(s, p, pkt))
  {
    var s' := DoBegin(s, p, pkt);
    if s' != s {
      ProducerMoves(s.prods, s.log, Held(s), s.freed, s.ring, p, s'.prods[p]);
      forall q | 0 <= q < |s.prods| ensures ProducerOk(s', s'.prods[q]) { assert ProducerOk(s, s.prods[q]); }
    }
  }

  /** Whoever does not hold bulk slot b keeps what it had when b changes. */
  lemma OthersKeep(s: Shm, b: Place, v: Bulk, p: nat)
    requires |s.ring| > 0 && Producers(s) && Cargo(s.bulk, s.log, Held(s))
    requires forall q :: 0 <= q < |s.prods| && q != p ==> Holds(s.prods[q]) != Some(b)
    requires forall k :: Held(s) <= k < |s.log| ==> s.log[k].bulk != Some(b)
    ensures forall q :: 0 <= q < |s.prods| && q != p ==> ProducerOk(s.(bulk := s.bulk[b := v]), s.prods[q])
    ensures Cargo(s.bulk[b := v], s.log, Held(s))
  {
  }

  lemma NobodyHoldsFree(s: Shm, b: Place)
    requires |s.ring| > 0 && Producers(s) && Cargo(s.bulk, s.log, Held(s)) && b in s.bulk && s.bulk[b].flag.Free?
    ensures forall q :: 0 <= q < |s.prods| ==> Holds(s.prods[q]) != Some(b)
    ensures forall k :: Held(s) <= k < |s.log| ==> s.log[k].bulk != Some(b)
  {
  }

  /** Producer p, sole holder of bulk slot b, changes that slot. */
  lemma BulkEdit(s: Shm, p: nat, b: Place, v: Bulk, w: Producer, btail: seq<nat>)
    requires Inv(s) && p < |s.prods| && b in s.bulk
    requires !s.prods[p].FillShort? && !w.FillShort? && Holds(w) == Some(b)
    requires Holds(s.prods[p]) == Some(b) || s.bulk[b].flag.Free?
    requires BulkShaped(s.lay, s.bulk[b := v], btail)
    requires ProducerOk(s.(bulk := s.bulk[b := v]), w)
    ensures Inv(s.(prods := s.prods[p := w], bulk := s.bulk[b := v], btail := btail))
  {
    var s' := s.(prods := s.prods[p := w], bulk := s.bulk[b := v], btail := btail);
    if s.bulk[b].flag.Free? { NobodyHoldsFree(s, b); }
    ProducerMoves(s.prods, s.log, Held(s), s.freed, s.ring, p, w);
    OthersKeep(s, b, v, p);
    forall q | 0 <= q < |s.prods| ensures ProducerOk(s', s'.prods[q]) {
      if q != p { assert ProducerOk(s.(bulk := s.bulk[b := v]), s.prods[q]); }
    }
  }

  lemma GrabBulkKeepsInv(s: Shm, p: nat)
    requires Inv(s) && p < |s.prods|
    ensures Inv(DoGrabBulk(s, p))
  {
    var w := s.prods[p];
    assert ProducerOk(s, w);
    if DoGrabBulk(s, p) != s {
      var c := w.pkt.kind.value;
      var b := Place(c, s.btail[c]);
      BulkEdit(s, p, b, s.bulk[b].(flag := Used), FillBulk(w.pkt, b, 0),
               s.btail[c := Next(s.btail[c], s.lay.bcount[c])]);
    }
  }

  lemma WriteBulkKeepsInv(s: Shm, p: nat)
    requires Inv(s) && p < |s.prods|
    ensures Inv(DoWriteBulk(s, p))
  {
    var w, s' := s.prods[p], DoWriteBulk(s, p);
    assert ProducerOk(s, w);
    if s' != s {
      var n, data := w.n, w.pkt.payload;
      if n < |data| {
        assert data[..n + 1] == data[..n] + [data[n]];
        assert s'.bulk[w.at].mem[..n + 1] == s.bulk[w.at].mem[..n] + [data[n]];
      }
      BulkEdit(s, p, w.at, s'.bulk[w.at], s'.prods[p], s.btail);
    }
  }

  lemma BulkReadyKeepsInv(s: Shm, p: nat)
    requires Inv(s) && p < |s.prods|
    ensures Inv(DoBulkReady(s, p))
  {
    var w, s' := s.prods[p], DoBulkReady(s, p);
    assert ProducerOk(s, w);
    if s' != s { BulkEdit(s, p, w.at, s'.bulk[w.at], s'.prods[p], s.btail); }
  }

  /** Editing the slot of entry k leaves every other slot of the window alone. */
  lemma EditAt(ring: seq<Short>, k: nat, x: Short, lo: nat)
    requires |ring| > 0 && lo <= k < lo + |ring|
    ensures At(ring[k % |ring| := x], k) == x
    ensures forall j {:trigger At(ring[k % |ring| := x], j)} :: lo <= j < lo + |ring| && j != k ==>
              At(ring[k % |ring| := x], j) == At(ring, j)
  {
    forall j | lo <= j < lo + |ring| && j != k ensures At(ring[k % |ring| := x], j) == At(ring, j) {
      if j < k { ModDistinct(j, k, |ring|); } else { ModDistinct(k, j, |ring|); }
    }
  }

  lemma WindowEdit(s: Shm, k: nat, x: Short)
    requires Shaped(s) && Window(s.ring, s.tail, s.head, s.freed, |s.log|) && s.freed <= k < |s.log|
    requires !x.flag.Free? && |x.mem| == s.lay.cap
    ensures Window(s.ring[k % |s.ring| := x], s.tail, s.head, s.freed, |s.log|)
    ensures Shaped(s.(ring := s.ring[k % |s.ring| := x]))
  {
    EditAt(s.ring, k, x, s.freed);
    forall j {:trigger At(s.ring, j)} | s.freed <= j < s.freed + |s.ring|
      ensures At(s.ring[k % |s.ring| := x], j).flag.Free? <==> |s.log| <= j
    {
      assert At(s.ring, j).flag.Free? <==> |s.log| <= j;
    }
  }

  /** Only the slot of entry k changed, and only producer p, whose ticket it is or becomes, moved. */
  lemma EntriesEdit(ring: seq<Short>, ring': seq<Short>, prods: seq<Producer>, w: Producer, log: seq<Entry>,
                    freed: nat, p: nat, k: nat)
    requires |ring| == |ring'| > 0 && p < |prods| && freed <= k < |log| <= freed + |ring|
    requires forall j :: freed <= j < |log| && j != k ==> EntryOk(ring, prods, log[j], j)
    requires forall j {:trigger At(ring', j)} :: freed <= j < freed + |ring| && j != k ==> At(ring', j) == At(ring, j)
    requires prods[p].FillShort? ==> prods[p].ticket == k
    requires EntryOk(ring', prods[p := w], log[k], k)
    ensures Entries(ring', prods[p := w], log, freed)
  {
  }

  lemma OthersKeepSlots(s: Shm, ring': seq<Short>, p: nat, k: nat)
    requires |s.ring| == |ring'| > 0 && Producers(s) && Tickets(s.prods, s.log, s.freed)
    requires |s.log| <= s.freed + |s.ring|
    requires forall j {:trigger At(ring', j)} :: s.freed <= j < s.freed + |s.ring| && j != k ==>
               At(ring', j) == At(s.ring, j)
    requires k < |s.log| ==> s.log[k].who == p
    ensures forall q :: 0 <= q < |s.prods| && q != p ==> ProducerOk(s.(ring := ring'), s.prods[q])
  {
  }

  lemma TicketMoves(prods: seq<Producer>, log: seq<Entry>, freed: nat, held: nat, p: nat, w: Producer)
    requires p < |prods| && prods[p].FillShort? && Tickets(prods, log, freed) && Exclusive(prods, log, held)
    requires w.Idle? ||
             (w.FillShort? && w.ticket == prods[p].ticket && w.pkt == prods[p].pkt && w.bulk == prods[p].bulk)
    ensures Tickets(prods[p := w], log, freed) && Exclusive(prods[p := w], log, held)
  {
  }

  /** Producer p, holder of the short slot of entry k, changes that slot. */
  lemma ShortEdit(s: Shm, p: nat, x: Short, w: Producer)
    requires Inv(s) && p < |s.prods| && s.prods[p].FillShort? && !x.flag.Free? && |x.mem| == s.lay.cap
    requires var v, k, ring := s.prods[p], s.prods[p].ticket, s.ring[s.prods[p].ticket % |s.ring| := x];
             && (w.Idle? || (w.FillShort? && w.ticket == k && w.pkt == v.pkt && w.bulk == v.bulk))
             && ProducerOk(s.(ring := ring), w) && EntryOk(ring, s.prods[p := w], s.log[k], k)
    ensures Inv(s.(ring := s.ring[s.prods[p].ticket % |s.ring| := x], prods := s.prods[p := w]))
  {
    var k := s.prods[p].ticket;
    var s' := s.(ring := s.ring[k % |s.ring| := x], prods := s.prods[p := w]);
    assert ProducerOk(s, s.prods[p]);
    WindowEdit(s, k, x);
    EditAt(s.ring, k, x, s.freed);
    TicketMoves(s.prods, s.log, s.freed, Held(s), p, w);
    EntriesEdit(s.ring, s'.ring, s.prods, w, s.log, s.freed, p, k);
    OthersKeepSlots(s, s'.ring, p, k);
    forall q | 0 <= q < |s.prods| ensures ProducerOk(s', s'.prods[q]) {
      if q != p { assert ProducerOk(s.(ring := s'.ring), s.prods[q]); }
    }
    assert !s.cons.Polling? ==> At(s'.ring, s.freed) == At(s.ring, s.freed);
  }

  lemma WriteShortKeepsInv(s: Shm, p: nat)
    requires Inv(s) && p < |s.prods|
    ensures Inv(DoWriteShort(s, p))
  {
    var w, s' := s.prods[p], DoWriteShort(s, p);
    assert ProducerOk(s, w);
    if s' != s {
      var k := w.ticket;
      var x := s'.ring[k % |s.ring|];
      assert At(s'.ring, k) == x;
      if w.n > 0 {
        assert w.pkt.words[..w.n] == w.pkt.words[..w.n - 1] + [w.pkt.words[w.n - 1]];
        assert x.mem[..w.n] == At(s.ring, k).mem[..w.n - 1] + [w.pkt.words[w.n - 1]];
      }
      ShortEdit(s, p, x, s'.prods[p]);
    }
  }

  lemma ShortReadyKeepsInv(s: Shm, p: nat)
    requires Inv(s) && p < |s.prods|
    ensures Inv(DoShortReady(s, p))
  {
    var w, s' := s.prods[p], DoShortReady(s, p);
    assert ProducerOk(s, w);
    if s' != s {
      var x := s'.ring[w.ticket % |s.ring|];
      assert At(s'.ring, w.ticket) == x;
      assert x.mem[..x.len] == w.pkt.words;
      ShortEdit(s, p, x, Idle);
    }
  }

  lemma ModWrap(k: nat, n: nat)
    requires n > 0
    ensures (k + n) % n == k % n
  {
    assert k == (k / n) * n + k % n;
    DivUnique(k + n, n, k / n + 1, k % n);
  }

  lemma GrabWindow(s: Shm)
    requires Shaped(s) && Window(s.ring, s.tail, s.head, s.freed, |s.log|) && s.ring[s.tail].flag.Free?
    ensures |s.log| < s.freed + |s.ring|
    ensures Window(s.ring[s.tail := s.ring[s.tail].(flag := Used)], Next(s.tail, |s.ring|), s.head, s.freed,
                   |s.log| + 1)
  {
    var k, n := |s.log|, |s.ring|;
    assert At(s.ring, s.freed).flag.Free? <==> k <= s.freed;
    ModWrap(s.freed, n);
    var ring := s.ring[k % n := s.ring[s.tail].(flag := Used)];
    EditAt(s.ring, k, s.ring[s.tail].(flag := Used), s.freed);
    ModNext(k, n);
    forall j {:trigger At(ring, j)} | s.freed <= j < s.freed + n ensures At(ring, j).flag.Free? <==> k + 1 <= j {
      assert At(s.ring, j).flag.Free? <==> k <= j;
    }
  }

  lemma GrabOwners(prods: seq<Producer>, log: seq<Entry>, freed: nat, held: nat, p: nat)
    requires p < |prods| && prods[p].WantShort? && held <= |log| && freed <= |log|
    requires Tickets(prods, log, freed) && Exclusive(prods, log, held)
    ensures var w := prods[p];
            var prods', log' := prods[p := FillShort(w.pkt, w.bulk, |log|, 0)], log + [Entry(p, w.pkt, w.bulk)];
            Tickets(prods', log', freed) && Exclusive(prods', log', held)
  {
  }

  lemma GrabShortKeepsInv(s: Shm, p: nat)
    requires Inv(s) && p < |s.prods|
    ensures Inv(DoGrabShort(s, p))
  {
    var w, s', k := s.prods[p], DoGrabShort(s, p), |s.log|;
    assert ProducerOk(s, w);
    if s' != s {
      GrabWindow(s);
      EditAt(s.ring, k, s'.ring[s.tail], s.freed);
      EntriesEdit(s.ring, s'.ring, s.prods, s'.prods[p], s'.log, s.freed, p, k);
      OthersKeepSlots(s, s'.ring, p, k);
      GrabOwners(s.prods, s.log, s.freed, Held(s), p);
      forall q | 0 <= q < |s.prods| ensures ProducerOk(s', s'.prods[q]) {
        if q != p { assert ProducerOk(s.(ring := s'.ring), s.prods[q]); }
      }
      assert !s.cons.Polling? ==> At(s'.ring, s.freed) == At(s.ring, s.freed);
    }
  }

  // ---- steps of the consumer -----------------------------------------------------

  /** A ready packet at the head can always be read, and reads as what was sent. */
  lemma TakeKeepsInv(s: Shm)
    requires Inv(s)
    ensures DoTake(s).Some? && Inv(DoTake(s).value)
  {
    var x := s.ring[s.head];
    if s.cons.Polling? && x.flag.Ready? {
      var k := s.freed;
      assert At(s.ring, k) == x;
      assert k < |s.log| by { assert At(s.ring, k).flag.Free? <==> |s.log| <= k; }
      var e := s.log[k];
      assert EntryOk(s.ring, s.prods, e, k) && Carries(s.bulk, e.pkt, e.bulk);
      assert e.pkt.kind.None? ==> e.pkt.payload == [];
      assert ReadPacket(s.bulk, x) == e.pkt;
    }
  }

  lemma FreeBulkKeepsInv(s: Shm)
    requires Inv(s)
    ensures Inv(DoFreeBulk(s))
  {
    var x, s' := s.ring[s.head], DoFreeBulk(s);
    if s' != s {
      assert At(s.ring, s.freed) == x && EntryOk(s.ring, s.prods, s.log[s.freed], s.freed);
      var b := x.bulk.value;
      forall q | 0 <= q < |s.prods| ensures ProducerOk(s', s'.prods[q]) { assert ProducerOk(s, s.prods[q]); }
      forall k | Held(s') <= k < |s.log| ensures Carries(s'.bulk, s.log[k].pkt, s.log[k].bulk) {
        assert Carries(s.bulk, s.log[k].pkt, s.log[k].bulk) && s.log[k].bulk != Some(b);
      }
    }
  }

  lemma AdvanceWindow(s: Shm)
    requires Shaped(s) && Window(s.ring, s.tail, s.head, s.freed, |s.log|) && s.freed < |s.log|
    ensures Window(s.ring[s.head := s.ring[s.head].(flag := Free)], s.tail, Next(s.head, |s.ring|), s.freed + 1,
                   |s.log|)
  {
    var k, n := s.freed, |s.ring|;
    var ring := s.ring[k % n := s.ring[s.head].(flag := Free)];
    EditAt(s.ring, k, s.ring[s.head].(flag := Free), k);
    ModNext(k, n);
    ModWrap(k, n);
    forall j {:trigger At(ring, j)} | k + 1 <= j < k + 1 + n ensures At(ring, j).flag.Free? <==> |s.log| <= j {
      if j < k + n { assert At(s.ring, j).flag.Free? <==> |s.log| <= j; } else { assert At(ring, j) == At(ring, k); }
    }
  }

  lemma AdvanceKeepsInv(s: Shm)
    requires Inv(s)
    ensures Inv(DoAdvance(s))
  {
    var s', k := DoAdvance(s), s.freed;
    if s' != s {
      assert At(s.ring, k) == s.ring[s.head] && EntryOk(s.ring, s.prods, s.log[k], k);
      AdvanceWindow(s);
      EditAt(s.ring, k, s'.ring[s.head], k);
      forall j | k + 1 <= j < |s.log| ensures EntryOk(s'.ring, s'.prods, s'.log[j], j) {
        assert EntryOk(s.ring, s.prods, s.log[j], j) && At(s'.ring, j) == At(s.ring, j);
      }
      forall q | 0 <= q < |s.prods| ensures ProducerOk(s', s'.prods[q]) {
        assert ProducerOk(s, s.prods[q]);
        if s.prods[q].FillShort? { assert At(s'.ring, s.prods[q].ticket) == At(s.ring, s.prods[q].ticket); }
      }
      assert Tickets(s'.prods, s'.log, s'.freed);
      assert Exclusive(s'.prods, s'.log, Held(s'));
    }
  }

  // ---- runs --------------------------------------------------------------------

  lemma StepKeepsInv(s: Shm, ev: Event)
    requires Inv(s)
    ensures Step(s, ev).Some? && Inv(Step(s, ev).value)
  {
    if ev.Take? { TakeKeepsInv(s); }
    else if ev.FreeBulk? { FreeBulkKeepsInv(s); }
    else if ev.Advance? { AdvanceKeepsInv(s); }
    else if ev.p < |s.prods| {
      match ev
      case Begin(p, pkt) => BeginKeepsInv(s, p, pkt);
      case GrabBulk(p) => GrabBulkKeepsInv(s, p);
      case WriteBulk(p) => WriteBulkKeepsInv(s, p);
      case BulkReady(p) => BulkReadyKeepsInv(s, p);
      case GrabShort(p) => GrabShortKeepsInv(s, p);
      case WriteShort(p) => WriteShortKeepsInv(s, p);
      case ShortReady(p) => ShortReadyKeepsInv(s, p);
    }
  }

  /** The packets of producer p among the log entries, in order. */
  function OfProducer(log: seq<Entry>, p: nat): seq<Packet> {
    if log == [] then []
    else OfProducer(log[..|log| - 1], p) + if log[|log| - 1].who == p then [log[|log| - 1].pkt] else []
  }

  /** The packet a producer has begun but not yet entered in the log. */
  function Pending(w: Producer): seq<Packet> {
    if w.WantBulk? || w.FillBulk? || w.WantShort? then [w.pkt] else []
  }

  ghost predicate InSendOrder(s: Shm) {
    && |s.begun| == |s.prods|
    && (forall p :: 0 <= p < |s.prods| ==> s.begun[p] == OfProducer(s.log, p) + Pending(s.prods[p]))
    && (forall k :: 0 <= k < |s.log| ==> s.log[k].who < |s.prods|)
  }

  lemma GrabKeepsSendOrder(s: Shm, p: nat)
    requires Shaped(s) && InSendOrder(s) && p < |s.prods|
    ensures InSendOrder(DoGrabShort(s, p))
  {
  }

  lemma BeginKeepsSendOrder(s: Shm, p: nat, pkt: Packet)
    requires Shaped(s) && InSendOrder(s) && p < |s.prods|
    ensures InSendOrder(DoBegin(s, p, pkt))
  {
  }

  lemma OthersKeepSendOrder(s: Shm, s': Shm)
    requires InSendOrder(s) && s'.log == s.log && s'.begun == s.begun && |s'.prods| == |s.prods|
    requires forall p :: 0 <= p < |s.prods| ==> Pending(s'.prods[p]) == Pending(s.prods[p])
    ensures InSendOrder(s')
  {
  }

  /** No other step begins a packet or enters one in the log. */
  lemma OthersKeepPending(s: Shm, ev: Event)
    requires Shaped(s) && |s.begun| == |s.prods| && Step(s, ev).Some? && !ev.Begin? && !ev.GrabShort?
    ensures var s' := Step(s, ev).value;
            && s'.log == s.log && s'.begun == s.begun && |s'.prods| == |s.prods|
            && forall p :: 0 <= p < |s.prods| ==> Pending(s'.prods[p]) == Pending(s.prods[p])
  {
  }

  lemma StepKeepsSendOrder(s: Shm, ev: Event)
    requires Shaped(s) && InSendOrder(s) && Step(s, ev).Some?
    ensures InSendOrder(Step(s, ev).value)
  {
    if ev.Begin? {
      if ev.p < |s.prods| { BeginKeepsSendOrder(s, ev.p, ev.pkt); }
    } else if ev.GrabShort? {
      if ev.p < |s.prods| { GrabKeepsSendOrder(s, ev.p); }
    } else {
      OthersKeepPending(s, ev);
      OthersKeepSendOrder(s, Step(s, ev).value);
    }
  }

  ghost function Run(s: Shm, evs: seq<Event>): Option<Shm>
    decreases |evs|
  {
    if evs == [] then Some(s)
    else if !Shaped(s) then None
    else match Step(s, evs[0])
      case None => None
      case Some(s') => Run(s', evs[1..])
  }

  /** Freshly attached queues of any size: everything free, everyone idle. */
  ghost predicate Fresh(s: Shm) {
    && Shaped(s) && s.tail == 0 && s.head == 0 && s.freed == 0 && s.log == [] && s.taken == [] && s.cons == Polling
    && (forall i :: 0 <= i < |s.ring| ==> s.ring[i].flag.Free?)
    && (forall b :: b in s.bulk ==> s.bulk[b].flag.Free?)
    && (forall p :: 0 <= p < |s.prods| ==> s.prods[p] == Idle && s.begun[p] == [])
  }

  lemma FreshInv(s: Shm)
    requires Fresh(s)
    ensures Inv(s) && InSendOrder(s)
  {
  }

  lemma {:induction false} RunKeepsInv(s: Shm, evs: seq<Event>)
    requires Inv(s) && InSendOrder(s)
    ensures Run(s, evs).Some? && Inv(Run(s, evs).value) && InSendOrder(Run(s, evs).value)
    decreases |evs|
  {
    if evs != [] {
      StepKeepsInv(s, evs[0]);
      StepKeepsSendOrder(s, evs[0]);
      RunKeepsInv(Step(s, evs[0]).value, evs[1..]);
    }
  }

  ghost predicate Reached(s: Shm) {
    exists s0, evs :: Fresh(s0) && Run(s0, evs) == Some(s)
  }

  lemma ReachedInv(s: Shm)
    requires Reached(s)
    ensures Inv(s) && InSendOrder(s)
  {
    var s0, evs :| Fresh(s0) && Run(s0, evs) == Some(s);
    FreshInv(s0);
    RunKeepsInv(s0, evs);
  }

  // ---- what the queues promise ------------------------------------------------------

  /**
   Under every interleaving each packet is handed over once, whole, and in
   reservation order; hence each producer's packets arrive in the order sent.
   */
  lemma DeliveredInOrder(s: Shm, p: nat)
    requires Reached(s) && p < |s.prods|
    ensures |s.taken| <= |s.log| && forall k :: 0 <= k < |s.taken| ==> s.taken[k] == s.log[k].pkt
    ensures p < |s.begun| && OfProducer(s.log[..|s.taken|], p) <= s.begun[p]
  {
    ReachedInv(s);
    OfProducerPrefix(s.log, |s.taken|, p);
  }

  /** What was taken are the first packets of the log, and the log names producers only. */
  lemma TakenIsLogged(s: Shm)
    requires Reached(s)
    ensures |s.taken| <= |s.log| && forall k :: 0 <= k < |s.taken| ==> s.taken[k] == s.log[k].pkt
    ensures forall k :: 0 <= k < |s.log| ==> s.log[k].who < |s.prods|
  {
    ReachedInv(s);
  }

  lemma {:induction false} OfProducerPrefix(log: seq<Entry>, n: nat, p: nat)
    requires n <= |log|
    ensures OfProducer(log[..n], p) <= OfProducer(log, p)
  {
    if n < |log| {
      OfProducerPrefix(log[..|log| - 1], n, p);
      assert log[..|log| - 1][..n] == log[..n];
    } else {
      assert log[..n] == log;
    }
  }

  /** The slots that are not free are exactly those from head to tail, and each keeps its packet until consumed. */
  lemma NothingOverwritten(s: Shm)
    requires Reached(s)
    ensures s.freed <= |s.log| <= s.freed + |s.ring| && |s.ring| > 0
    ensures forall k {:trigger At(s.ring, k)} :: s.freed <= k < s.freed + |s.ring| ==>
              (At(s.ring, k).flag.Free? <==> |s.log| <= k)
    ensures forall k {:trigger At(s.ring, k)} :: s.freed <= k < |s.log| && At(s.ring, k).flag.Ready? ==>
              var x := At(s.ring, k);
              x.len <= |x.mem| && x.mem[..x.len] == s.log[k].pkt.words && x.bulk == s.log[k].bulk
  {
    ReachedInv(s);
    forall k {:trigger At(s.ring, k)} | s.freed <= k < |s.log| && At(s.ring, k).flag.Ready?
      ensures var x := At(s.ring, k);
              x.len <= |x.mem| && x.mem[..x.len] == s.log[k].pkt.words && x.bulk == s.log[k].bulk
    {
      assert EntryOk(s.ring, s.prods, s.log[k], k);
    }
  }

  /**
   The bulk slot a ready packet names is ready, holds the payload its producer
   wrote, and is named by no other outstanding packet nor held by a producer.
   */
  lemma BulkSlotOwned(s: Shm, k: nat)
    requires Reached(s) && Held(s) <= k < |s.log| && s.log[k].bulk.Some?
    ensures var b := s.log[k].bulk.value;
            && b in s.bulk && s.bulk[b].flag.Ready? && s.bulk[b].len <= |s.bulk[b].mem|
            && s.bulk[b].mem[..s.bulk[b].len] == s.log[k].pkt.payload
            && (forall j :: Held(s) <= j < |s.log| && j != k ==> s.log[j].bulk != Some(b))
            && (forall q :: 0 <= q < |s.prods| ==> Holds(s.prods[q]) != Some(b))
  {
    ReachedInv(s);
    assert Carries(s.bulk, s.log[k].pkt, s.log[k].bulk);
  }
}
