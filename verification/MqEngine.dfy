/**
 The Matched Queue receive engine over linked queues.  Every entry point works on
 request objects and their links, and is proved to do what the step machine of
 MqModel does: `abs` is the machine's state, and Shape ties it to the objects.
 */
module MqEngine {
  import opened Basics
  import opened MatchLedger
  import opened MqModel
  import opened MqRuns
  import opened MqQueues

  /** The record of a request together with the ledger entries it stands for. */
  ghost function Full(r: Request): Req
    reads r`rec, r`post, r`msg
  {
    r.rec.(post := r.post, msg := r.msg)
  }

  /** Request objects and the step machine's records agree. */
  ghost predicate Recorded(all: seq<Request>, reqs: seq<Req>)
    reads all`rec, all`post, all`msg
  {
    |all| == |reqs| && forall i {:trigger all[i]} :: 0 <= i < |all| ==> all[i].id == i && Full(all[i]) == reqs[i]
  }

  /** A linked queue holds the requests that the step machine's queue numbers. */
  ghost predicate Listed(items: seq<Request>, ids: seq<nat>, all: seq<Request>) {
    |items| == |ids| && forall i {:trigger items[i]} {:trigger ids[i]} :: 0 <= i < |items| ==>
      ids[i] < |all| && items[i] == all[ids[i]]
  }

  ghost predicate Disjoint(a: seq<Request>, b: seq<Request>) {
    (forall i :: 0 <= i < |a| ==> a[i] !in b) && (forall i :: 0 <= i < |b| ==> b[i] !in a)
  }

  /** A request taken out of one queue is in none, and the queues stay apart. */
  lemma DroppedApart(a: seq<Request>, k: nat, b: seq<Request>, c: seq<Request>)
    requires k < |a| && Unique(a) && Disjoint(a, b) && Disjoint(a, c)
    ensures a[k] !in Dropped(a, k) && a[k] !in b && a[k] !in c
    ensures Disjoint(Dropped(a, k), b) && Disjoint(b, Dropped(a, k)) && Disjoint(Dropped(a, k), c)
  {
    DroppedAt(a, k);
  }

  /** The queues and the lists of unfinished messages, as objects and as numbers. */
  ghost predicate Numbers(all: seq<Request>, e: seq<Request>, u: seq<Request>, c: seq<Request>,
                          egr: map<nat, seq<Request>>, s: Mq)
  {
    && Listed(e, s.expected, all) && Listed(u, s.unexpected, all) && Listed(c, s.completed, all)
    && egr.Keys == s.egr.Keys && forall p :: p in egr ==> Listed(egr[p], s.egr[p], all)
  }

  lemma NumbersFinish(all: seq<Request>, e: seq<Request>, u: seq<Request>, c: seq<Request>,
                      egr: map<nat, seq<Request>>, s: Mq, r: Request, rec: Req)
    requires Numbers(all, e, u, c, egr, s) && r.id < |all| == |s.reqs| && all[r.id] == r
    ensures Numbers(all, e, u, c + [r], egr, Finish(s, r.id, rec))
  {
  }

  lemma NumbersDrop(all: seq<Request>, e: seq<Request>, u: seq<Request>, c: seq<Request>, egr: map<nat, seq<Request>>,
                    s: Mq, k: nat)
    requires Numbers(all, e, u, c, egr, s)
    ensures k < |e| ==> Numbers(all, Dropped(e, k), u, c, egr, s.(expected := Without(s.expected, k)))
  {
  }

  lemma NumbersDrop2(all: seq<Request>, e: seq<Request>, u: seq<Request>, c: seq<Request>,
                     egr: map<nat, seq<Request>>, s: Mq, k: nat)
    requires Numbers(all, e, u, c, egr, s)
    ensures k < |u| ==> Numbers(all, e, Dropped(u, k), c, egr, s.(unexpected := Without(s.unexpected, k)))
  {
  }

  lemma NumbersRelease(all: seq<Request>, e: seq<Request>, u: seq<Request>, c: seq<Request>,
                       egr: map<nat, seq<Request>>, s: Mq, k: nat)
    requires Numbers(all, e, u, c, egr, s) && k < |c|
    ensures Numbers(all, e, u, Dropped(c, k), egr, s.(completed := Without(s.completed, k)))
  {
  }

  lemma RecordedGrow(all: seq<Request>, reqs: seq<Req>, r: Request)
    requires Recorded(all, reqs) && r.id == |all|
    ensures Recorded(all + [r], reqs + [Full(r)])
  {
  }

  /** A new request at the end of the expected or the unexpected queue. */
  function Added(s: Mq, exp: bool, rec: Req, led: Ledger): Mq {
    if exp then s.(reqs := s.reqs + [rec], expected := s.expected + [|s.reqs|], led := led)
    else s.(reqs := s.reqs + [rec], unexpected := s.unexpected + [|s.reqs|], led := led)
  }

  lemma NumbersGrow(all: seq<Request>, e: seq<Request>, u: seq<Request>, c: seq<Request>, egr: map<nat, seq<Request>>,
                    s: Mq, r: Request, exp: bool, rec: Req, led: Ledger)
    requires Numbers(all, e, u, c, egr, s) && |all| == |s.reqs|
    ensures Numbers(all + [r], if exp then e + [r] else e, if exp then u else u + [r], c, egr,
                    Added(s, exp, rec, led))
  {
  }

  /** Item k, if there is one, is the first receive that accepts `tag`. */
  ghost predicate FirstReceive(items: seq<Request>, tag: Tag, k: nat)
    reads items`rec
  {
    && k <= |items| && (forall i :: 0 <= i < k ==> !Accepts(tag, items[i].rec.tag, items[i].rec.sel))
    && (k < |items| ==> Accepts(tag, items[k].rec.tag, items[k].rec.sel))
  }

  /** Item k, if there is one, is the first message that (tag, sel) accepts. */
  ghost predicate FirstMessage(items: seq<Request>, tag: Tag, sel: Tag, k: nat)
    reads items`rec
  {
    && k <= |items| && (forall i :: 0 <= i < k ==> !Accepts(items[i].rec.tag, tag, sel))
    && (k < |items| ==> Accepts(items[k].rec.tag, tag, sel))
  }

  /** The first request of a queue that the tag test picks is the one the step machine finds. */
  lemma FindsExpected(all: seq<Request>, items: seq<Request>, s: Mq, tag: Tag, k: nat)
    requires Recorded(all, s.reqs) && Listed(items, s.expected, all) && FirstReceive(items, tag, k)
    ensures InRange(s, s.expected) && FindExpected(s.reqs, s.expected, tag) == k
    ensures k < |items| ==> items[k].id == s.expected[k] && all[s.expected[k]] == items[k]
  {
  }

  lemma FindsUnexpected(all: seq<Request>, items: seq<Request>, s: Mq, tag: Tag, sel: Tag, k: nat)
    requires Recorded(all, s.reqs) && Listed(items, s.unexpected, all) && FirstMessage(items, tag, sel, k)
    ensures InRange(s, s.unexpected) && FindUnexpected(s.reqs, s.unexpected, tag, sel) == k
    ensures k < |items| ==> items[k].id == s.unexpected[k] && all[s.unexpected[k]] == items[k]
  {
  }

  /** Adoption does not look at the ledger entries. */
  lemma AdoptedFull(rec: Req, post: Option<nat>, msg: Option<nat>, buf: seq<Byte>)
    requires rec.state.Unexp? ==> rec.buf.Mem? && rec.recvOff <= |rec.buf.bytes|
    requires rec.state.Complete? && rec.buf.Mem? ==> rec.sendLen <= |rec.buf.bytes|
    ensures Adopted(rec.(post := post, msg := msg), buf) == Adopted(rec, buf).(post := post, msg := msg)
  {
  }

  lemma ClaimIs(s: Mq, k: nat, a: Msg, rec: Req, post: Option<nat>, msg: Option<nat>)
    requires InRange(s, s.expected) && k < |s.expected| && s.reqs[s.expected[k]] == rec.(post := post, msg := msg)
    ensures Claim(s, k, a) ==
            Put(s.(expected := Without(s.expected, k)), s.expected[k],
                SetMsgLen(rec.(tag := a.tag, state := Matched, peer := a.peer, recvOff := 0), rec.bufLen, |a.data|)
                .(post := post, msg := Some(|s.led.msgs|))).(led := DoArrive(s.led, a, |s.reqs|))
  {
  }

  /** Request rid is in none of the machine's queues. */
  ghost predicate Unlisted(s: Mq, rid: nat) { rid !in s.expected && rid !in s.unexpected && rid !in s.completed }

  lemma QueuesReady(s: Mq)
    requires Reached(s)
    ensures Adoptable(s) && Receivable(s)
  {
    ReachedInv(s);
    Ready(s);
  }

  /** A handle the caller holds is where its state says. */
  lemma HandleReady(s: Mq, rid: nat)
    requires Reached(s) && Held(s, rid)
    ensures s.reqs[rid].state.Posted? ==>
              rid in s.expected && s.reqs[rid].post.Some? && s.reqs[rid].post.value < |s.led.posts|
    ensures s.reqs[rid].state.Complete? ==> rid in s.completed
  {
    ReachedInv(s);
    assert LinkOk(s.reqs[rid], rid, s.led);
  }

  lemma LongFirstStep(s: Mq, peer: nat, tag: Tag, data: seq<Byte>, n: nat)
    requires Reached(s) && n <= |data| && OpenTrain(s.led.msgs, peer) == |s.led.msgs|
    ensures Receivable(s) && Step(s, LongFirst(peer, tag, data, n)) == Some(DoLongFirst(s, peer, tag, data, n))
    ensures Reached(DoLongFirst(s, peer, tag, data, n))
  {
    QueuesReady(s);
    ReachedOn(s, LongFirst(peer, tag, data, n));
  }

  lemma StartReached()
    ensures Reached(INIT)
  {
    assert LegalRun(INIT, []) && Run(INIT, []) == Some(INIT);
  }

  lemma IrecvStep(s: Mq, tag: Tag, sel: Tag, buf: seq<Byte>)
    requires Reached(s)
    ensures Adoptable(s) && Step(s, Irecv(tag, sel, buf)) == Some(DoIrecv(s, tag, sel, buf))
    ensures Reached(DoIrecv(s, tag, sel, buf))
  {
    QueuesReady(s);
    ReachedOn(s, Irecv(tag, sel, buf));
  }

  lemma EagerStep(s: Mq, tiny: bool, peer: nat, tag: Tag, data: seq<Byte>)
    requires Reached(s)
    ensures Receivable(s) && Step(s, Eager(tiny, peer, tag, data)) == Some(DoEager(s, tiny, peer, tag, data))
    ensures Reached(DoEager(s, tiny, peer, tag, data))
  {
    QueuesReady(s);
    ReachedOn(s, Eager(tiny, peer, tag, data));
  }

  lemma RtsStep(s: Mq, peer: nat, tag: Tag, data: seq<Byte>)
    requires Reached(s)
    ensures InRange(s, s.expected) && Step(s, Rts(peer, tag, data)) == Some(DoRts(s, peer, tag, data))
    ensures Reached(DoRts(s, peer, tag, data))
  {
    QueuesReady(s);
    ReachedOn(s, Rts(peer, tag, data));
  }

  lemma LongNextStep(s: Mq, peer: nat, frag: seq<Byte>)
    requires Reached(s) && Legal(s, LongNext(peer, frag))
    ensures |Egr(s, peer)| == 1 && Egr(s, peer)[0] < |s.reqs| && OpenTrain(s.led.msgs, peer) < |s.led.msgs|
    ensures var rid := Egr(s, peer)[0];
            && CanCopy(s.reqs[rid]) && s.reqs[rid].peer == peer && (s.reqs[rid].state.Matched? ==> Unlisted(s, rid))
            && Step(s, LongNext(peer, frag)) == Some(DoLongNext(s, rid, OpenTrain(s.led.msgs, peer), frag))
            && Reached(DoLongNext(s, rid, OpenTrain(s.led.msgs, peer), frag))
  {
    TrainReady(s, peer);
    ReachedOn(s, LongNext(peer, frag));
  }

  lemma TrainReady(s: Mq, peer: nat)
    requires Reached(s) && OpenTrain(s.led.msgs, peer) < |s.led.msgs|
    ensures |Egr(s, peer)| == 1 && Egr(s, peer)[0] < |s.reqs|
    ensures var r := s.reqs[Egr(s, peer)[0]];
            && CanCopy(r) && r.peer == peer && (r.state.Unexp? || r.state.Matched?)
            && (r.state.Matched? ==> Unlisted(s, Egr(s, peer)[0]))
  {
    ReachedInv(s);
    OpenRequest(s, peer);
  }

  lemma PullReady(s: Mq, rid: nat)
    requires Reached(s) && Pulling(s, rid)
    ensures Unlisted(s, rid)
  {
    ReachedInv(s);
  }

  /** The request that a receive is given: the first message that fits, or a new one. */
  function ReceiveId(s: Mq, tag: Tag, sel: Tag): nat
    requires InRange(s, s.unexpected)
  {
    var k := FindUnexpected(s.reqs, s.unexpected, tag, sel);
    if k < |s.unexpected| then s.unexpected[k] else |s.reqs|
  }

  /** The request that stands for an announced message: the first receive that fits, or a new one. */
  function RtsId(s: Mq, tag: Tag): nat
    requires InRange(s, s.expected)
  {
    var k := FindExpected(s.reqs, s.expected, tag);
    if k < |s.expected| then s.expected[k] else |s.reqs|
  }

  /** A receive returns a handle that its caller holds. */
  lemma ReceiveHeld(s: Mq, tag: Tag, sel: Tag, buf: seq<Byte>)
    requires Adoptable(s)
    ensures Held(DoIrecv(s, tag, sel, buf), ReceiveId(s, tag, sel))
  {
  }

  /** The bytes of the message that a receive is matched to. */
  function Announced(s: Mq, rid: nat): seq<Byte>
    requires Pulling(s, rid)
  {
    s.led.msgs[s.reqs[rid].msg.value].data
  }

  /** A matched announcement can be pulled. */
  lemma RtsPulls(s: Mq, peer: nat, tag: Tag, data: seq<Byte>)
    requires Reached(s) && InRange(s, s.expected)
    ensures var k, s' := FindExpected(s.reqs, s.expected, tag), DoRts(s, peer, tag, data);
            k < |s.expected| ==> Pulling(s', s.expected[k]) && Announced(s', s.expected[k]) == data
  {
    ReachedInv(s);
    var k := FindExpected(s.reqs, s.expected, tag);
    if k < |s.expected| {
      assert InExpected(s.reqs[s.expected[k]]);
      assert DataOk(s.reqs[s.expected[k]], s.expected[k], s.led);
    }
  }

  lemma PullSizes(s: Mq, rid: nat)
    requires Reached(s) && Pulling(s, rid)
    ensures var r := s.reqs[rid]; r.recvLen <= |Announced(s, rid)| && r.buf.Mem? && r.recvLen <= |r.buf.bytes|
  {
    ReachedInv(s);
    assert LinkOk(s.reqs[rid], rid, s.led) && DataOk(s.reqs[rid], rid, s.led);
  }

  /** What a receive is matched to may be written, as far as it fits, and then the receive may be completed. */
  lemma PullLegal(s: Mq, rid: nat)
    requires Reached(s) && Pulling(s, rid)
    ensures var data, n := Announced(s, rid), s.reqs[rid].recvLen;
            && n <= |data| && Legal(s, RtsWrite(rid, 0, data[..n]))
            && var s' := Step(s, RtsWrite(rid, 0, data[..n])); s'.Some? && Legal(s'.value, RtsDone(rid))
  {
    PullSizes(s, rid);
    var piece, bytes := Announced(s, rid)[..s.reqs[rid].recvLen], s.reqs[rid].buf.bytes;
    assert Overwrite(bytes, 0, piece)[..|piece|] == piece;
  }

  lemma DataKeepsHeld(s: Mq, x: nat, frag: seq<Byte>, rid: nat)
    requires x < |s.reqs| && CanCopy(s.reqs[x]) && (s.reqs[x].egrLong ==> |Egr(s, s.reqs[x].peer)| > 0) && Held(s, rid)
    ensures Held(HandleData(s, x, frag), rid)
  {
  }

  lemma ClaimKeepsHeld(s: Mq, k: nat, a: Msg, rid: nat)
    requires InRange(s, s.expected) && k < |s.expected| && Held(s, rid)
    ensures Held(Claim(s, k, a), rid)
  {
  }

  lemma IrecvKeepsHeld(s: Mq, tag: Tag, sel: Tag, buf: seq<Byte>, rid: nat)
    requires Adoptable(s) && Held(s, rid)
    ensures Held(DoIrecv(s, tag, sel, buf), rid)
  {
  }

  lemma LongFirstKeepsHeld(s: Mq, peer: nat, tag: Tag, data: seq<Byte>, n: nat, rid: nat)
    requires Receivable(s) && n <= |data| && Held(s, rid)
    ensures Held(DoLongFirst(s, peer, tag, data, n), rid)
  {
    var a := Arrival(Train, peer, tag, data, n);
    var k := FindExpected(s.reqs, s.expected, tag);
    if k < |s.expected| {
      ClaimKeepsHeld(s, k, a, rid);
      DataKeepsHeld(Enlist(Claim(s, k, a), s.expected[k]), s.expected[k], data[..n], rid);
    } else {
      DataKeepsHeld(Enlist(Park(s, NewTrain(tag, peer, |data|), a), |s.reqs|), |s.reqs|, data[..n], rid);
    }
  }

  lemma LongNextKeepsHeld(s: Mq, peer: nat, frag: seq<Byte>, rid: nat)
    requires Held(s, rid) && Step(s, LongNext(peer, frag)).Some?
    ensures Held(Step(s, LongNext(peer, frag)).value, rid)
  {
    var r := s.reqs[Egr(s, peer)[0]];
    DataKeepsHeld(s, Egr(s, peer)[0], frag, rid);
  }

  /** A handle stays with its holder until a test reports its request complete. */
  lemma HeldOn(s: Mq, ev: Event, rid: nat)
    requires Held(s, rid) && Step(s, ev).Some? && !(ev == Event.Test(rid) && s.reqs[rid].state.Complete?)
    ensures Held(Step(s, ev).value, rid)
  {
    match ev
    case Irecv(tag, sel, buf) => IrecvKeepsHeld(s, tag, sel, buf, rid);
    case Eager(_, peer, tag, data) =>
      var k := FindExpected(s.reqs, s.expected, tag);
      if k < |s.expected| { ClaimKeepsHeld(s, k, Arrival(Whole, peer, tag, data, |data|), rid); }
    case LongFirst(peer, tag, data, n) => LongFirstKeepsHeld(s, peer, tag, data, n, rid);
    case LongNext(peer, frag) => LongNextKeepsHeld(s, peer, frag, rid);
    case Rts(peer, tag, data) =>
      var k := FindExpected(s.reqs, s.expected, tag);
      if k < |s.expected| { ClaimKeepsHeld(s, k, Arrival(Rendezvous, peer, tag, data, 0), rid); }
    case Cancel(_) =>
    case RtsWrite(_, _, _) =>
    case RtsDone(_) =>
    case Test(_) =>
  }

  // ---- status -----------------------------------------------------------------------------------------

  /**
   What the status of a completed receive says: the tag and length of its message,
   how much of it fitted, and whether that was all; or, of one that was taken back,
   its own tag and length.
   */
  ghost predicate StatusOf(s: Mq, rid: nat, tag: Tag, sent: nat, received: nat, err: Err) {
    && rid < |s.reqs| && s.reqs[rid].post.Some? && s.reqs[rid].post.value < |s.led.posts|
    && var p := s.led.posts[s.reqs[rid].post.value];
    match s.reqs[rid].msg
    case None => p.fate.Cancelled? && tag == p.tag && received == |p.buf| && err == Ok
    case Some(x) =>
      && x < |s.led.msgs| && p.fate.GotMsg? && p.fate.msg == x
      && var m := s.led.msgs[x];
      && tag == m.tag && sent == |m.data| && received == Min(|p.buf|, |m.data|)
      && (err == Truncation <==> |p.buf| < |m.data|)
  }

  lemma StatusRight(s: Mq, rid: nat)
    requires Reached(s) && Held(s, rid) && s.reqs[rid].state.Complete?
    ensures var q := s.reqs[rid]; StatusOf(s, rid, q.tag, q.sendLen, q.recvLen, q.err)
  {
    ReachedInv(s);
    assert LinkOk(s.reqs[rid], rid, s.led) && DataOk(s.reqs[rid], rid, s.led);
  }

  // ---- what a poll brings -----------------------------------------------------------------------------

  /** What comes in from the transport, which names a message that it pulls by the token it was handed. */
  datatype Incoming =
    | Packet(tiny: bool, peer: nat, tag: Tag, data: seq<Byte>)
    | First(peer: nat, tag: Tag, data: seq<Byte>, n: nat)
    | Next(peer: nat, frag: seq<Byte>)
    | Announce(peer: nat, tag: Tag, data: seq<Byte>)
    | Bytes(token: nat, off: nat, piece: seq<Byte>)
    | Finished(token: nat)

  predicate Named(x: Incoming, n: nat) { x.Bytes? || x.Finished? ==> x.token < n }

  function EventOf(x: Incoming, ids: seq<nat>): Event
    requires Named(x, |ids|)
  {
    match x
    case Packet(tiny, peer, tag, data) => Eager(tiny, peer, tag, data)
    case First(peer, tag, data, n) => LongFirst(peer, tag, data, n)
    case Next(peer, frag) => LongNext(peer, frag)
    case Announce(peer, tag, data) => Rts(peer, tag, data)
    case Bytes(token, off, piece) => RtsWrite(ids[token], off, piece)
    case Finished(token) => RtsDone(ids[token])
  }

  function NextIds(s: Mq, ids: seq<nat>, x: Incoming): seq<nat> {
    if x.Announce? && InRange(s, s.expected) then ids + [RtsId(s, x.tag)] else ids
  }

  predicate Arrives(s: Mq, ids: seq<nat>, x: Incoming) { Named(x, |ids|) && Legal(s, EventOf(x, ids)) }

  /** `polled` can come in, one after the other. */
  predicate Deliverable(s: Mq, ids: seq<nat>, polled: seq<Incoming>)
    decreases |polled|
  {
    polled != [] ==>
      && Arrives(s, ids, polled[0])
      && var s' := Step(s, EventOf(polled[0], ids));
      s'.Some? && Deliverable(s'.value, NextIds(s, ids, polled[0]), polled[1..])
  }

  function Events(s: Mq, ids: seq<nat>, polled: seq<Incoming>): seq<Event>
    requires Deliverable(s, ids, polled)
    decreases |polled|
  {
    if polled == [] then [] else
    var ev := EventOf(polled[0], ids);
    [ev] + Events(Step(s, ev).value, NextIds(s, ids, polled[0]), polled[1..])
  }

  lemma RunCons(s: Mq, ev: Event, evs: seq<Event>)
    requires Step(s, ev).Some?
    ensures Run(s, [ev] + evs) == Run(Step(s, ev).value, evs)
  {
    assert ([ev] + evs)[1..] == evs;
  }

  class Engine {
    const expected: Sq
    const unexpected: Sq
    const completed: Qq
    var egr: map<nat, seq<Request>>
    ghost var all: seq<Request>
    ghost var abs: Mq
    ghost var repr: set<object>

    constructor ()
      ensures Valid() && abs == INIT && all == [] && fresh(repr)
    {
      expected := new Sq();
      unexpected := new Sq();
      completed := new Qq();
      egr, all, abs := map[], [], INIT;
      repr := {this, expected, unexpected, completed};
      new;
      assert fresh(repr);
      Empty();
    }

    ghost predicate Queues()
      reads expected, unexpected, completed
      reads expected.items`next, unexpected.items`next, completed.items`next, completed.items`pprev
    {
      && expected != unexpected && expected.Valid() && unexpected.Valid() && completed.Valid()
      && Disjoint(expected.items, unexpected.items) && Disjoint(expected.items, completed.items)
      && Disjoint(unexpected.items, completed.items)
    }

    /**
     The same statement, one definition away: methods that do not touch links
     need it only as a whole.
     */
    ghost predicate Sound(depth: nat)
      reads expected, unexpected, completed
      reads expected.items`next, unexpected.items`next, completed.items`next, completed.items`pprev
    {
      if depth == 0 then Queues() else Sound(depth - 1)
    }

    lemma Open()
      requires Sound(2)
      ensures Queues()
    {
      assert Sound(1);
      assert Sound(0);
    }

    lemma Close()
      requires Queues()
      ensures Sound(2)
    {
    }

    /** An engine without requests. */
    lemma Empty()
      requires expected != unexpected && expected.items == unexpected.items == completed.items == [] && all == []
      requires expected.Valid() && unexpected.Valid() && completed.Valid() && egr == map[] && abs == INIT
      requires repr == {this, expected, unexpected, completed}
      ensures Valid()
    {
      Close();
      StartReached();
    }

    ghost predicate Shape()
      reads `abs, `all, `egr, expected, unexpected, completed, all`rec, all`post, all`msg
      reads expected.items`next, unexpected.items`next, completed.items`next, completed.items`pprev
    {
      Recorded(all, abs.reqs) && Numbers(all, expected.items, unexpected.items, completed.items, egr, abs) && Sound(2)
    }

    ghost predicate Mine(r: Request)
      reads `all
    {
      r.id < |all| && all[r.id] == r
    }

    /** The engine's own objects, and every request. */
    ghost predicate Owned()
      reads `all, `repr
    {
      {this, expected, unexpected, completed} <= repr && forall i :: 0 <= i < |all| ==> all[i] in repr
    }

    /** Requests are only added, and those that were added are new. */
    twostate predicate Grown()
      reads `all
    {
      && |old(all)| <= |all| && (forall i :: 0 <= i < |old(all)| ==> all[i] == old(all)[i])
      && (forall i :: |old(all)| <= i < |all| ==> fresh(all[i]))
    }

    /** Enter the requests from number n on among the engine's objects. */
    ghost method Enrol(n: nat)
      requires Shape() && n <= |all| && {this, expected, unexpected, completed} <= repr
      requires forall i :: 0 <= i < n ==> all[i] in repr
      modifies this`repr
      ensures Shape() && Owned() && old(repr) <= repr
      ensures forall o :: o in repr ==> o in old(repr) || exists i :: n <= i < |all| && all[i] == o
    {
      repr := repr + set i | n <= i < |all| :: all[i] as object;
    }

    /** r is in none of the queues. */
    ghost predicate Loose(r: Request)
      reads expected, unexpected, completed
    {
      r !in expected.items && r !in unexpected.items && r !in completed.items
    }

    // ---- links only ------------------------------------------------------------------------------

    /** Only the record changes, no link. */
    method Store(r: Request, rec: Req, ghost post: Option<nat>, ghost msg: Option<nat>)
      requires Sound(2)
      modifies r`rec, r`post, r`msg
      ensures Sound(2) && r.rec == rec && r.post == post && r.msg == msg
    {
      r.rec, r.post, r.msg := rec, post, msg;
    }

    /** The objects have reached the machine state s. */
    ghost method Become(s: Mq, rs: seq<Request>)
      requires Sound(2) && Recorded(rs, s.reqs)
      requires Numbers(rs, expected.items, unexpected.items, completed.items, egr, s)
      modifies this`abs, this`all
      ensures Shape() && abs == s && all == rs
    {
      abs, all := s, rs;
    }

    /** Mark a request complete and append it to the completed queue. */
    method Retire(r: Request, rec: Req, ghost post: Option<nat>, ghost msg: Option<nat>)
      requires Sound(2) && Loose(r)
      modifies completed, r, completed.items`next
      ensures Sound(2) && completed.items == old(completed.items) + [r] && r.rec == rec.(state := Complete)
      ensures r.post == post && r.msg == msg
    {
      AppendCompleted(r);
      r.rec, r.post, r.msg := rec.(state := Complete), post, msg;
    }

    method AppendCompleted(r: Request)
      requires Sound(2) && Loose(r)
      modifies completed, r`next, r`pprev, completed.items`next
      ensures Sound(2) && completed.items == old(completed.items) + [r]
    {
      Open();
      ghost var last := completed.lastp;
      assert last != null ==> last in completed.items && last !in expected.items && last !in unexpected.items;
      completed.Append(r);
      Close();
    }

    method TakeExpected(tag: Tag) returns (r: Request?, ghost k: nat)
      requires Sound(2)
      modifies expected, expected.items`next
      ensures Sound(2) && FirstReceive(old(expected.items), tag, k) && unexpected.items == old(unexpected.items)
      ensures k == |old(expected.items)| ==> r == null && expected.items == old(expected.items)
      ensures k < |old(expected.items)| ==>
                r == old(expected.items)[k] && Loose(r) && expected.items == Dropped(old(expected.items), k)
    {
      Open();
      r, k := expected.TakeAccepting(tag);
      if r != null { DroppedApart(old(expected.items), k, unexpected.items, completed.items); }
      Close();
    }

    method TakeUnexpected(tag: Tag, sel: Tag) returns (r: Request?, ghost k: nat)
      requires Sound(2)
      modifies unexpected, unexpected.items`next
      ensures Sound(2) && FirstMessage(old(unexpected.items), tag, sel, k) && expected.items == old(expected.items)
      ensures k == |old(unexpected.items)| ==> r == null && unexpected.items == old(unexpected.items)
      ensures k < |old(unexpected.items)| ==>
                r == old(unexpected.items)[k] && Loose(r) && unexpected.items == Dropped(old(unexpected.items), k)
    {
      Open();
      r, k := unexpected.FindAccepted(tag, sel, true);
      if r != null { DroppedApart(old(unexpected.items), k, expected.items, completed.items); }
      Close();
    }

    method RemoveExpected(r: Request) returns (found: bool, ghost k: nat)
      requires Sound(2)
      modifies expected, expected.items`next
      ensures Sound(2) && (found <==> r in old(expected.items)) && unexpected.items == old(unexpected.items)
      ensures found ==> k < |old(expected.items)| && old(expected.items)[k] == r && Loose(r)
      ensures found ==> expected.items == Dropped(old(expected.items), k)
      ensures !found ==> expected.items == old(expected.items)
    {
      Open();
      found, k := expected.RemoveSingle(r);
      if found { DroppedApart(old(expected.items), k, unexpected.items, completed.items); }
      Close();
    }

    method RemoveCompleted(r: Request, rec: Req, ghost k: nat)
      requires Sound(2) && k < |completed.items| && completed.items[k] == r
      modifies completed, r`rec, completed.items`next, completed.items`pprev
      ensures Sound(2) && completed.items == Dropped(old(completed.items), k) && r.rec == rec
    {
      Open();
      DroppedAt(completed.items, k);
      assert r.next == if k + 1 < |completed.items| then completed.items[k + 1] else null;
      assert r.pprev == if k == 0 then null else completed.items[k - 1];
      completed.Remove(r, k);
      r.rec := rec;
      Close();
    }

    method AppendTo(q: Sq, r: Request)
      requires Sound(2) && Loose(r) && (q == expected || q == unexpected)
      modifies q, r`next, q.items`next
      ensures Sound(2) && q.items == old(q.items) + [r]
      ensures q == expected ==> unexpected.items == old(unexpected.items)
      ensures q == unexpected ==> expected.items == old(expected.items)
    {
      Open();
      ghost var last := q.lastp;
      assert last != null ==> last in q.items;
      q.Append(r);
      Close();
    }

    method NewIn(q: Sq, rec: Req, ghost id: nat, ghost post: Option<nat>, ghost msg: Option<nat>) returns (r: Request)
      requires Sound(2) && (q == expected || q == unexpected)
      modifies q, q.items`next
      ensures Sound(2) && fresh(r) && r.rec == rec && r.id == id && r.post == post && r.msg == msg
      ensures q.items == old(q.items) + [r]
      ensures q == expected ==> unexpected.items == old(unexpected.items)
      ensures q == unexpected ==> expected.items == old(expected.items)
    {
      r := new Request(rec, id, post, msg);
      AppendTo(q, r);
    }

    // ---- steps on requests ----------------------------------------------------------------------

    method Update(r: Request, rec: Req, ghost post: Option<nat>, ghost msg: Option<nat>, ghost led: Ledger)
      requires Shape() && Mine(r)
      modifies this`abs, this`all, r`rec, r`post, r`msg
      ensures Shape() && all == old(all) && abs == Put(old(abs), r.id, rec.(post := post, msg := msg)).(led := led)
    {
      Store(r, rec, post, msg);
      Become(Put(abs, r.id, rec.(post := post, msg := msg)).(led := led), all);
    }

    method MoveToCompleted(r: Request, rec: Req, ghost post: Option<nat>, ghost msg: Option<nat>, ghost led: Ledger)
      requires Shape() && Mine(r) && Loose(r)
      modifies this`abs, this`all, completed, r, completed.items`next
      ensures Shape() && all == old(all) && abs == Finish(old(abs), r.id, rec.(post := post, msg := msg)).(led := led)
    {
      NumbersFinish(all, expected.items, unexpected.items, completed.items, egr, abs, r,
                    rec.(post := post, msg := msg));
      Retire(r, rec, post, msg);
      Become(Finish(abs, r.id, rec.(post := post, msg := msg)).(led := led), all);
    }

    /** A new request at the end of the expected or the unexpected queue. */
    method Add(q: Sq, rec: Req, ghost post: Option<nat>, ghost msg: Option<nat>, ghost led: Ledger) returns (r: Request)
      requires Shape() && (q == expected || q == unexpected)
      modifies this`abs, this`all, q, q.items`next
      ensures Shape() && fresh(r) && all == old(all) + [r] && r.id == |old(all)|
      ensures abs == Added(old(abs), q == expected, rec.(post := post, msg := msg), led)
    {
      ghost var e, u := expected.items, unexpected.items;
      r := NewIn(q, rec, |all|, post, msg);
      NumbersGrow(all, e, u, completed.items, egr, abs, r, q == expected, rec.(post := post, msg := msg), led);
      RecordedGrow(all, abs.reqs, r);
      Become(Added(abs, q == expected, rec.(post := post, msg := msg), led), all + [r]);
    }

    /** Take the first posted receive that accepts `tag` off the expected queue. */
    method MatchExpected(tag: Tag) returns (r: Request?, ghost k: nat)
      requires Shape()
      modifies this`abs, this`all, expected, expected.items`next
      ensures Shape() && all == old(all) && InRange(old(abs), old(abs).expected)
      ensures k == FindExpected(old(abs).reqs, old(abs).expected, tag)
      ensures r == null <==> k == |old(abs).expected|
      ensures r == null ==> abs == old(abs)
      ensures r != null ==> Mine(r) && Loose(r) && r.id == old(abs).expected[k]
      ensures r != null ==> abs == old(abs).(expected := Without(old(abs).expected, k))
    {
      ghost var items := expected.items;
      r, k := TakeExpected(tag);
      FindsExpected(all, items, abs, tag, k);
      NumbersDrop(all, items, unexpected.items, completed.items, egr, abs, k);
      Become(if r != null then abs.(expected := Without(abs.expected, k)) else abs, all);
    }

    method MatchUnexpected(tag: Tag, sel: Tag) returns (r: Request?, ghost k: nat)
      requires Shape()
      modifies this`abs, this`all, unexpected, unexpected.items`next
      ensures Shape() && all == old(all) && InRange(old(abs), old(abs).unexpected)
      ensures k == FindUnexpected(old(abs).reqs, old(abs).unexpected, tag, sel)
      ensures r == null <==> k == |old(abs).unexpected|
      ensures r == null ==> abs == old(abs)
      ensures r != null ==> Mine(r) && Loose(r) && r.id == old(abs).unexpected[k]
      ensures r != null ==> abs == old(abs).(unexpected := Without(old(abs).unexpected, k))
    {
      ghost var items := unexpected.items;
      r, k := TakeUnexpected(tag, sel);
      FindsUnexpected(all, items, abs, tag, sel, k);
      NumbersDrop2(all, expected.items, items, completed.items, egr, abs, k);
      Become(if r != null then abs.(unexpected := Without(abs.unexpected, k)) else abs, all);
    }

    /** Change a request and its peer's list of unfinished messages. */
    method UpdateTrain(r: Request, rec: Req, list: seq<Request>, ghost ids: seq<nat>)
      requires Shape() && Mine(r) && Listed(list, ids, all)
      modifies this`abs, this`all, this`egr, r`rec, r`post, r`msg
      ensures Shape() && all == old(all) && egr == old(egr)[rec.peer := list] && r.rec == rec
      ensures abs == Put(old(abs), r.id, rec.(post := r.post, msg := r.msg)).(egr := old(abs).egr[rec.peer := ids])
      ensures r.post == old(r.post) && r.msg == old(r.msg)
    {
      ghost var s := Put(abs, r.id, rec.(post := r.post, msg := r.msg)).(egr := abs.egr[rec.peer := ids]);
      Store(r, rec, r.post, r.msg);
      SetEgr(rec.peer, list);
      Become(s, all);
    }

    method SetEgr(peer: nat, list: seq<Request>)
      requires Sound(2)
      modifies this`egr
      ensures Sound(2) && egr == old(egr)[peer := list]
    {
      egr := egr[peer := list];
    }

    // ---- psm_mq.c ---------------------------------------------------------------------------------

    /** A message that was taken off the unexpected queue becomes the receive's. */
    method Adopt(r: Request, buf: seq<Byte>, ghost post: Option<nat>, ghost led: Ledger)
      requires Shape() && Mine(r) && Loose(r)
      requires r.rec.state.Unexp? ==> r.rec.buf.Mem? && r.rec.recvOff <= |r.rec.buf.bytes|
      requires r.rec.state.Complete? && r.rec.buf.Mem? ==> r.rec.sendLen <= |r.rec.buf.bytes|
      modifies this`abs, this`all, completed, r, completed.items`next
      ensures Shape() && all == old(all)
      ensures var q := Adopted(old(abs.reqs[r.id]), buf).(post := post);
              abs == (if q.state.Complete? then Finish(old(abs), r.id, q) else Put(old(abs), r.id, q)).(led := led)
    {
      assert Full(r) == abs.reqs[r.id];
      AdoptedFull(r.rec, r.post, r.msg, buf);
      var rec := Adopted(r.rec, buf);
      if rec.state.Complete? {
        MoveToCompleted(r, rec, post, r.msg, led);
      } else {
        Update(r, rec, post, r.msg, led);
      }
    }

    /** psm_mq_irecv: adopt the first message that fits, or post the receive. */
    method PostReceive(tag: Tag, sel: Tag, buf: seq<Byte>) returns (r: Request)
      requires Shape() && Adoptable(abs)
      modifies this`abs, this`all, expected, unexpected, completed, all
      ensures Shape() && abs == DoIrecv(old(abs), tag, sel, buf) && Grown()
      ensures Mine(r) && r.id == ReceiveId(old(abs), tag, sel)
    {
      ghost var s, post, led := abs, Some(|abs.led.posts|), DoPost(abs.led, tag, sel, buf, |abs.reqs|);
      var m, k := MatchUnexpected(tag, sel);
      if m == null {
        var rec := Req(Posted, false, tag, sel, Mem(buf), |buf|, Ok, |buf|, 0, 0, 0, 0, None, None);
        r := Add(expected, rec, post, None, led);
      } else {
        r := m;
        assert Full(r) == s.reqs[r.id];
        Adopt(r, buf, post, led);
      }
    }

    /** psm_mq_cancel: a posted receive is taken back; the queue walk always finds it. */
    method CancelReceive(r: Request) returns (cancelled: bool)
      requires Shape() && Mine(r)
      requires r.rec.state.Posted? ==> r.id in abs.expected && r.post.Some? && r.post.value < |abs.led.posts|
      modifies this`abs, this`all, expected, completed, all
      ensures Shape() && cancelled == old(r.rec.state.Posted?) && abs == DoCancelReq(old(abs), r.id)
      ensures all == old(all)
    {
      if !r.rec.state.Posted? { return false; }
      ghost var led := DoCancel(abs.led, r.post.value);
      TakeBack(r);
      MoveToCompleted(r, r.rec, r.post, r.msg, led);
      return true;
    }

    /** Unlink a posted receive. */
    method TakeBack(r: Request)
      requires Shape() && Mine(r) && r.id in abs.expected
      modifies this`abs, this`all, expected, expected.items`next
      ensures Shape() && all == old(all) && Loose(r)
      ensures abs == old(abs).(expected := Without(old(abs).expected, IndexOf(old(abs).expected, r.id)))
    {
      ghost var items := expected.items;
      ghost var n := IndexOf(abs.expected, r.id);
      assert items[n] == r;
      var found, k := RemoveExpected(r);
      assert found && k == n;
      NumbersDrop(all, items, unexpected.items, completed.items, egr, abs, k);
      Become(abs.(expected := Without(abs.expected, k)), all);
    }

    /** psm_mq_test: a completed request is unlinked, reported and released. */
    method TestRequest(r: Request) returns (done: bool, tag: Tag, sent: nat, received: nat, err: Err)
      requires Shape() && Mine(r) && (r.rec.state.Complete? ==> r.id in abs.completed)
      modifies this`abs, this`all, completed, all
      ensures Shape() && done == old(r.rec.state.Complete?) && abs == DoTest(old(abs), r.id) && all == old(all)
      ensures done ==>
                var q := old(abs).reqs[r.id]; tag == q.tag && sent == q.sendLen && received == q.recvLen && err == q.err
    {
      var rec := r.rec;
      done, tag, sent, received, err := rec.state.Complete?, rec.tag, rec.sendLen, rec.recvLen, rec.err;
      if done { Release(r); }
    }

    method Release(r: Request)
      requires Shape() && Mine(r) && r.rec.state.Complete? && r.id in abs.completed
      modifies this`abs, this`all, completed, r`rec, completed.items`next, completed.items`pprev
      ensures Shape() && abs == DoTest(old(abs), r.id) && all == old(all)
    {
      ghost var items, s := completed.items, abs;
      ghost var k := IndexOf(s.completed, r.id);
      assert items[k] == r;
      RemoveCompleted(r, r.rec.(state := Freed, buf := Null), k);
      NumbersRelease(all, expected.items, unexpected.items, items, egr, s, k);
      Become(DoTest(s, r.id), all);
    }

    /** One search of psm_mq_iprobe: look without taking. */
    method Probe(tag: Tag, sel: Tag) returns (r: Request?)
      requires Shape()
      modifies unexpected, all
      ensures Shape() && InRange(abs, abs.unexpected)
      ensures var k := FindUnexpected(abs.reqs, abs.unexpected, tag, sel);
              if k < |abs.unexpected| then r != null && Mine(r) && r.id == abs.unexpected[k] else r == null
    {
      ghost var k;
      r, k := Peek(tag, sel);
      FindsUnexpected(all, unexpected.items, abs, tag, sel, k);
    }

    method Peek(tag: Tag, sel: Tag) returns (r: Request?, ghost k: nat)
      requires Sound(2)
      modifies unexpected, unexpected.items`next
      ensures Sound(2) && unexpected.items == old(unexpected.items) && expected.items == old(expected.items)
      ensures FirstMessage(unexpected.items, tag, sel, k)
      ensures r == if k < |unexpected.items| then unexpected.items[k] else null
    {
      Open();
      r, k := unexpected.FindAccepted(tag, sel, false);
      Close();
    }

    // ---- psm_mq_recv.c -----------------------------------------------------------------------------

    /** A posted receive takes an arriving message: everything but the bytes. */
    method ClaimFor(tag: Tag, peer: nat, sendLen: nat, ghost a: Msg) returns (r: Request?, ghost k: nat)
      requires Shape() && a.tag == tag && a.peer == peer && |a.data| == sendLen
      modifies this`abs, this`all, expected, all
      ensures Shape() && all == old(all) && InRange(old(abs), old(abs).expected)
      ensures k == FindExpected(old(abs).reqs, old(abs).expected, tag)
      ensures r == null <==> k == |old(abs).expected|
      ensures r == null ==> abs == old(abs)
      ensures r != null ==> Mine(r) && Loose(r) && r.id == old(abs).expected[k] && abs == Claim(old(abs), k, a)
    {
      ghost var s := abs;
      r, k := MatchExpected(tag);
      if r != null {
        ClaimIs(s, k, a, r.rec, r.post, r.msg);
        var rec := SetMsgLen(r.rec.(tag := tag, state := Matched, peer := peer, recvOff := 0), r.rec.bufLen, sendLen);
        Update(r, rec, r.post, Some(|s.led.msgs|), DoArrive(s.led, a, |s.reqs|));
      }
    }

    /** The bytes of a whole message go to the receive that took it. */
    method Deliver(r: Request, payload: seq<Byte>)
      requires Shape() && Mine(r) && Loose(r) && r.rec.buf.Mem?
      requires r.rec.recvLen <= |payload| && r.rec.recvLen <= |r.rec.buf.bytes|
      modifies this`abs, this`all, completed, r, completed.items`next
      ensures Shape() && all == old(all)
      ensures var q := old(abs).reqs[r.id];
              && q.buf.Mem? && q.recvLen <= |payload| && q.recvLen <= |q.buf.bytes|
              && abs == Finish(old(abs), r.id, q.(buf := Mem(Overwrite(q.buf.bytes, 0, payload[..q.recvLen]))))
    {
      assert Full(r) == abs.reqs[r.id];
      var rec := r.rec.(buf := Mem(Overwrite(r.rec.buf.bytes, 0, payload[..r.rec.recvLen])));
      MoveToCompleted(r, rec, r.post, r.msg, abs.led);
    }

    /** Tiny and short envelopes: the whole message is here. */
    method HandleEager(tiny: bool, peer: nat, tag: Tag, payload: seq<Byte>)
      requires Shape() && Receivable(abs)
      modifies this`abs, this`all, expected, unexpected, completed, all
      ensures Shape() && abs == DoEager(old(abs), tiny, peer, tag, payload) && Grown()
    {
      ghost var a, s := Arrival(Whole, peer, tag, payload, |payload|), abs;
      var r, k := ClaimFor(tag, peer, |payload|, a);
      if r != null {
        assert Full(r) == abs.reqs[r.id];
        Deliver(r, payload);
      } else {
        ParkWhole(tiny, peer, tag, payload, a);
      }
    }

    /** Nobody waits for a whole message: a request keeps a copy. */
    method ParkWhole(tiny: bool, peer: nat, tag: Tag, payload: seq<Byte>, ghost a: Msg)
      requires Shape()
      modifies this`abs, this`all, unexpected, unexpected.items`next
      ensures Shape() && Grown()
      ensures var buf := if tiny && payload == [] then Null else Mem(payload);
              abs == Park(old(abs), NewReq(tag, peer, |payload|).(state := Complete, buf := buf), a)
    {
      ghost var s := abs;
      var rec := NewReq(tag, peer, |payload|);
      rec := rec.(state := Complete, buf := if tiny && payload == [] then Null else Mem(payload));
      var r := Add(unexpected, rec, None, Some(|s.led.msgs|), DoArrive(s.led, a, |s.reqs|));
    }

    /** psmi_mq_handle_rts: note the match, or park the announcement. */
    method HandleRts(peer: nat, tag: Tag, sendLen: nat, ghost data: seq<Byte>) returns (r: Request, matched: bool)
      requires Shape() && |data| == sendLen
      modifies this`abs, this`all, expected, unexpected, all
      ensures Shape() && InRange(old(abs), old(abs).expected) && abs == DoRts(old(abs), peer, tag, data) && Grown()
      ensures Mine(r) && (matched <==> FindExpected(old(abs).reqs, old(abs).expected, tag) < |old(abs).expected|)
      ensures r.id == RtsId(old(abs), tag)
    {
      ghost var a, s := Arrival(Rendezvous, peer, tag, data, 0), abs;
      ghost var k;
      var m;
      m, k := ClaimFor(tag, peer, sendLen, a);
      matched := m != null;
      if matched {
        r := m;
      } else {
        r := Add(unexpected, NewReq(tag, peer, sendLen).(state := UnexpRv), None, Some(|s.led.msgs|),
                 DoArrive(s.led, a, |s.reqs|));
      }
    }

    /** psmi_mq_handle_data: copy a fragment; the last one ends the train. */
    method TakeFragment(r: Request, frag: seq<Byte>)
      requires Shape() && Mine(r) && CanCopy(r.rec)
      requires r.rec.egrLong ==> r.rec.peer in egr && egr[r.rec.peer] != []
      requires r.rec.state.Matched? ==> Loose(r)
      modifies this`abs, this`all, this`egr, completed, all
      ensures Shape() && abs == HandleData(old(abs), r.id, frag) && all == old(all)
    {
      assert Full(r) == abs.reqs[r.id];
      var rec := ReqCopy(r.rec, frag);
      assert ReqCopy(abs.reqs[r.id], frag) == rec.(post := r.post, msg := r.msg);
      if rec.sendOff == rec.sendLen {
        LastFragment(r, rec);
      } else {
        Update(r, rec, r.post, r.msg, abs.led);
      }
    }

    /** The train of r is complete, and so is r. */
    method LastFragment(r: Request, rec: Req)
      requires Shape() && Mine(r) && (rec.state.Matched? ==> Loose(r))
      requires rec.egrLong ==> rec.peer in egr && egr[rec.peer] != []
      modifies this`abs, this`all, this`egr, completed, all
      ensures Shape() && all == old(all)
      ensures var s, rec' := old(abs), rec.(post := old(r.post), msg := old(r.msg));
              var s' := if rec.egrLong && Egr(s, rec.peer) != []
                        then s.(egr := s.egr[rec.peer := Egr(s, rec.peer)[1..]]) else s;
              abs == if rec.state.Matched? then Finish(s', r.id, rec') else Put(s', r.id, rec'.(state := Complete))
    {
      ghost var s := abs;
      if rec.egrLong {
        assert Listed(egr[rec.peer], s.egr[rec.peer], all);
        UpdateTrain(r, if rec.state.Matched? then rec else rec.(state := Complete), egr[rec.peer][1..],
                    s.egr[rec.peer][1..]);
      } else if !rec.state.Matched? {
        Update(r, rec.(state := Complete), r.post, r.msg, abs.led);
      }
      if rec.state.Matched? { MoveToCompleted(r, rec, r.post, r.msg, abs.led); }
    }

    /** Enter a request in its peer's list of unfinished messages. */
    method EnterTrain(r: Request)
      requires Shape() && Mine(r)
      modifies this`abs, this`all, this`egr, r`rec, r`post, r`msg
      ensures Shape() && all == old(all) && abs == Enlist(old(abs), r.id)
      ensures r.rec == old(r.rec).(egrLong := true, sendOff := 0)
      ensures r.rec.peer in egr && egr[r.rec.peer] != []
    {
      var peer := r.rec.peer;
      assert Full(r) == abs.reqs[r.id];
      var list := if peer in egr then egr[peer] else [];
      assert peer in egr ==> Listed(egr[peer], abs.egr[peer], all);
      UpdateTrain(r, r.rec.(egrLong := true, sendOff := 0), list + [r], Egr(abs, peer) + [r.id]);
    }

    method BeginTrain(r: Request, payload: seq<Byte>)
      requires Shape() && Mine(r) && CanCopy(r.rec) && (r.rec.state.Matched? ==> Loose(r))
      modifies this`abs, this`all, this`egr, completed, all
      ensures Shape() && CanCopy(Enlist(old(abs), r.id).reqs[r.id]) && all == old(all)
      ensures abs == HandleData(Enlist(old(abs), r.id), r.id, payload)
    {
      assert Full(r) == abs.reqs[r.id];
      EnterTrain(r);
      TakeFragment(r, payload);
    }

    /** Nobody waits for the message: a request with a system buffer collects it. */
    method ParkLong(peer: nat, tag: Tag, sendLen: nat, payload: seq<Byte>, ghost a: Msg)
      requires Shape() && |a.data| == sendLen
      modifies this`abs, this`all, this`egr, unexpected, completed, all
      ensures Shape() && Grown()
      ensures var s, rid := Park(old(abs), NewTrain(tag, peer, sendLen), a), |old(abs).reqs|;
              CanCopy(Enlist(s, rid).reqs[rid]) && abs == HandleData(Enlist(s, rid), rid, payload)
    {
      ghost var s := abs;
      var r := Add(unexpected, NewTrain(tag, peer, sendLen), None, Some(|s.led.msgs|), DoArrive(s.led, a, |s.reqs|));
      BeginTrain(r, payload);
    }

    /** The first packet of a long message. */
    method HandleLong(peer: nat, tag: Tag, sendLen: nat, payload: seq<Byte>, ghost data: seq<Byte>)
      requires Shape() && Receivable(abs) && |data| == sendLen && payload <= data
      modifies this`abs, this`all, this`egr, expected, unexpected, completed, all
      ensures Shape() && abs == DoLongFirst(old(abs), peer, tag, data, |payload|) && Grown()
    {
      ghost var a := Arrival(Train, peer, tag, data, |payload|);
      assert payload == data[..|payload|];
      var r, k := ClaimFor(tag, peer, sendLen, a);
      if r == null {
        ParkLong(peer, tag, sendLen, payload, a);
      } else {
        assert Full(r) == abs.reqs[r.id];
        BeginTrain(r, payload);
      }
    }

    /** psmi_mq_handle_rts_complete. */
    method CompleteRts(r: Request)
      requires Shape() && Mine(r) && Loose(r)
      modifies this`abs, this`all, completed, all
      ensures Shape() && abs == Finish(old(abs), r.id, old(abs).reqs[r.id]) && all == old(all)
    {
      assert Full(r) == abs.reqs[r.id];
      MoveToCompleted(r, r.rec, r.post, r.msg, abs.led);
    }

    /** A fragment of the train that `peer` has open: its request heads the peer's list. */
    method NextFragment(peer: nat, frag: seq<Byte>, ghost m: nat)
      requires Shape() && m < |abs.led.msgs| && |Egr(abs, peer)| == 1 && Egr(abs, peer)[0] < |abs.reqs|
      requires var rid := Egr(abs, peer)[0];
               && CanCopy(abs.reqs[rid]) && abs.reqs[rid].peer == peer
               && (abs.reqs[rid].state.Matched? ==> Unlisted(abs, rid))
      modifies this`abs, this`all, this`egr, completed, all
      ensures Shape() && abs == DoLongNext(old(abs), Egr(old(abs), peer)[0], m, frag) && all == old(all)
    {
      assert Listed(egr[peer], abs.egr[peer], all);
      var r := egr[peer][0];
      assert Full(r) == abs.reqs[r.id];
      UnlistedLoose(r);
      TakeFragment(r, frag);
      Become(abs.(led := DoMore(abs.led, m, |frag|)), all);
    }

    lemma UnlistedLoose(r: Request)
      requires Recorded(all, abs.reqs) && Numbers(all, expected.items, unexpected.items, completed.items, egr, abs)
      ensures Mine(r) && Unlisted(abs, r.id) ==> Loose(r)
    {
    }

    /** The transport writes bytes of a rendezvous message into the buffer. */
    method WriteRts(r: Request, off: nat, piece: seq<Byte>)
      requires Shape() && Mine(r) && r.rec.buf.Mem? && off + |piece| <= |r.rec.buf.bytes|
      modifies this`abs, this`all, all
      ensures Shape() && all == old(all)
      ensures var q := old(abs).reqs[r.id];
              && q.buf.Mem? && off + |piece| <= |q.buf.bytes|
              && abs == Put(old(abs), r.id, q.(buf := Mem(Overwrite(q.buf.bytes, off, piece))))
    {
      assert Full(r) == abs.reqs[r.id];
      Update(r, r.rec.(buf := Mem(Overwrite(r.rec.buf.bytes, off, piece))), r.post, r.msg, abs.led);
    }

    // ---- the interface: every call is one step of a legal run --------------------------------------------

    /** The machine state is one that some legal run reaches, so all that is proved of runs holds of it. */
    ghost predicate Valid()
      reads this, expected, unexpected, completed, all`rec, all`post, all`msg
      reads expected.items`next, unexpected.items`next, completed.items`next, completed.items`pprev
    {
      Shape() && Reached(abs) && Owned()
    }

    method Irecv(tag: Tag, sel: Tag, buf: seq<Byte>) returns (r: Request)
      requires Valid()
      modifies repr
      ensures Valid() && Step(old(abs), Event.Irecv(tag, sel, buf)) == Some(abs) && Grown() && fresh(repr - old(repr))
      ensures Mine(r) && Held(abs, r.id) && r.id == ReceiveId(old(abs), tag, sel)
    {
      ghost var n := |all|;
      IrecvStep(abs, tag, sel, buf);
      ReceiveHeld(abs, tag, sel, buf);
      r := PostReceive(tag, sel, buf);
      Enrol(n);
    }

    /**
     psm_mq_iprobe: search, and if nothing fits poll once and search again.  The
     poll brings `polled`, anything that may come in; the transport already holds
     `tokens` for the messages it is pulling.
     */
    method Iprobe(tag: Tag, sel: Tag, polled: seq<Incoming>, tokens: seq<Request>, ghost ids: seq<nat>)
      returns (found: bool, msgTag: Tag, sent: nat, received: nat, err: Err)
      requires Valid() && Tokens(tokens, ids) && Deliverable(abs, ids, polled)
      modifies repr
      ensures Valid() && Grown() && fresh(repr - old(repr))
      ensures InRange(old(abs), old(abs).unexpected) && InRange(abs, abs.unexpected)
      ensures var k := FindUnexpected(old(abs).reqs, old(abs).unexpected, tag, sel);
              Run(old(abs), if k < |old(abs).unexpected| then [] else Events(old(abs), ids, polled)) == Some(abs)
      ensures var m := FirstMsg(abs.led.msgs, tag, sel);
              && (found <==> m < |abs.led.msgs|)
              && (found ==> msgTag == abs.led.msgs[m].tag && sent == received == |abs.led.msgs[m].data| && err == Ok)
    {
      var r := Probe(tag, sel);
      if r == null {
        DeliverAll(polled, tokens, ids);
        r := Probe(tag, sel);
      }
      found := r != null;
      ProbeFinds(abs, tag, sel);
      msgTag, sent, received, err := 0, 0, 0, Ok;
      if r != null {
        assert Full(r) == abs.reqs[r.id];
        msgTag, sent, received, err := r.rec.tag, r.rec.sendLen, r.rec.recvLen, r.rec.err;
      }
    }

    /** The transport's tokens are requests of this engine, by number. */
    ghost predicate Tokens(tokens: seq<Request>, ids: seq<nat>)
      reads `all
    {
      |tokens| == |ids| && forall i :: 0 <= i < |ids| ==> ids[i] < |all| && all[ids[i]] == tokens[i]
    }

    /** What a poll brings, in turn; an announcement hands the transport another token. */
    method DeliverAll(polled: seq<Incoming>, tokens: seq<Request>, ghost ids: seq<nat>)
      requires Valid() && Tokens(tokens, ids) && Deliverable(abs, ids, polled)
      modifies repr
      ensures Valid() && Grown() && fresh(repr - old(repr))
      ensures Run(old(abs), Events(old(abs), ids, polled)) == Some(abs)
      decreases |polled|
    {
      if polled != [] {
        ghost var s := abs;
        var tokens' := DeliverOne(polled[0], tokens, ids);
        label L:
        DeliverAll(polled[1..], tokens', NextIds(s, ids, polled[0]));
        RunCons(s, EventOf(polled[0], ids), Events(old@L(abs), NextIds(s, ids, polled[0]), polled[1..]));
      }
    }

    method AnnounceNext(peer: nat, tag: Tag, data: seq<Byte>, tokens: seq<Request>, ghost ids: seq<nat>)
      returns (tokens': seq<Request>)
      requires Valid() && Tokens(tokens, ids)
      modifies repr
      ensures Valid() && Grown() && fresh(repr - old(repr)) && Step(old(abs), Rts(peer, tag, data)) == Some(abs)
      ensures InRange(old(abs), old(abs).expected) && Tokens(tokens', ids + [RtsId(old(abs), tag)])
    {
      var r, matched := RtsEnvelope(peer, tag, |data|, data);
      tokens' := tokens + [r];
    }

    method DeliverOne(x: Incoming, tokens: seq<Request>, ghost ids: seq<nat>) returns (tokens': seq<Request>)
      requires Valid() && Tokens(tokens, ids) && Arrives(abs, ids, x)
      modifies repr
      ensures Valid() && Grown() && fresh(repr - old(repr))
      ensures Step(old(abs), EventOf(x, ids)) == Some(abs) && Tokens(tokens', NextIds(old(abs), ids, x))
    {
      tokens' := tokens;
      match x
      case Packet(tiny, peer, tag, data) => Envelope(tiny, peer, tag, data);
      case First(peer, tag, data, n) => LongEnvelope(peer, tag, |data|, data[..n], data);
      case Next(peer, frag) => Data(peer, frag);
      case Announce(peer, tag, data) => tokens' := AnnounceNext(peer, tag, data, tokens, ids);
      case Bytes(token, off, piece) => RtsBytes(tokens[token], off, piece);
      case Finished(token) => RtsComplete(tokens[token]);
    }

    method Cancel(r: Request) returns (cancelled: bool)
      requires Valid() && Mine(r) && Held(abs, r.id)
      modifies repr
      ensures Valid() && Step(old(abs), Event.Cancel(r.id)) == Some(abs) && Grown() && fresh(repr - old(repr))
      ensures cancelled <==> old(abs).reqs[r.id].state.Posted?
    {
      assert Full(r) == abs.reqs[r.id];
      HandleReady(abs, r.id);
      ReachedOn(abs, Event.Cancel(r.id));
      cancelled := CancelReceive(r);
    }

    method Test(r: Request) returns (done: bool, tag: Tag, sent: nat, received: nat, err: Err)
      requires Valid() && Mine(r) && Held(abs, r.id)
      modifies repr
      ensures Valid() && Step(old(abs), Event.Test(r.id)) == Some(abs) && Grown() && fresh(repr - old(repr))
      ensures done <==> old(abs).reqs[r.id].state.Complete?
      ensures done ==> StatusOf(old(abs), r.id, tag, sent, received, err)
    {
      assert Full(r) == abs.reqs[r.id];
      HandleReady(abs, r.id);
      ReachedOn(abs, Event.Test(r.id));
      if abs.reqs[r.id].state.Complete? { StatusRight(abs, r.id); }
      done, tag, sent, received, err := TestRequest(r);
    }

    method Envelope(tiny: bool, peer: nat, tag: Tag, payload: seq<Byte>)
      requires Valid()
      modifies repr
      ensures Valid() && Step(old(abs), Event.Eager(tiny, peer, tag, payload)) == Some(abs) && Grown()
      ensures fresh(repr - old(repr))
    {
      ghost var n := |all|;
      EagerStep(abs, tiny, peer, tag, payload);
      HandleEager(tiny, peer, tag, payload);
      Enrol(n);
    }

    method LongEnvelope(peer: nat, tag: Tag, sendLen: nat, payload: seq<Byte>, ghost data: seq<Byte>)
      requires Valid() && |data| == sendLen && payload <= data && OpenTrain(abs.led.msgs, peer) == |abs.led.msgs|
      modifies repr
      ensures Valid() && Step(old(abs), Event.LongFirst(peer, tag, data, |payload|)) == Some(abs) && Grown()
      ensures fresh(repr - old(repr))
    {
      LongFirstStep(abs, peer, tag, data, |payload|);
      EnrolLong(peer, tag, sendLen, payload, data);
    }

    method EnrolLong(peer: nat, tag: Tag, sendLen: nat, payload: seq<Byte>, ghost data: seq<Byte>)
      requires Shape() && Owned() && Receivable(abs) && |data| == sendLen && payload <= data
      modifies repr
      ensures Shape() && Owned() && Grown() && fresh(repr - old(repr))
      ensures abs == DoLongFirst(old(abs), peer, tag, data, |payload|)
    {
      ghost var n := |all|;
      HandleLong(peer, tag, sendLen, payload, data);
      Enrol(n);
    }

    method Data(peer: nat, frag: seq<Byte>)
      requires Valid() && Legal(abs, Event.LongNext(peer, frag))
      modifies repr
      ensures Valid() && Step(old(abs), Event.LongNext(peer, frag)) == Some(abs) && Grown() && fresh(repr - old(repr))
    {
      LongNextStep(abs, peer, frag);
      NextFragment(peer, frag, OpenTrain(abs.led.msgs, peer));
    }

    method RtsEnvelope(peer: nat, tag: Tag, sendLen: nat, ghost data: seq<Byte>) returns (r: Request, matched: bool)
      requires Valid() && |data| == sendLen
      modifies repr
      ensures Valid() && Step(old(abs), Event.Rts(peer, tag, data)) == Some(abs) && Grown() && fresh(repr - old(repr))
      ensures Mine(r) && InRange(old(abs), old(abs).expected) && r.id == RtsId(old(abs), tag)
      ensures matched <==> FindExpected(old(abs).reqs, old(abs).expected, tag) < |old(abs).expected|
      ensures matched ==> Pulling(abs, r.id) && Announced(abs, r.id) == data
    {
      RtsStep(abs, peer, tag, data);
      RtsPulls(abs, peer, tag, data);
      r, matched := EnrolRts(peer, tag, sendLen, data);
    }

    method EnrolRts(peer: nat, tag: Tag, sendLen: nat, ghost data: seq<Byte>) returns (r: Request, matched: bool)
      requires Shape() && Owned() && |data| == sendLen
      modifies repr
      ensures Shape() && Owned() && Grown() && fresh(repr - old(repr))
      ensures InRange(old(abs), old(abs).expected) && abs == DoRts(old(abs), peer, tag, data)
      ensures Mine(r) && r.id == RtsId(old(abs), tag)
      ensures matched <==> FindExpected(old(abs).reqs, old(abs).expected, tag) < |old(abs).expected|
    {
      ghost var n := |all|;
      r, matched := HandleRts(peer, tag, sendLen, data);
      Enrol(n);
    }

    method RtsBytes(r: Request, off: nat, piece: seq<Byte>)
      requires Valid() && Mine(r) && Legal(abs, Event.RtsWrite(r.id, off, piece))
      modifies repr
      ensures Valid() && Step(old(abs), Event.RtsWrite(r.id, off, piece)) == Some(abs) && Grown()
      ensures fresh(repr - old(repr))
    {
      assert Full(r) == abs.reqs[r.id];
      ReachedOn(abs, Event.RtsWrite(r.id, off, piece));
      WriteRts(r, off, piece);
    }

    method RtsComplete(r: Request)
      requires Valid() && Mine(r) && Legal(abs, Event.RtsDone(r.id))
      modifies repr
      ensures Valid() && Step(old(abs), Event.RtsDone(r.id)) == Some(abs) && Grown() && fresh(repr - old(repr))
    {
      PullReady(abs, r.id);
      UnlistedLoose(r);
      ReachedOn(abs, Event.RtsDone(r.id));
      CompleteRts(r);
    }

    /** What is proved of runs, read off the linked queues: a posted receive accepts no parked message. */
    lemma QueuesDoNotMatch(i: nat, j: nat)
      requires Valid() && i < |expected.items| && j < |unexpected.items|
      ensures !Accepts(unexpected.items[j].rec.tag, expected.items[i].rec.tag, expected.items[i].rec.sel)
    {
      Location(abs);
      assert expected.items[i] == all[abs.expected[i]] && unexpected.items[j] == all[abs.unexpected[j]];
      assert Full(expected.items[i]) == abs.reqs[abs.expected[i]];
      assert Full(unexpected.items[j]) == abs.reqs[abs.unexpected[j]];
    }
  }

  /** Another receive leaves a handle with its holder. */
  method AnotherReceive(e: Engine, a: Request) returns (b: Request)
    requires e.Valid() && e.Mine(a) && Held(e.abs, a.id)
    modifies e.repr
    ensures e.Valid() && fresh(e.repr - old(e.repr))
    ensures e.Mine(a) && Held(e.abs, a.id) && e.Mine(b) && Held(e.abs, b.id)
  {
    IrecvStep(e.abs, 2, 0, [0]);
    HeldOn(e.abs, Irecv(2, 0, [0]), a.id);
    b := e.Irecv(2, 0, [0]);
  }

  /** Two receives, both held. */
  method TwoReceives(e: Engine) returns (a: Request, b: Request)
    requires e.Valid()
    modifies e.repr
    ensures e.Valid() && fresh(e.repr - old(e.repr))
    ensures e.Mine(a) && Held(e.abs, a.id) && e.Mine(b) && Held(e.abs, b.id)
  {
    a := e.Irecv(1, 0, [0, 0]);
    b := AnotherReceive(e, a);
  }

  method StartWithTwo() returns (e: Engine, a: Request, b: Request)
    ensures e.Valid() && fresh(e.repr)
    ensures e.Mine(a) && Held(e.abs, a.id) && e.Mine(b) && Held(e.abs, b.id)
  {
    e := new Engine();
    a, b := TwoReceives(e);
  }

  /** Two receives on a new engine; the first is taken back. */
  method FromTheStart() returns (e: Engine, cancelled: bool)
    ensures e.Valid() && fresh(e.repr)
  {
    var a, b;
    e, a, b := StartWithTwo();
    cancelled := e.Cancel(a);
  }

  /** A message arrives and its receive is asked for. */
  method ReceiveOne(e: Engine, a: Request) returns (done: bool)
    requires e.Valid() && e.Mine(a) && Held(e.abs, a.id)
    modifies e.repr
    ensures e.Valid() && fresh(e.repr - old(e.repr))
  {
    EagerStep(e.abs, true, 7, 1, [9]);
    HeldOn(e.abs, Eager(true, 7, 1, [9]), a.id);
    e.Envelope(true, 7, 1, [9]);
    var tag, sent, received, err;
    done, tag, sent, received, err := e.Test(a);
  }

  /** What was announced is written and the receive is completed. */
  method Pull(e: Engine, r: Request, data: seq<Byte>)
    requires e.Valid() && e.Mine(r) && Pulling(e.abs, r.id) && Announced(e.abs, r.id) == data
    modifies e.repr
    ensures e.Valid() && fresh(e.repr - old(e.repr))
  {
    PullLegal(e.abs, r.id);
    assert Full(r) == e.abs.reqs[r.id];
    e.RtsBytes(r, 0, data[..r.rec.recvLen]);
    e.RtsComplete(r);
  }

  /** An announcement that finds a receive is pulled through the request it returns. */
  method PullAnnounced(e: Engine, peer: nat, tag: Tag, data: seq<Byte>) returns (matched: bool)
    requires e.Valid()
    modifies e.repr
    ensures e.Valid() && fresh(e.repr - old(e.repr))
  {
    var r;
    r, matched := e.RtsEnvelope(peer, tag, |data|, data);
    if matched { Pull(e, r, data); }
  }
}
