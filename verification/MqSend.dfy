/**
 The sending side of the Matched Queue over shared memory: one send becomes one
 envelope, or an envelope and a train of data packets, or an announcement.

 Packets of one peer arrive in order; packets of different peers, and the
 receiver's own calls, interleave freely.  Under exactly that condition every
 event the engine sees is one it allows, so its theorems hold of every run.
 */
module MqSend {
  import opened Basics
  import opened MatchLedger
  import opened MqModel
  import opened MqRuns

  const MAX_TINY := 32
  const MAX_SHORT := 2048

  /** `q` finishes the `rest` of the peer's open train and continues with whole messages only. */
  ghost predicate Flows(peer: nat, rest: seq<Byte>, q: seq<Event>)
    decreases |q|
  {
    if rest != [] then
      && q != [] && q[0].LongNext? && q[0].peer == peer && q[0].frag != [] && q[0].frag <= rest
      && Flows(peer, rest[|q[0].frag|..], q[1..])
    else
      q == [] || match q[0]
                 case Eager(_, p, _, _) => p == peer && Flows(peer, [], q[1..])
                 case Rts(p, _, _) => p == peer && Flows(peer, [], q[1..])
                 case LongFirst(p, _, data, n) => p == peer && n <= |data| && Flows(peer, data[n..], q[1..])
                 case _ => false
  }

  /** The bytes a train of data packets carries. */
  ghost function Carried(q: seq<Event>): seq<Byte>
    requires forall i :: 0 <= i < |q| ==> q[i].LongNext?
  {
    if q == [] then [] else q[0].frag + Carried(q[1..])
  }

  ghost predicate Pieces(peer: nat, q: seq<Event>) {
    forall i :: 0 <= i < |q| ==> q[i].LongNext? && q[i].peer == peer && 0 < |q[i].frag| <= MAX_SHORT
  }

  lemma {:induction false} CarriedOn(q: seq<Event>, next: Event)
    requires next.LongNext? && forall i :: 0 <= i < |q| ==> q[i].LongNext?
    ensures Carried(q + [next]) == Carried(q) + next.frag
  {
    if q == [] {
      assert Carried([next][1..]) == [] && q + [next] == [next];
    } else {
      assert (q + [next])[1..] == q[1..] + [next];
      CarriedOn(q[1..], next);
    }
  }

  lemma {:induction false} PiecesFlow(peer: nat, q: seq<Event>)
    requires Pieces(peer, q)
    ensures Flows(peer, Carried(q), q)
  {
    if q != [] {
      PiecesFlow(peer, q[1..]);
      assert Carried(q)[|q[0].frag|..] == Carried(q[1..]);
    }
  }

  /** An envelope with the first bytes, then data packets until all are sent. */
  method SendTrain(peer: nat, tag: Tag, data: seq<Byte>) returns (q: seq<Event>)
    ensures Flows(peer, [], q) && q != [] && q[0] == LongFirst(peer, tag, data, Min(|data|, MAX_SHORT))
    ensures forall i :: 1 <= i < |q| ==> q[i].LongNext? && |q[i].frag| <= MAX_SHORT
  {
    var sent := Min(|data|, MAX_SHORT);
    var first := LongFirst(peer, tag, data, sent);
    q := [];
    while sent < |data|
      invariant first.n <= sent <= |data|
      invariant Pieces(peer, q) && Carried(q) == data[first.n..sent]
    {
      var bytesThis := Min(|data| - sent, MAX_SHORT);
      var next := LongNext(peer, data[sent..sent + bytesThis]);
      CarriedOn(q, next);
      q := q + [next];
      sent := sent + bytesThis;
    }
    PiecesFlow(peer, q);
    assert ([first] + q)[1..] == q && data[first.n..sent] == data[first.n..];
    q := [first] + q;
  }

  /** The packets of one send; `flags` odd asks for a synchronous send. */
  method Send(peer: nat, tag: Tag, data: seq<Byte>, flags: nat, threshRv: nat) returns (q: seq<Event>)
    ensures Flows(peer, [], q) && q != []
    ensures q[0].Rts? <==> flags % 2 == 1 || (|data| > threshRv && (flags != 0 || |data| > 2048))
    ensures q[0].Eager? <==> flags == 0 && |data| <= 2048
    ensures q[0].Eager? ==> q == [Eager(|data| <= 32, peer, tag, data)]
    ensures q[0].Rts? ==> q == [Rts(peer, tag, data)]
    ensures !q[0].Eager? && !q[0].Rts? ==>
              && q[0] == LongFirst(peer, tag, data, Min(|data|, MAX_SHORT))
              && forall i :: 1 <= i < |q| ==> q[i].LongNext? && |q[i].frag| <= MAX_SHORT
  {
    if flags == 0 && |data| <= MAX_SHORT {
      q := [Eager(|data| <= MAX_TINY, peer, tag, data)];
    } else if flags % 2 == 1 || |data| > threshRv {
      q := [Rts(peer, tag, data)];
    } else {
      q := SendTrain(peer, tag, data);
    }
  }

  lemma {:induction false} FlowsOn(peer: nat, rest: seq<Byte>, q: seq<Event>, more: seq<Event>)
    requires Flows(peer, rest, q) && Flows(peer, [], more)
    ensures Flows(peer, rest, q + more)
    decreases |q|
  {
    if q == [] {
      assert q + more == more;
    } else {
      assert (q + more)[1..] == q[1..] + more;
      var left := if q[0].LongNext? then rest[|q[0].frag|..] else if q[0].LongFirst? then q[0].data[q[0].n..] else [];
      FlowsOn(peer, left, q[1..], more);
    }
  }

  // ---- what is left of a peer's train ---------------------------------------------------

  function Rest(msgs: seq<Msg>, peer: nat): seq<Byte> {
    var m := OpenTrain(msgs, peer);
    if m < |msgs| then msgs[m].data[msgs[m].got..] else []
  }

  lemma SameRest(msgs: seq<Msg>, msgs': seq<Msg>, peer: nat)
    requires |msgs'| == |msgs| && forall i :: 0 <= i < |msgs| ==> SameText(msgs[i], msgs'[i])
    ensures Rest(msgs', peer) == Rest(msgs, peer)
  {
    var m, m' := OpenTrain(msgs, peer), OpenTrain(msgs', peer);
    if m < |msgs| { assert SameText(msgs[m], msgs'[m]) && Open(msgs'[m], peer); }
    if m' < |msgs| { assert SameText(msgs[m'], msgs'[m']) && Open(msgs[m'], peer); }
  }

  lemma ArrivedTrain(msgs: seq<Msg>, a: Msg, peer: nat)
    ensures OpenTrain(msgs + [a], peer) ==
            if OpenTrain(msgs, peer) < |msgs| then OpenTrain(msgs, peer)
            else if Open(a, peer) then |msgs| else |msgs| + 1
  {
    var msgs' := msgs + [a];
    var m, m' := OpenTrain(msgs, peer), OpenTrain(msgs', peer);
    if m < |msgs| { assert Open(msgs'[m], peer); }
    if m' < |msgs| { assert Open(msgs[m'], peer); }
    if Open(a, peer) { assert Open(msgs'[|msgs|], peer); }
  }

  lemma ArrivedRest(msgs: seq<Msg>, a: Msg, peer: nat)
    ensures Rest(msgs + [a], peer) ==
            if OpenTrain(msgs, peer) < |msgs| then Rest(msgs, peer) else if Open(a, peer) then a.data[a.got..] else []
  {
    ArrivedTrain(msgs, a, peer);
    var m := OpenTrain(msgs, peer);
    if m < |msgs| { assert (msgs + [a])[m] == msgs[m]; }
  }

  /** A peer has at most one open train. */
  lemma OneTrain(s: Mq, i: nat, j: nat, peer: nat)
    requires Represented(s) && EgrOk(s) && i < |s.led.msgs| && j < |s.led.msgs|
    requires Open(s.led.msgs[i], peer) && Open(s.led.msgs[j], peer)
    ensures i == j
  {
  }

  /** A fragment moves on, or closes, the one train of its peer. */
  lemma MoreTrain(s: Mq, from: nat, n: nat, peer: nat)
    requires Represented(s) && EgrOk(s) && OpenTrain(s.led.msgs, from) < |s.led.msgs| && n <= |Rest(s.led.msgs, from)|
    ensures OpenTrain(DoMore(s.led, OpenTrain(s.led.msgs, from), n).msgs, peer) ==
            if peer == from && n == |Rest(s.led.msgs, from)| then |s.led.msgs| else OpenTrain(s.led.msgs, peer)
  {
    var msgs, k := s.led.msgs, OpenTrain(s.led.msgs, from);
    var msgs' := DoMore(s.led, k, n).msgs;
    var m, m' := OpenTrain(msgs, peer), OpenTrain(msgs', peer);
    if m < |msgs| && peer != from { assert Open(msgs'[m], peer); }
    if Open(msgs'[k], peer) { assert peer == from; }
    if m' < |msgs| {
      if m' != k { assert Open(msgs[m'], peer); }
      if peer == from { OneTrain(s, m', k, from); }
    }
  }

  lemma MoreRest(s: Mq, from: nat, n: nat, peer: nat)
    requires Represented(s) && EgrOk(s) && OpenTrain(s.led.msgs, from) < |s.led.msgs| && n <= |Rest(s.led.msgs, from)|
    ensures Rest(DoMore(s.led, OpenTrain(s.led.msgs, from), n).msgs, peer) ==
            if peer == from then Rest(s.led.msgs, from)[n..] else Rest(s.led.msgs, peer)
  {
    MoreTrain(s, from, n, peer);
  }

  // ---- packets in order are legal -----------------------------------------------------------

  predicate FromPeer(ev: Event) { ev.Eager? || ev.Rts? || ev.LongFirst? || ev.LongNext? }

  /** The head of a peer's stream is an event the engine allows. */
  lemma HeadLegal(s: Mq, peer: nat, q: seq<Event>)
    requires Flows(peer, Rest(s.led.msgs, peer), q) && q != []
    ensures Legal(s, q[0]) && FromPeer(q[0]) && q[0].peer == peer
  {
  }

  lemma NextFlows(s: Mq, peer: nat, q: seq<Event>, p: nat)
    requires Represented(s) && EgrOk(s) && Flows(peer, Rest(s.led.msgs, peer), q) && q != [] && q[0].LongNext?
    ensures OpenTrain(s.led.msgs, peer) < |s.led.msgs|
    ensures var msgs := DoMore(s.led, OpenTrain(s.led.msgs, peer), |q[0].frag|).msgs;
            if p != peer then Rest(msgs, p) == Rest(s.led.msgs, p) else Flows(peer, Rest(msgs, p), q[1..])
  {
    MoreRest(s, peer, |q[0].frag|, p);
  }

  lemma FirstFlows(msgs: seq<Msg>, peer: nat, q: seq<Event>, a: Msg, p: nat)
    requires Flows(peer, Rest(msgs, peer), q) && q != [] && !q[0].LongNext?
    requires a.peer == peer
    requires if q[0].LongFirst? then a.kind.Train? && a.data == q[0].data && a.got == q[0].n else !a.kind.Train?
    ensures if p != peer then Rest(msgs + [a], p) == Rest(msgs, p) else Flows(peer, Rest(msgs + [a], p), q[1..])
  {
    ArrivedRest(msgs, a, p);
  }

  /** It leaves the rest of that stream in order, and other peers' trains alone. */
  lemma HeadFlows(s: Mq, peer: nat, q: seq<Event>, p: nat)
    requires Represented(s) && EgrOk(s) && Flows(peer, Rest(s.led.msgs, peer), q) && q != [] && Step(s, q[0]).Some?
    ensures var msgs := Step(s, q[0]).value.led.msgs;
            if p != peer then Rest(msgs, p) == Rest(s.led.msgs, p) else Flows(peer, Rest(msgs, p), q[1..])
  {
    HeadLegal(s, peer, q);
    StepMovesLedger(s, q[0]);
    if q[0].LongNext? {
      NextFlows(s, peer, q, p);
    } else {
      var led' := LedgerAfter(s, q[0]);
      FirstFlows(s.led.msgs, peer, q, led'.msgs[|s.led.msgs|], p);
    }
  }

  lemma LocalRest(s: Mq, ev: Event, peer: nat)
    requires Step(s, ev).Some? && !FromPeer(ev)
    ensures Rest(Step(s, ev).value.led.msgs, peer) == Rest(s.led.msgs, peer)
  {
    StepMovesLedger(s, ev);
    SameRest(s.led.msgs, LedgerAfter(s, ev).msgs, peer);
  }

  // ---- the receiver fed by many senders --------------------------------------------------------

  datatype Feed = Feed(mq: Mq, pending: map<nat, seq<Event>>)

  datatype Act = Post(peer: nat, packets: seq<Event>) | Deliver(peer: nat) | Local(ev: Event)

  function Pending(f: Feed, peer: nat): seq<Event> { if peer in f.pending then f.pending[peer] else [] }

  /** A sender adds the packets of one send; the receiver takes a peer's next packet, or makes a call of its own. */
  ghost predicate Possible(f: Feed, act: Act) {
    match act
    case Post(peer, packets) => Flows(peer, [], packets)
    case Deliver(peer) => Pending(f, peer) != []
    case Local(ev) => !FromPeer(ev) && Legal(f.mq, ev)
  }

  function Do(f: Feed, act: Act): Option<Feed>
    requires act.Deliver? ==> Pending(f, act.peer) != []
  {
    match act
    case Post(peer, packets) => Some(f.(pending := f.pending[peer := Pending(f, peer) + packets]))
    case Deliver(peer) =>
      (match Step(f.mq, Pending(f, peer)[0])
       case None => None
       case Some(s') => Some(Feed(s', f.pending[peer := Pending(f, peer)[1..]])))
    case Local(ev) =>
      (match Step(f.mq, ev)
       case None => None
       case Some(s') => Some(f.(mq := s')))
  }

  ghost predicate FeedOk(f: Feed) {
    && Reached(f.mq)
    && forall peer: nat {:trigger Pending(f, peer)} :: Flows(peer, Rest(f.mq.led.msgs, peer), Pending(f, peer))
  }

  lemma DeliverFlows(f: Feed, f': Feed, peer: nat, p: nat)
    requires Represented(f.mq) && EgrOk(f.mq) && Pending(f, peer) != []
    requires Flows(peer, Rest(f.mq.led.msgs, peer), Pending(f, peer))
    requires Flows(p, Rest(f.mq.led.msgs, p), Pending(f, p))
    requires Step(f.mq, Pending(f, peer)[0]) == Some(f'.mq) && f'.pending == f.pending[peer := Pending(f, peer)[1..]]
    ensures Flows(p, Rest(f'.mq.led.msgs, p), Pending(f', p))
  {
    HeadFlows(f.mq, peer, Pending(f, peer), p);
  }

  lemma DeliverKeeps(f: Feed, peer: nat)
    requires FeedOk(f) && Pending(f, peer) != []
    ensures Do(f, Deliver(peer)).Some? && FeedOk(Do(f, Deliver(peer)).value)
  {
    var q := Pending(f, peer);
    assert Flows(peer, Rest(f.mq.led.msgs, peer), q);
    HeadLegal(f.mq, peer, q);
    ReachedInv(f.mq);
    ReachedOn(f.mq, q[0]);
    var f' := Do(f, Deliver(peer)).value;
    forall p: nat ensures Flows(p, Rest(f'.mq.led.msgs, p), Pending(f', p)) {
      assert Flows(p, Rest(f.mq.led.msgs, p), Pending(f, p));
      DeliverFlows(f, f', peer, p);
    }
  }

  lemma ActKeeps(f: Feed, act: Act)
    requires FeedOk(f) && Possible(f, act)
    ensures Do(f, act).Some? && FeedOk(Do(f, act).value)
  {
    match act
    case Post(peer, packets) =>
      var f' := Do(f, act).value;
      forall p: nat ensures Flows(p, Rest(f'.mq.led.msgs, p), Pending(f', p)) {
        assert Flows(p, Rest(f.mq.led.msgs, p), Pending(f, p));
        if p == peer { FlowsOn(peer, Rest(f.mq.led.msgs, peer), Pending(f, peer), packets); }
      }
    case Deliver(peer) => DeliverKeeps(f, peer);
    case Local(ev) =>
      ReachedOn(f.mq, ev);
      var f' := Do(f, act).value;
      forall p: nat ensures Flows(p, Rest(f'.mq.led.msgs, p), Pending(f', p)) {
        LocalRest(f.mq, ev, p);
        assert Flows(p, Rest(f.mq.led.msgs, p), Pending(f, p));
      }
  }

  ghost predicate Fed(f: Feed, acts: seq<Act>, f': Feed)
    decreases |acts|
  {
    if acts == [] then f' == f
    else Possible(f, acts[0]) && Do(f, acts[0]).Some? && Fed(Do(f, acts[0]).value, acts[1..], f')
  }

  /**
   Every run fed by in-order peers is a legal run of the engine, so all its
   theorems apply; and once a peer's packets are all delivered, each of its
   messages has arrived in full.
   */
  lemma {:induction false} InOrderPeersSuffice(f: Feed, acts: seq<Act>, f': Feed)
    requires FeedOk(f) && Fed(f, acts, f')
    ensures Reached(f'.mq)
    ensures forall peer: nat, m: nat {:trigger f'.mq.led.msgs[m], Pending(f', peer)} ::
              Pending(f', peer) == [] && m < |f'.mq.led.msgs| ==> !Open(f'.mq.led.msgs[m], peer)
    decreases |acts|
  {
    if acts != [] {
      ActKeeps(f, acts[0]);
      InOrderPeersSuffice(Do(f, acts[0]).value, acts[1..], f');
    } else {
      forall peer: nat, m: nat | Pending(f', peer) == [] && m < |f'.mq.led.msgs|
        ensures !Open(f'.mq.led.msgs[m], peer)
      {
        assert Flows(peer, Rest(f'.mq.led.msgs, peer), Pending(f', peer));
      }
    }
  }

  lemma EmptyFeed()
    ensures FeedOk(Feed(INIT, map[]))
  {
    assert LegalRun(INIT, []) && Run(INIT, []) == Some(INIT);
  }
}
