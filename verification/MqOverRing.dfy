/**
 Senders, ring and engine together.

 Each producer of the ring sends the packets of its Matched Queue sends; the
 receiver gives what it takes off the ring to the engine, and makes calls of its
 own in between.  A packet stands for an event by its place among the packets of
 its producer: two equal announcements may stand for different messages.

 Whatever the producers, the consumer and the receiver do, and however their steps
 interleave, the engine makes a legal run.
 */
module MqOverRing {
  import opened Basics
  import opened MatchLedger
  import opened MqModel
  import opened MqRuns
  import opened MqSend
  import ShmRing

  // ---- streams ------------------------------------------------------------------------------

  /** The events of one peer. */
  function OfPeer(evs: seq<Event>, peer: nat): seq<Event>
    requires forall i :: 0 <= i < |evs| ==> FromPeer(evs[i])
  {
    if evs == [] then []
    else
      assert FromPeer(evs[|evs| - 1]);
      OfPeer(evs[..|evs| - 1], peer) + if evs[|evs| - 1].peer == peer then [evs[|evs| - 1]] else []
  }

  /** Calls of the receiver left out. */
  function Arrivals(evs: seq<Event>): (r: seq<Event>)
    ensures forall i :: 0 <= i < |r| ==> FromPeer(r[i])
  {
    if evs == [] then [] else (if FromPeer(evs[0]) then [evs[0]] else []) + Arrivals(evs[1..])
  }

  lemma {:induction false} OfPeerFront(evs: seq<Event>, peer: nat)
    requires evs != [] && forall i :: 0 <= i < |evs| ==> FromPeer(evs[i])
    ensures OfPeer(evs, peer) == (if evs[0].peer == peer then [evs[0]] else []) + OfPeer(evs[1..], peer)
  {
    var n := |evs| - 1;
    if n > 0 {
      OfPeerFront(evs[..n], peer);
      assert evs[..n][1..] == evs[1..][..n - 1] && evs[1..][n - 1] == evs[n];
    } else {
      assert evs[..0] == [] && evs[1..] == [];
    }
  }

  lemma {:induction false} FlowsPeer(peer: nat, rest: seq<Byte>, q: seq<Event>)
    requires Flows(peer, rest, q)
    ensures forall i :: 0 <= i < |q| ==> FromPeer(q[i]) && q[i].peer == peer
    decreases |q|
  {
    if q != [] {
      var left := if q[0].LongNext? then rest[|q[0].frag|..] else if q[0].LongFirst? then q[0].data[q[0].n..] else [];
      FlowsPeer(peer, left, q[1..]);
      forall i | 0 <= i < |q| ensures FromPeer(q[i]) && q[i].peer == peer {
        if i > 0 { assert q[i] == q[1..][i - 1]; }
      }
    }
  }

  // ---- arrivals in order, and calls in between ----------------------------------------------------

  /** What arrives is, peer by peer, the beginning of what is pending. */
  ghost predicate InOrder(f: Feed, arrivals: seq<Event>)
    requires forall i :: 0 <= i < |arrivals| ==> FromPeer(arrivals[i])
  {
    forall peer: nat {:trigger Pending(f, peer)} :: OfPeer(arrivals, peer) <= Pending(f, peer)
  }

  /** The receiver keeps to the rules in its own calls. */
  predicate CallsLegal(s: Mq, evs: seq<Event>)
    decreases |evs|
  {
    evs == [] ||
    ((FromPeer(evs[0]) || Legal(s, evs[0])) &&
     match Step(s, evs[0])
     case None => true
     case Some(s') => CallsLegal(s', evs[1..]))
  }

  /** The first arrival is the next pending event of its peer. */
  lemma ArrivesNext(f: Feed, arrivals: seq<Event>, f1: Feed)
    requires arrivals != [] && (forall i :: 0 <= i < |arrivals| ==> FromPeer(arrivals[i])) && InOrder(f, arrivals)
    ensures var q := Pending(f, arrivals[0].peer);
            && q != [] && q[0] == arrivals[0]
            && (f1.pending == f.pending[arrivals[0].peer := q[1..]] ==> InOrder(f1, arrivals[1..]))
  {
    var peer := arrivals[0].peer;
    var q := Pending(f, peer);
    OfPeerFront(arrivals, peer);
    assert OfPeer(arrivals, peer)[0] == arrivals[0];
    if f1.pending == f.pending[peer := q[1..]] {
      forall p: nat ensures OfPeer(arrivals[1..], p) <= Pending(f1, p) {
        OfPeerFront(arrivals, p);
        assert OfPeer(arrivals, p) <= Pending(f, p);
        if p == peer { assert OfPeer(arrivals, p)[1..] == OfPeer(arrivals[1..], p); }
      }
    }
  }

  /** The first arrival goes to the engine, which allows it. */
  lemma ArrivalGoes(f: Feed, ev: Event, arrivals: seq<Event>) returns (f1: Feed)
    requires FeedOk(f) && (forall i :: 0 <= i < |arrivals| ==> FromPeer(arrivals[i])) && InOrder(f, arrivals)
    requires arrivals != [] && arrivals[0] == ev
    ensures Legal(f.mq, ev) && Step(f.mq, ev) == Some(f1.mq) && FeedOk(f1) && InOrder(f1, arrivals[1..])
    ensures forall p: nat {:trigger Pending(f1, p)} ::
              Pending(f, p) == (if ev.peer == p then [ev] else []) + Pending(f1, p)
  {
    ArrivesNext(f, arrivals, f);
    f1 := NextGoes(f, ev);
    ArrivesNext(f, arrivals, f1);
    forall p: nat ensures Pending(f, p) == (if ev.peer == p then [ev] else []) + Pending(f1, p) {
      OneLess(f, f1, ev, p);
    }
  }

  lemma OneLess(f: Feed, f1: Feed, ev: Event, p: nat)
    requires FromPeer(ev) && Pending(f, ev.peer) != [] && Pending(f, ev.peer)[0] == ev
    requires f1.pending == f.pending[ev.peer := Pending(f, ev.peer)[1..]]
    ensures Pending(f, p) == (if ev.peer == p then [ev] else []) + Pending(f1, p)
  {
  }

  lemma NextGoes(f: Feed, ev: Event) returns (f1: Feed)
    requires FeedOk(f) && FromPeer(ev) && Pending(f, ev.peer) != [] && Pending(f, ev.peer)[0] == ev
    ensures Legal(f.mq, ev) && Step(f.mq, ev) == Some(f1.mq) && FeedOk(f1)
    ensures f1.pending == f.pending[ev.peer := Pending(f, ev.peer)[1..]]
  {
    var q := Pending(f, ev.peer);
    assert Flows(ev.peer, Rest(f.mq.led.msgs, ev.peer), q);
    HeadLegal(f.mq, ev.peer, q);
    DeliverKeeps(f, ev.peer);
    f1 := Do(f, Deliver(ev.peer)).value;
  }

  /** A call of the receiver leaves what is pending alone. */
  lemma CallGoes(f: Feed, ev: Event) returns (f1: Feed)
    requires FeedOk(f) && !FromPeer(ev) && Legal(f.mq, ev)
    ensures Step(f.mq, ev) == Some(f1.mq) && FeedOk(f1) && f1.pending == f.pending
    ensures forall p: nat {:trigger Pending(f1, p)} :: Pending(f1, p) == Pending(f, p)
  {
    ActKeeps(f, Local(ev));
    f1 := Do(f, Local(ev)).value;
  }

  /** Arrivals in order, with legal calls in between, make a legal run; `f'` is what is then pending. */
  lemma {:induction false} InOrderIsLegal(f: Feed, evs: seq<Event>) returns (f': Feed)
    requires FeedOk(f) && InOrder(f, Arrivals(evs)) && CallsLegal(f.mq, evs)
    ensures LegalRun(f.mq, evs) && Run(f.mq, evs) == Some(f'.mq) && FeedOk(f')
    ensures forall peer: nat {:trigger Pending(f', peer)} ::
              Pending(f, peer) == OfPeer(Arrivals(evs), peer) + Pending(f', peer)
    decreases |evs|
  {
    f' := f;
    if evs != [] {
      if FromPeer(evs[0]) {
        f' := ArrivalIsLegal(f, evs);
      } else {
        assert Arrivals(evs) == Arrivals(evs[1..]);
        var f1 := CallGoes(f, evs[0]);
        f' := InOrderIsLegal(f1, evs[1..]);
      }
    }
  }

  lemma {:induction false} ArrivalIsLegal(f: Feed, evs: seq<Event>) returns (f': Feed)
    requires FeedOk(f) && InOrder(f, Arrivals(evs)) && CallsLegal(f.mq, evs) && evs != [] && FromPeer(evs[0])
    ensures LegalRun(f.mq, evs) && Run(f.mq, evs) == Some(f'.mq) && FeedOk(f')
    ensures forall peer: nat {:trigger Pending(f', peer)} ::
              Pending(f, peer) == OfPeer(Arrivals(evs), peer) + Pending(f', peer)
    decreases |evs|, 0
  {
    var arrivals := Arrivals(evs);
    assert arrivals[0] == evs[0] && arrivals[1..] == Arrivals(evs[1..]);
    var f1 := ArrivalGoes(f, evs[0], arrivals);
    f' := InOrderIsLegal(f1, evs[1..]);
    forall p: nat ensures Pending(f, p) == OfPeer(arrivals, p) + Pending(f', p) {
      assert Pending(f1, p) == OfPeer(arrivals[1..], p) + Pending(f', p);
      StillPending(Pending(f, p), Pending(f1, p), Pending(f', p), arrivals, p);
    }
  }

  lemma StillPending(q: seq<Event>, q1: seq<Event>, q': seq<Event>, arrivals: seq<Event>, p: nat)
    requires arrivals != [] && FromPeer(arrivals[0]) && forall i :: 0 <= i < |arrivals| ==> FromPeer(arrivals[i])
    requires q == (if arrivals[0].peer == p then [arrivals[0]] else []) + q1 && q1 == OfPeer(arrivals[1..], p) + q'
    ensures q == OfPeer(arrivals, p) + q'
  {
    OfPeerFront(arrivals, p);
  }

  // ---- what the ring hands over ------------------------------------------------------------------------

  /**
   Producer p sends the events send[p], one packet each, and has begun with some
   of them.  `shows` says what a packet lets its reader see of its event; it need not
   determine the event, as an announcement carries no byte of its message.
   */
  ghost predicate Sending(s: ShmRing.Shm, send: seq<seq<Event>>, shows: (ShmRing.Packet, Event) -> bool) {
    && |send| == |s.prods| == |s.begun|
    && forall p :: 0 <= p < |send| ==> Flows(p, [], send[p]) && Shown(s.begun[p], send[p], shows)
  }

  ghost predicate Shown(pkts: seq<ShmRing.Packet>, evs: seq<Event>, shows: (ShmRing.Packet, Event) -> bool) {
    |pkts| <= |evs| && forall k :: 0 <= k < |pkts| ==> shows(pkts[k], evs[k])
  }

  /** The log names senders, and no more packets of each than it sends. */
  ghost predicate Covered(log: seq<ShmRing.Entry>, send: seq<seq<Event>>) {
    && (forall k :: 0 <= k < |log| ==> log[k].who < |send|)
    && (forall p :: 0 <= p < |send| ==> |ShmRing.OfProducer(log, p)| <= |send[p]|)
  }

  lemma CoveredPrefix(log: seq<ShmRing.Entry>, send: seq<seq<Event>>, n: nat)
    requires Covered(log, send) && n <= |log|
    ensures Covered(log[..n], send)
  {
    forall p | 0 <= p < |send| ensures |ShmRing.OfProducer(log[..n], p)| <= |send[p]| {
      ShmRing.OfProducerPrefix(log, n, p);
    }
  }

  /** The events that logged packets stand for: the k-th packet of a producer stands for the k-th event it sends. */
  ghost function Stream(log: seq<ShmRing.Entry>, send: seq<seq<Event>>): (r: seq<Event>)
    requires Covered(log, send)
    ensures |r| == |log|
  {
    if log == [] then []
    else
      var n := |log| - 1;
      CoveredPrefix(log, send, n);
      Stream(log[..n], send) + [send[log[n].who][|ShmRing.OfProducer(log[..n], log[n].who)|]]
  }

  ghost predicate Streams(send: seq<seq<Event>>) {
    forall p, k :: 0 <= p < |send| && 0 <= k < |send[p]| ==> FromPeer(send[p][k]) && send[p][k].peer == p
  }

  lemma {:induction false} StreamFromPeers(log: seq<ShmRing.Entry>, send: seq<seq<Event>>)
    requires Covered(log, send) && Streams(send)
    ensures forall k :: 0 <= k < |log| ==> FromPeer(Stream(log, send)[k]) && Stream(log, send)[k].peer == log[k].who
  {
    if log != [] {
      CoveredPrefix(log, send, |log| - 1);
      StreamFromPeers(log[..|log| - 1], send);
    }
  }

  /** What is sent to the ring by a producer, or nothing. */
  function SentBy(send: seq<seq<Event>>, peer: nat): seq<Event> { if peer < |send| then send[peer] else [] }

  lemma StreamLast(log: seq<ShmRing.Entry>, send: seq<seq<Event>>)
    requires Covered(log, send) && log != []
    ensures var n := |log| - 1;
            && Covered(log[..n], send) && |ShmRing.OfProducer(log[..n], log[n].who)| < |send[log[n].who]|
            && Stream(log, send)[n] == send[log[n].who][|ShmRing.OfProducer(log[..n], log[n].who)|]
            && Stream(log, send) == Stream(log[..n], send) + [Stream(log, send)[n]]
  {
    CoveredPrefix(log, send, |log| - 1);
  }

  lemma ProducerLast(log: seq<ShmRing.Entry>, p: nat)
    requires log != []
    ensures var n := |log| - 1;
            |ShmRing.OfProducer(log, p)| == |ShmRing.OfProducer(log[..n], p)| + if log[n].who == p then 1 else 0
  {
  }

  /** One more event keeps a peer's part the beginning of q. */
  lemma OfPeerLast(evs: seq<Event>, ev: Event, peer: nat, q: seq<Event>, m: nat)
    requires FromPeer(ev) && forall i :: 0 <= i < |evs| ==> FromPeer(evs[i])
    requires m <= |q| && OfPeer(evs, peer) == q[..m] && (ev.peer == peer ==> m < |q| && q[m] == ev)
    ensures OfPeer(evs + [ev], peer) == q[..if ev.peer == peer then m + 1 else m]
  {
    assert (evs + [ev])[..|evs|] == evs;
  }

  /** Peer by peer, the stream is the beginning of what is sent. */
  lemma {:induction false} StreamByPeer(log: seq<ShmRing.Entry>, send: seq<seq<Event>>, peer: nat)
    requires Covered(log, send) && Streams(send)
    ensures forall k :: 0 <= k < |log| ==> FromPeer(Stream(log, send)[k])
    ensures |ShmRing.OfProducer(log, peer)| <= |SentBy(send, peer)|
    ensures OfPeer(Stream(log, send), peer) == SentBy(send, peer)[..|ShmRing.OfProducer(log, peer)|]
  {
    StreamFromPeers(log, send);
    if log != [] {
      var n := |log| - 1;
      StreamLast(log, send);
      StreamByPeer(log[..n], send, peer);
      ProducerLast(log, peer);
      OfPeerLast(Stream(log[..n], send), Stream(log, send)[n], peer, SentBy(send, peer),
                 |ShmRing.OfProducer(log[..n], peer)|);
    }
  }

  /** Each producer's packets show the events it sends. */
  ghost predicate AllShown(
    log: seq<ShmRing.Entry>, send: seq<seq<Event>>, shows: (ShmRing.Packet, Event) -> bool)
  {
    forall p :: 0 <= p < |send| ==> Shown(ShmRing.OfProducer(log, p), send[p], shows)
  }

  lemma AllShownPrefix(
      log: seq<ShmRing.Entry>, send: seq<seq<Event>>, shows: (ShmRing.Packet, Event) -> bool, n: nat)
    requires AllShown(log, send, shows) && n <= |log|
    ensures AllShown(log[..n], send, shows)
  {
    forall p | 0 <= p < |send| ensures Shown(ShmRing.OfProducer(log[..n], p), send[p], shows) {
      ShmRing.OfProducerPrefix(log, n, p);
    }
  }

  lemma LastShown(log: seq<ShmRing.Entry>, send: seq<seq<Event>>, shows: (ShmRing.Packet, Event) -> bool)
    requires Covered(log, send) && log != [] && AllShown(log, send, shows)
    ensures shows(log[|log| - 1].pkt, Stream(log, send)[|log| - 1])
  {
    StreamLast(log, send);
    var n := |log| - 1;
    var q := ShmRing.OfProducer(log, log[n].who);
    assert q == ShmRing.OfProducer(log[..n], log[n].who) + [log[n].pkt] && Shown(q, send[log[n].who], shows);
  }

  lemma {:induction false} StreamPrefix(log: seq<ShmRing.Entry>, send: seq<seq<Event>>, n: nat)
    requires Covered(log, send) && n <= |log|
    ensures Covered(log[..n], send) && Stream(log[..n], send) == Stream(log, send)[..n]
  {
    CoveredPrefix(log, send, n);
    if n < |log| {
      StreamLast(log, send);
      StreamPrefix(log[..|log| - 1], send, n);
      assert log[..|log| - 1][..n] == log[..n];
    } else {
      assert log[..n] == log;
    }
  }

  /** What a logged packet shows is the event it stands for. */
  lemma StreamShown(
      log: seq<ShmRing.Entry>, send: seq<seq<Event>>, shows: (ShmRing.Packet, Event) -> bool, k: nat)
    requires Covered(log, send) && k < |log| && AllShown(log, send, shows)
    ensures shows(log[k].pkt, Stream(log, send)[k])
  {
    AllShownPrefix(log, send, shows, k + 1);
    StreamPrefix(log, send, k + 1);
    LastShown(log[..k + 1], send, shows);
  }

  /** What the consumer has taken is covered by what is sent. */
  lemma TakenCovered(s: ShmRing.Shm, send: seq<seq<Event>>, shows: (ShmRing.Packet, Event) -> bool)
    requires ShmRing.Reached(s) && Sending(s, send, shows)
    ensures |s.taken| <= |s.log| && Covered(s.log[..|s.taken|], send)
    ensures AllShown(s.log[..|s.taken|], send, shows)
  {
    ShmRing.TakenIsLogged(s);
    forall p | 0 <= p < |send|
      ensures Shown(ShmRing.OfProducer(s.log[..|s.taken|], p), send[p], shows)
    {
      ShmRing.DeliveredInOrder(s, p);
    }
  }

  /** The events that the packets taken off the ring stand for. */
  ghost function Taken(s: ShmRing.Shm, send: seq<seq<Event>>, shows: (ShmRing.Packet, Event) -> bool): seq<Event>
    requires ShmRing.Reached(s) && Sending(s, send, shows)
  {
    TakenCovered(s, send, shows);
    Stream(s.log[..|s.taken|], send)
  }

  /**
   Each packet taken shows the event it stands for, and peer by peer these events
   are the beginning of what is sent.
   */
  lemma TakenInOrder(s: ShmRing.Shm, send: seq<seq<Event>>, shows: (ShmRing.Packet, Event) -> bool, peer: nat)
    requires ShmRing.Reached(s) && Sending(s, send, shows)
    ensures var evs := Taken(s, send, shows);
            && |evs| == |s.taken| && (forall k :: 0 <= k < |evs| ==> FromPeer(evs[k]) && shows(s.taken[k], evs[k]))
            && OfPeer(evs, peer) <= SentBy(send, peer)
  {
    TakenCovered(s, send, shows);
    ShmRing.TakenIsLogged(s);
    var log := s.log[..|s.taken|];
    AllStreams(s, send, shows);
    StreamByPeer(log, send, peer);
    forall k | 0 <= k < |log| ensures shows(s.taken[k], Stream(log, send)[k]) { StreamShown(log, send, shows, k); }
  }

  lemma AllStreams(s: ShmRing.Shm, send: seq<seq<Event>>, shows: (ShmRing.Packet, Event) -> bool)
    requires Sending(s, send, shows)
    ensures Streams(send)
  {
    forall p | 0 <= p < |send| ensures forall k :: 0 <= k < |send[p]| ==> FromPeer(send[p][k]) && send[p][k].peer == p {
      FlowsPeer(p, [], send[p]);
    }
  }

  // ---- end to end ----------------------------------------------------------------------------------------

  /**
   Take any ring that any interleaving of its producers and its consumer has led
   to, and any calls of the receiver among what it took off the ring: the engine
   makes a legal run, so no assertion fails and all that is proved of runs holds.
   Once all packets of a producer were taken, all its messages are complete.
   */
  lemma RingDrivesEngine(
      s: ShmRing.Shm, send: seq<seq<Event>>, shows: (ShmRing.Packet, Event) -> bool, evs: seq<Event>)
    requires ShmRing.Reached(s) && Sending(s, send, shows)
    requires Arrivals(evs) == Taken(s, send, shows) && CallsLegal(INIT, evs)
    ensures LegalRun(INIT, evs) && Run(INIT, evs).Some? && Reached(Run(INIT, evs).value)
    ensures var msgs := Run(INIT, evs).value.led.msgs;
            forall p, m :: 0 <= p < |send| && OfPeer(Arrivals(evs), p) == send[p] && 0 <= m < |msgs| ==>
              !Open(msgs[m], p)
  {
    var f := Ready(s, send, shows);
    forall p: nat ensures OfPeer(Arrivals(evs), p) <= Pending(f, p) { TakenInOrder(s, send, shows, p); }
    var f' := InOrderIsLegal(f, evs);
    forall p, m | 0 <= p < |send| && OfPeer(Arrivals(evs), p) == send[p] && 0 <= m < |f'.mq.led.msgs|
      ensures !Open(f'.mq.led.msgs[m], p)
    {
      assert Pending(f', p) == [];
      NoneOpen(f', p, m);
    }
  }

  /** All that is sent is pending. */
  lemma Ready(s: ShmRing.Shm, send: seq<seq<Event>>, shows: (ShmRing.Packet, Event) -> bool) returns (f: Feed)
    requires Sending(s, send, shows)
    ensures FeedOk(f) && f.mq == INIT
    ensures forall p: nat {:trigger Pending(f, p)} :: Pending(f, p) == SentBy(send, p)
  {
    f := Feed(INIT, map p | 0 <= p < |send| :: send[p]);
    EmptyFeed();
    assert forall p: nat :: Rest(INIT.led.msgs, p) == [];
  }

  lemma NoneOpen(f: Feed, p: nat, m: nat)
    requires FeedOk(f) && Pending(f, p) == [] && m < |f.mq.led.msgs|
    ensures !Open(f.mq.led.msgs[m], p)
  {
  }
}
