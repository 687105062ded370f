/**
 Every legal run of the Matched Queue engine keeps the full invariant, and what
 that means for its users: matching order, request location, message delivery.
 */
module MqRuns {
  import opened Basics
  import opened MatchLedger
  import opened MqModel
  import opened MqCore

  // ---- one record and its buffer -------------------------------------------------

  /** The bytes received so far stand at the front of the buffer, as far as they fit. */
  ghost predicate Filled(r: Req, data: seq<Byte>) {
    && CanCopy(r) && r.recvLen <= |data| && r.sendOff <= |data|
    && r.recvOff == Min(r.recvLen, r.sendOff)
    && r.buf.bytes[..r.recvOff] == data[..r.recvOff]
  }

  lemma CopyKeepsFilled(r: Req, data: seq<Byte>, n: nat)
    requires Filled(r, data) && r.sendOff + n <= |data|
    ensures var r' := ReqCopy(r, data[r.sendOff..r.sendOff + n]);
            && Filled(r', data) && |r'.buf.bytes| == |r.buf.bytes|
            && r'.buf.bytes[r'.recvOff..] == r.buf.bytes[r'.recvOff..]
  {
  }

  lemma AdoptedComplete(r: Req, data: seq<Byte>, buf: seq<Byte>)
    requires r.state.Complete? && r.sendLen == r.recvLen == |data| && r.err == Ok
    requires r.buf == (if r.buf.Null? && data == [] then Null else Mem(data))
    ensures var r' := Adopted(r, buf); Sized(r', data, buf) && r'.buf.bytes == Delivered(data, buf)
  {
  }

  lemma AdoptedUnexp(r: Req, data: seq<Byte>, buf: seq<Byte>)
    requires r.state.Unexp? && Filled(r, data) && r.sendLen == r.recvLen == |data|
    ensures var r' := Adopted(r, buf);
            Filled(r', data) && Sized(r', data, buf) && r'.buf.bytes[r'.recvOff..] == buf[r'.recvOff..]
  {
  }

  lemma FilledIsDelivered(r: Req, data: seq<Byte>, buf: seq<Byte>)
    requires Filled(r, data) && Sized(r, data, buf) && r.sendOff == |data|
    ensures r.buf.bytes == Delivered(data, buf)
  {
  }

  // ---- buffers of all requests -----------------------------------------------------

  predicate SameText(m: Msg, m': Msg) {
    m'.kind == m.kind && m'.peer == m.peer && m'.tag == m.tag && m'.data == m.data && m'.got == m.got && m'.rid == m.rid
  }

  /** `led'` adds entries to `led` and alters nothing but fates, except for messages of `rid`. */
  ghost predicate Extends(led: Ledger, led': Ledger, rid: nat) {
    && |led.posts| <= |led'.posts| && |led.msgs| <= |led'.msgs|
    && (forall p {:trigger led.posts[p]} :: 0 <= p < |led.posts| ==>
          led'.posts[p].buf == led.posts[p].buf && led'.posts[p].tag == led.posts[p].tag)
    && (forall m {:trigger led.msgs[m]} :: 0 <= m < |led.msgs| && led.msgs[m].rid != rid ==>
            SameText(led.msgs[m], led'.msgs[m]))
  }

  /** Only request `rid` (possibly new) differs between s and s'. */
  ghost predicate Touches(s: Mq, s': Mq, rid: nat) {
    && |s.reqs| <= |s'.reqs| && rid < |s'.reqs|
    && (forall i {:trigger s'.reqs[i]} :: 0 <= i < |s'.reqs| && i != rid ==> i < |s.reqs| && s'.reqs[i] == s.reqs[i])
  }

  lemma KeepsData(s: Mq, s': Mq, rid: nat)
    requires Linked(s) && Linked(s') && AllData(s)
    requires Touches(s, s', rid) && Extends(s.led, s'.led, rid) && DataOk(s'.reqs[rid], rid, s'.led)
    ensures AllData(s')
  {
  }

  lemma PostExtends(led: Ledger, tag: Tag, sel: Tag, buf: seq<Byte>, newRid: nat, rid: nat)
    ensures Extends(led, DoPost(led, tag, sel, buf, newRid), rid)
  {
  }

  lemma Ready(s: Mq)
    requires Core(s) && AllData(s)
    ensures Adoptable(s) && Receivable(s)
  {
  }

  // ---- posting a receive --------------------------------------------------------------

  lemma PostedKeepsData(s: Mq, tag: Tag, sel: Tag, buf: seq<Byte>)
    requires Linked(s) && AllData(s) && Adoptable(s) && FirstMsg(s.led.msgs, tag, sel) == |s.led.msgs|
    requires FindUnexpected(s.reqs, s.unexpected, tag, sel) == |s.unexpected|
    requires Linked(DoIrecv(s, tag, sel, buf))
    ensures AllData(DoIrecv(s, tag, sel, buf))
  {
  }

  lemma AdoptedData(r: Req, rid: nat, led: Ledger, r': Req, led': Ledger, buf: seq<Byte>)
    requires LinkOk(r, rid, led) && DataOk(r, rid, led) && InUnexpected(r)
    requires r' == Adopted(r, buf).(post := r'.post) && LinkOk(r', rid, led') && r'.post.Some?
    requires led'.posts[r'.post.value].buf == buf && SameText(led.msgs[r.msg.value], led'.msgs[r.msg.value])
    ensures DataOk(r', rid, led')
  {
    var data := led.msgs[r.msg.value].data;
    match r.state {
      case Complete => AdoptedComplete(r, data, buf);
      case Unexp => AdoptedUnexp(r, data, buf);
      case _ =>
    }
  }

  lemma AdoptKeepsData(s: Mq, tag: Tag, sel: Tag, buf: seq<Byte>, k: nat)
    requires Linked(s) && AllData(s) && Adoptable(s)
    requires FindUnexpected(s.reqs, s.unexpected, tag, sel) == k < |s.unexpected|
    requires InUnexpected(s.reqs[s.unexpected[k]]) && FirstMsg(s.led.msgs, tag, sel) == MsgNo(s.reqs[s.unexpected[k]])
    requires Linked(DoIrecv(s, tag, sel, buf))
    ensures AllData(DoIrecv(s, tag, sel, buf))
  {
    var s', rid := DoIrecv(s, tag, sel, buf), s.unexpected[k];
    AdoptedData(s.reqs[rid], rid, s.led, s'.reqs[rid], s'.led, buf);
    PostExtends(s.led, tag, sel, buf, |s.reqs|, rid);
    KeepsData(s, s', rid);
  }

  // ---- messages that arrive whole, and rendezvous requests ------------------------------

  lemma ClaimedSized(s: Mq, k: nat, a: Msg)
    requires Linked(s) && AllData(s) && InRange(s, s.expected) && k < |s.expected|
    requires s.reqs[s.expected[k]].state.Posted? && FirstPost(s.led.posts, a.tag) == PostNo(s.reqs[s.expected[k]])
    ensures var rid := s.expected[k];
            var r, r' := s.reqs[rid], Claim(s, k, a).reqs[rid];
            && r.post.Some? && r.post.value < |s.led.posts| && r.buf == Mem(s.led.posts[r.post.value].buf) && !r.egrLong
            && r' == r.(tag := a.tag, msg := Some(|s.led.msgs|), state := Matched, peer := a.peer, recvOff := 0,
                        sendLen := |a.data|, recvLen := Min(|r.buf.bytes|, |a.data|), err := r'.err)
            && Sized(r', a.data, r.buf.bytes)
  {
  }

  /** The arrival of `a` settled on request `rid`, whose new record is in order. */
  lemma ArrivalKeepsData(s: Mq, s': Mq, rid: nat, a: Msg)
    requires Linked(s) && AllData(s) && Linked(s') && s'.led == DoArrive(s.led, a, |s.reqs|)
    requires rid <= |s.reqs| && rid < |s'.reqs|
    requires s'.reqs == if rid < |s.reqs| then s.reqs[rid := s'.reqs[rid]] else s.reqs + [s'.reqs[rid]]
    requires DataOk(s'.reqs[rid], rid, s'.led)
    ensures AllData(s')
  {
  }

  lemma WholeData(r: Req, rid: nat, led: Ledger, buf: seq<Byte>, data: seq<Byte>)
    requires r.state.Complete? && LinkOk(r, rid, led) && r.post.Some? && r.msg.Some?
    requires var m := led.msgs[r.msg.value]; m.data == data && m.got == |data| && m.tag == r.tag
    requires led.posts[r.post.value].buf == buf && r.buf.Mem? && Sized(r.(buf := Mem(buf)), data, buf)
    requires r.buf.bytes == Overwrite(buf, 0, data[..Min(|buf|, |data|)])
    ensures DataOk(r, rid, led)
  {
  }

  lemma EagerClaimKeepsData(s: Mq, tiny: bool, peer: nat, tag: Tag, data: seq<Byte>, k: nat)
    requires Linked(s) && AllData(s) && Receivable(s) && k == FindExpected(s.reqs, s.expected, tag)
    requires k < |s.expected| && s.reqs[s.expected[k]].state.Posted?
    requires FirstPost(s.led.posts, tag) == PostNo(s.reqs[s.expected[k]])
    requires Linked(DoEager(s, tiny, peer, tag, data))
    ensures AllData(DoEager(s, tiny, peer, tag, data))
  {
    var s', rid, a := DoEager(s, tiny, peer, tag, data), s.expected[k], Arrival(Whole, peer, tag, data, |data|);
    ClaimedSized(s, k, a);
    WholeData(s'.reqs[rid], rid, s'.led, s.reqs[rid].buf.bytes, data);
    ArrivalKeepsData(s, s', rid, a);
  }

  lemma EagerKeepsData(s: Mq, tiny: bool, peer: nat, tag: Tag, data: seq<Byte>, k: nat)
    requires Linked(s) && AllData(s) && Receivable(s) && k == FindExpected(s.reqs, s.expected, tag)
    requires k < |s.expected| ==> s.reqs[s.expected[k]].state.Posted?
    requires FirstPost(s.led.posts, tag) == if k < |s.expected| then PostNo(s.reqs[s.expected[k]]) else |s.led.posts|
    requires Linked(DoEager(s, tiny, peer, tag, data))
    ensures AllData(DoEager(s, tiny, peer, tag, data))
  {
    if k < |s.expected| {
      EagerClaimKeepsData(s, tiny, peer, tag, data, k);
    } else {
      ArrivalKeepsData(s, DoEager(s, tiny, peer, tag, data), |s.reqs|, Arrival(Whole, peer, tag, data, |data|));
    }
  }

  lemma RtsKeepsData(s: Mq, peer: nat, tag: Tag, data: seq<Byte>, k: nat)
    requires Linked(s) && AllData(s) && Receivable(s) && k == FindExpected(s.reqs, s.expected, tag)
    requires k < |s.expected| ==> s.reqs[s.expected[k]].state.Posted?
    requires FirstPost(s.led.posts, tag) == if k < |s.expected| then PostNo(s.reqs[s.expected[k]]) else |s.led.posts|
    requires Linked(DoRts(s, peer, tag, data))
    ensures AllData(DoRts(s, peer, tag, data))
  {
    var s' := DoRts(s, peer, tag, data);
    if k < |s.expected| {
      ClaimedSized(s, k, Arrival(Rendezvous, peer, tag, data, 0));
      ArrivalKeepsData(s, s', s.expected[k], Arrival(Rendezvous, peer, tag, data, 0));
    } else {
      ArrivalKeepsData(s, s', |s.reqs|, Arrival(Rendezvous, peer, tag, data, 0));
    }
  }

  // ---- trains of fragments ----------------------------------------------------------------

  /** The record of a receive that takes the first n bytes of a train. */
  lemma LongClaimData(s: Mq, peer: nat, tag: Tag, data: seq<Byte>, n: nat, k: nat)
    requires Linked(s) && AllData(s) && Receivable(s) && k == FindExpected(s.reqs, s.expected, tag) && n <= |data|
    requires k < |s.expected| && s.reqs[s.expected[k]].state.Posted?
    requires FirstPost(s.led.posts, tag) == PostNo(s.reqs[s.expected[k]])
    requires var s' := DoLongFirst(s, peer, tag, data, n); LinkOk(s'.reqs[s.expected[k]], s.expected[k], s'.led)
    ensures var s', rid := DoLongFirst(s, peer, tag, data, n), s.expected[k];
            DataOk(s'.reqs[rid], rid, s'.led) && s'.reqs == s.reqs[rid := s'.reqs[rid]]
  {
    var s', rid, a := DoLongFirst(s, peer, tag, data, n), s.expected[k], Arrival(Train, peer, tag, data, n);
    assert data[0..n] == data[..n];
    ClaimedSized(s, k, a);
    var r := Claim(s, k, a).reqs[rid].(egrLong := true, sendOff := 0);
    TrainData(r, s'.reqs[rid], rid, s'.led, n);
  }

  lemma LongClaimKeepsData(s: Mq, peer: nat, tag: Tag, data: seq<Byte>, n: nat, k: nat)
    requires Linked(s) && AllData(s) && Receivable(s) && k == FindExpected(s.reqs, s.expected, tag) && n <= |data|
    requires k < |s.expected| && s.reqs[s.expected[k]].state.Posted?
    requires FirstPost(s.led.posts, tag) == PostNo(s.reqs[s.expected[k]])
    requires Linked(DoLongFirst(s, peer, tag, data, n))
    ensures AllData(DoLongFirst(s, peer, tag, data, n))
  {
    var s', rid := DoLongFirst(s, peer, tag, data, n), s.expected[k];
    assert LinkOk(s'.reqs[rid], rid, s'.led);
    LongClaimData(s, peer, tag, data, n, k);
    ArrivalKeepsData(s, s', rid, Arrival(Train, peer, tag, data, n));
  }

  lemma LongParkKeepsData(s: Mq, peer: nat, tag: Tag, data: seq<Byte>, n: nat)
    requires Linked(s) && AllData(s) && Receivable(s) && FindExpected(s.reqs, s.expected, tag) == |s.expected|
    requires n <= |data|
    requires FirstPost(s.led.posts, tag) == |s.led.posts|
    requires Linked(DoLongFirst(s, peer, tag, data, n))
    ensures AllData(DoLongFirst(s, peer, tag, data, n))
  {
    var s', rid, a := DoLongFirst(s, peer, tag, data, n), |s.reqs|, Arrival(Train, peer, tag, data, n);
    assert data[0..n] == data[..n];
    var r := NewTrain(tag, peer, |data|).(msg := Some(|s.led.msgs|), egrLong := true);
    TrainData(r, s'.reqs[rid], rid, s'.led, n);
    ArrivalKeepsData(s, s', rid, a);
  }

  /** The record a train leaves behind after n more bytes, finished or not. */
  lemma TrainData(r: Req, r': Req, rid: nat, led: Ledger, n: nat)
    requires (r.state.Matched? || r.state.Unexp?) && r.msg.Some? && r.msg.value < |led.msgs|
    requires var m := led.msgs[r.msg.value];
             && m.kind.Train? && m.peer == r.peer && r.egrLong && r.sendLen == |m.data| && r.tag == m.tag
             && Filled(r, m.data) && r.sendOff + n == m.got <= |m.data|
    requires var c := ReqCopy(r, led.msgs[r.msg.value].data[r.sendOff..r.sendOff + n]);
             r' == if c.sendOff == c.sendLen then c.(state := Complete) else c
    requires LinkOk(r', rid, led)
    requires r.state.Matched? ==>
               && r.post.Some? && Sized(r, led.msgs[r.msg.value].data, led.posts[r.post.value].buf)
               && r.buf.bytes[r.recvOff..] == led.posts[r.post.value].buf[r.recvOff..]
    requires r.state.Unexp? ==>
               r.post.None? && r.err == Ok && |r.buf.bytes| == r.recvLen == |led.msgs[r.msg.value].data|
    ensures DataOk(r', rid, led)
  {
    var data := led.msgs[r.msg.value].data;
    CopyKeepsFilled(r, data, n);
    if r.state.Matched? {
      var buf := led.posts[r.post.value].buf;
      var tail := r.buf.bytes[r.recvOff..];
      assert r'.buf.bytes[r'.recvOff..] == tail[r'.recvOff - r.recvOff..] == buf[r'.recvOff..];
      assert r'.buf.bytes[r'.recvLen..] == tail[r'.recvLen - r.recvOff..] == buf[r'.recvLen..];
      if r'.state.Complete? { FilledIsDelivered(r', data, buf); }
    } else if r'.state.Complete? {
      assert r'.buf.bytes == r'.buf.bytes[..r'.recvOff] && data == data[..|data|];
    }
  }

  /** The open train of a peer belongs to a request that is still collecting fragments. */
  lemma OpenRequest(s: Mq, peer: nat)
    requires Linked(s) && Represented(s) && EgrOk(s) && AllData(s)
    requires OpenTrain(s.led.msgs, peer) < |s.led.msgs|
    ensures var m := OpenTrain(s.led.msgs, peer);
            var rid := s.led.msgs[m].rid;
            && Egr(s, peer) == [rid] && rid < |s.reqs| && s.reqs[rid].msg == Some(m)
            && (s.reqs[rid].state.Unexp? || s.reqs[rid].state.Matched?) && LongOk(s.reqs[rid], s.led.msgs[m])
  {
  }

  /** A fragment changes one record and nothing else about the requests. */
  lemma DataShape(s: Mq, rid: nat, frag: seq<Byte>)
    requires rid < |s.reqs| && CanCopy(s.reqs[rid]) && s.reqs[rid].egrLong && |Egr(s, s.reqs[rid].peer)| == 1
    ensures var s', c := HandleData(s, rid, frag), ReqCopy(s.reqs[rid], frag);
            && s'.reqs == s.reqs[rid := if c.sendOff == c.sendLen then c.(state := Complete) else c]
            && s'.led == s.led
            && s'.egr == if c.sendOff == c.sendLen then s.egr[c.peer := []] else s.egr
  {
  }

  lemma LongNextKeepsData(s: Mq, s': Mq, rid: nat, m: nat, n: nat)
    requires Linked(s) && AllData(s) && Linked(s') && rid < |s.reqs| && m < |s.led.msgs| && s.reqs[rid].msg == Some(m)
    requires (s.reqs[rid].state.Unexp? || s.reqs[rid].state.Matched?) && LongOk(s.reqs[rid], s.led.msgs[m])
    requires s.led.msgs[m].got + n <= |s.led.msgs[m].data|
    requires var c := ReqCopy(s.reqs[rid], s.led.msgs[m].data[s.reqs[rid].sendOff..s.reqs[rid].sendOff + n]);
             s'.reqs == s.reqs[rid := if c.sendOff == c.sendLen then c.(state := Complete) else c]
    requires s'.led == DoMore(s.led, m, n)
    ensures AllData(s')
  {
    assert LinkOk(s.reqs[rid], rid, s.led) && DataOk(s.reqs[rid], rid, s.led);
    TrainData(s.reqs[rid], s'.reqs[rid], rid, s'.led, n);
    KeepsData(s, s', rid);
  }

  // ---- the lists of open trains -------------------------------------------------------------

  /** Messages keep their text, and only messages that are not open were added. */
  ghost predicate NothingOpened(led: Ledger, led': Ledger) {
    && |led.msgs| <= |led'.msgs|
    && (forall m {:trigger led'.msgs[m]} :: 0 <= m < |led'.msgs| ==>
          if m < |led.msgs| then SameText(led.msgs[m], led'.msgs[m]) else !Open(led'.msgs[m], led'.msgs[m].peer))
  }

  lemma KeepsEgr(s: Mq, s': Mq)
    requires EgrOk(s) && s'.egr == s.egr && |s.reqs| <= |s'.reqs| && NothingOpened(s.led, s'.led)
    requires forall i {:trigger s'.reqs[i]} :: 0 <= i < |s.reqs| && s.reqs[i].msg.Some? ==>
               s'.reqs[i].msg == s.reqs[i].msg
    ensures EgrOk(s')
  {
  }

  /** Message m of `peer` is the only one whose openness may have changed. */
  lemma EgrUpdate(s: Mq, s': Mq, peer: nat, m: nat)
    requires EgrOk(s) && |s.reqs| <= |s'.reqs| && m < |s'.led.msgs|
    requires |s'.led.msgs| == (if m == |s.led.msgs| then m + 1 else |s.led.msgs|)
    requires forall i {:trigger s'.led.msgs[i]} :: 0 <= i < |s'.led.msgs| && i != m ==>
               SameText(s.led.msgs[i], s'.led.msgs[i])
    requires forall i {:trigger s.led.msgs[i]} :: 0 <= i < |s.led.msgs| && i != m ==> !Open(s.led.msgs[i], peer)
    requires s'.led.msgs[m].peer == peer && s'.led.msgs[m].rid < |s'.reqs| && s'.reqs[s'.led.msgs[m].rid].msg == Some(m)
    requires forall i {:trigger s'.reqs[i]} :: 0 <= i < |s.reqs| && s.reqs[i].msg.Some? ==>
               s'.reqs[i].msg == s.reqs[i].msg
    requires s'.egr == s.egr[peer := if Open(s'.led.msgs[m], peer) then [s'.led.msgs[m].rid] else []]
    requires forall e :: e in s.egr && e != peer && |s.egr[e]| == 1 ==> s.reqs[s.egr[e][0]].msg != Some(m)
    ensures EgrOk(s')
  {
  }

  lemma NextNamesOpen(s: Mq, s': Mq, peer: nat, rid: nat, m: nat, n: nat)
    requires NamesOpen(s) && rid < |s.reqs| && m < |s.led.msgs| && Open(s.led.msgs[m], peer)
    requires |s'.reqs| == |s.reqs| && s'.reqs == s.reqs[rid := s'.reqs[rid]] && s'.reqs[rid].msg == Some(m)
    requires s'.led == DoMore(s.led, m, n) && s.reqs[rid].msg == Some(m)
    requires s'.egr == if s.led.msgs[m].got + n == |s.led.msgs[m].data| then s.egr[peer := []] else s.egr
    requires s.led.msgs[m].got + n <= |s.led.msgs[m].data|
    ensures NamesOpen(s')
  {
  }

  lemma NextOpenNamed(s: Mq, s': Mq, peer: nat, rid: nat, m: nat, n: nat)
    requires OpenNamed(s) && Represented(s) && m < |s.led.msgs| && s.led.msgs[m].rid == rid
    requires Open(s.led.msgs[m], peer) && s'.led == DoMore(s.led, m, n)
    requires s'.egr == if s.led.msgs[m].got + n == |s.led.msgs[m].data| then s.egr[peer := []] else s.egr
    requires s.led.msgs[m].got + n <= |s.led.msgs[m].data|
    ensures OpenNamed(s')
  {
  }

  lemma LongNextKeepsEgr(s: Mq, s': Mq, peer: nat, rid: nat, m: nat, n: nat)
    requires EgrOk(s) && Represented(s) && rid < |s.reqs| && m < |s.led.msgs|
    requires Open(s.led.msgs[m], peer) && s.led.msgs[m].rid == rid && s.reqs[rid].msg == Some(m)
    requires |s'.reqs| == |s.reqs| && s'.reqs == s.reqs[rid := s'.reqs[rid]] && s'.reqs[rid].msg == Some(m)
    requires s'.led == DoMore(s.led, m, n) && s.led.msgs[m].got + n <= |s.led.msgs[m].data|
    requires s'.egr == if s.led.msgs[m].got + n == |s.led.msgs[m].data| then s.egr[peer := []] else s.egr
    ensures EgrOk(s')
  {
    NextNamesOpen(s, s', peer, rid, m, n);
    NextOpenNamed(s, s', peer, rid, m, n);
  }

  lemma LongFirstKeepsEgr(s: Mq, s': Mq, peer: nat, rid: nat, a: Msg)
    requires EgrOk(s) && OpenTrain(s.led.msgs, peer) == |s.led.msgs| && a.peer == peer && a.kind.Train?
    requires a.got <= |a.data|
    requires s'.led == DoArrive(s.led, a, |s.reqs|) && |s.reqs| <= |s'.reqs| && rid < |s'.reqs|
    requires s'.led.msgs[|s.led.msgs|].rid == rid && s'.reqs[rid].msg == Some(|s.led.msgs|)
    requires forall i {:trigger s'.reqs[i]} :: 0 <= i < |s.reqs| && i != rid ==> s'.reqs[i] == s.reqs[i]
    requires rid < |s.reqs| ==> s.reqs[rid].msg.None?
    requires s'.egr == s.egr[peer := if a.got < |a.data| then [rid] else []]
    ensures EgrOk(s')
  {
    EgrUpdate(s, s', peer, |s.led.msgs|);
  }

  // ---- one step ---------------------------------------------------------------------------------

  lemma IrecvKeepsEgr(s: Mq, tag: Tag, sel: Tag, buf: seq<Byte>)
    requires EgrOk(s) && Adoptable(s)
    ensures EgrOk(DoIrecv(s, tag, sel, buf))
  {
    KeepsEgr(s, DoIrecv(s, tag, sel, buf));
  }

  lemma IrecvKeepsCore(s: Mq, tag: Tag, sel: Tag, buf: seq<Byte>)
    requires Core(s) && Paired(s.led) && Adoptable(s)
    ensures Core(DoIrecv(s, tag, sel, buf))
  {
    var k := FindUnexpected(s.reqs, s.unexpected, tag, sel);
    if k == |s.unexpected| { PostedKeepsCore(s, tag, sel, buf); } else { AdoptKeepsCore(s, tag, sel, buf, k); }
  }

  lemma IrecvKeepsData(s: Mq, tag: Tag, sel: Tag, buf: seq<Byte>)
    requires Core(s) && Paired(s.led) && Adoptable(s) && AllData(s) && Linked(DoIrecv(s, tag, sel, buf))
    ensures AllData(DoIrecv(s, tag, sel, buf))
  {
    FindsOldestMsg(s, tag, sel);
    var k := FindUnexpected(s.reqs, s.unexpected, tag, sel);
    if k == |s.unexpected| { PostedKeepsData(s, tag, sel, buf); } else { AdoptKeepsData(s, tag, sel, buf, k); }
  }

  lemma IrecvKeepsInv(s: Mq, tag: Tag, sel: Tag, buf: seq<Byte>)
    requires Inv(s)
    ensures Adoptable(s) && Inv(DoIrecv(s, tag, sel, buf))
  {
    Ready(s);
    IrecvKeepsCore(s, tag, sel, buf);
    IrecvKeepsData(s, tag, sel, buf);
    IrecvKeepsEgr(s, tag, sel, buf);
    PostKeepsPaired(s.led, tag, sel, buf, |s.reqs|);
  }

  lemma CancelKeepsInv(s: Mq, rid: nat)
    requires Inv(s) && rid < |s.reqs| && s.reqs[rid].state.Posted?
    ensures rid in s.expected && s.reqs[rid].post.Some? && s.reqs[rid].post.value < |s.led.posts|
    ensures Inv(DoCancelReq(s, rid))
  {
    CancelKeepsCore(s, rid);
    CancelKeepsRest(s, rid);
  }

  lemma CancelKeepsRest(s: Mq, rid: nat)
    requires Linked(s) && AllData(s) && EgrOk(s) && rid < |s.reqs| && s.reqs[rid].state.Posted? && rid in s.expected
    requires s.reqs[rid].post.Some? && s.reqs[rid].post.value < |s.led.posts| && Linked(DoCancelReq(s, rid))
    ensures AllData(DoCancelReq(s, rid)) && EgrOk(DoCancelReq(s, rid))
  {
    var s' := DoCancelReq(s, rid);
    assert LinkOk(s.reqs[rid], rid, s.led) && DataOk(s.reqs[rid], rid, s.led);
    KeepsData(s, s', rid);
    KeepsEgr(s, s');
  }

  /** Facts about the receive that an arriving message meets, without the queues. */
  lemma Meets(s: Mq, tag: Tag)
    requires Core(s)
    ensures var k := FindExpected(s.reqs, s.expected, tag);
            && (k < |s.expected| ==> s.reqs[s.expected[k]].state.Posted? && s.reqs[s.expected[k]].msg.None?)
            && FirstPost(s.led.posts, tag) == if k < |s.expected| then PostNo(s.reqs[s.expected[k]]) else |s.led.posts|
  {
  }

  lemma EagerKeepsCore(s: Mq, tiny: bool, peer: nat, tag: Tag, data: seq<Byte>)
    requires Core(s) && Receivable(s)
    ensures Core(DoEager(s, tiny, peer, tag, data))
  {
    var a, k := Arrival(Whole, peer, tag, data, |data|), FindExpected(s.reqs, s.expected, tag);
    var s' := DoEager(s, tiny, peer, tag, data);
    if k < |s.expected| {
      ClaimKeepsCore(s, k, a);
      FinishKeepsCore(Claim(s, k, a), s.expected[k], s'.reqs[s.expected[k]]);
    } else {
      ParkKeepsCore(s, s'.reqs[|s.reqs|], a);
    }
  }

  lemma EagerKeepsEgr(s: Mq, tiny: bool, peer: nat, tag: Tag, data: seq<Byte>, k: nat)
    requires EgrOk(s) && Receivable(s) && k == FindExpected(s.reqs, s.expected, tag)
    requires k < |s.expected| ==> s.reqs[s.expected[k]].msg.None?
    ensures EgrOk(DoEager(s, tiny, peer, tag, data)) && EgrOk(DoRts(s, peer, tag, data))
  {
    KeepsEgr(s, DoEager(s, tiny, peer, tag, data));
    KeepsEgr(s, DoRts(s, peer, tag, data));
  }

  lemma EagerKeepsInv(s: Mq, tiny: bool, peer: nat, tag: Tag, data: seq<Byte>)
    requires Inv(s)
    ensures Receivable(s) && Inv(DoEager(s, tiny, peer, tag, data))
  {
    Ready(s);
    Meets(s, tag);
    EagerKeepsCore(s, tiny, peer, tag, data);
    EagerKeepsData(s, tiny, peer, tag, data, FindExpected(s.reqs, s.expected, tag));
    EagerKeepsEgr(s, tiny, peer, tag, data, FindExpected(s.reqs, s.expected, tag));
    ArriveKeepsPaired(s.led, Arrival(Whole, peer, tag, data, |data|), |s.reqs|);
  }

  lemma RtsKeepsCore(s: Mq, peer: nat, tag: Tag, data: seq<Byte>)
    requires Core(s)
    ensures Core(DoRts(s, peer, tag, data))
  {
    var a, k := Arrival(Rendezvous, peer, tag, data, 0), FindExpected(s.reqs, s.expected, tag);
    if k < |s.expected| { ClaimKeepsCore(s, k, a); }
    else { ParkKeepsCore(s, NewReq(tag, peer, |data|).(state := UnexpRv), a); }
  }

  lemma RtsKeepsInv(s: Mq, peer: nat, tag: Tag, data: seq<Byte>)
    requires Inv(s)
    ensures Inv(DoRts(s, peer, tag, data))
  {
    Ready(s);
    Meets(s, tag);
    RtsKeepsCore(s, peer, tag, data);
    RtsKeepsData(s, peer, tag, data, FindExpected(s.reqs, s.expected, tag));
    EagerKeepsEgr(s, true, peer, tag, data, FindExpected(s.reqs, s.expected, tag));
    ArriveKeepsPaired(s.led, Arrival(Rendezvous, peer, tag, data, 0), |s.reqs|);
  }

  lemma LongFirstKeepsCore(s: Mq, peer: nat, tag: Tag, data: seq<Byte>, n: nat)
    requires Core(s) && Receivable(s) && n <= |data|
    ensures Core(DoLongFirst(s, peer, tag, data, n))
  {
    var a, k := Arrival(Train, peer, tag, data, n), FindExpected(s.reqs, s.expected, tag);
    if k < |s.expected| {
      ClaimKeepsCore(s, k, a);
      EnlistKeepsCore(Claim(s, k, a), s.expected[k]);
      DataKeepsCore(Enlist(Claim(s, k, a), s.expected[k]), s.expected[k], data[..n]);
    } else {
      var r := NewTrain(tag, peer, |data|);
      ParkKeepsCore(s, r, a);
      EnlistKeepsCore(Park(s, r, a), |s.reqs|);
      DataKeepsCore(Enlist(Park(s, r, a), |s.reqs|), |s.reqs|, data[..n]);
    }
  }

  /** Enlisting a train and giving it its first n bytes leaves it listed exactly if more are due. */
  lemma FirstShape(s: Mq, rid: nat, frag: seq<Byte>)
    requires rid < |s.reqs| && s.reqs[rid].recvOff == 0 && CanCopy(s.reqs[rid]) && Egr(s, s.reqs[rid].peer) == []
    ensures var r, s' := s.reqs[rid], HandleData(Enlist(s, rid), rid, frag);
            && s'.egr == s.egr[r.peer := if |frag| == r.sendLen then [] else [rid]]
            && |s'.reqs| == |s.reqs| && s'.reqs == s.reqs[rid := s'.reqs[rid]] && s'.reqs[rid].msg == r.msg
            && s'.led == s.led
  {
    var s1, peer := Enlist(s, rid), s.reqs[rid].peer;
    assert Egr(s, peer) + [rid] == [rid];
    DataShape(s1, rid, frag);
    assert s.egr[peer := [rid]][peer := []] == s.egr[peer := []];
  }

  lemma NoneListed(s: Mq, peer: nat)
    requires EgrOk(s) && OpenTrain(s.led.msgs, peer) == |s.led.msgs|
    ensures Egr(s, peer) == []
  {
  }

  /** The first fragment of a train changes one record and lists it exactly if more are due. */
  ghost predicate Begun(s: Mq, s': Mq, peer: nat, tag: Tag, data: seq<Byte>, n: nat, rid: nat) {
    && s'.egr == s.egr[peer := if n == |data| then [] else [rid]]
    && s'.led == DoArrive(s.led, Arrival(Train, peer, tag, data, n), |s.reqs|)
    && |s.reqs| <= |s'.reqs| && rid < |s'.reqs| && s'.reqs[rid].msg == Some(|s.led.msgs|)
    && forall i {:trigger s'.reqs[i]} :: 0 <= i < |s.reqs| && i != rid ==> s'.reqs[i] == s.reqs[i]
  }

  lemma LongClaimShape(s: Mq, peer: nat, tag: Tag, data: seq<Byte>, n: nat, k: nat)
    requires Receivable(s) && n <= |data| && Egr(s, peer) == [] && k == FindExpected(s.reqs, s.expected, tag)
    requires k < |s.expected|
    ensures Begun(s, DoLongFirst(s, peer, tag, data, n), peer, tag, data, n, s.expected[k])
  {
    var s1 := Claim(s, k, Arrival(Train, peer, tag, data, n));
    FirstShape(s1, s.expected[k], data[..n]);
  }

  lemma LongParkShape(s: Mq, peer: nat, tag: Tag, data: seq<Byte>, n: nat)
    requires Receivable(s) && n <= |data| && Egr(s, peer) == []
    requires FindExpected(s.reqs, s.expected, tag) == |s.expected|
    ensures Begun(s, DoLongFirst(s, peer, tag, data, n), peer, tag, data, n, |s.reqs|)
  {
    var s1 := Park(s, NewTrain(tag, peer, |data|), Arrival(Train, peer, tag, data, n));
    FirstShape(s1, |s.reqs|, data[..n]);
  }

  lemma LongFirstEgr(s: Mq, peer: nat, tag: Tag, data: seq<Byte>, n: nat, k: nat)
    requires EgrOk(s) && Receivable(s) && n <= |data| && OpenTrain(s.led.msgs, peer) == |s.led.msgs|
    requires k == FindExpected(s.reqs, s.expected, tag) && Linked(DoLongFirst(s, peer, tag, data, n))
    requires k < |s.expected| ==> s.reqs[s.expected[k]].msg.None?
    ensures EgrOk(DoLongFirst(s, peer, tag, data, n))
  {
    NoneListed(s, peer);
    if k < |s.expected| { LongClaimShape(s, peer, tag, data, n, k); } else { LongParkShape(s, peer, tag, data, n); }
    var s', rid := DoLongFirst(s, peer, tag, data, n), if k < |s.expected| then s.expected[k] else |s.reqs|;
    assert LinkOk(s'.reqs[rid], rid, s'.led);
    LongFirstKeepsEgr(s, s', peer, rid, Arrival(Train, peer, tag, data, n));
  }

  lemma LongFirstKeepsRest(s: Mq, peer: nat, tag: Tag, data: seq<Byte>, n: nat)
    requires Inv(s) && Receivable(s) && Legal(s, LongFirst(peer, tag, data, n))
    requires Linked(DoLongFirst(s, peer, tag, data, n))
    ensures AllData(DoLongFirst(s, peer, tag, data, n)) && EgrOk(DoLongFirst(s, peer, tag, data, n))
  {
    Meets(s, tag);
    var k := FindExpected(s.reqs, s.expected, tag);
    if k < |s.expected| { LongClaimKeepsData(s, peer, tag, data, n, k); }
    else { LongParkKeepsData(s, peer, tag, data, n); }
    LongFirstEgr(s, peer, tag, data, n, k);
  }

  lemma LongFirstKeepsPaired(s: Mq, peer: nat, tag: Tag, data: seq<Byte>, n: nat)
    requires Receivable(s) && Paired(s.led) && n <= |data|
    ensures Paired(DoLongFirst(s, peer, tag, data, n).led)
  {
    ArriveKeepsPaired(s.led, Arrival(Train, peer, tag, data, n), |s.reqs|);
  }

  lemma LongFirstKeepsInv(s: Mq, peer: nat, tag: Tag, data: seq<Byte>, n: nat)
    requires Inv(s) && Legal(s, LongFirst(peer, tag, data, n))
    ensures Receivable(s) && Inv(DoLongFirst(s, peer, tag, data, n))
  {
    Ready(s);
    LongFirstKeepsCore(s, peer, tag, data, n);
    LongFirstKeepsRest(s, peer, tag, data, n);
    LongFirstKeepsPaired(s, peer, tag, data, n);
  }

  lemma LongNextKeepsCore(s: Mq, rid: nat, m: nat, frag: seq<Byte>)
    requires Core(s) && rid < |s.reqs| && CanCopy(s.reqs[rid]) && m < |s.led.msgs|
    requires s.reqs[rid].state.Matched? || s.reqs[rid].state.Unexp?
    requires s.reqs[rid].egrLong ==> |Egr(s, s.reqs[rid].peer)| > 0
    ensures Core(DoLongNext(s, rid, m, frag))
  {
    DataKeepsCore(s, rid, frag);
    MoreKeepsCore(HandleData(s, rid, frag), m, |frag|);
  }

  lemma MoreKeepsPaired(led: Ledger, m: nat, n: nat)
    requires Paired(led) && m < |led.msgs|
    ensures Paired(DoMore(led, m, n))
  {
  }

  /** A fragment changes one record, one message and the list of one peer. */
  lemma NextShape(s: Mq, rid: nat, m: nat, frag: seq<Byte>)
    requires rid < |s.reqs| && CanCopy(s.reqs[rid]) && s.reqs[rid].egrLong && |Egr(s, s.reqs[rid].peer)| == 1
    requires m < |s.led.msgs|
    ensures var s', c := DoLongNext(s, rid, m, frag), ReqCopy(s.reqs[rid], frag);
            && s'.reqs == s.reqs[rid := if c.sendOff == c.sendLen then c.(state := Complete) else c]
            && s'.led == DoMore(s.led, m, |frag|)
            && s'.egr == if c.sendOff == c.sendLen then s.egr[c.peer := []] else s.egr
  {
    DataShape(s, rid, frag);
  }

  lemma LongNextKeepsRest(s: Mq, peer: nat, frag: seq<Byte>, m: nat, rid: nat)
    requires Linked(s) && AllData(s) && EgrOk(s) && Represented(s) && rid < |s.reqs| && m < |s.led.msgs|
    requires s.reqs[rid].msg == Some(m) && s.led.msgs[m].rid == rid
    requires (s.reqs[rid].state.Unexp? || s.reqs[rid].state.Matched?) && LongOk(s.reqs[rid], s.led.msgs[m])
    requires Egr(s, peer) == [rid] && s.reqs[rid].peer == peer && s.led.msgs[m].got + |frag| <= |s.led.msgs[m].data|
    requires frag == s.led.msgs[m].data[s.led.msgs[m].got..s.led.msgs[m].got + |frag|]
    requires Linked(DoLongNext(s, rid, m, frag))
    ensures AllData(DoLongNext(s, rid, m, frag)) && EgrOk(DoLongNext(s, rid, m, frag))
  {
    var s' := DoLongNext(s, rid, m, frag);
    NextShape(s, rid, m, frag);
    LongNextKeepsData(s, s', rid, m, |frag|);
    LongNextKeepsEgr(s, s', peer, rid, m, |frag|);
  }

  lemma LongNextKeepsInv(s: Mq, peer: nat, frag: seq<Byte>, m: nat, rid: nat)
    requires Inv(s) && rid < |s.reqs| && m < |s.led.msgs| && s.reqs[rid].msg == Some(m) && s.led.msgs[m].rid == rid
    requires (s.reqs[rid].state.Unexp? || s.reqs[rid].state.Matched?) && LongOk(s.reqs[rid], s.led.msgs[m])
    requires Egr(s, peer) == [rid] && s.reqs[rid].peer == peer && s.led.msgs[m].got + |frag| <= |s.led.msgs[m].data|
    requires frag == s.led.msgs[m].data[s.led.msgs[m].got..s.led.msgs[m].got + |frag|]
    ensures Inv(DoLongNext(s, rid, m, frag))
  {
    LongNextKeepsCore(s, rid, m, frag);
    LongNextKeepsRest(s, peer, frag, m, rid);
    MoreKeepsPaired(s.led, m, |frag|);
  }

  /** Rewriting one record, whose message stays, keeps what is not Core. */
  lemma RewriteKeepsRest(s: Mq, s': Mq, rid: nat)
    requires Linked(s) && AllData(s) && EgrOk(s) && Linked(s') && rid < |s.reqs|
    requires |s'.reqs| == |s.reqs| && s'.reqs == s.reqs[rid := s'.reqs[rid]] && s'.led == s.led && s'.egr == s.egr
    requires s'.reqs[rid].msg == s.reqs[rid].msg && DataOk(s'.reqs[rid], rid, s'.led)
    ensures AllData(s') && EgrOk(s')
  {
    KeepsData(s, s', rid);
    KeepsEgr(s, s');
  }

  lemma RtsWriteKeepsInv(s: Mq, rid: nat, off: nat, piece: seq<Byte>)
    requires Inv(s) && Legal(s, RtsWrite(rid, off, piece))
    ensures Step(s, RtsWrite(rid, off, piece)).Some? && Inv(Step(s, RtsWrite(rid, off, piece)).value)
  {
    var r := s.reqs[rid];
    assert LinkOk(r, rid, s.led) && DataOk(r, rid, s.led);
    var r' := r.(buf := Mem(Overwrite(r.buf.bytes, off, piece)));
    var s' := Put(s, rid, r');
    assert r'.buf.bytes[r.recvLen..] == r.buf.bytes[r.recvLen..];
    PutKeepsCore(s, rid, r');
    RewriteKeepsRest(s, s', rid);
  }

  lemma RtsDoneKeepsInv(s: Mq, rid: nat)
    requires Inv(s) && Legal(s, RtsDone(rid))
    ensures Step(s, RtsDone(rid)).Some? && Inv(Step(s, RtsDone(rid)).value)
  {
    var r := s.reqs[rid];
    assert LinkOk(r, rid, s.led) && DataOk(r, rid, s.led);
    var s' := Finish(s, rid, r);
    assert r.buf.bytes == r.buf.bytes[..r.recvLen] + r.buf.bytes[r.recvLen..];
    FinishKeepsCore(s, rid, r);
    RewriteKeepsRest(s, s', rid);
  }

  lemma TestKeepsInv(s: Mq, rid: nat)
    requires Inv(s) && Held(s, rid)
    ensures Step(s, Test(rid)).Some? && Inv(Step(s, Test(rid)).value)
  {
    if s.reqs[rid].state.Complete? {
      assert LinkOk(s.reqs[rid], rid, s.led) && DataOk(s.reqs[rid], rid, s.led);
      var s' := DoTest(s, rid);
      TestKeepsCore(s, rid);
      RewriteKeepsRest(s, s', rid);
    }
  }

  lemma CallKeepsInv(s: Mq, ev: Event)
    requires Inv(s) && Legal(s, ev) && (ev.Irecv? || ev.Cancel? || ev.Test?)
    ensures Step(s, ev).Some? && Inv(Step(s, ev).value)
  {
    match ev
    case Irecv(tag, sel, buf) => IrecvKeepsInv(s, tag, sel, buf);
    case Cancel(rid) => if s.reqs[rid].state.Posted? { CancelKeepsInv(s, rid); }
    case Test(rid) => TestKeepsInv(s, rid);
  }

  lemma ArrivalKeepsInv(s: Mq, ev: Event)
    requires Inv(s) && Legal(s, ev) && (ev.Eager? || ev.LongFirst? || ev.Rts?)
    ensures Step(s, ev).Some? && Inv(Step(s, ev).value)
  {
    match ev
    case Eager(tiny, peer, tag, data) => EagerKeepsInv(s, tiny, peer, tag, data);
    case LongFirst(peer, tag, data, n) => LongFirstKeepsInv(s, peer, tag, data, n);
    case Rts(peer, tag, data) => RtsKeepsInv(s, peer, tag, data);
  }

  lemma FragmentKeepsInv(s: Mq, peer: nat, frag: seq<Byte>)
    requires Inv(s) && Legal(s, LongNext(peer, frag))
    ensures Step(s, LongNext(peer, frag)).Some? && Inv(Step(s, LongNext(peer, frag)).value)
  {
    var m := OpenTrain(s.led.msgs, peer);
    var rid := s.led.msgs[m].rid;
    OpenRequest(s, peer);
    LongNextKeepsInv(s, peer, frag, m, rid);
    FragmentStep(s, peer, frag, m, rid);
  }

  lemma FragmentStep(s: Mq, peer: nat, frag: seq<Byte>, m: nat, rid: nat)
    requires m == OpenTrain(s.led.msgs, peer) < |s.led.msgs| && Egr(s, peer) == [rid] && rid < |s.reqs|
    requires CanCopy(s.reqs[rid]) && s.reqs[rid].peer == peer
    requires s.reqs[rid].state.Unexp? || s.reqs[rid].state.Matched?
    ensures Step(s, LongNext(peer, frag)) == Some(DoLongNext(s, rid, m, frag))
  {
  }

  lemma StepKeepsInv(s: Mq, ev: Event)
    requires Inv(s) && Legal(s, ev)
    ensures Step(s, ev).Some? && Inv(Step(s, ev).value)
  {
    match ev
    case LongNext(peer, frag) => FragmentKeepsInv(s, peer, frag);
    case RtsWrite(rid, off, piece) => RtsWriteKeepsInv(s, rid, off, piece);
    case RtsDone(rid) => RtsDoneKeepsInv(s, rid);
    case _ => if ev.Irecv? || ev.Cancel? || ev.Test? { CallKeepsInv(s, ev); } else { ArrivalKeepsInv(s, ev); }
  }

  /** One step moves the ledger by one reference decision, or not at all. */
  function LedgerAfter(s: Mq, ev: Event): Ledger
    requires Step(s, ev).Some?
  {
    var n := |s.reqs|;
    match ev
    case Irecv(tag, sel, buf) => DoPost(s.led, tag, sel, buf, n)
    case Cancel(rid) => if s.reqs[rid].state.Posted? then DoCancel(s.led, s.reqs[rid].post.value) else s.led
    case Eager(tiny, peer, tag, data) => DoArrive(s.led, Arrival(Whole, peer, tag, data, |data|), n)
    case LongFirst(peer, tag, data, len) => DoArrive(s.led, Arrival(Train, peer, tag, data, len), n)
    case LongNext(peer, frag) => DoMore(s.led, OpenTrain(s.led.msgs, peer), |frag|)
    case Rts(peer, tag, data) => DoArrive(s.led, Arrival(Rendezvous, peer, tag, data, 0), n)
    case _ => s.led
  }

  lemma StepMovesLedger(s: Mq, ev: Event)
    requires Step(s, ev).Some?
    ensures Step(s, ev).value.led == LedgerAfter(s, ev)
  {
  }

  lemma StepKeepsOrder(s: Mq, ev: Event)
    requires Linked(s) && Legal(s, ev) && Ordered(s.led) && Step(s, ev).Some?
    ensures Ordered(Step(s, ev).value.led)
  {
    StepMovesLedger(s, ev);
    var n := |s.reqs|;
    match ev
    case Irecv(tag, sel, buf) => PostKeepsOrder(s.led, tag, sel, buf, n);
    case Cancel(rid) =>
      if s.reqs[rid].state.Posted? {
        assert LinkOk(s.reqs[rid], rid, s.led);
        CancelKeepsOrder(s.led, s.reqs[rid].post.value);
      }
    case Eager(tiny, peer, tag, data) => ArriveKeepsOrder(s.led, Arrival(Whole, peer, tag, data, |data|), n);
    case LongFirst(peer, tag, data, len) => ArriveKeepsOrder(s.led, Arrival(Train, peer, tag, data, len), n);
    case LongNext(peer, frag) => MoreKeepsOrder(s.led, OpenTrain(s.led.msgs, peer), |frag|);
    case Rts(peer, tag, data) => ArriveKeepsOrder(s.led, Arrival(Rendezvous, peer, tag, data, 0), n);
    case _ =>
  }

  /** No legal run ever fails one of the engine's own assertions, and all keep the invariant. */
  lemma {:induction false} RunKeepsInv(s: Mq, evs: seq<Event>)
    requires Inv(s) && Ordered(s.led) && LegalRun(s, evs)
    ensures Run(s, evs).Some? && Inv(Run(s, evs).value) && Ordered(Run(s, evs).value.led)
    decreases |evs|
  {
    if evs != [] {
      StepKeepsInv(s, evs[0]);
      StepKeepsOrder(s, evs[0]);
      RunKeepsInv(Step(s, evs[0]).value, evs[1..]);
    }
  }

  /** The state some legal run from the empty engine ends in. */
  ghost predicate Reached(s: Mq) {
    exists evs :: LegalRun(INIT, evs) && Run(INIT, evs) == Some(s)
  }

  /** An engine without requests. */
  lemma EmptyCore(s: Mq)
    requires s.reqs == [] && s.expected == [] && s.unexpected == [] && s.completed == [] && s.done == []
    requires s.led.posts == [] && s.led.msgs == []
    ensures Core(s)
  {
  }

  lemma EmptyInv(s: Mq)
    requires s.reqs == [] && s.egr == map[] && s.led.posts == [] && s.led.msgs == [] && Core(s)
    ensures Inv(s) && Ordered(s.led)
  {
  }

  lemma InitInv()
    ensures Inv(INIT) && Ordered(INIT.led)
  {
    EmptyCore(INIT);
    EmptyInv(INIT);
  }

  lemma ReachedInv(s: Mq)
    requires Reached(s)
    ensures Inv(s) && Ordered(s.led)
  {
    var evs :| LegalRun(INIT, evs) && Run(INIT, evs) == Some(s);
    InitInv();
    RunKeepsInv(INIT, evs);
  }

  lemma {:induction false} RunOn(s: Mq, evs: seq<Event>, ev: Event, s': Mq)
    requires LegalRun(s, evs) && Run(s, evs) == Some(s') && Legal(s', ev)
    ensures LegalRun(s, evs + [ev]) && Run(s, evs + [ev]) == Step(s', ev)
    decreases |evs|
  {
    if evs == [] {
      assert [ev][1..] == [];
      assert evs + [ev] == [ev];
    } else {
      assert (evs + [ev])[1..] == evs[1..] + [ev];
      RunOn(Step(s, evs[0]).value, evs[1..], ev, s');
    }
  }

  lemma ReachedStep(s: Mq, ev: Event)
    requires Reached(s) && Legal(s, ev)
    ensures Step(s, ev).Some?
  {
    ReachedInv(s);
    StepKeepsInv(s, ev);
  }

  lemma ReachedNext(s: Mq, ev: Event, s': Mq)
    requires Reached(s) && Legal(s, ev) && Step(s, ev) == Some(s')
    ensures Reached(s')
  {
    var evs :| LegalRun(INIT, evs) && Run(INIT, evs) == Some(s);
    RunOn(INIT, evs, ev, s);
  }

  lemma ReachedOn(s: Mq, ev: Event)
    requires Reached(s) && Legal(s, ev)
    ensures Step(s, ev).Some? && Reached(Step(s, ev).value)
  {
    ReachedStep(s, ev);
    ReachedNext(s, ev, Step(s, ev).value);
  }

  // ---- what users of the engine get ------------------------------------------------------------------

  /**
   Non-overtaking, after every legal run: no receive passes over an older message
   it accepts, no message passes over an older receive that accepts it, and the
   engine's pairings are exactly those of the reference matching.
   */
  lemma NonOvertaking(s: Mq)
    requires Reached(s)
    ensures MsgsNotOvertaken(s.led) && PostsNotOvertaken(s.led)
    ensures forall rid {:trigger s.reqs[rid]} ::
              0 <= rid < |s.reqs| && s.reqs[rid].post.Some? && s.reqs[rid].msg.Some? ==>
              && s.reqs[rid].post.value < |s.led.posts|
              && s.led.posts[s.reqs[rid].post.value].fate.GotMsg?
              && s.led.posts[s.reqs[rid].post.value].fate.msg == s.reqs[rid].msg.value
  {
    ReachedInv(s);
    forall rid | 0 <= rid < |s.reqs| ensures LinkOk(s.reqs[rid], rid, s.led) { }
  }

  /**
   Location, after every legal run: each request is in the queue its state calls
   for and in no other, once, and no parked message is accepted by a posted receive.
   */
  lemma Location(s: Mq)
    requires Reached(s)
    ensures Located(s)
    ensures forall i, j {:trigger s.expected[i], s.unexpected[j]} ::
              0 <= i < |s.expected| && 0 <= j < |s.unexpected| ==>
                var r, m := s.reqs[s.expected[i]], s.reqs[s.unexpected[j]];
                s.expected[i] != s.unexpected[j] && !Accepts(m.tag, r.tag, r.sel)
  {
    ReachedInv(s);
    forall i, j | 0 <= i < |s.expected| && 0 <= j < |s.unexpected|
      ensures var r, m := s.reqs[s.expected[i]], s.reqs[s.unexpected[j]];
              s.expected[i] != s.unexpected[j] && !Accepts(m.tag, r.tag, r.sel)
    {
      var x, y := s.expected[i], s.unexpected[j];
      assert LinkOk(s.reqs[x], x, s.led) && LinkOk(s.reqs[y], y, s.led);
    }
  }

  /**
   Delivery, after every legal run: a completed receive holds the first
   min(buffer, message) bytes of its message and its untouched tail, reports
   truncation exactly when the message was longer, and completed once; an eager
   receive is complete exactly when every byte of its message has arrived.
   */
  lemma Delivery(s: Mq, rid: nat)
    requires Reached(s) && rid < |s.reqs|
    ensures NoDup(s.done) && (rid in s.done <==> Finished(s.reqs[rid]))
    ensures var r := s.reqs[rid];
            r.post.Some? && r.msg.Some? ==>
              && r.post.value < |s.led.posts| && r.msg.value < |s.led.msgs|
              && var p, m := s.led.posts[r.post.value], s.led.msgs[r.msg.value];
              && (r.state.Complete? ==>
                    && r.buf == Mem(m.data[..Min(|p.buf|, |m.data|)] + p.buf[Min(|p.buf|, |m.data|)..])
                    && r.recvLen == Min(|p.buf|, |m.data|) && r.sendLen == |m.data| && r.tag == m.tag
                    && (r.err == Truncation <==> |p.buf| < |m.data|))
              && (!m.kind.Rendezvous? ==> (Finished(r) <==> m.got == |m.data|))
  {
    ReachedInv(s);
    assert LinkOk(s.reqs[rid], rid, s.led) && DataOk(s.reqs[rid], rid, s.led);
  }

  /** What a parked message shows of itself: its tag and length, whether or not its bytes are there. */
  lemma Parked(s: Mq, rid: nat)
    requires Reached(s) && rid in s.unexpected
    ensures rid < |s.reqs|
    ensures var r := s.reqs[rid];
            && r.msg.Some? && r.msg.value < |s.led.msgs|
            && var m := s.led.msgs[r.msg.value];
            m.fate.Unmatched? && r.tag == m.tag && r.sendLen == r.recvLen == |m.data| && r.err == Ok
  {
    ReachedInv(s);
    assert LinkOk(s.reqs[rid], rid, s.led) && DataOk(s.reqs[rid], rid, s.led);
  }

  /** The first parked message that fits is the oldest of the ledger that does, and shows its tag and length. */
  lemma ProbeFinds(s: Mq, tag: Tag, sel: Tag)
    requires Reached(s)
    ensures InRange(s, s.unexpected)
    ensures var k, m := FindUnexpected(s.reqs, s.unexpected, tag, sel), FirstMsg(s.led.msgs, tag, sel);
            && (k < |s.unexpected| <==> m < |s.led.msgs|)
            && (k < |s.unexpected| ==>
                  && var q := s.reqs[s.unexpected[k]];
                  q.tag == s.led.msgs[m].tag && q.sendLen == q.recvLen == |s.led.msgs[m].data| && q.err == Ok)
  {
    ReachedInv(s);
    FindsOldestMsg(s, tag, sel);
    var k := FindUnexpected(s.reqs, s.unexpected, tag, sel);
    if k < |s.unexpected| { Parked(s, s.unexpected[k]); }
  }

  /** A receive that was taken back has its tag, its whole buffer untouched, and no error. */
  lemma TakenBack(s: Mq, rid: nat)
    requires Reached(s) && rid < |s.reqs| && s.reqs[rid].state.Complete? && s.reqs[rid].msg.None?
    ensures var r := s.reqs[rid];
            && r.post.Some? && r.post.value < |s.led.posts|
            && var p := s.led.posts[r.post.value];
            p.fate.Cancelled? && r.tag == p.tag && r.buf == Mem(p.buf) && r.recvLen == |p.buf| && r.err == Ok
  {
    ReachedInv(s);
    assert LinkOk(s.reqs[rid], rid, s.led) && DataOk(s.reqs[rid], rid, s.led);
  }

  lemma CancelShape(s: Mq, rid: nat, s': Mq)
    requires rid < |s.reqs| && s.reqs[rid].state.Posted? && s.reqs[rid].msg.None? && NoDup(s.expected)
    requires Step(s, Cancel(rid)) == Some(s')
    ensures |s'.reqs| == |s.reqs| && s'.reqs[rid].state.Complete? && s'.reqs[rid].msg.None?
    ensures rid !in s'.expected && rid in s'.completed
  {
    var k := IndexOf(s.expected, rid);
    assert s'.expected == Without(s.expected, k) && s'.completed == s.completed + [rid];
  }

  lemma PostedNow(s: Mq, rid: nat)
    requires Reached(s) && rid < |s.reqs| && s.reqs[rid].state.Posted?
    ensures s.reqs[rid].msg.None? && NoDup(s.expected)
  {
    ReachedInv(s);
    assert LinkOk(s.reqs[rid], rid, s.led);
  }

  /** Cancelling completes a receive that waits, for good, and leaves anything else as it is. */
  lemma CancelCompletes(s: Mq, rid: nat, s': Mq)
    requires Reached(s) && Held(s, rid) && Step(s, Cancel(rid)) == Some(s')
    ensures |s'.reqs| == |s.reqs|
    ensures if s.reqs[rid].state.Posted?
            then && s'.reqs[rid].state.Complete? && s'.reqs[rid].msg.None?
                 && rid !in s'.expected && rid in s'.completed
            else s' == s
  {
    if s.reqs[rid].state.Posted? {
      PostedNow(s, rid);
      CancelShape(s, rid, s');
    }
  }

  /** Testing gives a completed receive back, and leaves anything else as it is. */
  lemma TestReleases(s: Mq, rid: nat)
    requires Reached(s) && Held(s, rid)
    ensures var s' := Step(s, Test(rid));
            && s'.Some?
            && if s.reqs[rid].state.Complete? then !Held(s'.value, rid) && rid !in s'.value.completed
               else s'.value == s
  {
    ReachedOn(s, Test(rid));
    if s.reqs[rid].state.Complete? { ReachedInv(Step(s, Test(rid)).value); }
  }

  // ---- the ledger records what was called and what came ---------------------------------------------

  datatype Wanted = Wanted(tag: Tag, sel: Tag, buf: seq<Byte>)
  datatype Came = Came(kind: Kind, peer: nat, tag: Tag, data: seq<Byte>)

  function Receives(posts: seq<Post>): seq<Wanted> {
    seq(|posts|, i requires 0 <= i < |posts| => Wanted(posts[i].tag, posts[i].sel, posts[i].buf))
  }

  function Messages(msgs: seq<Msg>): seq<Came> {
    seq(|msgs|, i requires 0 <= i < |msgs| => Came(msgs[i].kind, msgs[i].peer, msgs[i].tag, msgs[i].data))
  }

  function CallOf(ev: Event): seq<Wanted> { if ev.Irecv? then [Wanted(ev.tag, ev.sel, ev.buf)] else [] }

  function ArrivalOf(ev: Event): seq<Came> {
    match ev
    case Eager(_, peer, tag, data) => [Came(Whole, peer, tag, data)]
    case LongFirst(peer, tag, data, _) => [Came(Train, peer, tag, data)]
    case Rts(peer, tag, data) => [Came(Rendezvous, peer, tag, data)]
    case _ => []
  }

  function AllCalls(evs: seq<Event>): seq<Wanted> { if evs == [] then [] else CallOf(evs[0]) + AllCalls(evs[1..]) }

  function AllArrivals(evs: seq<Event>): seq<Came> {
    if evs == [] then [] else ArrivalOf(evs[0]) + AllArrivals(evs[1..])
  }

  lemma PostRecords(led: Ledger, tag: Tag, sel: Tag, buf: seq<Byte>, rid: nat)
    ensures var led' := DoPost(led, tag, sel, buf, rid);
            && Receives(led'.posts) == Receives(led.posts) + [Wanted(tag, sel, buf)]
            && Messages(led'.msgs) == Messages(led.msgs)
  {
  }

  lemma ArriveRecords(led: Ledger, a: Msg, rid: nat)
    ensures var led' := DoArrive(led, a, rid);
            && Receives(led'.posts) == Receives(led.posts)
            && Messages(led'.msgs) == Messages(led.msgs) + [Came(a.kind, a.peer, a.tag, a.data)]
  {
  }

  lemma MoreRecords(led: Ledger, m: nat, n: nat)
    requires m < |led.msgs|
    ensures Receives(DoMore(led, m, n).posts) == Receives(led.posts)
    ensures Messages(DoMore(led, m, n).msgs) == Messages(led.msgs)
  {
  }

  lemma CancelRecords(led: Ledger, p: nat)
    requires p < |led.posts|
    ensures Receives(DoCancel(led, p).posts) == Receives(led.posts)
    ensures Messages(DoCancel(led, p).msgs) == Messages(led.msgs)
  {
  }

  lemma StepRecords(s: Mq, ev: Event, s': Mq)
    requires Step(s, ev) == Some(s')
    ensures Receives(s'.led.posts) == Receives(s.led.posts) + CallOf(ev)
    ensures Messages(s'.led.msgs) == Messages(s.led.msgs) + ArrivalOf(ev)
  {
    StepMovesLedger(s, ev);
    LedgerRecords(s, ev);
  }

  lemma LedgerRecords(s: Mq, ev: Event)
    requires Step(s, ev).Some?
    ensures Receives(LedgerAfter(s, ev).posts) == Receives(s.led.posts) + CallOf(ev)
    ensures Messages(LedgerAfter(s, ev).msgs) == Messages(s.led.msgs) + ArrivalOf(ev)
  {
    var n := |s.reqs|;
    match ev
    case Irecv(tag, sel, buf) => PostRecords(s.led, tag, sel, buf, n);
    case Cancel(rid) => if s.reqs[rid].state.Posted? { CancelRecords(s.led, s.reqs[rid].post.value); }
    case Eager(_, peer, tag, data) => ArriveRecords(s.led, Arrival(Whole, peer, tag, data, |data|), n);
    case LongFirst(peer, tag, data, len) => ArriveRecords(s.led, Arrival(Train, peer, tag, data, len), n);
    case LongNext(peer, frag) => MoreRecords(s.led, OpenTrain(s.led.msgs, peer), |frag|);
    case Rts(peer, tag, data) => ArriveRecords(s.led, Arrival(Rendezvous, peer, tag, data, 0), n);
    case _ =>
  }

  lemma Join<T>(t': seq<T>, t1: seq<T>, t: seq<T>, a: seq<T>, b: seq<T>)
    requires t' == t1 + b && t1 == t + a
    ensures t' == t + (a + b)
  {
  }

  lemma FirstStep(s: Mq, evs: seq<Event>, s': Mq) returns (s1: Mq)
    requires evs != [] && Run(s, evs) == Some(s')
    ensures Step(s, evs[0]) == Some(s1) && Run(s1, evs[1..]) == Some(s')
  {
    s1 := Step(s, evs[0]).value;
  }

  /** Receive i of the ledger is the i-th that was posted, and message i the i-th that arrived. */
  lemma {:induction false} RunRecords(s: Mq, evs: seq<Event>, s': Mq)
    requires Run(s, evs) == Some(s')
    ensures Receives(s'.led.posts) == Receives(s.led.posts) + AllCalls(evs)
    ensures Messages(s'.led.msgs) == Messages(s.led.msgs) + AllArrivals(evs)
    decreases |evs|
  {
    if evs != [] {
      var s1 := FirstStep(s, evs, s');
      StepRecords(s, evs[0], s1);
      RunRecords(s1, evs[1..], s');
      Join(Receives(s'.led.posts), Receives(s1.led.posts), Receives(s.led.posts), CallOf(evs[0]), AllCalls(evs[1..]));
      Join(Messages(s'.led.msgs), Messages(s1.led.msgs), Messages(s.led.msgs), ArrivalOf(evs[0]),
           AllArrivals(evs[1..]));
    }
  }
}
