/**
 The Matched Queue receive engine as a step machine over values.

 A request is a record; the three queues hold request numbers.  Each function
 below is one entry point of the engine.  The engine decides every match by
 walking a queue; `led` evolves separately, by the reference rules of
 MatchLedger, and the invariant says that the two always agree.
 */
module MqModel {
  import opened Basics
  import opened MatchLedger

  datatype State = Complete | Posted | Matched | Unexp | UnexpRv | Freed
  datatype Err = Ok | Truncation
  datatype Buf = Null | Mem(bytes: seq<Byte>)

  /** `post` and `msg` name the ledger entries the request stands for. */
  datatype Req = Req(state: State, egrLong: bool, tag: Tag, sel: Tag, buf: Buf, bufLen: nat, err: Err,
                     recvLen: nat, sendLen: nat, recvOff: nat, sendOff: nat,
                     peer: nat, post: Option<nat>, msg: Option<nat>)

  /** `egr` lists each peer's unfinished long messages; `done` logs appends to the completed queue. */
  datatype Mq = Mq(reqs: seq<Req>, expected: seq<nat>, unexpected: seq<nat>, completed: seq<nat>,
                   egr: map<nat, seq<nat>>, done: seq<nat>, led: Ledger)

  const INIT := Mq([], [], [], [], map[], [], EMPTY)

  datatype Event =
    | Irecv(tag: Tag, sel: Tag, buf: seq<Byte>)
    | Cancel(rid: nat)
    | Eager(tiny: bool, peer: nat, tag: Tag, data: seq<Byte>)
    | LongFirst(peer: nat, tag: Tag, data: seq<Byte>, n: nat)
    | LongNext(peer: nat, frag: seq<Byte>)
    | Rts(peer: nat, tag: Tag, data: seq<Byte>)
    | RtsWrite(rid: nat, off: nat, piece: seq<Byte>)
    | RtsDone(rid: nat)
    | Test(rid: nat)

  // ---- building blocks ------------------------------------------------

  /** What a buffer must hold once a message of `data` was received into it. */
  function Delivered(data: seq<Byte>, buf: seq<Byte>): (r: seq<Byte>)
    ensures |r| == |buf|
  {
    var n := Min(|buf|, |data|);
    data[..n] + buf[n..]
  }

  function SetMsgLen(r: Req, recvLen: nat, sendLen: nat): Req {
    if recvLen < sendLen then r.(sendLen := sendLen, recvLen := recvLen, err := Truncation)
    else r.(sendLen := sendLen, recvLen := sendLen, err := Ok)
  }

  predicate CanCopy(r: Req) {
    r.buf.Mem? && r.recvOff <= r.recvLen <= |r.buf.bytes|
  }

  function ReqCopy(r: Req, frag: seq<Byte>): Req
    requires CanCopy(r)
  {
    var n := Min(r.recvLen - r.recvOff, |frag|);
    r.(buf := Mem(Overwrite(r.buf.bytes, r.recvOff, frag[..n])),
       recvOff := r.recvOff + n, sendOff := r.sendOff + |frag|)
  }

  function Without(q: seq<nat>, k: nat): seq<nat>
    requires k < |q|
  {
    q[..k] + q[k + 1..]
  }

  function Egr(s: Mq, peer: nat): seq<nat> {
    if peer in s.egr then s.egr[peer] else []
  }

  predicate InRange(s: Mq, q: seq<nat>) {
    forall i :: 0 <= i < |q| ==> q[i] < |s.reqs|
  }

  /** First position of `q` holding a posted receive that accepts `tag`, or |q|. */
  function FindExpected(reqs: seq<Req>, q: seq<nat>, tag: Tag): (k: nat)
    requires forall i :: 0 <= i < |q| ==> q[i] < |reqs|
    ensures k <= |q|
    ensures k < |q| ==> Accepts(tag, reqs[q[k]].tag, reqs[q[k]].sel)
    ensures forall i :: 0 <= i < k ==> !Accepts(tag, reqs[q[i]].tag, reqs[q[i]].sel)
  {
    if q == [] then 0
    else if Accepts(tag, reqs[q[0]].tag, reqs[q[0]].sel) then 0
    else
      var k := FindExpected(reqs, q[1..], tag);
      assert forall i :: 1 <= i < |q| ==> q[i] == q[1..][i - 1];
      1 + k
  }

  /** First position of `q` holding a message that (tag, sel) accepts, or |q|. */
  function FindUnexpected(reqs: seq<Req>, q: seq<nat>, tag: Tag, sel: Tag): (k: nat)
    requires forall i :: 0 <= i < |q| ==> q[i] < |reqs|
    ensures k <= |q|
    ensures k < |q| ==> Accepts(reqs[q[k]].tag, tag, sel)
    ensures forall i :: 0 <= i < k ==> !Accepts(reqs[q[i]].tag, tag, sel)
  {
    if q == [] then 0
    else if Accepts(reqs[q[0]].tag, tag, sel) then 0
    else
      var k := FindUnexpected(reqs, q[1..], tag, sel);
      assert forall i :: 1 <= i < |q| ==> q[i] == q[1..][i - 1];
      1 + k
  }

  /** A request fresh from the allocator. */
  function NewReq(tag: Tag, peer: nat, len: nat): Req {
    Req(Freed, false, tag, 0, Null, len, Ok, len, len, 0, 0, peer, None, None)
  }

  /** A request with a system buffer of the message's length, still blank. */
  function NewTrain(tag: Tag, peer: nat, len: nat): Req {
    NewReq(tag, peer, len).(state := Unexp, buf := Mem(seq(len, _ => 0 as Byte)))
  }

  // ---- entry points ---------------------------------------------------

  function Put(s: Mq, rid: nat, r: Req): Mq
    requires rid < |s.reqs|
  {
    s.(reqs := s.reqs[rid := r])
  }

  /** Store `r`, mark it complete and append it to the completed queue. */
  function Finish(s: Mq, rid: nat, r: Req): Mq
    requires rid < |s.reqs|
  {
    Put(s, rid, r.(state := Complete)).(completed := s.completed + [rid], done := s.done + [rid])
  }

  /** One fragment for request `rid`. */
  function HandleData(s: Mq, rid: nat, frag: seq<Byte>): Mq
    requires rid < |s.reqs| && CanCopy(s.reqs[rid])
    requires s.reqs[rid].egrLong ==> |Egr(s, s.reqs[rid].peer)| > 0
  {
    var r := ReqCopy(s.reqs[rid], frag);
    if r.sendOff == r.sendLen then
      var s := if r.egrLong then s.(egr := s.egr[r.peer := Egr(s, r.peer)[1..]]) else s;
      if r.state.Matched? then Finish(s, rid, r) else Put(s, rid, r.(state := Complete))
    else
      Put(s, rid, r)
  }

  /** A parked request can be handed over: its buffer holds what its counters claim. */
  predicate Adoptable(s: Mq) {
    && InRange(s, s.unexpected)
    && forall i :: 0 <= i < |s.unexpected| ==>
         var r := s.reqs[s.unexpected[i]];
         && (r.state.Unexp? ==> r.buf.Mem? && r.recvOff <= |r.buf.bytes|)
         && (r.state.Complete? && r.buf.Mem? ==> r.sendLen <= |r.buf.bytes|)
  }

  /** The record a parked request `r` turns into when a receive into `buf` adopts it. */
  function Adopted(r: Req, buf: seq<Byte>): Req
    requires r.state.Unexp? ==> r.buf.Mem? && r.recvOff <= |r.buf.bytes|
    requires r.state.Complete? && r.buf.Mem? ==> r.sendLen <= |r.buf.bytes|
  {
    var len := |buf|;
    match r.state
    case Complete =>
      if r.buf.Mem? then
        var r' := SetMsgLen(r, len, r.sendLen);
        r'.(buf := Mem(Overwrite(buf, 0, r.buf.bytes[..r'.recvLen])), bufLen := len)
      else
        r.(buf := Mem(buf), bufLen := len)
    case Unexp =>
      var r' := SetMsgLen(r, len, r.sendLen);
      var off := Min(r.recvOff, r'.recvLen);
      r'.(recvOff := off, buf := Mem(Overwrite(buf, 0, r.buf.bytes[..off])), bufLen := len, state := Matched)
    case _ =>
      SetMsgLen(r, len, r.sendLen).(state := Matched, buf := Mem(buf), bufLen := len, recvOff := 0)
  }

  function DoIrecv(s: Mq, tag: Tag, sel: Tag, buf: seq<Byte>): Mq
    requires Adoptable(s)
  {
    var len, post, led := |buf|, Some(|s.led.posts|), DoPost(s.led, tag, sel, buf, |s.reqs|);
    var k := FindUnexpected(s.reqs, s.unexpected, tag, sel);
    if k == |s.unexpected| then
      var r := Req(Posted, false, tag, sel, Mem(buf), len, Ok, len, 0, 0, 0, 0, post, None);
      s.(reqs := s.reqs + [r], expected := s.expected + [|s.reqs|], led := led)
    else
      var rid := s.unexpected[k];
      var s' := s.(unexpected := Without(s.unexpected, k), led := led);
      var r := Adopted(s.reqs[rid], buf).(post := post);
      if r.state.Complete? then Finish(s', rid, r) else Put(s', rid, r)
  }

  function DoCancelReq(s: Mq, rid: nat): Mq
    requires rid < |s.reqs|
    requires s.reqs[rid].state.Posted? ==>
               rid in s.expected && s.reqs[rid].post.Some? && s.reqs[rid].post.value < |s.led.posts|
  {
    var r := s.reqs[rid];
    if r.state.Posted? then
      Finish(s.(expected := Without(s.expected, IndexOf(s.expected, rid)),
                led := DoCancel(s.led, r.post.value)), rid, r)
    else s
  }

  function IndexOf(q: seq<nat>, x: nat): (k: nat)
    requires x in q
    ensures k < |q| && q[k] == x
    ensures forall i :: 0 <= i < k ==> q[i] != x
  {
    if q[0] == x then 0 else
      var k := IndexOf(q[1..], x);
      assert forall i :: 1 <= i < |q| ==> q[i] == q[1..][i - 1];
      1 + k
  }

  /** The receive at position k of the expected queue takes the arriving message `a`. */
  function Claim(s: Mq, k: nat, a: Msg): Mq
    requires InRange(s, s.expected) && k < |s.expected|
  {
    var rid := s.expected[k];
    var r := s.reqs[rid].(tag := a.tag, msg := Some(|s.led.msgs|), state := Matched, peer := a.peer, recvOff := 0);
    Put(s, rid, SetMsgLen(r, r.bufLen, |a.data|))
    .(expected := Without(s.expected, k), led := DoArrive(s.led, a, |s.reqs|))
  }

  /** Append a new request for a message nobody asked for yet. */
  function Park(s: Mq, r: Req, a: Msg): Mq {
    s.(reqs := s.reqs + [r.(msg := Some(|s.led.msgs|))], unexpected := s.unexpected + [|s.reqs|],
       led := DoArrive(s.led, a, |s.reqs|))
  }

  predicate Receivable(s: Mq) {
    && InRange(s, s.expected)
    && forall i :: 0 <= i < |s.expected| ==>
         var r := s.reqs[s.expected[i]];
         r.buf.Mem? && r.bufLen == |r.buf.bytes|
  }

  function Arrival(kind: Kind, peer: nat, tag: Tag, data: seq<Byte>, got: nat): Msg {
    Msg(kind, peer, tag, data, got, Unmatched, 0)
  }

  function DoEager(s: Mq, tiny: bool, peer: nat, tag: Tag, data: seq<Byte>): Mq
    requires Receivable(s)
  {
    var a := Arrival(Whole, peer, tag, data, |data|);
    var k := FindExpected(s.reqs, s.expected, tag);
    if k < |s.expected| then
      var s' := Claim(s, k, a);
      var r := s'.reqs[s.expected[k]];
      Finish(s', s.expected[k], r.(buf := Mem(Overwrite(r.buf.bytes, 0, data[..r.recvLen]))))
    else
      var buf := if tiny && data == [] then Null else Mem(data);
      Park(s, NewReq(tag, peer, |data|).(state := Complete, buf := buf), a)
  }

  /** Enter `rid` in its peer's list of unfinished messages. */
  function Enlist(s: Mq, rid: nat): Mq
    requires rid < |s.reqs|
  {
    var r := s.reqs[rid].(egrLong := true, sendOff := 0);
    Put(s, rid, r).(egr := s.egr[r.peer := Egr(s, r.peer) + [rid]])
  }

  function DoLongFirst(s: Mq, peer: nat, tag: Tag, data: seq<Byte>, n: nat): Mq
    requires Receivable(s) && n <= |data|
  {
    var a := Arrival(Train, peer, tag, data, n);
    var k := FindExpected(s.reqs, s.expected, tag);
    if k < |s.expected| then
      HandleData(Enlist(Claim(s, k, a), s.expected[k]), s.expected[k], data[..n])
    else
      var s' := Park(s, NewTrain(tag, peer, |data|), a);
      HandleData(Enlist(s', |s.reqs|), |s.reqs|, data[..n])
  }

  function DoLongNext(s: Mq, rid: nat, m: nat, frag: seq<Byte>): Mq
    requires rid < |s.reqs| && CanCopy(s.reqs[rid]) && m < |s.led.msgs|
    requires s.reqs[rid].egrLong ==> |Egr(s, s.reqs[rid].peer)| > 0
  {
    HandleData(s, rid, frag).(led := DoMore(s.led, m, |frag|))
  }

  function DoRts(s: Mq, peer: nat, tag: Tag, data: seq<Byte>): Mq
    requires InRange(s, s.expected)
  {
    var a := Arrival(Rendezvous, peer, tag, data, 0);
    var k := FindExpected(s.reqs, s.expected, tag);
    if k < |s.expected| then Claim(s, k, a)
    else Park(s, NewReq(tag, peer, |data|).(state := UnexpRv), a)
  }

  function DoTest(s: Mq, rid: nat): Mq
    requires rid < |s.reqs|
    requires s.reqs[rid].state.Complete? ==> rid in s.completed
  {
    if s.reqs[rid].state.Complete? then
      Put(s, rid, s.reqs[rid].(state := Freed, buf := Null))
      .(completed := Without(s.completed, IndexOf(s.completed, rid)))
    else s
  }

  // ---- runs -------------------------------------------------------------

  /**
   One event.  None stands for the places where the C code would fail an
   assertion or follow a bad pointer.
   */
  function Step(s: Mq, ev: Event): Option<Mq> {
    match ev
    case Irecv(tag, sel, buf) => if Adoptable(s) then Some(DoIrecv(s, tag, sel, buf)) else None
    case Cancel(rid) =>
      if rid >= |s.reqs| then None
      else if !s.reqs[rid].state.Posted? then Some(s)
      else if rid in s.expected && s.reqs[rid].post.Some? && s.reqs[rid].post.value < |s.led.posts| then
        Some(DoCancelReq(s, rid))
      else None
    case Eager(tiny, peer, tag, data) => if Receivable(s) then Some(DoEager(s, tiny, peer, tag, data)) else None
    case LongFirst(peer, tag, data, n) =>
      if Receivable(s) && n <= |data| then Some(DoLongFirst(s, peer, tag, data, n)) else None
    case LongNext(peer, frag) =>
      var m := OpenTrain(s.led.msgs, peer);
      if Egr(s, peer) == [] || Egr(s, peer)[0] >= |s.reqs| || m == |s.led.msgs| then None
      else
        var rid := Egr(s, peer)[0];
        var r := s.reqs[rid];
        if CanCopy(r) && r.peer == peer && (r.state.Unexp? || r.state.Matched?) then
          Some(DoLongNext(s, rid, m, frag))
        else None
    case Rts(peer, tag, data) => if InRange(s, s.expected) then Some(DoRts(s, peer, tag, data)) else None
    case RtsWrite(rid, off, piece) =>
      if rid < |s.reqs| && s.reqs[rid].buf.Mem? && off + |piece| <= |s.reqs[rid].buf.bytes| then
        Some(Put(s, rid, s.reqs[rid].(buf := Mem(Overwrite(s.reqs[rid].buf.bytes, off, piece)))))
      else None
    case RtsDone(rid) => if rid < |s.reqs| then Some(Finish(s, rid, s.reqs[rid])) else None
    case Test(rid) =>
      if rid < |s.reqs| && (s.reqs[rid].state.Complete? ==> rid in s.completed) then Some(DoTest(s, rid)) else None
  }

  /** The caller owns handle `rid`: a receive returned it and no test has released it. */
  predicate Held(s: Mq, rid: nat) {
    rid < |s.reqs| && s.reqs[rid].post.Some? && !s.reqs[rid].state.Freed?
  }

  /** `rid` is a receive matched to a rendezvous message that has not been completed. */
  predicate Pulling(s: Mq, rid: nat) {
    && rid < |s.reqs| && s.reqs[rid].state.Matched? && !s.reqs[rid].egrLong
    && s.reqs[rid].msg.Some? && s.reqs[rid].msg.value < |s.led.msgs|
  }

  /**
   What callers and transports owe the engine: handles are their own, a peer's
   fragments come in order and one message at a time, and a rendezvous is
   completed only after its bytes were written.
   */
  predicate Legal(s: Mq, ev: Event) {
    match ev
    case Irecv(_, _, _) => true
    case Cancel(rid) => Held(s, rid)
    case Eager(_, _, _, _) => true
    case LongFirst(peer, _, data, n) => n <= |data| && OpenTrain(s.led.msgs, peer) == |s.led.msgs|
    case LongNext(peer, frag) =>
      var k := OpenTrain(s.led.msgs, peer);
      && k < |s.led.msgs|
      && var m := s.led.msgs[k];
      && m.got + |frag| <= |m.data| && frag == m.data[m.got..m.got + |frag|]
    case Rts(_, _, _) => true
    case RtsWrite(rid, off, piece) =>
      && Pulling(s, rid)
      && var r := s.reqs[rid];
      && var data := s.led.msgs[r.msg.value].data;
      && off + |piece| <= r.recvLen && r.recvLen <= |data| && piece == data[off..off + |piece|]
    case RtsDone(rid) =>
      && Pulling(s, rid)
      && var r := s.reqs[rid];
      && var data := s.led.msgs[r.msg.value].data;
      && r.buf.Mem? && r.recvLen <= |data| && r.recvLen <= |r.buf.bytes|
      && r.buf.bytes[..r.recvLen] == data[..r.recvLen]
    case Test(rid) => Held(s, rid)
  }

  function Run(s: Mq, evs: seq<Event>): Option<Mq>
    decreases |evs|
  {
    if evs == [] then Some(s)
    else match Step(s, evs[0])
      case None => None
      case Some(s') => Run(s', evs[1..])
  }

  predicate LegalRun(s: Mq, evs: seq<Event>)
    decreases |evs|
  {
    evs == [] ||
    (Legal(s, evs[0]) && match Step(s, evs[0])
                         case None => true
                         case Some(s') => LegalRun(s', evs[1..]))
  }

  // ---- invariant ------------------------------------------------------

  /** What a record says about the ledger entries it stands for. */
  ghost predicate LinkOk(r: Req, rid: nat, led: Ledger) {
    && (r.post.Some? ==> r.post.value < |led.posts| && led.posts[r.post.value].rid == rid)
    && (r.msg.Some? ==> r.msg.value < |led.msgs| && led.msgs[r.msg.value].rid == rid)
    && (r.post.Some? && r.msg.Some? ==>
          led.posts[r.post.value].fate.GotMsg? && led.posts[r.post.value].fate.msg == r.msg.value)
    && (r.state.Posted? ==>
          && r.post.Some? && r.msg.None?
          && var p := led.posts[r.post.value];
          && p.fate.Waiting? && r.tag == p.tag && r.sel == p.sel)
    && (InUnexpected(r) ==>
          && r.post.None? && r.msg.Some?
          && led.msgs[r.msg.value].fate.Unmatched? && r.tag == led.msgs[r.msg.value].tag)
    && (r.state.Matched? ==> r.post.Some? && r.msg.Some?)
    && (r.state.Freed? ==> r.post.Some?)
    && (Finished(r) && r.msg.None? ==> led.posts[r.post.value].fate.Cancelled?)
  }

  /** A train under way: the buffer holds the bytes that arrived, as far as they fit. */
  ghost predicate LongOk(r: Req, m: Msg) {
    && r.egrLong && CanCopy(r) && Open(m, r.peer)
    && r.sendLen == |m.data| && r.sendOff == m.got && r.recvOff == Min(r.recvLen, r.sendOff)
    && r.recvLen <= |m.data|
    && r.buf.bytes[..r.recvOff] == m.data[..r.recvOff]
  }

  /** Lengths and error code of a receive into `buf` of a message `data`. */
  ghost predicate Sized(r: Req, data: seq<Byte>, buf: seq<Byte>) {
    && r.bufLen == |buf| && r.sendLen == |data| && r.recvLen == Min(|buf|, |data|)
    && (r.err == Truncation <==> |buf| < |data|)
    && r.buf.Mem? && |r.buf.bytes| == |buf|
    && r.buf.bytes[r.recvLen..] == buf[r.recvLen..]
  }

  /** What a record's buffer and counters hold, by state. */
  ghost predicate DataOk(r: Req, rid: nat, led: Ledger)
    requires LinkOk(r, rid, led)
  {
    match r.state
    case Posted =>
      var p := led.posts[r.post.value];
      r.buf == Mem(p.buf) && r.bufLen == r.recvLen == |p.buf| && r.err == Ok && !r.egrLong
    case Unexp =>
      var m := led.msgs[r.msg.value];
      LongOk(r, m) && r.recvLen == |m.data| == |r.buf.bytes| && r.err == Ok
    case UnexpRv =>
      var m := led.msgs[r.msg.value];
      !r.egrLong && m.kind.Rendezvous? && r.peer == m.peer && r.sendLen == r.recvLen == |m.data| && r.err == Ok
    case Matched =>
      var m, p := led.msgs[r.msg.value], led.posts[r.post.value];
      && r.tag == m.tag && Sized(r, m.data, p.buf)
      && if r.egrLong then LongOk(r, m) && r.buf.bytes[r.recvOff..] == p.buf[r.recvOff..]
         else m.kind.Rendezvous? && r.peer == m.peer
    case Complete =>
      if r.post.None? then
        var m := led.msgs[r.msg.value];
        && !m.kind.Rendezvous? && m.got == r.sendLen == r.recvLen == |m.data| && r.err == Ok
        && r.buf == (if r.buf.Null? && m.data == [] then Null else Mem(m.data))
      else
        var p := led.posts[r.post.value];
        if r.msg.None? then r.buf == Mem(p.buf) && r.tag == p.tag && r.recvLen == |p.buf| && r.err == Ok
        else
          var m := led.msgs[r.msg.value];
          && r.tag == m.tag && Sized(r, m.data, p.buf) && r.buf.bytes == Delivered(m.data, p.buf)
          && (!m.kind.Rendezvous? ==> m.got == |m.data|)
    case Freed =>
      r.msg.Some? ==> var m := led.msgs[r.msg.value]; !m.kind.Rendezvous? ==> m.got == |m.data|
  }

  predicate InExpected(r: Req) { r.state.Posted? }

  predicate InUnexpected(r: Req) {
    r.state.Unexp? || r.state.UnexpRv? || (r.state.Complete? && r.post.None?)
  }

  predicate InCompleted(r: Req) { r.state.Complete? && r.post.Some? }

  predicate Finished(r: Req) { r.post.Some? && (r.state.Complete? || r.state.Freed?) }

  ghost predicate NoDup(q: seq<nat>) {
    forall i, j :: 0 <= i < j < |q| ==> q[i] != q[j]
  }

  /** `q` holds, once each, exactly the requests that satisfy `want`. */
  ghost predicate Lists(q: seq<nat>, reqs: seq<Req>, want: Req -> bool) {
    && (forall i :: 0 <= i < |q| ==> q[i] < |reqs|)
    && NoDup(q)
    && (forall x {:trigger reqs[x]} :: 0 <= x < |reqs| ==> (x in q <==> want(reqs[x])))
  }

  /** Each request sits exactly in the queue its state calls for. */
  ghost predicate Located(s: Mq) {
    && Lists(s.expected, s.reqs, InExpected)
    && Lists(s.unexpected, s.reqs, InUnexpected)
    && Lists(s.completed, s.reqs, InCompleted)
    && Lists(s.done, s.reqs, Finished)
  }

  ghost predicate Linked(s: Mq) {
    forall i {:trigger s.reqs[i]} :: 0 <= i < |s.reqs| ==> LinkOk(s.reqs[i], i, s.led)
  }

  ghost predicate AllData(s: Mq)
    requires Linked(s)
  {
    forall i {:trigger s.reqs[i]} :: 0 <= i < |s.reqs| ==> DataOk(s.reqs[i], i, s.led)
  }

  /** Every ledger entry is represented by the request it names. */
  ghost predicate Represented(s: Mq) {
    && (forall p {:trigger s.led.posts[p]} :: 0 <= p < |s.led.posts| ==>
          s.led.posts[p].rid < |s.reqs| && s.reqs[s.led.posts[p].rid].post == Some(p))
    && (forall m {:trigger s.led.msgs[m]} :: 0 <= m < |s.led.msgs| ==>
          s.led.msgs[m].rid < |s.reqs| && s.reqs[s.led.msgs[m].rid].msg == Some(m))
  }

  function PostNo(r: Req): int { if r.post.Some? then r.post.value else -1 }
  function MsgNo(r: Req): int { if r.msg.Some? then r.msg.value else -1 }

  ghost predicate Rising(q: seq<nat>, reqs: seq<Req>, key: Req -> int)
    requires forall i :: 0 <= i < |q| ==> q[i] < |reqs|
  {
    forall i, j :: 0 <= i < j < |q| ==> key(reqs[q[i]]) < key(reqs[q[j]])
  }

  /** The two match queues list receives in posting order and messages in arrival order. */
  ghost predicate InOrder(s: Mq)
    requires InRange(s, s.expected) && InRange(s, s.unexpected)
  {
    Rising(s.expected, s.reqs, PostNo) && Rising(s.unexpected, s.reqs, MsgNo)
  }

  /** A peer's list names nothing but its open train. */
  ghost predicate NamesOpen(s: Mq) {
    && (forall e :: e in s.egr ==> |s.egr[e]| <= 1)
    && (forall e :: e in s.egr && |s.egr[e]| == 1 ==>
          var rid := s.egr[e][0];
          && rid < |s.reqs| && s.reqs[rid].msg.Some? && s.reqs[rid].msg.value < |s.led.msgs|
          && Open(s.led.msgs[s.reqs[rid].msg.value], e))
  }

  /** Each open train is named by its peer's list. */
  ghost predicate OpenNamed(s: Mq) {
    forall m {:trigger s.led.msgs[m]} :: 0 <= m < |s.led.msgs| && Open(s.led.msgs[m], s.led.msgs[m].peer) ==>
      Egr(s, s.led.msgs[m].peer) == [s.led.msgs[m].rid]
  }

  ghost predicate EgrOk(s: Mq) { NamesOpen(s) && OpenNamed(s) }

  ghost predicate Core(s: Mq) {
    Located(s) && Linked(s) && Represented(s) && InOrder(s)
  }

  ghost predicate Inv(s: Mq) {
    Core(s) && Paired(s.led) && EgrOk(s) && AllData(s)
  }
}
