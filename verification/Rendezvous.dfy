/**
 The shared-memory rendezvous: a sender announces a message (RTS), the receiver
 answers when a receive matches it, and the bytes move by long replies or by a
 kernel copy in either direction.

 The receiver is the Matched Queue engine itself.  Announcements, answers and
 the replies of different transfers may be delayed and reordered freely; only
 the fragments of one reply stay in order.  Any local activity of the receiving
 process (posting, cancelling, testing, eager traffic) may come in between.
 */
module Rendezvous {
  import opened Basics
  import opened MatchLedger
  import opened MqModel
  import opened MqCore
  import opened MqRuns

  /** How the two processes move rendezvous bytes; both sides agree on it. */
  datatype Copy = Messages | KernelGet | KernelPut

  /** `msg` is the message's place in the receiver's ledger once the RTS was delivered. */
  datatype Sending = Sending(peer: nat, tag: Tag, data: seq<Byte>, msg: Option<nat>, completions: nat)

  datatype Answer = Answer(rid: nat, len: nat)
  datatype Piece = Piece(off: nat, bytes: seq<Byte>, end: bool)

  /**
   `announced`: sends whose RTS is under way; `answers`: rtsmatch requests under
   way, by send; `replies`: undelivered fragments, by receive request;
   `sender`: the send behind each rendezvous message of the ledger.
   */
  datatype Net = Net(copy: Copy, mq: Mq, sends: seq<Sending>, sender: map<nat, nat>,
                     announced: set<nat>, answers: map<nat, Answer>, replies: map<nat, seq<Piece>>)

  datatype Act =
    | Start(peer: nat, tag: Tag, data: seq<Byte>)
    | DeliverRts(sid: nat)
    | Local(ev: Event)
    | DeliverAnswer(sid: nat, cuts: seq<nat>)
    | DeliverReply(rid: nat)

  /** An engine event issued by the transport: None if it is not one the engine allows. */
  function Issue(mq: Mq, ev: Event): Option<Mq> {
    if Legal(mq, ev) then Step(mq, ev) else None
  }

  /** Fragments of `data` from `off` on, cut at the given lengths; the last one carries END. */
  function Fragments(data: seq<Byte>, off: nat, cuts: seq<nat>): seq<Piece>
    requires off <= |data|
    decreases |cuts|
  {
    if cuts == [] || off + cuts[0] >= |data| then [Piece(off, data[off..], true)]
    else [Piece(off, data[off..off + cuts[0]], false)] + Fragments(data, off + cuts[0], cuts[1..])
  }

  /** What the receiver does itself once its answer is sent: the kernel copy, and the completion if no byte is due. */
  function Answered(w: Net, rid: nat, data: seq<Byte>): Option<Net>
    requires rid < |w.mq.reqs| && w.mq.reqs[rid].recvLen <= |data|
  {
    var len := w.mq.reqs[rid].recvLen;
    if w.copy.KernelGet? && len > 0 then
      match Issue(w.mq, RtsWrite(rid, 0, data[..len]))
      case None => None
      case Some(mq) => FinishReceive(w.(mq := mq), rid)
    else if len == 0 then FinishReceive(w, rid)
    else Some(w)
  }

  /** Request `rid` has just been matched to a rendezvous message: answer, and finish if nothing is left to move. */
  function Answering(w: Net, rid: nat): Option<Net> {
    if rid >= |w.mq.reqs| || w.mq.reqs[rid].msg.None? || w.mq.reqs[rid].msg.value !in w.sender then None
    else
      var sid, len := w.sender[w.mq.reqs[rid].msg.value], w.mq.reqs[rid].recvLen;
      if sid >= |w.sends| || len > |w.sends[sid].data| then None
      else Answered(w.(answers := w.answers[sid := Answer(rid, len)]), rid, w.sends[sid].data)
  }

  function FinishReceive(w: Net, rid: nat): Option<Net> {
    match Issue(w.mq, RtsDone(rid))
    case None => None
    case Some(mq) => Some(w.(mq := mq))
  }

  function DoStart(w: Net, peer: nat, tag: Tag, data: seq<Byte>): Net {
    w.(sends := w.sends + [Sending(peer, tag, data, None, 0)], announced := w.announced + {|w.sends|})
  }

  function DoDeliverRts(w: Net, sid: nat): Option<Net>
    requires sid < |w.sends|
  {
    var x := w.sends[sid];
    match Issue(w.mq, Rts(x.peer, x.tag, x.data))
    case None => None
    case Some(mq) =>
      var w' := Registered(w, mq, sid, |w.mq.led.msgs|);
      if !(forall i :: 0 <= i < |w.mq.expected| ==> w.mq.expected[i] < |w.mq.reqs|) then None
      else
        var k := FindExpected(w.mq.reqs, w.mq.expected, x.tag);
        if k < |w.mq.expected| then Answering(w', w.mq.expected[k]) else Some(w')
  }

  function DoLocal(w: Net, ev: Event): Option<Net> {
    match Issue(w.mq, ev)
    case None => None
    case Some(mq) =>
      var w' := w.(mq := mq);
      if !ev.Irecv? then Some(w')
      else if !(forall i :: 0 <= i < |w.mq.unexpected| ==> w.mq.unexpected[i] < |w.mq.reqs|) then None
      else
        var k := FindUnexpected(w.mq.reqs, w.mq.unexpected, ev.tag, ev.sel);
        if k < |w.mq.unexpected| && w.mq.reqs[w.mq.unexpected[k]].state.UnexpRv? then Answering(w', w.mq.unexpected[k])
        else Some(w')
  }

  /** The sender learns of the match: it moves the bytes, unless the receiver already has them, and completes. */
  function DoDeliverAnswer(w: Net, sid: nat, cuts: seq<nat>): Option<Net>
    requires sid in w.answers && sid < |w.sends|
  {
    var a, x := w.answers[sid], w.sends[sid];
    var w' := Acknowledged(w, sid);
    if a.len == 0 || w.copy.KernelGet? then Some(w')
    else if a.len > |x.data| then None
    else if w.copy.KernelPut? then
      match Issue(w.mq, RtsWrite(a.rid, 0, x.data[..a.len]))
      case None => None
      case Some(mq) => Some(w'.(mq := mq, replies := w.replies[a.rid := [Piece(a.len, [], true)]]))
    else
      Some(w'.(replies := w.replies[a.rid := Fragments(x.data[..a.len], 0, cuts)]))
  }

  /** Delivery of the first of the pieces `ps`, which are off the net, to rid; the last one runs the rtsdone handler. */
  function TakePiece(w: Net, rid: nat, ps: seq<Piece>): Option<Net>
    requires ps != []
  {
    match Issue(w.mq, RtsWrite(rid, ps[0].off, ps[0].bytes))
    case None => None
    case Some(mq) =>
      if ps[0].end then FinishReceive(w.(mq := mq), rid)
      else Some(w.(mq := mq, replies := w.replies[rid := ps[1..]]))
  }

  function DoDeliverReply(w: Net, rid: nat): Option<Net>
    requires rid in w.replies && w.replies[rid] != []
  {
    TakePiece(w.(replies := w.replies - {rid}), rid, w.replies[rid])
  }

  predicate IsLocal(ev: Event) {
    !ev.Rts? && !ev.RtsWrite? && !ev.RtsDone?
  }

  /** An act the environment may choose in state w. */
  predicate Possible(w: Net, act: Act) {
    match act
    case Start(_, _, _) => true
    case DeliverRts(sid) => sid in w.announced && sid < |w.sends|
    case Local(ev) => IsLocal(ev) && Legal(w.mq, ev)
    case DeliverAnswer(sid, _) => sid in w.answers && sid < |w.sends|
    case DeliverReply(rid) => rid in w.replies && w.replies[rid] != []
  }

  function Do(w: Net, act: Act): Option<Net>
    requires Possible(w, act)
  {
    match act
    case Start(peer, tag, data) => Some(DoStart(w, peer, tag, data))
    case DeliverRts(sid) => DoDeliverRts(w, sid)
    case Local(ev) => DoLocal(w, ev)
    case DeliverAnswer(sid, cuts) => DoDeliverAnswer(w, sid, cuts)
    case DeliverReply(rid) => DoDeliverReply(w, rid)
  }

  // ---- invariant -----------------------------------------------------------------

  /** Ledger message m is the one that send x announced. */
  predicate Carries(m: Msg, x: Sending) { m.peer == x.peer && m.tag == x.tag && m.data == x.data }

  /** Rendezvous messages of the ledger and announced sends name each other. */
  ghost predicate Registry(sends: seq<Sending>, sender: map<nat, nat>, msgs: seq<Msg>) {
    && (forall i :: 0 <= i < |sends| && sends[i].msg.Some? ==>
            sends[i].msg.value in sender && sender[sends[i].msg.value] == i)
    && (forall x :: x in sender ==> x < |msgs| && sender[x] < |sends|)
    && (forall x :: x in sender ==>
            sends[sender[x]].msg == Some(x) && msgs[x].kind.Rendezvous? && Carries(msgs[x], sends[sender[x]]))
    && (forall x :: 0 <= x < |msgs| && msgs[x].kind.Rendezvous? ==> x in sender)
  }

  /** A send completes at most once, not before its message was matched, and is owed an answer until then. */
  ghost predicate SendOk(x: Sending, sid: nat, msgs: seq<Msg>, announced: set<nat>, answers: map<nat, Answer>) {
    && x.completions <= 1 && (sid in announced <==> x.msg.None?)
    && (x.msg.None? ==> sid !in answers && x.completions == 0)
    && (x.msg.Some? ==>
          && x.msg.value < |msgs|
          && if msgs[x.msg.value].fate.Unmatched? then sid !in answers && x.completions == 0
             else (sid in answers) == (x.completions == 0))
  }

  /** Pieces continue from `off` to the end of `d` without gap or overlap. */
  ghost predicate Tiled(ps: seq<Piece>, off: nat, d: seq<Byte>)
    decreases |ps|
  {
    && ps != [] && ps[0].off == off && off + |ps[0].bytes| <= |d|
    && ps[0].bytes == d[off..off + |ps[0].bytes|]
    && if |ps| == 1 then ps[0].end && off + |ps[0].bytes| == |d|
       else !ps[0].end && Tiled(ps[1..], off + |ps[0].bytes|, d)
  }

  /** The fragments under way complete what the buffer already holds. */
  ghost predicate TransferOk(r: Req, data: seq<Byte>, ps: seq<Piece>) {
    && r.buf.Mem? && r.recvLen <= |data| && r.recvLen <= |r.buf.bytes|
    && ps != [] && ps[0].off <= r.recvLen && r.buf.bytes[..ps[0].off] == data[..ps[0].off]
    && Tiled(ps, ps[0].off, data[..r.recvLen])
  }

  ghost predicate AnswersOk(w: Net) {
    forall sid :: sid in w.answers ==>
      var a := w.answers[sid];
      && sid < |w.sends| && a.rid < |w.mq.reqs| && w.sends[sid].msg.Some? && w.mq.reqs[a.rid].msg == w.sends[sid].msg
      && (a.len > 0 && !w.copy.KernelGet? ==>
              Pulling(w.mq, a.rid) && a.len == w.mq.reqs[a.rid].recvLen && a.rid !in w.replies)
  }

  ghost predicate RepliesOk(w: Net) {
    forall rid :: rid in w.replies ==>
      && Pulling(w.mq, rid)
      && TransferOk(w.mq.reqs[rid], w.mq.led.msgs[w.mq.reqs[rid].msg.value].data, w.replies[rid])
  }

  /** A receive that waits for bytes is owed an answer's effect or a reply. */
  ghost predicate Owed(w: Net, rid: nat)
    requires Pulling(w.mq, rid)
  {
    || rid in w.replies
    || (&& w.mq.reqs[rid].msg.value in w.sender && w.sender[w.mq.reqs[rid].msg.value] in w.answers
        && w.answers[w.sender[w.mq.reqs[rid].msg.value]] == Answer(rid, w.mq.reqs[rid].recvLen)
        && w.mq.reqs[rid].recvLen > 0 && !w.copy.KernelGet?)
  }

  /** Every pulling receive but possibly `e` is owed something. */
  ghost predicate PullsOk(w: Net, e: int) {
    forall rid: nat {:trigger Pulling(w.mq, rid)} :: Pulling(w.mq, rid) && rid != e ==> Owed(w, rid)
  }

  ghost predicate SendsOk(w: Net, except: int) {
    forall sid :: 0 <= sid < |w.sends| && sid != except ==>
      SendOk(w.sends[sid], sid, w.mq.led.msgs, w.announced, w.answers)
  }

  ghost predicate NetOk(w: Net) {
    && Registry(w.sends, w.sender, w.mq.led.msgs) && SendsOk(w, -1)
    && (forall sid :: sid in w.announced ==> sid < |w.sends|)
    && AnswersOk(w) && RepliesOk(w) && PullsOk(w, -1)
  }

  ghost predicate NetInv(w: Net) { Inv(w.mq) && NetOk(w) }

  /** All is well except that receive `e` was just matched and nothing has been done about it. */
  ghost predicate NetOkBut(w: Net, e: nat) {
    && Registry(w.sends, w.sender, w.mq.led.msgs)
    && (forall sid :: sid in w.announced ==> sid < |w.sends|)
    && AnswersOk(w) && RepliesOk(w) && PullsOk(w, e)
    && Pulling(w.mq, e) && e !in w.replies && w.mq.reqs[e].msg.value in w.sender
    && var sid := w.sender[w.mq.reqs[e].msg.value];
    && sid !in w.answers && sid !in w.announced && w.sends[sid].completions == 0
    && w.mq.led.msgs[w.mq.reqs[e].msg.value].fate.TakenBy?
    && SendsOk(w, sid)
  }

  // ---- engine events leave transfers alone --------------------------------------------

  /** Rendezvous messages other than x keep text and fate, and none but x is new. */
  ghost predicate MsgsKept(msgs: seq<Msg>, msgs': seq<Msg>, x: int) {
    && |msgs| <= |msgs'|
    && (forall i {:trigger msgs'[i]} :: 0 <= i < |msgs'| && i != x ==>
          if i < |msgs| then msgs'[i].kind == msgs[i].kind && (msgs[i].kind.Rendezvous? ==> msgs'[i] == msgs[i])
          else !msgs'[i].kind.Rendezvous?)
    && (0 <= x < |msgs| ==>
          && msgs'[x].kind == msgs[x].kind && msgs'[x].peer == msgs[x].peer && msgs'[x].tag == msgs[x].tag
          && msgs'[x].data == msgs[x].data)
  }

  predicate Pullable(r: Req) { r.state.Matched? && !r.egrLong }

  /** Pulling receives other than `e` are untouched and none but `e` is added; requests keep their message. */
  ghost predicate PullsKept(s: Mq, s': Mq, e: int) {
    && |s.reqs| <= |s'.reqs|
    && (forall i {:trigger s'.reqs[i]} :: 0 <= i < |s.reqs| && s.reqs[i].msg.Some? ==> s'.reqs[i].msg == s.reqs[i].msg)
    && (forall i {:trigger s'.reqs[i]} :: 0 <= i < |s.reqs| && i != e && Pullable(s.reqs[i]) ==>
            s'.reqs[i] == s.reqs[i])
    && (forall i {:trigger s'.reqs[i]} :: 0 <= i < |s'.reqs| && i != e && Pullable(s'.reqs[i]) ==>
            i < |s.reqs| && Pullable(s.reqs[i]))
  }

  lemma SamePulls(s: Mq, s': Mq, e: int, rid: nat)
    requires Linked(s) && |s.led.msgs| <= |s'.led.msgs| && PullsKept(s, s', e) && rid != e
    ensures Pulling(s', rid) <==> Pulling(s, rid)
    ensures Pulling(s, rid) ==> s'.reqs[rid] == s.reqs[rid]
  {
  }

  lemma QuietSends(w: Net, mq: Mq)
    requires Registry(w.sends, w.sender, w.mq.led.msgs) && SendsOk(w, -1) && MsgsKept(w.mq.led.msgs, mq.led.msgs, -1)
    ensures Registry(w.sends, w.sender, mq.led.msgs) && SendsOk(w.(mq := mq), -1)
  {
  }

  /** No answer under way promises more bytes for `e`. */
  ghost predicate NotAwaited(w: Net, e: int) {
    && e !in w.replies
    && forall sid :: sid in w.answers && w.answers[sid].len > 0 && !w.copy.KernelGet? ==> w.answers[sid].rid != e
  }

  lemma QuietTransfers(w: Net, mq: Mq, e: int, x: int)
    requires Linked(w.mq) && MsgsKept(w.mq.led.msgs, mq.led.msgs, x) && PullsKept(w.mq, mq, e)
    requires AllData(w.mq) && AnswersOk(w) && RepliesOk(w) && PullsOk(w, e) && NotAwaited(w, e)
    ensures var w' := w.(mq := mq); AnswersOk(w') && RepliesOk(w') && PullsOk(w', e)
  {
    var w' := w.(mq := mq);
    forall sid | sid in w.answers
      ensures var a := w.answers[sid];
              && sid < |w.sends| && a.rid < |mq.reqs| && w.sends[sid].msg.Some?
              && mq.reqs[a.rid].msg == w.sends[sid].msg
              && (a.len > 0 && !w.copy.KernelGet? ==>
                      Pulling(mq, a.rid) && a.len == mq.reqs[a.rid].recvLen && a.rid !in w.replies)
    {
      if w.answers[sid].rid != e { SamePulls(w.mq, mq, e, w.answers[sid].rid); }
    }
    forall rid | rid in w.replies
      ensures Pulling(mq, rid) && TransferOk(mq.reqs[rid], mq.led.msgs[mq.reqs[rid].msg.value].data, w.replies[rid])
    {
      SamePulls(w.mq, mq, e, rid);
      assert LinkOk(w.mq.reqs[rid], rid, w.mq.led) && DataOk(w.mq.reqs[rid], rid, w.mq.led);
    }
    forall rid: nat | Pulling(mq, rid) && rid != e ensures Owed(w', rid) {
      SamePulls(w.mq, mq, e, rid);
      assert Owed(w, rid);
    }
  }

  lemma QuietKeepsNet(w: Net, mq: Mq)
    requires NetInv(w) && MsgsKept(w.mq.led.msgs, mq.led.msgs, -1) && PullsKept(w.mq, mq, -1)
    ensures NetOk(w.(mq := mq))
  {
    QuietSends(w, mq);
    QuietTransfers(w, mq, -1, -1);
  }

  // ---- answering a match -------------------------------------------------------------------

  lemma WriteLegal(s: Mq, rid: nat, off: nat, piece: seq<Byte>)
    requires Inv(s) && Pulling(s, rid)
    requires var r := s.reqs[rid];
             var data := s.led.msgs[r.msg.value].data;
             off + |piece| <= r.recvLen && off + |piece| <= |data| && piece == data[off..off + |piece|]
    ensures var ev := RtsWrite(rid, off, piece);
            && Legal(s, ev) && s.reqs[rid].buf.Mem? && off + |piece| <= |s.reqs[rid].buf.bytes|
            && Step(s, ev) == Some(Put(s, rid, s.reqs[rid].(buf := Mem(Overwrite(s.reqs[rid].buf.bytes, off, piece)))))
            && Inv(Step(s, ev).value)
  {
    assert LinkOk(s.reqs[rid], rid, s.led) && DataOk(s.reqs[rid], rid, s.led);
    RtsWriteKeepsInv(s, rid, off, piece);
  }

  lemma DoneLegal(s: Mq, rid: nat)
    requires Inv(s) && Pulling(s, rid)
    requires var r := s.reqs[rid];
             var data := s.led.msgs[r.msg.value].data;
             && r.buf.Mem? && r.recvLen <= |r.buf.bytes| && r.recvLen <= |data|
             && r.buf.bytes[..r.recvLen] == data[..r.recvLen]
    ensures Legal(s, RtsDone(rid)) && Step(s, RtsDone(rid)) == Some(Finish(s, rid, s.reqs[rid]))
    ensures Inv(Finish(s, rid, s.reqs[rid]))
  {
    RtsDoneKeepsInv(s, rid);
  }

  /** Changing only the buffer of the pulling receive e keeps everybody else's transfer. */
  lemma WriteKeepsOthers(w: Net, e: nat, off: nat, piece: seq<Byte>)
    requires Linked(w.mq) && AllData(w.mq) && Pulling(w.mq, e)
    requires w.mq.reqs[e].buf.Mem? && off + |piece| <= |w.mq.reqs[e].buf.bytes|
    requires AnswersOk(w) && RepliesOk(w) && PullsOk(w, e) && NotAwaited(w, e)
    ensures var mq := Put(w.mq, e, w.mq.reqs[e].(buf := Mem(Overwrite(w.mq.reqs[e].buf.bytes, off, piece))));
            AnswersOk(w.(mq := mq)) && RepliesOk(w.(mq := mq)) && PullsOk(w.(mq := mq), e)
  {
    QuietTransfers(w, Put(w.mq, e, w.mq.reqs[e].(buf := Mem(Overwrite(w.mq.reqs[e].buf.bytes, off, piece)))), e, -1);
  }

  /** Everything but the completion of e itself, for whom nothing is under way. */
  ghost predicate OthersOk(w: Net, e: nat) {
    && Registry(w.sends, w.sender, w.mq.led.msgs) && SendsOk(w, -1)
    && (forall sid :: sid in w.announced ==> sid < |w.sends|)
    && AnswersOk(w) && RepliesOk(w) && PullsOk(w, e) && NotAwaited(w, e)
  }

  /** All bytes due to the pulling receive e are in its buffer. */
  ghost predicate InPlace(s: Mq, e: nat)
    requires Pulling(s, e)
  {
    var r := s.reqs[e];
    var data := s.led.msgs[r.msg.value].data;
    r.buf.Mem? && r.recvLen <= |r.buf.bytes| && r.recvLen <= |data| && r.buf.bytes[..r.recvLen] == data[..r.recvLen]
  }

  lemma FinishNet(w: Net, e: nat)
    requires Linked(w.mq) && AllData(w.mq) && Pulling(w.mq, e) && OthersOk(w, e)
    ensures NetOk(w.(mq := Finish(w.mq, e, w.mq.reqs[e])))
  {
    var mq := Finish(w.mq, e, w.mq.reqs[e]);
    assert PullsKept(w.mq, mq, e);
    QuietTransfers(w, mq, e, -1);
    assert !Pulling(mq, e);
  }

  /** Completing the pulling receive e, whose bytes are all in place. */
  lemma FinishKeeps(w: Net, e: nat)
    requires Inv(w.mq) && Pulling(w.mq, e) && OthersOk(w, e) && InPlace(w.mq, e)
    ensures FinishReceive(w, e).Some? && NetInv(FinishReceive(w, e).value)
  {
    DoneLegal(w.mq, e);
    FinishNet(w, e);
  }

  lemma CopyKeepsOthers(w: Net, e: nat, data: seq<Byte>, len: nat, mq: Mq)
    requires Linked(w.mq) && AllData(w.mq) && Pulling(w.mq, e) && OthersOk(w, e)
    requires data == w.mq.led.msgs[w.mq.reqs[e].msg.value].data && w.mq.reqs[e].recvLen == len <= |data|
    requires w.mq.reqs[e].buf.Mem? && len <= |w.mq.reqs[e].buf.bytes|
    requires mq == Put(w.mq, e, w.mq.reqs[e].(buf := Mem(Overwrite(w.mq.reqs[e].buf.bytes, 0, data[..len]))))
    ensures Pulling(mq, e) && OthersOk(w.(mq := mq), e) && InPlace(mq, e)
  {
    WriteKeepsOthers(w, e, 0, data[..len]);
  }

  lemma CopyKeeps(w: Net, e: nat, data: seq<Byte>, len: nat)
    requires Inv(w.mq) && Pulling(w.mq, e) && OthersOk(w, e)
    requires data == w.mq.led.msgs[w.mq.reqs[e].msg.value].data && w.mq.reqs[e].recvLen == len <= |data|
    ensures var ev := RtsWrite(e, 0, data[..len]);
            && Legal(w.mq, ev) && Step(w.mq, ev).Some? && var mq := Step(w.mq, ev).value;
            Inv(mq) && Pulling(mq, e) && OthersOk(w.(mq := mq), e) && InPlace(mq, e)
  {
    WriteLegal(w.mq, e, 0, data[..len]);
    CopyKeepsOthers(w, e, data, len, Step(w.mq, RtsWrite(e, 0, data[..len])).value);
  }

  lemma AnsweringByCopy(w: Net, e: nat, data: seq<Byte>)
    requires Inv(w.mq) && Pulling(w.mq, e) && OthersOk(w, e)
    requires data == w.mq.led.msgs[w.mq.reqs[e].msg.value].data && w.mq.reqs[e].recvLen <= |data|
    ensures var ev := RtsWrite(e, 0, data[..w.mq.reqs[e].recvLen]);
            && Issue(w.mq, ev).Some? && var w' := w.(mq := Issue(w.mq, ev).value);
            FinishReceive(w', e).Some? && NetInv(FinishReceive(w', e).value)
  {
    var len := w.mq.reqs[e].recvLen;
    CopyKeeps(w, e, data, len);
    FinishKeeps(w.(mq := Step(w.mq, RtsWrite(e, 0, data[..len])).value), e);
  }

  lemma AnswerRecorded(w: Net, e: nat)
    requires Linked(w.mq) && AllData(w.mq) && NetOkBut(w, e)
    ensures var sid, len := w.sender[w.mq.reqs[e].msg.value], w.mq.reqs[e].recvLen;
            var w1, data := w.(answers := w.answers[sid := Answer(e, len)]), w.sends[sid].data;
            && len <= |data| && data == w.mq.led.msgs[w.mq.reqs[e].msg.value].data
            && Answering(w, e) == Answered(w1, e, data)
            && (len == 0 ==> InPlace(w1.mq, e))
            && if w.copy.KernelGet? || len == 0 then OthersOk(w1, e) else NetOk(w1)
  {
    var r := w.mq.reqs[e];
    var sid, len := w.sender[r.msg.value], r.recvLen;
    assert LinkOk(r, e, w.mq.led) && DataOk(r, e, w.mq.led);
    AnswerSends(w, e);
    if !w.copy.KernelGet? && len > 0 { AwaitsReply(w.(answers := w.answers[sid := Answer(e, len)]), e); }
  }

  lemma AnsweringKeeps(w: Net, e: nat)
    requires Inv(w.mq) && NetOkBut(w, e)
    ensures Answering(w, e).Some? && NetInv(Answering(w, e).value)
  {
    AnswerRecorded(w, e);
    var sid, len := w.sender[w.mq.reqs[e].msg.value], w.mq.reqs[e].recvLen;
    var w1 := w.(answers := w.answers[sid := Answer(e, len)]);
    if w.copy.KernelGet? && len > 0 {
      AnsweringByCopy(w1, e, w.sends[sid].data);
    } else if len == 0 {
      FinishKeeps(w1, e);
    }
  }

  lemma AwaitsReply(w: Net, e: nat)
    requires PullsOk(w, e) && (Pulling(w.mq, e) ==> Owed(w, e))
    ensures PullsOk(w, -1)
  {
  }

  /** Recording the answer for e puts its send in order; transfers of others are unaffected. */
  lemma AnswerSends(w: Net, e: nat)
    requires Linked(w.mq) && NetOkBut(w, e)
    ensures var sid, len := w.sender[w.mq.reqs[e].msg.value], w.mq.reqs[e].recvLen;
            var w1 := w.(answers := w.answers[sid := Answer(e, len)]);
            && SendsOk(w1, -1) && AnswersOk(w1) && RepliesOk(w1) && PullsOk(w1, e)
            && (len == 0 || w.copy.KernelGet? ==> NotAwaited(w1, e))
  {
    var sid, len := w.sender[w.mq.reqs[e].msg.value], w.mq.reqs[e].recvLen;
    var w1 := w.(answers := w.answers[sid := Answer(e, len)]);
    forall s | 0 <= s < |w.sends| ensures SendOk(w1.sends[s], s, w1.mq.led.msgs, w1.announced, w1.answers) {
      if s != sid { assert SendOk(w.sends[s], s, w.mq.led.msgs, w.announced, w.answers); }
    }
    forall rid: nat | Pulling(w1.mq, rid) && rid != e ensures Owed(w1, rid) {
      assert Owed(w, rid);
    }
    forall s | s in w.answers ensures w.answers[s].rid != e { }
  }

  // ---- local activity of the receiver -------------------------------------------------------

  lemma IrecvQuiet(s: Mq, tag: Tag, sel: Tag, buf: seq<Byte>, k: nat)
    requires Linked(s) && AllData(s) && Adoptable(s) && k == FindUnexpected(s.reqs, s.unexpected, tag, sel)
    requires k < |s.unexpected| ==> InUnexpected(s.reqs[s.unexpected[k]]) && !s.reqs[s.unexpected[k]].state.UnexpRv?
    requires FirstMsg(s.led.msgs, tag, sel) ==
             if k < |s.unexpected| then MsgNo(s.reqs[s.unexpected[k]]) else |s.led.msgs|
    ensures var s' := DoIrecv(s, tag, sel, buf); PullsKept(s, s', -1) && MsgsKept(s.led.msgs, s'.led.msgs, -1)
  {
    var s' := DoIrecv(s, tag, sel, buf);
    if k < |s.unexpected| {
      var rid := s.unexpected[k];
      assert LinkOk(s.reqs[rid], rid, s.led) && DataOk(s.reqs[rid], rid, s.led);
      TouchQuiet(s, s', rid);
    } else {
      TouchQuiet(s, s', |s.reqs|);
    }
  }

  /** A receive that adopts a parked rendezvous message starts pulling it, and changes nothing else of the kind. */
  lemma IrecvStartsPull(s: Mq, tag: Tag, sel: Tag, buf: seq<Byte>, k: nat)
    requires Linked(s) && AllData(s) && Adoptable(s)
    requires k == FindUnexpected(s.reqs, s.unexpected, tag, sel) < |s.unexpected|
    requires s.reqs[s.unexpected[k]].state.UnexpRv? && FirstMsg(s.led.msgs, tag, sel) == MsgNo(s.reqs[s.unexpected[k]])
    ensures var s', rid := DoIrecv(s, tag, sel, buf), s.unexpected[k];
            && s.reqs[rid].msg.Some? && s.reqs[rid].msg.value < |s.led.msgs|
            && PullsKept(s, s', rid) && MsgsKept(s.led.msgs, s'.led.msgs, s.reqs[rid].msg.value)
            && Pulling(s', rid) && s'.reqs[rid].msg == s.reqs[rid].msg
            && s.led.msgs[s.reqs[rid].msg.value].fate.Unmatched? && s'.led.msgs[s.reqs[rid].msg.value].fate.TakenBy?
            && s.led.msgs[s.reqs[rid].msg.value].kind.Rendezvous?
  {
  }

  /** An event that rewrites one request, which neither was nor becomes a pulling receive. */
  lemma TouchQuiet(s: Mq, s': Mq, rid: nat)
    requires Touches(s, s', rid) && !Pullable(s'.reqs[rid])
    requires rid < |s.reqs| ==>
               !Pullable(s.reqs[rid]) && (s.reqs[rid].msg.Some? ==> s'.reqs[rid].msg == s.reqs[rid].msg)
    ensures PullsKept(s, s', -1)
  {
  }

  lemma ArriveQuiet(led: Ledger, a: Msg, newRid: nat)
    requires !a.kind.Rendezvous?
    ensures MsgsKept(led.msgs, DoArrive(led, a, newRid).msgs, -1)
  {
  }

  lemma EagerQuiet(s: Mq, tiny: bool, peer: nat, tag: Tag, data: seq<Byte>, k: nat)
    requires Linked(s) && Receivable(s) && k == FindExpected(s.reqs, s.expected, tag)
    requires k < |s.expected| ==> s.reqs[s.expected[k]].state.Posted? && s.reqs[s.expected[k]].msg.None?
    ensures var s' := DoEager(s, tiny, peer, tag, data); PullsKept(s, s', -1) && MsgsKept(s.led.msgs, s'.led.msgs, -1)
  {
  }

  lemma LongFirstQuiet(s: Mq, peer: nat, tag: Tag, data: seq<Byte>, n: nat, k: nat)
    requires Linked(s) && Receivable(s) && k == FindExpected(s.reqs, s.expected, tag) && n <= |data|
    requires k < |s.expected| ==> s.reqs[s.expected[k]].state.Posted? && s.reqs[s.expected[k]].msg.None?
    ensures var s' := DoLongFirst(s, peer, tag, data, n); PullsKept(s, s', -1) && MsgsKept(s.led.msgs, s'.led.msgs, -1)
  {
    ArriveQuiet(s.led, Arrival(Train, peer, tag, data, n), |s.reqs|);
    LongFirstTouches(s, peer, tag, data, n, k);
    TouchQuiet(s, DoLongFirst(s, peer, tag, data, n), if k < |s.expected| then s.expected[k] else |s.reqs|);
  }

  lemma LongFirstTouches(s: Mq, peer: nat, tag: Tag, data: seq<Byte>, n: nat, k: nat)
    requires Receivable(s) && k == FindExpected(s.reqs, s.expected, tag) && n <= |data|
    ensures var s', rid := DoLongFirst(s, peer, tag, data, n), if k < |s.expected| then s.expected[k] else |s.reqs|;
            && Touches(s, s', rid) && !Pullable(s'.reqs[rid])
            && s'.led == DoArrive(s.led, Arrival(Train, peer, tag, data, n), |s.reqs|)
  {
  }

  lemma LongNextQuiet(s: Mq, peer: nat, frag: seq<Byte>)
    requires Linked(s) && Represented(s) && EgrOk(s) && AllData(s) && OpenTrain(s.led.msgs, peer) < |s.led.msgs|
    ensures var m := OpenTrain(s.led.msgs, peer);
            var rid := s.led.msgs[m].rid;
            && Egr(s, peer) == [rid] && rid < |s.reqs| && CanCopy(s.reqs[rid]) && s.reqs[rid].peer == peer
            && var s' := DoLongNext(s, rid, m, frag);
            Step(s, LongNext(peer, frag)) == Some(s') && PullsKept(s, s', -1) && MsgsKept(s.led.msgs, s'.led.msgs, -1)
  {
    OpenRequest(s, peer);
    var m := OpenTrain(s.led.msgs, peer);
    var rid := s.led.msgs[m].rid;
    FragmentStep(s, peer, frag, m, rid);
    FragmentQuiet(s, rid, m, frag);
  }

  lemma MoreQuiet(led: Ledger, m: nat, n: nat)
    requires m < |led.msgs| && led.msgs[m].kind.Train?
    ensures MsgsKept(led.msgs, DoMore(led, m, n).msgs, -1)
  {
  }

  lemma FragmentQuiet(s: Mq, rid: nat, m: nat, frag: seq<Byte>)
    requires rid < |s.reqs| && CanCopy(s.reqs[rid]) && s.reqs[rid].egrLong && |Egr(s, s.reqs[rid].peer)| == 1
    requires m < |s.led.msgs| && s.led.msgs[m].kind.Train?
    ensures var s' := DoLongNext(s, rid, m, frag); PullsKept(s, s', -1) && MsgsKept(s.led.msgs, s'.led.msgs, -1)
  {
    NextShape(s, rid, m, frag);
    MoreQuiet(s.led, m, |frag|);
    TouchQuiet(s, DoLongNext(s, rid, m, frag), rid);
  }

  lemma CancelQuiet(s: Mq, rid: nat)
    requires Linked(s) && rid < |s.reqs| && s.reqs[rid].state.Posted?
    requires rid in s.expected && s.reqs[rid].post.Some? && s.reqs[rid].post.value < |s.led.posts|
    ensures var s' := DoCancelReq(s, rid); PullsKept(s, s', -1) && MsgsKept(s.led.msgs, s'.led.msgs, -1)
  {
  }

  lemma TestQuiet(s: Mq, rid: nat)
    requires rid < |s.reqs| && (s.reqs[rid].state.Complete? ==> rid in s.completed)
    ensures var s' := DoTest(s, rid); PullsKept(s, s', -1) && MsgsKept(s.led.msgs, s'.led.msgs, -1)
  {
  }

  lemma LocalQuiet(s: Mq, ev: Event)
    requires Inv(s) && Legal(s, ev) && IsLocal(ev) && !ev.Irecv? && Step(s, ev).Some?
    ensures PullsKept(s, Step(s, ev).value, -1) && MsgsKept(s.led.msgs, Step(s, ev).value.led.msgs, -1)
  {
    match ev
    case Cancel(rid) => if s.reqs[rid].state.Posted? { CancelQuiet(s, rid); }
    case Eager(tiny, peer, tag, data) =>
      Meets(s, tag);
      EagerQuiet(s, tiny, peer, tag, data, FindExpected(s.reqs, s.expected, tag));
    case LongFirst(peer, tag, data, n) =>
      Meets(s, tag);
      LongFirstQuiet(s, peer, tag, data, n, FindExpected(s.reqs, s.expected, tag));
    case LongNext(peer, frag) => LongNextQuiet(s, peer, frag);
    case Test(rid) => TestQuiet(s, rid);
  }

  // ---- acts ----------------------------------------------------------------------------------

  /** A receive e started pulling message x of send `sid`, which had been waiting for it. */
  lemma StartsPullNet(w: Net, mq: Mq, e: nat, x: nat)
    requires NetOk(w) && Linked(w.mq) && AllData(w.mq) && x < |w.mq.led.msgs| && w.mq.led.msgs[x].kind.Rendezvous?
    requires PullsKept(w.mq, mq, e) && MsgsKept(w.mq.led.msgs, mq.led.msgs, x) && e < |w.mq.reqs|
    requires Pulling(mq, e) && mq.reqs[e].msg == Some(x) && w.mq.reqs[e].msg == Some(x) && !Pullable(w.mq.reqs[e])
    requires w.mq.led.msgs[x].fate.Unmatched? && mq.led.msgs[x].fate.TakenBy?
    ensures NetOkBut(w.(mq := mq), e)
  {
    var w', sid := w.(mq := mq), w.sender[x];
    assert SendOk(w.sends[sid], sid, w.mq.led.msgs, w.announced, w.answers);
    assert NotAwaited(w, e);
    QuietTransfers(w, mq, e, x);
    StartsPullSends(w, mq, x);
  }

  lemma StartsPullSends(w: Net, mq: Mq, x: nat)
    requires Registry(w.sends, w.sender, w.mq.led.msgs) && SendsOk(w, -1) && x < |w.mq.led.msgs| && x in w.sender
    requires MsgsKept(w.mq.led.msgs, mq.led.msgs, x)
    ensures Registry(w.sends, w.sender, mq.led.msgs) && SendsOk(w.(mq := mq), w.sender[x])
  {
  }

  /** The receive takes a parked rendezvous message, and its sender is to be answered. */
  lemma IrecvOwes(w: Net, tag: Tag, sel: Tag, buf: seq<Byte>, k: nat, mq: Mq)
    requires NetInv(w) && Adoptable(w.mq) && mq == DoIrecv(w.mq, tag, sel, buf)
    requires k == FindUnexpected(w.mq.reqs, w.mq.unexpected, tag, sel) < |w.mq.unexpected|
    requires w.mq.reqs[w.mq.unexpected[k]].state.UnexpRv?
    ensures NetOkBut(w.(mq := mq), w.mq.unexpected[k])
  {
    FindsOldestMsg(w.mq, tag, sel);
    var rid := w.mq.unexpected[k];
    IrecvStartsPull(w.mq, tag, sel, buf, k);
    StartsPullNet(w, mq, rid, w.mq.reqs[rid].msg.value);
  }

  /** The receive finds nothing, or a message that has come without a rendezvous. */
  lemma IrecvKeepsNet(w: Net, tag: Tag, sel: Tag, buf: seq<Byte>, k: nat, mq: Mq)
    requires NetInv(w) && Adoptable(w.mq) && mq == DoIrecv(w.mq, tag, sel, buf) && Inv(mq)
    requires k == FindUnexpected(w.mq.reqs, w.mq.unexpected, tag, sel)
    requires k < |w.mq.unexpected| ==> !w.mq.reqs[w.mq.unexpected[k]].state.UnexpRv?
    ensures NetInv(w.(mq := mq))
  {
    FindsOldestMsg(w.mq, tag, sel);
    IrecvQuiet(w.mq, tag, sel, buf, k);
    QuietKeepsNet(w, mq);
  }

  lemma IrecvStep(w: Net, tag: Tag, sel: Tag, buf: seq<Byte>, k: nat)
    requires Adoptable(w.mq) && k == FindUnexpected(w.mq.reqs, w.mq.unexpected, tag, sel)
    ensures var w' := w.(mq := DoIrecv(w.mq, tag, sel, buf));
            DoLocal(w, Irecv(tag, sel, buf)) ==
            if k < |w.mq.unexpected| && w.mq.reqs[w.mq.unexpected[k]].state.UnexpRv?
            then Answering(w', w.mq.unexpected[k]) else Some(w')
  {
  }

  lemma IrecvKeeps(w: Net, tag: Tag, sel: Tag, buf: seq<Byte>)
    requires NetInv(w)
    ensures DoLocal(w, Irecv(tag, sel, buf)).Some? && NetInv(DoLocal(w, Irecv(tag, sel, buf)).value)
  {
    IrecvKeepsInv(w.mq, tag, sel, buf);
    var mq, k := DoIrecv(w.mq, tag, sel, buf), FindUnexpected(w.mq.reqs, w.mq.unexpected, tag, sel);
    IrecvStep(w, tag, sel, buf, k);
    if k < |w.mq.unexpected| && w.mq.reqs[w.mq.unexpected[k]].state.UnexpRv? {
      IrecvOwes(w, tag, sel, buf, k, mq);
      AnsweringKeeps(w.(mq := mq), w.mq.unexpected[k]);
    } else {
      IrecvKeepsNet(w, tag, sel, buf, k, mq);
    }
  }

  lemma LocalKeeps(w: Net, ev: Event)
    requires NetInv(w) && IsLocal(ev) && Legal(w.mq, ev)
    ensures DoLocal(w, ev).Some? && NetInv(DoLocal(w, ev).value)
  {
    if ev.Irecv? {
      IrecvKeeps(w, ev.tag, ev.sel, ev.buf);
    } else {
      StepKeepsInv(w.mq, ev);
      LocalQuiet(w.mq, ev);
      QuietKeepsNet(w, Step(w.mq, ev).value);
    }
  }

  lemma StartKeeps(w: Net, peer: nat, tag: Tag, data: seq<Byte>)
    requires NetOk(w)
    ensures NetOk(DoStart(w, peer, tag, data))
  {
    var w' := DoStart(w, peer, tag, data);
    forall s | 0 <= s < |w'.sends| ensures SendOk(w'.sends[s], s, w'.mq.led.msgs, w'.announced, w'.answers) {
      if s < |w.sends| { assert SendOk(w.sends[s], s, w.mq.led.msgs, w.announced, w.answers); }
    }
    SameTransfers(w, w', -1);
  }

  /** Transfers do not depend on sends beyond the message they name. */
  lemma SameTransfers(w: Net, w': Net, e: int)
    requires AnswersOk(w) && RepliesOk(w) && PullsOk(w, e)
    requires w'.mq == w.mq && w'.copy == w.copy && w'.sender == w.sender && w'.answers == w.answers
    requires w'.replies == w.replies
    requires |w.sends| <= |w'.sends| && forall s :: 0 <= s < |w.sends| ==> w'.sends[s].msg == w.sends[s].msg
    ensures AnswersOk(w') && RepliesOk(w') && PullsOk(w', e)
  {
  }

  lemma {:induction false} FragmentsTiled(data: seq<Byte>, off: nat, cuts: seq<nat>)
    requires off <= |data|
    ensures Tiled(Fragments(data, off, cuts), off, data)
    decreases |cuts|
  {
    if cuts != [] && off + cuts[0] < |data| {
      FragmentsTiled(data, off + cuts[0], cuts[1..]);
      var tail := Fragments(data, off + cuts[0], cuts[1..]);
      assert Fragments(data, off, cuts)[1..] == tail;
    }
  }

  function Acknowledged(w: Net, sid: nat): Net
    requires sid < |w.sends|
  {
    w.(answers := w.answers - {sid},
       sends := w.sends[sid := w.sends[sid].(completions := w.sends[sid].completions + 1)])
  }

  /** Once the answer arrived the send is complete. */
  lemma AcknowledgedSends(w: Net, sid: nat)
    requires Registry(w.sends, w.sender, w.mq.led.msgs) && SendsOk(w, -1) && sid in w.answers && sid < |w.sends|
    ensures var w' := Acknowledged(w, sid); Registry(w'.sends, w'.sender, w'.mq.led.msgs) && SendsOk(w', -1)
  {
  }

  /** Whoever else waited keeps waiting; the answered receive now waits for a reply, if for anything. */
  lemma AcknowledgedTransfers(w: Net, sid: nat)
    requires NetOk(w) && sid in w.answers && sid < |w.sends|
    ensures var w', e := Acknowledged(w, sid), w.answers[sid].rid;
            && AnswersOk(w') && RepliesOk(w') && PullsOk(w', e)
            && (w.answers[sid].len > 0 && !w.copy.KernelGet? ==> NotAwaited(w', e))
            && (w.answers[sid].len == 0 || w.copy.KernelGet? ==> PullsOk(w', -1))
  {
    var w', a := Acknowledged(w, sid), w.answers[sid];
    forall rid: nat | Pulling(w'.mq, rid) && (rid != a.rid || a.len == 0 || w.copy.KernelGet?) ensures Owed(w', rid) {
      assert Owed(w, rid);
    }
  }

  // ---- delivering an announcement ---------------------------------------------------------------

  /** The net after the RTS of `sid` became ledger message x of engine state mq. */
  function Registered(w: Net, mq: Mq, sid: nat, x: nat): Net
    requires sid < |w.sends|
  {
    w.(mq := mq, sends := w.sends[sid := w.sends[sid].(msg := Some(x))], sender := w.sender[x := sid],
       announced := w.announced - {sid})
  }

  lemma RegisteredTransfers(w: Net, mq: Mq, sid: nat, x: nat, e: int)
    requires sid < |w.sends| && sid !in w.answers && x !in w.sender
    requires AnswersOk(w.(mq := mq)) && RepliesOk(w.(mq := mq)) && PullsOk(w.(mq := mq), e)
    ensures var w' := Registered(w, mq, sid, x); AnswersOk(w') && RepliesOk(w') && PullsOk(w', e)
  {
  }

  lemma RegisteredSends(w: Net, mq: Mq, sid: nat)
    requires Registry(w.sends, w.sender, w.mq.led.msgs) && SendsOk(w, -1) && sid < |w.sends| && sid in w.announced
    requires var x := |w.mq.led.msgs|;
             && |mq.led.msgs| == x + 1 && MsgsKept(w.mq.led.msgs, mq.led.msgs, x)
             && mq.led.msgs[x].kind.Rendezvous? && Carries(mq.led.msgs[x], w.sends[sid])
    ensures var w' := Registered(w, mq, sid, |w.mq.led.msgs|);
            Registry(w'.sends, w'.sender, w'.mq.led.msgs) && SendsOk(w', sid)
    ensures sid !in w.answers && w.sends[sid].completions == 0
  {
    var x := |w.mq.led.msgs|;
    var w' := Registered(w, mq, sid, x);
    assert SendOk(w.sends[sid], sid, w.mq.led.msgs, w.announced, w.answers);
    forall s | 0 <= s < |w.sends| && s != sid ensures SendOk(w'.sends[s], s, w'.mq.led.msgs, w'.announced, w'.answers) {
      assert SendOk(w.sends[s], s, w.mq.led.msgs, w.announced, w.answers);
    }
  }

  lemma RtsShape(s: Mq, peer: nat, tag: Tag, data: seq<Byte>, k: nat)
    requires Linked(s) && AllData(s) && InRange(s, s.expected) && k == FindExpected(s.reqs, s.expected, tag)
    requires k < |s.expected| ==> s.reqs[s.expected[k]].state.Posted? && s.reqs[s.expected[k]].msg.None?
    requires FirstPost(s.led.posts, tag) == if k < |s.expected| then PostNo(s.reqs[s.expected[k]]) else |s.led.posts|
    ensures var s', x := DoRts(s, peer, tag, data), |s.led.msgs|;
            && |s'.led.msgs| == x + 1 && MsgsKept(s.led.msgs, s'.led.msgs, x)
            && s'.led.msgs[x].kind.Rendezvous? && s'.led.msgs[x].data == data
            && s'.led.msgs[x].peer == peer && s'.led.msgs[x].tag == tag
            && PullsKept(s, s', if k < |s.expected| then s.expected[k] else -1)
            && if k < |s.expected| then
                 Pulling(s', s.expected[k]) && s'.reqs[s.expected[k]].msg == Some(x) && s'.led.msgs[x].fate.TakenBy?
               else s'.led.msgs[x].fate.Unmatched?
  {
  }

  lemma RtsNet(w: Net, sid: nat, mq: Mq, k: nat)
    requires NetOk(w) && Linked(w.mq) && AllData(w.mq) && sid < |w.sends| && sid in w.announced
    requires InRange(w.mq, w.mq.expected)
    requires var s, x := w.mq, |w.mq.led.msgs|;
             && |mq.led.msgs| == x + 1 && MsgsKept(s.led.msgs, mq.led.msgs, x)
             && mq.led.msgs[x].kind.Rendezvous? && Carries(mq.led.msgs[x], w.sends[sid])
             && PullsKept(s, mq, if k < |s.expected| then s.expected[k] else -1)
             && if k < |s.expected| then
                  && s.reqs[s.expected[k]].state.Posted?
                  && Pulling(mq, s.expected[k]) && mq.reqs[s.expected[k]].msg == Some(x) && mq.led.msgs[x].fate.TakenBy?
                else mq.led.msgs[x].fate.Unmatched?
    ensures var w' := Registered(w, mq, sid, |w.mq.led.msgs|);
            if k < |w.mq.expected| then NetOkBut(w', w.mq.expected[k]) else NetOk(w')
  {
    var x := |w.mq.led.msgs|;
    var e: int := if k < |w.mq.expected| then w.mq.expected[k] else -1;
    var w' := Registered(w, mq, sid, x);
    RegisteredSends(w, mq, sid);
    assert e >= 0 ==> !Pulling(w.mq, e);
    assert NotAwaited(w, e);
    QuietTransfers(w, mq, e, x);
    RegisteredTransfers(w, mq, sid, x, e);
    if e < 0 {
      assert SendOk(w'.sends[sid], sid, w'.mq.led.msgs, w'.announced, w'.answers);
    }
  }

  lemma RtsMeets(s: Mq, peer: nat, tag: Tag, data: seq<Byte>, k: nat)
    requires Inv(s) && k == FindExpected(s.reqs, s.expected, tag)
    ensures var s', x := DoRts(s, peer, tag, data), |s.led.msgs|;
            && Inv(s') && |s'.led.msgs| == x + 1 && MsgsKept(s.led.msgs, s'.led.msgs, x)
            && s'.led.msgs[x].kind.Rendezvous? && s'.led.msgs[x].data == data
            && s'.led.msgs[x].peer == peer && s'.led.msgs[x].tag == tag
            && PullsKept(s, s', if k < |s.expected| then s.expected[k] else -1)
            && if k < |s.expected| then
                 && s.reqs[s.expected[k]].state.Posted?
                 && Pulling(s', s.expected[k]) && s'.reqs[s.expected[k]].msg == Some(x) && s'.led.msgs[x].fate.TakenBy?
               else s'.led.msgs[x].fate.Unmatched?
  {
    RtsKeepsInv(s, peer, tag, data);
    Meets(s, tag);
    RtsShape(s, peer, tag, data, k);
  }

  /** The engine takes an announcement; what is left is to answer it, if a receive matched. */
  lemma RtsReady(w: Net, sid: nat)
    requires NetInv(w) && sid < |w.sends| && sid in w.announced
    ensures InRange(w.mq, w.mq.expected)
    ensures var x := w.sends[sid];
            var k, mq := FindExpected(w.mq.reqs, w.mq.expected, x.tag), DoRts(w.mq, x.peer, x.tag, x.data);
            var w' := Registered(w, mq, sid, |w.mq.led.msgs|);
            Inv(mq) && if k < |w.mq.expected| then NetOkBut(w', w.mq.expected[k]) else NetOk(w')
  {
    var x := w.sends[sid];
    var k := FindExpected(w.mq.reqs, w.mq.expected, x.tag);
    RtsMeets(w.mq, x.peer, x.tag, x.data, k);
    RtsNet(w, sid, DoRts(w.mq, x.peer, x.tag, x.data), k);
  }

  lemma RtsThenAnswer(w: Net, sid: nat)
    requires InRange(w.mq, w.mq.expected) && sid < |w.sends|
    ensures var x := w.sends[sid];
            var k, mq := FindExpected(w.mq.reqs, w.mq.expected, x.tag), DoRts(w.mq, x.peer, x.tag, x.data);
            var w' := Registered(w, mq, sid, |w.mq.led.msgs|);
            DoDeliverRts(w, sid) == if k < |w.mq.expected| then Answering(w', w.mq.expected[k]) else Some(w')
  {
  }

  lemma RtsKeeps(w: Net, sid: nat)
    requires NetInv(w) && sid < |w.sends| && sid in w.announced
    ensures DoDeliverRts(w, sid).Some? && NetInv(DoDeliverRts(w, sid).value)
  {
    RtsReady(w, sid);
    RtsThenAnswer(w, sid);
    var x := w.sends[sid];
    var k, mq := FindExpected(w.mq.reqs, w.mq.expected, x.tag), DoRts(w.mq, x.peer, x.tag, x.data);
    if k < |w.mq.expected| { AnsweringKeeps(Registered(w, mq, sid, |w.mq.led.msgs|), w.mq.expected[k]); }
  }

  // ---- delivering an answer or a reply -------------------------------------------------------------

  lemma RepliedKeeps(w: Net, e: nat, ps: seq<Piece>)
    requires Pulling(w.mq, e) && AnswersOk(w) && RepliesOk(w) && PullsOk(w, e) && NotAwaited(w, e)
    requires TransferOk(w.mq.reqs[e], w.mq.led.msgs[w.mq.reqs[e].msg.value].data, ps)
    ensures var w' := w.(replies := w.replies[e := ps]); AnswersOk(w') && RepliesOk(w') && PullsOk(w', -1)
  {
  }

  /** The sender puts the bytes in place and owes only the notice. */
  lemma PutKeeps(w: Net, e: nat, data: seq<Byte>)
    requires Inv(w.mq) && Pulling(w.mq, e) && AnswersOk(w) && RepliesOk(w) && PullsOk(w, e) && NotAwaited(w, e)
    requires data == w.mq.led.msgs[w.mq.reqs[e].msg.value].data && w.mq.reqs[e].recvLen <= |data|
    ensures var len := w.mq.reqs[e].recvLen;
            && Issue(w.mq, RtsWrite(e, 0, data[..len])).Some?
            && var mq := Issue(w.mq, RtsWrite(e, 0, data[..len])).value;
            var w' := w.(mq := mq, replies := w.replies[e := [Piece(len, [], true)]]);
            Inv(mq) && mq.led == w.mq.led && AnswersOk(w') && RepliesOk(w') && PullsOk(w', -1)
  {
    var len := w.mq.reqs[e].recvLen;
    WriteLegal(w.mq, e, 0, data[..len]);
    WriteKeepsOthers(w, e, 0, data[..len]);
    var mq := Step(w.mq, RtsWrite(e, 0, data[..len])).value;
    RepliedKeeps(w.(mq := mq), e, [Piece(len, [], true)]);
  }

  lemma AnswerKeeps(w: Net, sid: nat, cuts: seq<nat>)
    requires NetInv(w) && sid in w.answers && sid < |w.sends|
    ensures DoDeliverAnswer(w, sid, cuts).Some? && NetInv(DoDeliverAnswer(w, sid, cuts).value)
  {
    var a, w' := w.answers[sid], Acknowledged(w, sid);
    AcknowledgedSends(w, sid);
    AcknowledgedTransfers(w, sid);
    if a.len > 0 && !w.copy.KernelGet? {
      AnsweredData(w, sid);
      var data := w.sends[sid].data;
      if w.copy.KernelPut? {
        PutKeeps(w', a.rid, data);
      } else {
        FragmentsTiled(data[..a.len], 0, cuts);
        RepliedKeeps(w', a.rid, Fragments(data[..a.len], 0, cuts));
      }
    }
  }

  lemma AnsweredData(w: Net, sid: nat)
    requires Linked(w.mq) && AllData(w.mq) && NetOk(w) && sid in w.answers && w.answers[sid].len > 0
    requires !w.copy.KernelGet?
    ensures var a := w.answers[sid];
            && a.rid < |w.mq.reqs| && Pulling(w.mq, a.rid) && a.len == w.mq.reqs[a.rid].recvLen && sid < |w.sends|
            && w.mq.led.msgs[w.mq.reqs[a.rid].msg.value].data == w.sends[sid].data && a.len <= |w.sends[sid].data|
            && w.mq.reqs[a.rid].buf.Mem? && a.len <= |w.mq.reqs[a.rid].buf.bytes|
  {
  }

  /** The fragments of one reply, taken off the net, leave the rest in order. */
  lemma DetachedKeeps(w: Net, rid: nat)
    requires NetOk(w) && rid in w.replies
    ensures OthersOk(w.(replies := w.replies - {rid}), rid)
  {
  }

  /** Writing one piece extends the prefix of the message that stands in the buffer. */
  lemma PieceLands(r: Req, data: seq<Byte>, ps: seq<Piece>)
    requires TransferOk(r, data, ps)
    ensures var p := ps[0];
            && p.off + |p.bytes| <= r.recvLen && p.bytes == data[p.off..p.off + |p.bytes|]
            && var r' := r.(buf := Mem(Overwrite(r.buf.bytes, p.off, p.bytes)));
            && r'.buf.bytes[..p.off + |p.bytes|] == data[..p.off + |p.bytes|]
            && (p.end ==> p.off + |p.bytes| == r.recvLen)
            && (!p.end ==> TransferOk(r', data, ps[1..]))
  {
    var p := ps[0];
    var n := p.off + |p.bytes|;
    var r' := r.(buf := Mem(Overwrite(r.buf.bytes, p.off, p.bytes)));
    assert p.bytes == data[..r.recvLen][p.off..n] == data[p.off..n];
    assert r'.buf.bytes[..n] == r.buf.bytes[..p.off] + p.bytes == data[..p.off] + data[p.off..n] == data[..n];
    if !p.end { assert Tiled(ps[1..], n, data[..r.recvLen]); }
  }

  lemma ReplyKeeps(w: Net, rid: nat)
    requires NetInv(w) && rid in w.replies && w.replies[rid] != []
    ensures DoDeliverReply(w, rid).Some? && NetInv(DoDeliverReply(w, rid).value)
  {
    DetachedKeeps(w, rid);
    PieceKeeps(w.(replies := w.replies - {rid}), rid, w.replies[rid]);
  }

  /** One piece stored: rid has the longer prefix. */
  lemma PieceStored(s: Mq, rid: nat, ps: seq<Piece>)
    requires Inv(s) && Pulling(s, rid) && TransferOk(s.reqs[rid], s.led.msgs[s.reqs[rid].msg.value].data, ps)
    ensures Issue(s, RtsWrite(rid, ps[0].off, ps[0].bytes)).Some?
    ensures ps[0].off + |ps[0].bytes| <= |s.reqs[rid].buf.bytes|
    ensures var mq := Issue(s, RtsWrite(rid, ps[0].off, ps[0].bytes)).value;
            && mq == Put(s, rid, s.reqs[rid].(buf := Mem(Overwrite(s.reqs[rid].buf.bytes, ps[0].off, ps[0].bytes))))
            && Inv(mq) && Pulling(mq, rid)
            && if ps[0].end then InPlace(mq, rid)
               else TransferOk(mq.reqs[rid], mq.led.msgs[mq.reqs[rid].msg.value].data, ps[1..])
  {
    PieceLands(s.reqs[rid], s.led.msgs[s.reqs[rid].msg.value].data, ps);
    WriteLegal(s, rid, ps[0].off, ps[0].bytes);
  }

  /** The rest of the net is as before. */
  lemma PieceAlone(w: Net, rid: nat, off: nat, piece: seq<Byte>)
    requires Linked(w.mq) && AllData(w.mq) && Pulling(w.mq, rid) && OthersOk(w, rid)
    requires w.mq.reqs[rid].buf.Mem? && off + |piece| <= |w.mq.reqs[rid].buf.bytes|
    ensures var r := w.mq.reqs[rid];
            OthersOk(w.(mq := Put(w.mq, rid, r.(buf := Mem(Overwrite(r.buf.bytes, off, piece))))), rid)
  {
    WriteKeepsOthers(w, rid, off, piece);
  }

  lemma PieceKeeps(w: Net, rid: nat, ps: seq<Piece>)
    requires Inv(w.mq) && Pulling(w.mq, rid) && OthersOk(w, rid)
    requires TransferOk(w.mq.reqs[rid], w.mq.led.msgs[w.mq.reqs[rid].msg.value].data, ps)
    ensures TakePiece(w, rid, ps).Some? && NetInv(TakePiece(w, rid, ps).value)
  {
    PieceStored(w.mq, rid, ps);
    PieceAlone(w, rid, ps[0].off, ps[0].bytes);
    var w' := w.(mq := Issue(w.mq, RtsWrite(rid, ps[0].off, ps[0].bytes)).value);
    if ps[0].end { FinishKeeps(w', rid); } else { RepliedKeeps(w', rid, ps[1..]); }
  }

  // ---- runs --------------------------------------------------------------------------------------

  lemma DoKeeps(w: Net, act: Act)
    requires NetInv(w) && Possible(w, act)
    ensures Do(w, act).Some? && NetInv(Do(w, act).value)
  {
    match act
    case Start(peer, tag, data) => StartKeeps(w, peer, tag, data);
    case DeliverRts(sid) => RtsKeeps(w, sid);
    case Local(ev) => LocalKeeps(w, ev);
    case DeliverAnswer(sid, cuts) => AnswerKeeps(w, sid, cuts);
    case DeliverReply(rid) => ReplyKeeps(w, rid);
  }

  predicate PossibleRun(w: Net, acts: seq<Act>)
    decreases |acts|
  {
    acts == [] ||
    (Possible(w, acts[0]) && match Do(w, acts[0])
                             case None => true
                             case Some(w') => PossibleRun(w', acts[1..]))
  }

  function RunNet(w: Net, acts: seq<Act>): Option<Net>
    requires PossibleRun(w, acts)
    decreases |acts|
  {
    if acts == [] then Some(w)
    else match Do(w, acts[0])
      case None => None
      case Some(w') => RunNet(w', acts[1..])
  }

  function Idle(copy: Copy): Net { Net(copy, INIT, [], map[], {}, map[], map[]) }

  lemma {:induction false} RunNetKeeps(w: Net, acts: seq<Act>)
    requires NetInv(w) && PossibleRun(w, acts)
    ensures RunNet(w, acts).Some? && NetInv(RunNet(w, acts).value)
    decreases |acts|
  {
    if acts != [] {
      DoKeeps(w, acts[0]);
      RunNetKeeps(Do(w, acts[0]).value, acts[1..]);
    }
  }

  ghost predicate ReachedNet(w: Net) {
    exists copy: Copy, acts: seq<Act> :: PossibleRun(Idle(copy), acts) && RunNet(Idle(copy), acts) == Some(w)
  }

  lemma IdleOk(copy: Copy)
    ensures NetOk(Idle(copy))
  {
  }

  lemma ReachedNetInv(w: Net)
    requires ReachedNet(w)
    ensures NetInv(w)
  {
    var copy: Copy, acts: seq<Act> :| PossibleRun(Idle(copy), acts) && RunNet(Idle(copy), acts) == Some(w);
    InitInv();
    IdleOk(copy);
    RunNetKeeps(Idle(copy), acts);
  }

  // ---- theorems ------------------------------------------------------------------------------------

  /** No possible act makes either process fail an assertion or touch memory it should not. */
  lemma NeverStuck(w: Net, act: Act)
    requires ReachedNet(w) && Possible(w, act)
    ensures Do(w, act).Some?
  {
    ReachedNetInv(w);
    DoKeeps(w, act);
  }

  /** A send completes at most once, and only after a receive took its message. */
  lemma SendCompletes(w: Net, sid: nat)
    requires ReachedNet(w) && sid < |w.sends|
    ensures var x := w.sends[sid];
            && x.completions <= 1
            && (x.completions == 1 ==>
                  && x.msg.Some? && x.msg.value < |w.mq.led.msgs|
                  && Carries(w.mq.led.msgs[x.msg.value], x) && w.mq.led.msgs[x.msg.value].fate.TakenBy?)
  {
    ReachedNetInv(w);
    assert SendOk(w.sends[sid], sid, w.mq.led.msgs, w.announced, w.answers);
  }

  /** A completed receive into `buf` holds the bytes of a message, and its status is that of the message. */
  predicate Reports(r: Req, tag: Tag, data: seq<Byte>, buf: seq<Byte>) {
    && r.buf == Mem(Delivered(data, buf)) && r.tag == tag && r.sendLen == |data| && r.recvLen == Min(|buf|, |data|)
    && (r.err == Truncation <==> |buf| < |data|)
  }

  /** The receive that took the message of a send: it completes at most once, and then with the message's bytes. */
  lemma ReceiveCompletes(w: Net, sid: nat)
    requires ReachedNet(w) && sid < |w.sends| && w.sends[sid].msg.Some?
    ensures NoDup(w.mq.done)
    ensures var x := w.sends[sid];
            && x.msg.value < |w.mq.led.msgs|
            && var m := w.mq.led.msgs[x.msg.value];
            && m.rid < |w.mq.reqs| && (m.rid in w.mq.done ==> m.fate.TakenBy?)
            && (InCompleted(w.mq.reqs[m.rid]) ==>
                  && m.fate.TakenBy? && m.fate.post < |w.mq.led.posts|
                  && Reports(w.mq.reqs[m.rid], x.tag, x.data, w.mq.led.posts[m.fate.post].buf))
  {
    ReachedNetInv(w);
    TakenData(w, w.sends[sid].msg.value);
  }

  lemma TakenData(w: Net, x: nat)
    requires NetInv(w) && x in w.sender
    ensures x < |w.mq.led.msgs| && w.sender[x] < |w.sends|
    ensures var m := w.mq.led.msgs[x];
            && Carries(m, w.sends[w.sender[x]]) && m.rid < |w.mq.reqs| && (m.rid in w.mq.done ==> m.fate.TakenBy?)
            && (InCompleted(w.mq.reqs[m.rid]) ==>
                  && m.fate.TakenBy? && m.fate.post < |w.mq.led.posts|
                  && Reports(w.mq.reqs[m.rid], m.tag, m.data, w.mq.led.posts[m.fate.post].buf))
  {
  }

  // ---- what was sent is what the callers gave --------------------------------------------------------

  datatype Call = Call(peer: nat, tag: Tag, data: seq<Byte>)

  function Texts(sends: seq<Sending>): seq<Call> {
    seq(|sends|, i requires 0 <= i < |sends| => Call(sends[i].peer, sends[i].tag, sends[i].data))
  }

  /** The sends that were started, in turn. */
  function Calls(acts: seq<Act>): seq<Call> {
    if acts == [] then []
    else (if acts[0].Start? then [Call(acts[0].peer, acts[0].tag, acts[0].data)] else []) + Calls(acts[1..])
  }

  ghost predicate SameTexts(sends: seq<Sending>, sends': seq<Sending>) {
    |sends'| == |sends| && forall i :: 0 <= i < |sends| ==>
      sends'[i].peer == sends[i].peer && sends'[i].tag == sends[i].tag && sends'[i].data == sends[i].data
  }

  lemma RtsKeepsTexts(w: Net, sid: nat)
    requires sid < |w.sends| && DoDeliverRts(w, sid).Some?
    ensures SameTexts(w.sends, DoDeliverRts(w, sid).value.sends)
  {
  }

  lemma LocalKeepsTexts(w: Net, ev: Event)
    requires DoLocal(w, ev).Some?
    ensures SameTexts(w.sends, DoLocal(w, ev).value.sends)
  {
  }

  lemma AnswerKeepsTexts(w: Net, sid: nat, cuts: seq<nat>)
    requires sid in w.answers && sid < |w.sends| && DoDeliverAnswer(w, sid, cuts).Some?
    ensures SameTexts(w.sends, DoDeliverAnswer(w, sid, cuts).value.sends)
  {
  }

  lemma ReplyKeepsTexts(w: Net, rid: nat)
    requires rid in w.replies && w.replies[rid] != [] && DoDeliverReply(w, rid).Some?
    ensures SameTexts(w.sends, DoDeliverReply(w, rid).value.sends)
  {
  }

  lemma DoKeepsTexts(w: Net, act: Act, w': Net)
    requires Possible(w, act) && Do(w, act) == Some(w')
    ensures Texts(w'.sends) == Texts(w.sends) + Calls([act])
  {
    assert [act][1..] == [];
    match act
    case Start(peer, tag, data) =>
    case DeliverRts(sid) => RtsKeepsTexts(w, sid);
    case Local(ev) => LocalKeepsTexts(w, ev);
    case DeliverAnswer(sid, cuts) => AnswerKeepsTexts(w, sid, cuts);
    case DeliverReply(rid) => ReplyKeepsTexts(w, rid);
  }

  lemma CallsFirst(acts: seq<Act>)
    requires acts != []
    ensures Calls(acts) == Calls([acts[0]]) + Calls(acts[1..])
  {
    assert [acts[0]][1..] == [];
  }

  lemma {:induction false} RunKeepsTexts(w: Net, acts: seq<Act>, w': Net)
    requires PossibleRun(w, acts) && RunNet(w, acts) == Some(w')
    ensures Texts(w'.sends) == Texts(w.sends) + Calls(acts)
    decreases |acts|
  {
    if acts != [] {
      var w1 := FirstAct(w, acts, w');
      DoKeepsTexts(w, acts[0], w1);
      RunKeepsTexts(w1, acts[1..], w');
      CallsFirst(acts);
      TextsJoin(Texts(w'.sends), Texts(w1.sends), Texts(w.sends), Calls([acts[0]]), Calls(acts[1..]), Calls(acts));
    }
  }

  lemma TextsJoin(t': seq<Call>, t1: seq<Call>, t: seq<Call>, a: seq<Call>, b: seq<Call>, c: seq<Call>)
    requires t' == t1 + b && t1 == t + a && c == a + b
    ensures t' == t + c
  {
  }

  lemma FirstAct(w: Net, acts: seq<Act>, w': Net) returns (w1: Net)
    requires acts != [] && PossibleRun(w, acts) && RunNet(w, acts) == Some(w')
    ensures Possible(w, acts[0]) && Do(w, acts[0]) == Some(w1)
    ensures PossibleRun(w1, acts[1..]) && RunNet(w1, acts[1..]) == Some(w')
  {
    w1 := Do(w, acts[0]).value;
  }

  lemma CallsKept(w0: Net, acts: seq<Act>, w: Net)
    requires PossibleRun(w0, acts) && RunNet(w0, acts) == Some(w) && w0.sends == []
    ensures |w.sends| == |Calls(acts)|
    ensures forall i :: 0 <= i < |w.sends| ==> Call(w.sends[i].peer, w.sends[i].tag, w.sends[i].data) == Calls(acts)[i]
  {
    RunKeepsTexts(w0, acts, w);
    assert Texts(w.sends) == Calls(acts);
    forall i | 0 <= i < |w.sends|
      ensures |w.sends| == |Calls(acts)| && Call(w.sends[i].peer, w.sends[i].tag, w.sends[i].data) == Calls(acts)[i]
    {
      TextAt(w.sends, Calls(acts), i);
    }
  }

  lemma TextAt(sends: seq<Sending>, calls: seq<Call>, i: nat)
    requires Texts(sends) == calls && i < |sends|
    ensures |calls| == |sends| && Call(sends[i].peer, sends[i].tag, sends[i].data) == calls[i]
  {
    assert Texts(sends)[i] == calls[i];
  }

  /**
   After every run, send i has the peer, tag and bytes of the i-th call, and once its
   announcement was delivered so has its message in the receiver's ledger.
   */
  lemma CallsAnnounced(copy: Copy, acts: seq<Act>, w: Net)
    requires PossibleRun(Idle(copy), acts) && RunNet(Idle(copy), acts) == Some(w)
    ensures |w.sends| == |Calls(acts)|
    ensures forall i :: 0 <= i < |w.sends| ==> Call(w.sends[i].peer, w.sends[i].tag, w.sends[i].data) == Calls(acts)[i]
    ensures forall i :: 0 <= i < |w.sends| && w.sends[i].msg.Some? ==>
              w.sends[i].msg.value < |w.mq.led.msgs| && Carries(w.mq.led.msgs[w.sends[i].msg.value], w.sends[i])
  {
    CallsKept(Idle(copy), acts, w);
    assert ReachedNet(w);
    MessagesCarry(w);
  }

  lemma MessagesCarry(w: Net)
    requires ReachedNet(w)
    ensures forall i :: 0 <= i < |w.sends| && w.sends[i].msg.Some? ==>
              w.sends[i].msg.value < |w.mq.led.msgs| && Carries(w.mq.led.msgs[w.sends[i].msg.value], w.sends[i])
  {
    ReachedNetInv(w);
  }

  predicate Quiet(w: Net) { w.announced == {} && w.answers == map[] && w.replies == map[] }

  /** With nothing under way, sends and receives agree: matched means both completed, unmatched means neither. */
  lemma Quiescence(w: Net, sid: nat)
    requires ReachedNet(w) && Quiet(w) && sid < |w.sends|
    ensures var x := w.sends[sid];
            && x.msg.Some? && x.msg.value < |w.mq.led.msgs|
            && var m := w.mq.led.msgs[x.msg.value];
            && (x.completions == 1 <==> m.fate.TakenBy?) && (x.completions == 0 <==> m.fate.Unmatched?)
            && (m.rid in w.mq.done <==> m.fate.TakenBy?)
  {
    ReachedNetInv(w);
    assert SendOk(w.sends[sid], sid, w.mq.led.msgs, w.announced, w.answers);
    QuietReceive(w, w.sends[sid].msg.value);
  }

  lemma QuietReceive(w: Net, x: nat)
    requires NetInv(w) && Quiet(w) && x in w.sender
    ensures x < |w.mq.led.msgs| && (w.mq.led.msgs[x].rid in w.mq.done <==> w.mq.led.msgs[x].fate.TakenBy?)
  {
    var rid := w.mq.led.msgs[x].rid;
    assert LinkOk(w.mq.reqs[rid], rid, w.mq.led) && DataOk(w.mq.reqs[rid], rid, w.mq.led);
    assert Pulling(w.mq, rid) ==> Owed(w, rid);
  }

  // ---- every run can be brought to rest ---------------------------------------------------------------

  lemma RtsFrame(w: Net, sid: nat)
    requires sid < |w.sends| && DoDeliverRts(w, sid).Some?
    ensures DoDeliverRts(w, sid).value.announced == w.announced - {sid}
  {
  }

  lemma AnswerFrame(w: Net, sid: nat, cuts: seq<nat>)
    requires sid in w.answers && sid < |w.sends| && DoDeliverAnswer(w, sid, cuts).Some?
    ensures var w' := DoDeliverAnswer(w, sid, cuts).value;
            w'.announced == w.announced && w'.answers == w.answers - {sid}
  {
  }

  lemma ReplyFrame(w: Net, rid: nat)
    requires rid in w.replies && w.replies[rid] != [] && DoDeliverReply(w, rid).Some?
    ensures var w' := DoDeliverReply(w, rid).value;
            && w'.announced == w.announced && w'.answers == w.answers
            && if w.replies[rid][0].end then w'.replies == w.replies - {rid}
               else w'.replies.Keys == w.replies.Keys && w'.replies[rid] == w.replies[rid][1..]
  {
  }

  /** Some act brings the net closer to rest. */
  ghost predicate Closer(w: Net, w': Net, focus: nat) {
    || w'.announced < w.announced
    || (w'.announced == w.announced && w'.answers.Keys < w.answers.Keys)
    || (&& w'.announced == w.announced && w'.answers == w.answers && focus in w.replies
        && (w'.replies.Keys < w.replies.Keys
            || (w'.replies.Keys == w.replies.Keys && |w'.replies[focus]| < |w.replies[focus]|)))
  }

  predicate Delivery(act: Act) { act.DeliverRts? || act.DeliverAnswer? || act.DeliverReply? }

  lemma RtsCloser(w: Net, sid: nat, w': Net, focus: nat)
    requires sid < |w.sends| && sid in w.announced && DoDeliverRts(w, sid) == Some(w')
    ensures Closer(w, w', focus)
  {
    RtsFrame(w, sid);
  }

  lemma AnswerCloser(w: Net, sid: nat, w': Net, focus: nat)
    requires sid in w.answers && sid < |w.sends| && DoDeliverAnswer(w, sid, []) == Some(w')
    ensures Closer(w, w', focus)
  {
    AnswerFrame(w, sid, []);
  }

  lemma ReplyCloser(w: Net, rid: nat, w': Net)
    requires rid in w.replies && w.replies[rid] != [] && DoDeliverReply(w, rid) == Some(w')
    ensures Closer(w, w', rid)
  {
    ReplyFrame(w, rid);
  }

  lemma NextDelivery(w: Net, focus: nat) returns (act: Act, w': Net)
    requires NetInv(w) && !Quiet(w) && (w.replies == map[] || focus in w.replies)
    ensures Possible(w, act) && Delivery(act) && Do(w, act) == Some(w') && NetInv(w') && Closer(w, w', focus)
  {
    if w.announced != {} {
      var sid :| sid in w.announced;
      RtsKeeps(w, sid);
      act, w' := DeliverRts(sid), DoDeliverRts(w, sid).value;
      RtsCloser(w, sid, w', focus);
    } else if w.answers != map[] {
      var sid :| sid in w.answers;
      AnswerKeeps(w, sid, []);
      act, w' := DeliverAnswer(sid, []), DoDeliverAnswer(w, sid, []).value;
      AnswerCloser(w, sid, w', focus);
    } else {
      ReplyKeeps(w, focus);
      act, w' := DeliverReply(focus), DoDeliverReply(w, focus).value;
      ReplyCloser(w, focus, w');
    }
  }

  lemma PickFocus(w: Net, focus: nat) returns (next: nat)
    ensures w.replies == map[] || next in w.replies
    ensures focus in w.replies ==> next == focus
  {
    next := focus;
    if w.replies != map[] && focus !in w.replies { next :| next in w.replies; }
  }

  /** The deliveries `acts` lead from w to rest. */
  ghost predicate LeadsToRest(w: Net, acts: seq<Act>) {
    && (forall i :: 0 <= i < |acts| ==> Delivery(acts[i]))
    && PossibleRun(w, acts) && RunNet(w, acts).Some? && Quiet(RunNet(w, acts).value)
  }

  ghost predicate Settling(w: Net) { exists acts: seq<Act> :: LeadsToRest(w, acts) }

  lemma QuietSettling(w: Net)
    requires Quiet(w)
    ensures Settling(w)
  {
    assert LeadsToRest(w, []);
  }

  lemma ThenRun(w: Net, act: Act, w': Net, rest: seq<Act>)
    requires Possible(w, act) && Do(w, act) == Some(w') && PossibleRun(w', rest)
    ensures PossibleRun(w, [act] + rest) && RunNet(w, [act] + rest) == RunNet(w', rest)
  {
    assert ([act] + rest)[1..] == rest;
  }

  lemma ThenLeads(w: Net, act: Act, w': Net, rest: seq<Act>)
    requires Possible(w, act) && Delivery(act) && Do(w, act) == Some(w') && LeadsToRest(w', rest)
    ensures LeadsToRest(w, [act] + rest)
  {
    ThenRun(w, act, w', rest);
  }

  lemma ThenSettling(w: Net, act: Act, w': Net)
    requires Possible(w, act) && Delivery(act) && Do(w, act) == Some(w') && Settling(w')
    ensures Settling(w)
  {
    var rest: seq<Act> :| LeadsToRest(w', rest);
    ThenLeads(w, act, w', rest);
  }

  lemma {:induction false} InvSettling(w: Net, focus: nat)
    requires NetInv(w) && (w.replies == map[] || focus in w.replies)
    ensures Settling(w)
    decreases w.announced, w.answers.Keys, w.replies.Keys, if focus in w.replies then |w.replies[focus]| else 0
  {
    if Quiet(w) {
      QuietSettling(w);
    } else {
      var act, w' := NextDelivery(w, focus);
      var next := PickFocus(w', focus);
      InvSettling(w', next);
      ThenSettling(w, act, w');
    }
  }

  /** From every reached state deliveries alone bring the net to rest: no send or receive is stranded. */
  lemma Settles(w: Net)
    requires ReachedNet(w)
    ensures Settling(w)
  {
    ReachedNetInv(w);
    var focus := PickFocus(w, 0);
    InvSettling(w, focus);
  }

  // ---- the engine inside the net makes legal runs only -------------------------------------------------

  lemma IssueReached(mq: Mq, ev: Event)
    requires Reached(mq) && Issue(mq, ev).Some?
    ensures Reached(Issue(mq, ev).value)
  {
    ReachedOn(mq, ev);
  }

  lemma AnsweredReached(w: Net, rid: nat, data: seq<Byte>)
    requires Reached(w.mq) && rid < |w.mq.reqs| && w.mq.reqs[rid].recvLen <= |data| && Answered(w, rid, data).Some?
    ensures Reached(Answered(w, rid, data).value.mq)
  {
    var len := w.mq.reqs[rid].recvLen;
    if w.copy.KernelGet? && len > 0 {
      IssueReached(w.mq, RtsWrite(rid, 0, data[..len]));
      IssueReached(Issue(w.mq, RtsWrite(rid, 0, data[..len])).value, RtsDone(rid));
    } else if len == 0 {
      IssueReached(w.mq, RtsDone(rid));
    }
  }

  lemma AnsweringReached(w: Net, rid: nat)
    requires Reached(w.mq) && Answering(w, rid).Some?
    ensures Reached(Answering(w, rid).value.mq)
  {
    var sid, len := w.sender[w.mq.reqs[rid].msg.value], w.mq.reqs[rid].recvLen;
    AnsweredReached(w.(answers := w.answers[sid := Answer(rid, len)]), rid, w.sends[sid].data);
  }

  lemma RtsReached(w: Net, sid: nat)
    requires Reached(w.mq) && sid < |w.sends| && DoDeliverRts(w, sid).Some?
    ensures Reached(DoDeliverRts(w, sid).value.mq)
  {
    var x := w.sends[sid];
    IssueReached(w.mq, Rts(x.peer, x.tag, x.data));
    var w' := Registered(w, Issue(w.mq, Rts(x.peer, x.tag, x.data)).value, sid, |w.mq.led.msgs|);
    var k := FindExpected(w.mq.reqs, w.mq.expected, x.tag);
    if k < |w.mq.expected| { AnsweringReached(w', w.mq.expected[k]); }
  }

  lemma LocalReached(w: Net, ev: Event)
    requires Reached(w.mq) && DoLocal(w, ev).Some?
    ensures Reached(DoLocal(w, ev).value.mq)
  {
    IssueReached(w.mq, ev);
    if ev.Irecv? {
      var k := FindUnexpected(w.mq.reqs, w.mq.unexpected, ev.tag, ev.sel);
      if k < |w.mq.unexpected| && w.mq.reqs[w.mq.unexpected[k]].state.UnexpRv? {
        AnsweringReached(w.(mq := Issue(w.mq, ev).value), w.mq.unexpected[k]);
      }
    }
  }

  lemma ReplyReached(w: Net, rid: nat)
    requires Reached(w.mq) && rid in w.replies && w.replies[rid] != [] && DoDeliverReply(w, rid).Some?
    ensures Reached(DoDeliverReply(w, rid).value.mq)
  {
    var p := w.replies[rid][0];
    IssueReached(w.mq, RtsWrite(rid, p.off, p.bytes));
    if p.end { IssueReached(Issue(w.mq, RtsWrite(rid, p.off, p.bytes)).value, RtsDone(rid)); }
  }

  lemma ActReached(w: Net, act: Act)
    requires Reached(w.mq) && Possible(w, act) && Do(w, act).Some?
    ensures Reached(Do(w, act).value.mq)
  {
    match act
    case Start(_, _, _) =>
    case DeliverRts(sid) => RtsReached(w, sid);
    case Local(ev) => LocalReached(w, ev);
    case DeliverAnswer(sid, cuts) =>
      var a, x := w.answers[sid], w.sends[sid];
      if a.len > 0 && w.copy.KernelPut? { IssueReached(w.mq, RtsWrite(a.rid, 0, x.data[..a.len])); }
    case DeliverReply(rid) => ReplyReached(w, rid);
  }

  lemma {:induction false} RunReached(w: Net, acts: seq<Act>)
    requires Reached(w.mq) && PossibleRun(w, acts) && RunNet(w, acts).Some?
    ensures Reached(RunNet(w, acts).value.mq)
    decreases |acts|
  {
    if acts != [] {
      ActReached(w, acts[0]);
      RunReached(Do(w, acts[0]).value, acts[1..]);
    }
  }

  /** Rendezvous messages are matched in the same order as all others: no run of the net overtakes. */
  lemma NetNonOvertaking(w: Net)
    requires ReachedNet(w)
    ensures Reached(w.mq) && MsgsNotOvertaken(w.mq.led) && PostsNotOvertaken(w.mq.led)
  {
    var copy: Copy, acts: seq<Act> :| PossibleRun(Idle(copy), acts) && RunNet(Idle(copy), acts) == Some(w);
    assert LegalRun(INIT, []) && Run(INIT, []) == Some(INIT);
    RunReached(Idle(copy), acts);
    NonOvertaking(w.mq);
  }
}
