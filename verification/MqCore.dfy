/**
 The matching half of the Matched Queue invariant: where requests sit, which
 ledger entries they stand for, and in what order the queues list them.
 */
module MqCore {
  import opened Basics
  import opened MatchLedger
  import opened MqModel

  /** Walking the expected queue finds the same receive as the reference search. */
  lemma FindsOldestPost(s: Mq, tag: Tag)
    requires Lists(s.expected, s.reqs, InExpected) && Rising(s.expected, s.reqs, PostNo)
    requires Linked(s) && Represented(s)
    ensures var k := FindExpected(s.reqs, s.expected, tag);
            FirstPost(s.led.posts, tag) == if k < |s.expected| then PostNo(s.reqs[s.expected[k]]) else |s.led.posts|
  {
  }

  /** Walking the unexpected queue finds the same message as the reference search. */
  lemma FindsOldestMsg(s: Mq, tag: Tag, sel: Tag)
    requires Lists(s.unexpected, s.reqs, InUnexpected) && Rising(s.unexpected, s.reqs, MsgNo)
    requires Linked(s) && Represented(s) && Paired(s.led)
    ensures var k := FindUnexpected(s.reqs, s.unexpected, tag, sel);
            FirstMsg(s.led.msgs, tag, sel) ==
            if k < |s.unexpected| then MsgNo(s.reqs[s.unexpected[k]]) else |s.led.msgs|
  {
    var k, f := FindUnexpected(s.reqs, s.unexpected, tag, sel), FirstMsg(s.led.msgs, tag, sel);
    if k < |s.unexpected| { ParkedSuits(s, tag, sel, k); }
    if f < |s.led.msgs| {
      var i := SuitsParked(s, tag, sel, f);
      assert k <= i;
    }
  }

  /** A parked request that the search accepts stands for a message that suits. */
  lemma ParkedSuits(s: Mq, tag: Tag, sel: Tag, k: nat)
    requires Lists(s.unexpected, s.reqs, InUnexpected) && Linked(s)
    requires k < |s.unexpected| && Accepts(s.reqs[s.unexpected[k]].tag, tag, sel)
    ensures var r := s.reqs[s.unexpected[k]];
            r.msg.Some? && r.msg.value < |s.led.msgs| && MsgSuits(s.led.msgs[r.msg.value], tag, sel)
  {
    var rid := s.unexpected[k];
    assert InUnexpected(s.reqs[rid]) && LinkOk(s.reqs[rid], rid, s.led);
  }

  /** A message that suits is parked, and the search accepts its request. */
  lemma SuitsParked(s: Mq, tag: Tag, sel: Tag, m: nat) returns (i: nat)
    requires Lists(s.unexpected, s.reqs, InUnexpected) && Linked(s) && Represented(s) && Paired(s.led)
    requires m < |s.led.msgs| && MsgSuits(s.led.msgs[m], tag, sel)
    ensures i < |s.unexpected| && s.reqs[s.unexpected[i]].msg == Some(m)
    ensures Accepts(s.reqs[s.unexpected[i]].tag, tag, sel)
  {
    UnmatchedParked(s, m);
    i :| 0 <= i < |s.unexpected| && s.unexpected[i] == s.led.msgs[m].rid;
  }

  /** A message nobody took has its request in the unexpected queue. */
  lemma UnmatchedParked(s: Mq, m: nat)
    requires Linked(s) && Represented(s) && Paired(s.led) && m < |s.led.msgs| && s.led.msgs[m].fate.Unmatched?
    ensures var rid := s.led.msgs[m].rid;
            && rid < |s.reqs| && s.reqs[rid].msg == Some(m)
            && InUnexpected(s.reqs[rid]) && s.reqs[rid].tag == s.led.msgs[m].tag
  {
    var rid := s.led.msgs[m].rid;
    assert LinkOk(s.reqs[rid], rid, s.led);
  }

  // ---- what queue edits keep ---------------------------------------------

  lemma ListsRemove(q: seq<nat>, reqs: seq<Req>, want: Req -> bool, k: nat, r: Req)
    requires Lists(q, reqs, want) && k < |q| && !want(r)
    ensures Lists(Without(q, k), reqs[q[k] := r], want)
  {
  }

  lemma ListsUpdate(q: seq<nat>, reqs: seq<Req>, want: Req -> bool, rid: nat, r: Req)
    requires Lists(q, reqs, want) && rid < |reqs| && want(r) == want(reqs[rid])
    ensures Lists(q, reqs[rid := r], want)
  {
  }

  lemma ListsAdd(q: seq<nat>, reqs: seq<Req>, want: Req -> bool, rid: nat, r: Req)
    requires Lists(q, reqs, want) && rid < |reqs| && want(r) && !want(reqs[rid])
    ensures Lists(q + [rid], reqs[rid := r], want)
  {
  }

  lemma ListsGrow(q: seq<nat>, reqs: seq<Req>, want: Req -> bool, r: Req)
    requires Lists(q, reqs, want)
    ensures Lists(if want(r) then q + [|reqs|] else q, reqs + [r], want)
  {
  }

  lemma RisingRemove(q: seq<nat>, reqs: seq<Req>, key: Req -> int, k: nat, r: Req)
    requires k < |q| && NoDup(q) && (forall i :: 0 <= i < |q| ==> q[i] < |reqs|) && Rising(q, reqs, key)
    ensures forall x :: x in Without(q, k) ==> x < |reqs|
    ensures Rising(Without(q, k), reqs[q[k] := r], key)
  {
  }

  lemma RisingUpdate(q: seq<nat>, reqs: seq<Req>, key: Req -> int, rid: nat, r: Req)
    requires (forall i :: 0 <= i < |q| ==> q[i] < |reqs|) && Rising(q, reqs, key)
    requires rid < |reqs| && key(r) == key(reqs[rid])
    ensures Rising(q, reqs[rid := r], key)
  {
  }

  lemma LinkFrame(r: Req, i: nat, led: Ledger, led': Ledger)
    requires LinkOk(r, i, led) && |led.posts| <= |led'.posts| && |led.msgs| <= |led'.msgs|
    requires r.post.Some? ==> led'.posts[r.post.value] == led.posts[r.post.value]
    requires r.msg.Some? ==> led'.msgs[r.msg.value] == led.msgs[r.msg.value]
    ensures LinkOk(r, i, led')
  {
  }

  // ---- matching an arriving message ------------------------------------------

  lemma ClaimKeepsLocated(s: Mq, k: nat, a: Msg)
    requires Located(s) && k < |s.expected| && s.reqs[s.expected[k]].post.Some?
    ensures Located(Claim(s, k, a))
  {
    var rid, r := s.expected[k], Claim(s, k, a).reqs[s.expected[k]];
    ListsRemove(s.expected, s.reqs, InExpected, k, r);
    ListsUpdate(s.unexpected, s.reqs, InUnexpected, rid, r);
    ListsUpdate(s.completed, s.reqs, InCompleted, rid, r);
    ListsUpdate(s.done, s.reqs, Finished, rid, r);
  }

  lemma ClaimKeepsLinked(s: Mq, k: nat, a: Msg)
    requires Linked(s) && Represented(s) && InRange(s, s.expected) && k < |s.expected|
    requires s.reqs[s.expected[k]].state.Posted? && FirstPost(s.led.posts, a.tag) == PostNo(s.reqs[s.expected[k]])
    ensures Linked(Claim(s, k, a)) && Represented(Claim(s, k, a))
  {
    var s', rid := Claim(s, k, a), s.expected[k];
    assert LinkOk(s.reqs[rid], rid, s.led);
    assert LinkOk(s'.reqs[rid], rid, s'.led);
    ClaimFrame(s, s', rid, a);
  }

  lemma ClaimFrame(s: Mq, s': Mq, rid: nat, a: Msg)
    requires Linked(s) && Represented(s) && rid < |s.reqs| && s.reqs[rid].state.Posted?
    requires FirstPost(s.led.posts, a.tag) == PostNo(s.reqs[rid]) && s'.led == DoArrive(s.led, a, |s.reqs|)
    requires |s'.reqs| == |s.reqs| && s'.reqs == s.reqs[rid := s'.reqs[rid]] && LinkOk(s'.reqs[rid], rid, s'.led)
    requires s'.reqs[rid].post == s.reqs[rid].post && s'.reqs[rid].msg == Some(|s.led.msgs|)
    ensures Linked(s') && Represented(s')
  {
    assert LinkOk(s.reqs[rid], rid, s.led);
    forall i | 0 <= i < |s.reqs| && i != rid ensures LinkOk(s'.reqs[i], i, s'.led) {
      LinkFrame(s.reqs[i], i, s.led, s'.led);
    }
  }

  lemma ClaimKeepsCore(s: Mq, k: nat, a: Msg)
    requires Core(s) && k == FindExpected(s.reqs, s.expected, a.tag) < |s.expected|
    ensures Core(Claim(s, k, a))
  {
    FindsOldestPost(s, a.tag);
    var rid, s' := s.expected[k], Claim(s, k, a);
    assert LinkOk(s.reqs[rid], rid, s.led);
    ClaimKeepsLocated(s, k, a);
    ClaimKeepsLinked(s, k, a);
    RisingRemove(s.expected, s.reqs, PostNo, k, s'.reqs[rid]);
    assert rid !in s.unexpected;
    assert Rising(s'.unexpected, s'.reqs, MsgNo);
  }

  lemma ParkKeepsLinked(s: Mq, r: Req, a: Msg)
    requires Linked(s) && Represented(s) && FirstPost(s.led.posts, a.tag) == |s.led.posts|
    requires InUnexpected(r) && r.post.None? && r.tag == a.tag
    ensures Linked(Park(s, r, a)) && Represented(Park(s, r, a))
  {
  }

  lemma ParkKeepsLocated(s: Mq, r: Req, a: Msg)
    requires Located(s) && InUnexpected(r) && r.post.None?
    ensures Located(Park(s, r, a))
  {
    var r' := Park(s, r, a).reqs[|s.reqs|];
    ListsGrow(s.expected, s.reqs, InExpected, r');
    ListsGrow(s.unexpected, s.reqs, InUnexpected, r');
    ListsGrow(s.completed, s.reqs, InCompleted, r');
    ListsGrow(s.done, s.reqs, Finished, r');
  }

  lemma ParkKeepsOrder(s: Mq, r: Req, a: Msg)
    requires InRange(s, s.expected) && InRange(s, s.unexpected) && InOrder(s) && Linked(s)
    ensures InOrder(Park(s, r, a))
  {
  }

  lemma ParkKeepsCore(s: Mq, r: Req, a: Msg)
    requires Core(s) && FindExpected(s.reqs, s.expected, a.tag) == |s.expected|
    requires InUnexpected(r) && r.post.None? && r.tag == a.tag
    ensures Core(Park(s, r, a))
  {
    FindsOldestPost(s, a.tag);
    ParkKeepsLinked(s, r, a);
    ParkKeepsLocated(s, r, a);
    ParkKeepsOrder(s, r, a);
  }

  // ---- progress of one request ----------------------------------------------

  predicate SameLinks(r: Req, r': Req) {
    r'.post == r.post && r'.msg == r.msg && r'.tag == r.tag && r'.sel == r.sel
  }

  lemma PutKeepsCore(s: Mq, rid: nat, r: Req)
    requires Core(s) && rid < |s.reqs| && SameLinks(s.reqs[rid], r)
    requires r.state == s.reqs[rid].state || (s.reqs[rid].state.Unexp? && r.state.Complete?)
    ensures Core(Put(s, rid, r))
  {
    assert LinkOk(s.reqs[rid], rid, s.led);
    ListsUpdate(s.expected, s.reqs, InExpected, rid, r);
    ListsUpdate(s.unexpected, s.reqs, InUnexpected, rid, r);
    ListsUpdate(s.completed, s.reqs, InCompleted, rid, r);
    ListsUpdate(s.done, s.reqs, Finished, rid, r);
    RisingUpdate(s.expected, s.reqs, PostNo, rid, r);
    RisingUpdate(s.unexpected, s.reqs, MsgNo, rid, r);
  }

  lemma FinishKeepsCore(s: Mq, rid: nat, r: Req)
    requires Core(s) && rid < |s.reqs| && SameLinks(s.reqs[rid], r) && s.reqs[rid].state.Matched?
    ensures Core(Finish(s, rid, r))
  {
    assert LinkOk(s.reqs[rid], rid, s.led);
    var r' := r.(state := Complete);
    ListsUpdate(s.expected, s.reqs, InExpected, rid, r');
    ListsUpdate(s.unexpected, s.reqs, InUnexpected, rid, r');
    ListsAdd(s.completed, s.reqs, InCompleted, rid, r');
    ListsAdd(s.done, s.reqs, Finished, rid, r');
    RisingUpdate(s.expected, s.reqs, PostNo, rid, r');
    RisingUpdate(s.unexpected, s.reqs, MsgNo, rid, r');
  }

  lemma TestKeepsCore(s: Mq, rid: nat)
    requires Core(s) && rid < |s.reqs| && s.reqs[rid].state.Complete? && s.reqs[rid].post.Some?
    ensures Core(DoTest(s, rid))
  {
    assert LinkOk(s.reqs[rid], rid, s.led);
    var r' := s.reqs[rid].(state := Freed, buf := Null);
    ListsUpdate(s.expected, s.reqs, InExpected, rid, r');
    ListsUpdate(s.unexpected, s.reqs, InUnexpected, rid, r');
    ListsRemove(s.completed, s.reqs, InCompleted, IndexOf(s.completed, rid), r');
    ListsUpdate(s.done, s.reqs, Finished, rid, r');
    RisingUpdate(s.expected, s.reqs, PostNo, rid, r');
    RisingUpdate(s.unexpected, s.reqs, MsgNo, rid, r');
  }

  lemma EnlistKeepsCore(s: Mq, rid: nat)
    requires Core(s) && rid < |s.reqs|
    ensures Core(Enlist(s, rid))
  {
    PutKeepsCore(s, rid, Enlist(s, rid).reqs[rid]);
  }

  lemma DataKeepsCore(s: Mq, rid: nat, frag: seq<Byte>)
    requires Core(s) && rid < |s.reqs| && CanCopy(s.reqs[rid])
    requires s.reqs[rid].state.Matched? || s.reqs[rid].state.Unexp?
    requires s.reqs[rid].egrLong ==> |Egr(s, s.reqs[rid].peer)| > 0
    ensures Core(HandleData(s, rid, frag))
  {
    var r := ReqCopy(s.reqs[rid], frag);
    if r.sendOff == r.sendLen {
      if r.state.Matched? { FinishKeepsCore(s, rid, r); } else { PutKeepsCore(s, rid, r.(state := Complete)); }
    } else {
      PutKeepsCore(s, rid, r);
    }
  }

  lemma MoreKeepsCore(s: Mq, m: nat, n: nat)
    requires Core(s) && m < |s.led.msgs|
    ensures Core(s.(led := DoMore(s.led, m, n)))
  {
  }

  // ---- posting and cancelling a receive ---------------------------------------

  lemma CancelKeepsCore(s: Mq, rid: nat)
    requires Core(s) && rid < |s.reqs| && s.reqs[rid].state.Posted?
    ensures rid in s.expected && PostNo(s.reqs[rid]) < |s.led.posts|
    ensures s.reqs[rid].post.Some? && Core(DoCancelReq(s, rid))
  {
    assert LinkOk(s.reqs[rid], rid, s.led);
    var r', k := s.reqs[rid].(state := Complete), IndexOf(s.expected, rid);
    ListsRemove(s.expected, s.reqs, InExpected, k, r');
    ListsUpdate(s.unexpected, s.reqs, InUnexpected, rid, r');
    ListsAdd(s.completed, s.reqs, InCompleted, rid, r');
    ListsAdd(s.done, s.reqs, Finished, rid, r');
    RisingRemove(s.expected, s.reqs, PostNo, k, r');
    RisingUpdate(s.unexpected, s.reqs, MsgNo, rid, r');
    CancelKeepsLinked(s, rid);
  }

  lemma CancelKeepsLinked(s: Mq, rid: nat)
    requires Linked(s) && Represented(s) && rid < |s.reqs| && s.reqs[rid].state.Posted?
    requires rid in s.expected && s.reqs[rid].post.Some? && s.reqs[rid].post.value < |s.led.posts|
    ensures Linked(DoCancelReq(s, rid)) && Represented(DoCancelReq(s, rid))
  {
  }

  lemma PostedKeepsLocated(s: Mq, tag: Tag, sel: Tag, buf: seq<Byte>)
    requires Located(s) && Adoptable(s) && FindUnexpected(s.reqs, s.unexpected, tag, sel) == |s.unexpected|
    ensures Located(DoIrecv(s, tag, sel, buf))
  {
    var r := DoIrecv(s, tag, sel, buf).reqs[|s.reqs|];
    ListsGrow(s.expected, s.reqs, InExpected, r);
    ListsGrow(s.unexpected, s.reqs, InUnexpected, r);
    ListsGrow(s.completed, s.reqs, InCompleted, r);
    ListsGrow(s.done, s.reqs, Finished, r);
  }

  lemma PostedKeepsOrder(s: Mq, tag: Tag, sel: Tag, buf: seq<Byte>)
    requires InRange(s, s.expected) && Adoptable(s) && InOrder(s) && Linked(s)
    requires FindUnexpected(s.reqs, s.unexpected, tag, sel) == |s.unexpected|
    ensures var s' := DoIrecv(s, tag, sel, buf);
            InRange(s', s'.expected) && InRange(s', s'.unexpected) && InOrder(s')
  {
  }

  lemma PostedKeepsLinked(s: Mq, tag: Tag, sel: Tag, buf: seq<Byte>)
    requires Linked(s) && Represented(s) && Adoptable(s)
    requires FindUnexpected(s.reqs, s.unexpected, tag, sel) == |s.unexpected|
    requires FirstMsg(s.led.msgs, tag, sel) == |s.led.msgs|
    ensures Linked(DoIrecv(s, tag, sel, buf)) && Represented(DoIrecv(s, tag, sel, buf))
  {
  }

  lemma PostedKeepsCore(s: Mq, tag: Tag, sel: Tag, buf: seq<Byte>)
    requires Core(s) && Adoptable(s) && Paired(s.led)
    requires FindUnexpected(s.reqs, s.unexpected, tag, sel) == |s.unexpected|
    ensures Core(DoIrecv(s, tag, sel, buf))
  {
    FindsOldestMsg(s, tag, sel);
    PostedKeepsLocated(s, tag, sel, buf);
    PostedKeepsLinked(s, tag, sel, buf);
    PostedKeepsOrder(s, tag, sel, buf);
  }

  lemma AdoptKeepsLocated(s: Mq, tag: Tag, sel: Tag, buf: seq<Byte>, k: nat)
    requires Located(s) && Adoptable(s) && FindUnexpected(s.reqs, s.unexpected, tag, sel) == k < |s.unexpected|
    requires s.reqs[s.unexpected[k]].post.None?
    ensures Located(DoIrecv(s, tag, sel, buf))
  {
    var rid := s.unexpected[k];
    var r' := DoIrecv(s, tag, sel, buf).reqs[rid];
    ListsUpdate(s.expected, s.reqs, InExpected, rid, r');
    ListsRemove(s.unexpected, s.reqs, InUnexpected, k, r');
    if r'.state.Complete? {
      ListsAdd(s.completed, s.reqs, InCompleted, rid, r');
      ListsAdd(s.done, s.reqs, Finished, rid, r');
    } else {
      ListsUpdate(s.completed, s.reqs, InCompleted, rid, r');
      ListsUpdate(s.done, s.reqs, Finished, rid, r');
    }
  }

  lemma AdoptKeepsLinked(s: Mq, s': Mq, tag: Tag, sel: Tag, buf: seq<Byte>, rid: nat)
    requires Linked(s) && Represented(s) && rid < |s.reqs| && InUnexpected(s.reqs[rid])
    requires FirstMsg(s.led.msgs, tag, sel) == MsgNo(s.reqs[rid]) && s'.led == DoPost(s.led, tag, sel, buf, |s.reqs|)
    requires |s'.reqs| == |s.reqs| && s'.reqs == s.reqs[rid := s'.reqs[rid]]
    requires s'.reqs[rid].post == Some(|s.led.posts|) && s'.reqs[rid].msg == s.reqs[rid].msg
    requires s'.reqs[rid].state.Matched? || s'.reqs[rid].state.Complete?
    ensures Linked(s') && Represented(s')
  {
    assert LinkOk(s.reqs[rid], rid, s.led);
    assert LinkOk(s'.reqs[rid], rid, s'.led);
    forall i | 0 <= i < |s.reqs| && i != rid ensures LinkOk(s'.reqs[i], i, s'.led) {
      LinkFrame(s.reqs[i], i, s.led, s'.led);
    }
  }

  lemma AdoptKeepsOrder(s: Mq, s': Mq, k: nat)
    requires InRange(s, s.expected) && InRange(s, s.unexpected) && InOrder(s) && NoDup(s.unexpected)
    requires k < |s.unexpected| && s.unexpected[k] !in s.expected
    requires |s'.reqs| == |s.reqs| && s'.reqs == s.reqs[s.unexpected[k] := s'.reqs[s.unexpected[k]]]
    requires s'.unexpected == Without(s.unexpected, k) && s'.expected == s.expected
    ensures InRange(s', s'.expected) && InRange(s', s'.unexpected) && InOrder(s')
  {
  }

  /** A receive that takes a parked message changes one record. */
  lemma AdoptShape(s: Mq, tag: Tag, sel: Tag, buf: seq<Byte>, k: nat)
    requires Adoptable(s) && FindUnexpected(s.reqs, s.unexpected, tag, sel) == k < |s.unexpected|
    requires InUnexpected(s.reqs[s.unexpected[k]])
    ensures var s', rid := DoIrecv(s, tag, sel, buf), s.unexpected[k];
            && s'.led == DoPost(s.led, tag, sel, buf, |s.reqs|)
            && |s'.reqs| == |s.reqs| && s'.reqs == s.reqs[rid := s'.reqs[rid]]
            && s'.reqs[rid].post == Some(|s.led.posts|) && s'.reqs[rid].msg == s.reqs[rid].msg
            && (s'.reqs[rid].state.Matched? || s'.reqs[rid].state.Complete?)
            && s'.unexpected == Without(s.unexpected, k) && s'.expected == s.expected
  {
  }

  lemma AdoptKeepsCore(s: Mq, tag: Tag, sel: Tag, buf: seq<Byte>, k: nat)
    requires Core(s) && Adoptable(s) && Paired(s.led)
    requires FindUnexpected(s.reqs, s.unexpected, tag, sel) == k < |s.unexpected|
    ensures Core(DoIrecv(s, tag, sel, buf))
  {
    FindsOldestMsg(s, tag, sel);
    var rid, s' := s.unexpected[k], DoIrecv(s, tag, sel, buf);
    assert LinkOk(s.reqs[rid], rid, s.led) && rid !in s.expected;
    AdoptShape(s, tag, sel, buf, k);
    AdoptKeepsLocated(s, tag, sel, buf, k);
    AdoptKeepsLinked(s, s', tag, sel, buf, rid);
    AdoptKeepsOrder(s, s', k);
  }
}
