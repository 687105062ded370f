/**
 Reference semantics of tag matching, written without any queue.

 The ledger records every receive in posting order and every message in arrival
 order, together with what became of it.  A new receive takes the oldest
 unmatched message it accepts; a new message goes to the oldest waiting receive
 that accepts it.  The clock numbers the decisions (pairings and cancellations).
 */
module MatchLedger {
  import opened Basics
  import opened Bits
  import opened Shifts

  type Tag = x: nat | x < 0x1_0000_0000_0000_0000

  /** A receive for `rtag` under the selector `sel` accepts a message tagged `tag`. */
  predicate Accepts(tag: Tag, rtag: Tag, sel: Tag) {
    And(Xor(tag, rtag), sel) == 0
  }

  /** That is: the two tags agree in every binary digit that the selector has set. */
  lemma AcceptsDigits(tag: Tag, rtag: Tag, sel: Tag)
    ensures Accepts(tag, rtag, sel) <==>
            forall k: nat :: sel / Pow2(k) % 2 == 1 ==> tag / Pow2(k) % 2 == rtag / Pow2(k) % 2
  {
    var x := And(Xor(tag, rtag), sel);
    forall k: nat
      ensures x / Pow2(k) % 2 == 1 <==> sel / Pow2(k) % 2 == 1 && tag / Pow2(k) % 2 != rtag / Pow2(k) % 2
    {
      AndDigits(Xor(tag, rtag), sel, k);
      XorDigits(tag, rtag, k);
    }
    if x > 0 {
      var k := SomeDigit(x);
      assert sel / Pow2(k) % 2 == 1;
    } else {
      forall k: nat ensures x / Pow2(k) % 2 == 0 { DivUnique(0, Pow2(k), 0, 0); }
    }
  }

  datatype PostFate = Waiting | GotMsg(msg: nat, at: nat) | Cancelled(at: nat)
  datatype MsgFate = Unmatched | TakenBy(post: nat, at: nat)

  /** How a message's bytes travel: in one packet, in a train of fragments, or on request. */
  datatype Kind = Whole | Train | Rendezvous

  /** `buf` is the caller's buffer as it was when the receive was posted; `rid` is the handle. */
  datatype Post = Post(tag: Tag, sel: Tag, buf: seq<Byte>, fate: PostFate, rid: nat)

  /** `got` counts the bytes of `data` that have arrived. */
  datatype Msg = Msg(kind: Kind, peer: nat, tag: Tag, data: seq<Byte>, got: nat, fate: MsgFate, rid: nat)

  datatype Ledger = Ledger(posts: seq<Post>, msgs: seq<Msg>, clock: nat)

  const EMPTY := Ledger([], [], 0)

  predicate PostTakes(p: Post, tag: Tag) {
    p.fate.Waiting? && Accepts(tag, p.tag, p.sel)
  }

  predicate MsgSuits(m: Msg, tag: Tag, sel: Tag) {
    m.fate.Unmatched? && Accepts(m.tag, tag, sel)
  }

  /** Index of the oldest waiting receive that accepts `tag`, or |posts|. */
  function FirstPost(posts: seq<Post>, tag: Tag): (k: nat)
    ensures k <= |posts|
    ensures k < |posts| ==> PostTakes(posts[k], tag)
    ensures forall i :: 0 <= i < k ==> !PostTakes(posts[i], tag)
  {
    if posts == [] then 0
    else if PostTakes(posts[0], tag) then 0
    else
      var k := FirstPost(posts[1..], tag);
      assert forall i :: 1 <= i < |posts| ==> posts[i] == posts[1..][i - 1];
      1 + k
  }

  /** Index of the oldest unmatched message that (tag, sel) accepts, or |msgs|. */
  function FirstMsg(msgs: seq<Msg>, tag: Tag, sel: Tag): (k: nat)
    ensures k <= |msgs|
    ensures k < |msgs| ==> MsgSuits(msgs[k], tag, sel)
    ensures forall i :: 0 <= i < k ==> !MsgSuits(msgs[i], tag, sel)
  {
    if msgs == [] then 0
    else if MsgSuits(msgs[0], tag, sel) then 0
    else
      var k := FirstMsg(msgs[1..], tag, sel);
      assert forall i :: 1 <= i < |msgs| ==> msgs[i] == msgs[1..][i - 1];
      1 + k
  }

  function DoPost(l: Ledger, tag: Tag, sel: Tag, buf: seq<Byte>, newRid: nat): Ledger {
    var m := FirstMsg(l.msgs, tag, sel);
    var p := |l.posts|;
    if m == |l.msgs| then
      l.(posts := l.posts + [Post(tag, sel, buf, Waiting, newRid)])
    else
      Ledger(l.posts + [Post(tag, sel, buf, GotMsg(m, l.clock), l.msgs[m].rid)],
             l.msgs[m := l.msgs[m].(fate := TakenBy(p, l.clock))],
             l.clock + 1)
  }

  /** `a` describes the message; its fate and handle are decided here. */
  function DoArrive(l: Ledger, a: Msg, newRid: nat): Ledger {
    var p := FirstPost(l.posts, a.tag);
    var m := |l.msgs|;
    if p == |l.posts| then
      l.(msgs := l.msgs + [a.(fate := Unmatched, rid := newRid)])
    else
      Ledger(l.posts[p := l.posts[p].(fate := GotMsg(m, l.clock))],
             l.msgs + [a.(fate := TakenBy(p, l.clock), rid := l.posts[p].rid)],
             l.clock + 1)
  }

  function DoMore(l: Ledger, m: nat, n: nat): Ledger
    requires m < |l.msgs|
  {
    l.(msgs := l.msgs[m := l.msgs[m].(got := l.msgs[m].got + n)])
  }

  /** A train of `peer` whose fragments have not all arrived. */
  predicate Open(m: Msg, peer: nat) {
    m.kind.Train? && m.peer == peer && m.got < |m.data|
  }

  /** Index of the oldest open train of `peer`, or |msgs|. */
  function OpenTrain(msgs: seq<Msg>, peer: nat): (k: nat)
    ensures k <= |msgs|
    ensures k < |msgs| ==> Open(msgs[k], peer)
    ensures forall i :: 0 <= i < k ==> !Open(msgs[i], peer)
  {
    if msgs == [] then 0
    else if Open(msgs[0], peer) then 0
    else
      var k := OpenTrain(msgs[1..], peer);
      assert forall i :: 1 <= i < |msgs| ==> msgs[i] == msgs[1..][i - 1];
      1 + k
  }

  function DoCancel(l: Ledger, p: nat): Ledger
    requires p < |l.posts|
  {
    Ledger(l.posts[p := l.posts[p].(fate := Cancelled(l.clock))], l.msgs, l.clock + 1)
  }

  /** Both ends of a pairing agree on partner and time, and times lie in the past. */
  ghost predicate Paired(l: Ledger) {
    && (forall p {:trigger l.posts[p]} :: 0 <= p < |l.posts| ==>
          match l.posts[p].fate
          case Waiting => true
          case GotMsg(m, t) => m < |l.msgs| && t < l.clock && l.msgs[m].fate == TakenBy(p, t)
          case Cancelled(t) => t < l.clock)
    && (forall m {:trigger l.msgs[m]} :: 0 <= m < |l.msgs| ==>
          match l.msgs[m].fate
          case Unmatched => true
          case TakenBy(p, t) => p < |l.posts| && t < l.clock && l.posts[p].fate == GotMsg(m, t))
  }

  /** No waiting receive accepts a message that is still unmatched. */
  ghost predicate Settled(l: Ledger) {
    forall p, m {:trigger Accepts(l.msgs[m].tag, l.posts[p].tag, l.posts[p].sel)} ::
      0 <= p < |l.posts| && 0 <= m < |l.msgs|
      && l.posts[p].fate.Waiting? && l.msgs[m].fate.Unmatched?
      ==> !Accepts(l.msgs[m].tag, l.posts[p].tag, l.posts[p].sel)
  }

  /** A receive never passes over an older message it accepts. */
  ghost predicate MsgsNotOvertaken(l: Ledger) {
    forall p, m {:trigger Accepts(l.msgs[m].tag, l.posts[p].tag, l.posts[p].sel)} ::
      0 <= p < |l.posts| && 0 <= m < |l.msgs|
      && l.posts[p].fate.GotMsg? && m < l.posts[p].fate.msg
      && Accepts(l.msgs[m].tag, l.posts[p].tag, l.posts[p].sel)
      ==> l.msgs[m].fate.TakenBy? && l.msgs[m].fate.at < l.posts[p].fate.at
  }

  /** A message never passes over an older receive that accepts it. */
  ghost predicate PostsNotOvertaken(l: Ledger) {
    forall m, p {:trigger Accepts(l.msgs[m].tag, l.posts[p].tag, l.posts[p].sel)} ::
      0 <= m < |l.msgs| && 0 <= p < |l.posts|
      && l.msgs[m].fate.TakenBy? && p < l.msgs[m].fate.post
      && Accepts(l.msgs[m].tag, l.posts[p].tag, l.posts[p].sel)
      ==> !l.posts[p].fate.Waiting? && l.posts[p].fate.at < l.msgs[m].fate.at
  }

  ghost predicate Ordered(l: Ledger) {
    Paired(l) && Settled(l) && MsgsNotOvertaken(l) && PostsNotOvertaken(l)
  }

  lemma PostKeepsPaired(l: Ledger, tag: Tag, sel: Tag, buf: seq<Byte>, newRid: nat)
    requires Paired(l)
    ensures Paired(DoPost(l, tag, sel, buf, newRid))
  {
  }

  lemma PostKeepsSettled(l: Ledger, tag: Tag, sel: Tag, buf: seq<Byte>, newRid: nat)
    requires Paired(l) && Settled(l)
    ensures Settled(DoPost(l, tag, sel, buf, newRid))
  {
  }

  lemma PostKeepsMsgsNotOvertaken(l: Ledger, tag: Tag, sel: Tag, buf: seq<Byte>, newRid: nat)
    requires Paired(l) && Settled(l) && MsgsNotOvertaken(l)
    ensures MsgsNotOvertaken(DoPost(l, tag, sel, buf, newRid))
  {
  }

  lemma PostKeepsPostsNotOvertaken(l: Ledger, tag: Tag, sel: Tag, buf: seq<Byte>, newRid: nat)
    requires Paired(l) && Settled(l) && PostsNotOvertaken(l)
    ensures PostsNotOvertaken(DoPost(l, tag, sel, buf, newRid))
  {
  }

  lemma PostKeepsOrder(l: Ledger, tag: Tag, sel: Tag, buf: seq<Byte>, newRid: nat)
    requires Ordered(l)
    ensures Ordered(DoPost(l, tag, sel, buf, newRid))
  {
    PostKeepsPaired(l, tag, sel, buf, newRid);
    PostKeepsSettled(l, tag, sel, buf, newRid);
    PostKeepsMsgsNotOvertaken(l, tag, sel, buf, newRid);
    PostKeepsPostsNotOvertaken(l, tag, sel, buf, newRid);
  }

  lemma ArriveKeepsPaired(l: Ledger, a: Msg, newRid: nat)
    requires Paired(l)
    ensures Paired(DoArrive(l, a, newRid))
  {
  }

  lemma ArriveKeepsSettled(l: Ledger, a: Msg, newRid: nat)
    requires Paired(l) && Settled(l)
    ensures Settled(DoArrive(l, a, newRid))
  {
  }

  lemma ArriveKeepsMsgsNotOvertaken(l: Ledger, a: Msg, newRid: nat)
    requires Paired(l) && Settled(l) && MsgsNotOvertaken(l)
    ensures MsgsNotOvertaken(DoArrive(l, a, newRid))
  {
  }

  lemma ArriveKeepsPostsNotOvertaken(l: Ledger, a: Msg, newRid: nat)
    requires Paired(l) && Settled(l) && PostsNotOvertaken(l)
    ensures PostsNotOvertaken(DoArrive(l, a, newRid))
  {
  }

  lemma ArriveKeepsOrder(l: Ledger, a: Msg, newRid: nat)
    requires Ordered(l)
    ensures Ordered(DoArrive(l, a, newRid))
  {
    ArriveKeepsPaired(l, a, newRid);
    ArriveKeepsSettled(l, a, newRid);
    ArriveKeepsMsgsNotOvertaken(l, a, newRid);
    ArriveKeepsPostsNotOvertaken(l, a, newRid);
  }

  lemma CancelKeepsOrder(l: Ledger, p: nat)
    requires Ordered(l) && p < |l.posts| && l.posts[p].fate.Waiting?
    ensures Ordered(DoCancel(l, p))
  {
  }

  lemma MoreKeepsOrder(l: Ledger, m: nat, n: nat)
    requires Ordered(l) && m < |l.msgs|
    ensures Ordered(DoMore(l, m, n))
  {
  }
}
