/**
 The linked queues of the Matched Queue.  A request carries the links of the one
 queue it is in.  `lastp` of a queue points to the link that the next append
 fills: the queue's own `first`, or the `next` field of its last request; the
 former is written null here, the latter by that request.  A completed request's
 `pprev` points in the same way to the link that leads to it.
 */
module MqQueues {
  import opened Basics
  import opened Bits
  import opened MatchLedger
  import opened MqModel

  /**
   A request: its links, and everything else in one record.  `id` numbers the
   requests; `post` and `msg` name the ledger entries it stands for.
   */
  class Request {
    var next: Request?
    var pprev: Request?
    var rec: Req
    ghost const id: nat
    ghost var post: Option<nat>
    ghost var msg: Option<nat>

    constructor (rec: Req, ghost id: nat, ghost post: Option<nat>, ghost msg: Option<nat>)
      ensures this.rec == rec && next == null && this.id == id && this.post == post && this.msg == msg
    {
      next, pprev, this.rec, this.id, this.post, this.msg := null, null, rec, id, post, msg;
    }
  }

  ghost predicate Unique(items: seq<Request>) { forall i, j :: 0 <= i < j < |items| ==> items[i] != items[j] }

  /** The `next` links from `first` on spell out `items`. */
  ghost predicate Chained(first: Request?, last: Request?, items: seq<Request>)
    reads items`next
  {
    && first == (if items == [] then null else items[0])
    && last == (if items == [] then null else items[|items| - 1])
    && (forall i {:trigger items[i].next} :: 0 <= i < |items| ==>
            items[i].next == if i + 1 < |items| then items[i + 1] else null)
  }

  ghost function Dropped(items: seq<Request>, k: nat): seq<Request>
    requires k < |items|
  {
    items[..k] + items[k + 1..]
  }

  lemma DroppedAt(items: seq<Request>, k: nat)
    requires k < |items| && Unique(items)
    ensures |Dropped(items, k)| == |items| - 1 && Unique(Dropped(items, k)) && items[k] !in Dropped(items, k)
    ensures forall i :: 0 <= i < |items| - 1 ==> Dropped(items, k)[i] == if i < k then items[i] else items[i + 1]
  {
  }

  /** The singly linked queue: expected and unexpected. */
  class Sq {
    var first: Request?
    var lastp: Request?
    ghost var items: seq<Request>

    constructor ()
      ensures Valid() && items == []
    {
      first, lastp, items := null, null, [];
    }

    ghost predicate Valid()
      reads this, items`next
    {
      Unique(items) && Chained(first, lastp, items)
    }

    method Append(r: Request)
      requires Valid() && r !in items
      modifies this, r`next, if lastp == null then {} else {lastp}`next
      ensures Valid() && items == old(items) + [r]
    {
      r.next := null;
      if lastp == null { first := r; } else { lastp.next := r; }
      lastp := r;
      items := items + [r];
    }

    /** Unlink the request after `prev` (the first one if null): item k. */
    method Unlink(prev: Request?, cur: Request, ghost k: nat)
      requires Valid() && k < |items| && cur == items[k] && prev == (if k == 0 then null else items[k - 1])
      modifies this, cur`next, if prev == null then {} else {prev}`next
      ensures Valid() && items == Dropped(old(items), k) && cur.next == null
    {
      assert items[k].next == if k + 1 < |items| then items[k + 1] else null;
      if prev == null { first := cur.next; } else { prev.next := cur.next; }
      if cur.next == null { lastp := prev; }
      cur.next := null;
      DroppedAt(items, k);
      items := Dropped(items, k);
    }

    /** mq_req_match with removal: the first posted receive that accepts `tag`. */
    method TakeAccepting(tag: Tag) returns (r: Request?, ghost k: nat)
      requires Valid()
      modifies this, items`next
      ensures Valid() && k <= |old(items)|
      ensures forall i :: 0 <= i < k ==> !Accepts(tag, old(items)[i].rec.tag, old(items)[i].rec.sel)
      ensures k == |old(items)| ==> r == null && items == old(items)
      ensures k < |old(items)| ==>
                && r == old(items)[k] && r.next == null && Accepts(tag, r.rec.tag, r.rec.sel)
                && items == Dropped(old(items), k)
    {
      var prev: Request? := null;
      var cur := first;
      k := 0;
      while cur != null
        invariant Valid() && items == old(items) && k <= |items|
        invariant cur == (if k < |items| then items[k] else null) && prev == (if k == 0 then null else items[k - 1])
        invariant forall i :: 0 <= i < k ==> !Accepts(tag, items[i].rec.tag, items[i].rec.sel)
        decreases |items| - k
      {
        if Accepts(tag, cur.rec.tag, cur.rec.sel) {
          Unlink(prev, cur, k);
          return cur, k;
        }
        prev, cur, k := cur, cur.next, k + 1;
      }
      r := null;
    }

    /** mq_req_match_with_tagsel: the first message that (tag, sel) accepts, removed or left (for a probe). */
    method FindAccepted(tag: Tag, sel: Tag, remove: bool) returns (r: Request?, ghost k: nat)
      requires Valid()
      modifies this, items`next
      ensures Valid() && k <= |old(items)|
      ensures forall i :: 0 <= i < k ==> !Accepts(old(items)[i].rec.tag, tag, sel)
      ensures k == |old(items)| ==> r == null && items == old(items)
      ensures k < |old(items)| ==> r == old(items)[k] && Accepts(r.rec.tag, tag, sel)
      ensures k < |old(items)| ==>
                items == (if remove then Dropped(old(items), k) else old(items)) && (remove ==> r.next == null)
    {
      var prev: Request? := null;
      var cur := first;
      k := 0;
      while cur != null
        invariant Valid() && items == old(items) && k <= |items|
        invariant cur == (if k < |items| then items[k] else null) && prev == (if k == 0 then null else items[k - 1])
        invariant forall i :: 0 <= i < k ==> !Accepts(items[i].rec.tag, tag, sel)
        decreases |items| - k
      {
        AcceptsSymmetric(tag, cur.rec.tag, sel);
        if Accepts(tag, cur.rec.tag, sel) {
          if remove { Unlink(prev, cur, k); }
          return cur, k;
        }
        prev, cur, k := cur, cur.next, k + 1;
      }
      r := null;
    }

    /** mq_req_remove_single: take out a given request. */
    method RemoveSingle(r: Request) returns (found: bool, ghost k: nat)
      requires Valid()
      modifies this, items`next
      ensures Valid() && (found <==> r in old(items))
      ensures found ==> k < |old(items)| && old(items)[k] == r && r.next == null && items == Dropped(old(items), k)
      ensures !found ==> items == old(items)
    {
      var prev: Request? := null;
      var cur := first;
      k := 0;
      while cur != null
        invariant Valid() && items == old(items) && k <= |items|
        invariant cur == (if k < |items| then items[k] else null) && prev == (if k == 0 then null else items[k - 1])
        invariant r !in items[..k]
        decreases |items| - k
      {
        if cur == r {
          Unlink(prev, cur, k);
          return true, k;
        }
        prev, cur, k := cur, cur.next, k + 1;
      }
      return false, k;
    }
  }

  /** The completed queue: doubly linked, so that a given request is removed without a walk. */
  class Qq {
    var first: Request?
    var lastp: Request?
    ghost var items: seq<Request>

    constructor ()
      ensures Valid() && items == []
    {
      first, lastp, items := null, null, [];
    }

    ghost predicate Valid()
      reads this, items`next, items`pprev
    {
      && Unique(items) && Chained(first, lastp, items)
      && forall i {:trigger items[i].pprev} :: 0 <= i < |items| ==>
              items[i].pprev == if i == 0 then null else items[i - 1]
    }

    method Append(r: Request)
      requires Valid() && r !in items
      modifies this, r`next, r`pprev, if lastp == null then {} else {lastp}`next
      ensures Valid() && items == old(items) + [r]
    {
      r.next := null;
      r.pprev := lastp;
      if lastp == null { first := r; } else { lastp.next := r; }
      lastp := r;
      items := items + [r];
    }

    method Remove(r: Request, ghost k: nat)
      requires Valid() && k < |items| && items[k] == r
      modifies this, (if r.next == null then {} else {r.next})`pprev, (if r.pprev == null then {} else {r.pprev})`next
      ensures Valid() && items == Dropped(old(items), k)
    {
      assert items[k].next == if k + 1 < |items| then items[k + 1] else null;
      assert items[k].pprev == if k == 0 then null else items[k - 1];
      if r.next != null { r.next.pprev := r.pprev; } else { lastp := r.pprev; }
      if r.pprev == null { first := r.next; } else { r.pprev.next := r.next; }
      DroppedAt(items, k);
      items := Dropped(items, k);
    }
  }

  /** The two argument orders of the tag comparison agree. */
  lemma AcceptsSymmetric(a: Tag, b: Tag, sel: Tag)
    ensures Accepts(a, b, sel) <==> Accepts(b, a, sel)
  {
    XorSymmetric(a, b);
  }

  lemma {:induction false} XorSymmetric(a: nat, b: nat)
    ensures Xor(a, b) == Xor(b, a)
    decreases a + b
  {
    if a + b > 0 { XorSymmetric(a / 2, b / 2); }
  }
}
