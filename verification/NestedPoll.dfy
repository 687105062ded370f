/**
 Polling nested inside handlers.

 A send that finds no free slot polls, polling runs handlers, and handlers may
 send.  The machine below keeps the call stack explicitly: each frame is an
 activation of amsh_poll, of a send that waits for a slot, of a handler, or of
 the drain of deferred requests.  Packets arrive and slots become free at any
 time.  A queue's head advances only when the handler of the packet at the head
 has returned, so a nested poll of the same queue would see that packet again.
 */
module NestedPoll {

  /**
   What the handler of a packet does: `replies` reply sends, `requests` direct
   request sends, and the requests it leaves in the deferred FIFO.
   */
  datatype Packet = Packet(replies: nat, requests: nat, defers: seq<nat>)

  datatype Stage = Replies | Drains | Requests

  datatype Frame =
    | Poll(internal: bool, replyOnly: bool, stage: Stage)
    | Send(isReply: bool, deferred: seq<nat>)
    | Handler(isRequest: bool, idx: nat, todo: Packet)
    | Drain(list: seq<nat>)

  /**
   `reqs`/`reps`: all packets that ever arrived; `...Head`: how many were consumed.
   `replied` counts the replies that were sent.
   */
  datatype Proc = Proc(stack: seq<Frame>,
                       reqs: seq<Packet>, reqHead: nat, reqHanded: seq<nat>,
                       reps: seq<Packet>, repHead: nat, repHanded: seq<nat>,
                       fifo: seq<nat>, added: seq<nat>, sent: seq<nat>, replied: nat)

  const START := Proc([], [], 0, [], [], 0, [], [], [], [], 0)

  datatype Event =
    | ArriveRequest(pkt: Packet)
    | ArriveReply(pkt: Packet)
    | CallPoll
    | CallSend
    | SlotFree
    | SlotBusy
    | Go
    | HandlerReplies
    | HandlerRequests
    | HandlerDefers

  function Top(s: Proc): Frame
    requires s.stack != []
  {
    s.stack[|s.stack| - 1]
  }

  function Pop(s: Proc): seq<Frame>
    requires s.stack != []
  {
    s.stack[..|s.stack| - 1]
  }

  function Swap(s: Proc, f: Frame): seq<Frame>
    requires s.stack != []
  {
    s.stack[|s.stack| - 1 := f]
  }

  /** The next thing the activation on top of the stack does when nothing keeps it waiting. */
  function Proceed(s: Proc): Proc
    requires s.stack != []
  {
    match Top(s)
    case Poll(internal, replyOnly, Replies) =>
      if s.repHead < |s.reps| then
        s.(stack := s.stack + [Handler(false, s.repHead, s.reps[s.repHead])], repHanded := s.repHanded + [s.repHead])
      else if replyOnly then s.(stack := Pop(s))
      else s.(stack := Swap(s, Poll(internal, replyOnly, Drains)))
    case Poll(internal, replyOnly, Drains) =>
      if !internal && s.fifo != [] then
        s.(stack := Swap(s, Poll(internal, replyOnly, Requests)) + [Drain(s.fifo)], fifo := [])
      else s.(stack := Swap(s, Poll(internal, replyOnly, Requests)))
    case Poll(internal, replyOnly, Requests) =>
      if s.reqHead < |s.reqs| then
        s.(stack := s.stack + [Handler(true, s.reqHead, s.reqs[s.reqHead])], reqHanded := s.reqHanded + [s.reqHead])
      else s.(stack := Pop(s))
    case Drain(list) =>
      if list == [] then s.(stack := Pop(s))
      else s.(stack := Swap(s, Drain(list[1..])) + [Send(false, [list[0]])])
    case Handler(isRequest, _, todo) =>
      if todo.replies + todo.requests + |todo.defers| > 0 then s
      else if isRequest then s.(stack := Pop(s), reqHead := s.reqHead + 1)
      else s.(stack := Pop(s), repHead := s.repHead + 1)
    case Send(_, _) => s
  }

  function Step(s: Proc, ev: Event): Proc {
    match ev
    case ArriveRequest(pkt) => s.(reqs := s.reqs + [pkt])
    case ArriveReply(pkt) => s.(reps := s.reps + [pkt])
    case CallPoll => if s.stack == [] then s.(stack := [Poll(false, false, Replies)]) else s
    case CallSend => if s.stack == [] then s.(stack := [Send(false, [])]) else s
    case SlotFree =>
      if s.stack != [] && Top(s).Send? then
        s.(stack := Pop(s), sent := s.sent + Top(s).deferred, replied := s.replied + if Top(s).isReply then 1 else 0)
      else s
    case SlotBusy =>
      if s.stack != [] && Top(s).Send? then s.(stack := s.stack + [Poll(true, Top(s).isReply, Replies)]) else s
    case Go => if s.stack == [] then s else Proceed(s)
    case HandlerReplies =>
      if s.stack != [] && Top(s).Handler? && Top(s).todo.replies > 0 then
        var t := Top(s);
        s.(stack := Swap(s, t.(todo := t.todo.(replies := t.todo.replies - 1))) + [Send(true, [])])
      else s
    case HandlerRequests =>
      if s.stack != [] && Top(s).Handler? && Top(s).todo.requests > 0 then
        var t := Top(s);
        s.(stack := Swap(s, t.(todo := t.todo.(requests := t.todo.requests - 1))) + [Send(false, [])])
      else s
    case HandlerDefers =>
      if s.stack != [] && Top(s).Handler? && Top(s).todo.defers != [] then
        var t := Top(s);
        var d := t.todo.defers[0];
        s.(stack := Swap(s, t.(todo := t.todo.(defers := t.todo.defers[1..]))),
           fifo := s.fifo + [d], added := s.added + [d])
      else s
  }

  function Run(s: Proc, evs: seq<Event>): Proc {
    if evs == [] then s else Step(Run(s, evs[..|evs| - 1]), evs[|evs| - 1])
  }

  /** The handler of a reply that sends nothing itself. */
  predicate Quiet(pkt: Packet) { pkt.replies == 0 && pkt.requests == 0 }

  /** What handlers have to keep to: those of requests reply or defer, those of replies only defer. */
  predicate Disciplined(ev: Event) {
    && (ev.ArriveRequest? ==> ev.pkt.requests == 0)
    && (ev.ArriveReply? ==> Quiet(ev.pkt))
  }

  // ---- invariant -------------------------------------------------------------

  /** Which activation may run directly on top of which. */
  predicate MayCall(f: Frame, g: Frame) {
    match f
    case Poll(internal, replyOnly, stage) =>
      || (g.Handler? && g.isRequest && stage == Requests && !replyOnly)
      || (g.Handler? && !g.isRequest && stage == Replies)
      || (g.Drain? && stage == Requests && !internal)
    case Send(isReply, _) => g.Poll? && g.internal && g.replyOnly == isReply
    case Handler(isRequest, _, _) => isRequest && g == Send(true, [])
    case Drain(_) => g.Send? && !g.isReply
  }

  predicate Bottom(f: Frame) {
    f == Send(false, []) || (f.Poll? && !f.internal && !f.replyOnly)
  }

  predicate FrameOk(f: Frame, reqHead: nat, repHead: nat) {
    match f
    case Poll(_, replyOnly, stage) => replyOnly ==> stage == Replies
    case Handler(true, idx, todo) => idx == reqHead && todo.requests == 0
    case Handler(false, idx, todo) => idx == repHead && Quiet(todo)
    case _ => true
  }

  ghost predicate Chain(s: Proc) {
    && (s.stack != [] ==> Bottom(s.stack[0]))
    && (forall i :: 0 <= i < |s.stack| - 1 ==> MayCall(s.stack[i], s.stack[i + 1]))
    && (forall i :: 0 <= i < |s.stack| ==> FrameOk(s.stack[i], s.reqHead, s.repHead))
  }

  function CountReq(stack: seq<Frame>): nat {
    if stack == [] then 0
    else CountReq(stack[..|stack| - 1]) + if stack[|stack| - 1].Handler? && stack[|stack| - 1].isRequest then 1 else 0
  }

  function CountRep(stack: seq<Frame>): nat {
    if stack == [] then 0
    else CountRep(stack[..|stack| - 1]) + if stack[|stack| - 1].Handler? && !stack[|stack| - 1].isRequest then 1 else 0
  }

  /** Deferred requests that were taken off the FIFO but not sent yet, oldest first. */
  function InHand(stack: seq<Frame>): seq<nat> {
    if stack == [] then []
    else Carried(stack[|stack| - 1]) + InHand(stack[..|stack| - 1])
  }

  function Carried(f: Frame): seq<nat> {
    if f.Send? then f.deferred else if f.Drain? then f.list else []
  }

  ghost predicate Inv(s: Proc) {
    && Chain(s)
    && (forall i :: 0 <= i < |s.reqs| ==> s.reqs[i].requests == 0)
    && (forall i :: 0 <= i < |s.reps| ==> Quiet(s.reps[i]))
    && s.reqHead + CountReq(s.stack) == |s.reqHanded| <= |s.reqs|
    && s.repHead + CountRep(s.stack) == |s.repHanded| <= |s.reps|
    && (forall i :: 0 <= i < |s.reqHanded| ==> s.reqHanded[i] == i)
    && (forall i :: 0 <= i < |s.repHanded| ==> s.repHanded[i] == i)
    && s.sent + InHand(s.stack) + s.fifo == s.added
  }

  // ---- stack shapes -------------------------------------------------------------

  /** Above a request handler there is at most a reply send, a reply-only poll and a reply handler. */
  lemma AboveRequest(s: Proc, i: nat, j: nat)
    requires Chain(s) && i < j < |s.stack| && s.stack[i].Handler?
    ensures j == i + 1 ==> s.stack[j] == Send(true, [])
    ensures j == i + 2 ==> s.stack[j] == Poll(true, true, Replies)
    ensures j == i + 3 ==> s.stack[j].Handler? && !s.stack[j].isRequest
    ensures j < i + 4
  {
    assert MayCall(s.stack[i], s.stack[i + 1]);
    assert j > i + 1 ==> MayCall(s.stack[i + 1], s.stack[i + 2]) && FrameOk(s.stack[i + 2], s.reqHead, s.repHead);
    assert j > i + 2 ==> MayCall(s.stack[i + 2], s.stack[i + 3]);
    assert j > i + 3 ==> MayCall(s.stack[i + 3], s.stack[i + 4]);
  }

  lemma {:induction false} NoHandlers(stack: seq<Frame>)
    requires forall i :: 0 <= i < |stack| ==> !(stack[i].Handler? && stack[i].isRequest)
    ensures CountReq(stack) == 0
  {
    if stack != [] { NoHandlers(stack[..|stack| - 1]); }
  }

  lemma {:induction false} NoReplies(stack: seq<Frame>)
    requires forall i :: 0 <= i < |stack| ==> !(stack[i].Handler? && !stack[i].isRequest)
    ensures CountRep(stack) == 0
  {
    if stack != [] { NoReplies(stack[..|stack| - 1]); }
  }

  /** A poll that looks at a queue runs above no handler of that queue. */
  lemma PollSeesFreshHead(s: Proc)
    requires Chain(s) && s.stack != [] && Top(s).Poll?
    ensures CountRep(s.stack) == 0
    ensures Top(s).stage != Replies ==> CountReq(s.stack) == 0
  {
    var t := |s.stack| - 1;
    forall i | 0 <= i < |s.stack| ensures !(s.stack[i].Handler? && !s.stack[i].isRequest) {
      assert i < t ==> MayCall(s.stack[i], s.stack[i + 1]);
    }
    NoReplies(s.stack);
    if Top(s).stage != Replies {
      forall i | 0 <= i < |s.stack| ensures !s.stack[i].Handler? {
        if s.stack[i].Handler? { AboveRequest(s, i, t); }
      }
      NoHandlers(s.stack);
    }
  }

  /** Only the outermost activation polls without `internal`, so it alone drains. */
  lemma DrainAtBottom(s: Proc)
    requires Chain(s) && s.stack != [] && Top(s).Poll? && !Top(s).internal
    ensures |s.stack| == 1
  {
    assert |s.stack| > 1 ==> MayCall(s.stack[|s.stack| - 2], s.stack[|s.stack| - 1]);
  }

  // ---- steps ------------------------------------------------------------------------

  /** A push, a pop or a swap of the top frame keeps the frames below. */
  lemma PushKeepsChain(s: Proc, f: Frame)
    requires Chain(s) && FrameOk(f, s.reqHead, s.repHead)
    requires if s.stack == [] then Bottom(f) else MayCall(Top(s), f)
    ensures Chain(s.(stack := s.stack + [f]))
  {
  }

  /** The handler on top returns and its queue's head moves on: no other frame names that head. */
  lemma ReturnKeepsChain(s: Proc)
    requires Chain(s) && s.stack != [] && Top(s).Handler?
    ensures Top(s).isRequest ==> Chain(s.(stack := Pop(s), reqHead := s.reqHead + 1))
    ensures !Top(s).isRequest ==> Chain(s.(stack := Pop(s), repHead := s.repHead + 1))
  {
    var t := |s.stack| - 1;
    forall i | 0 <= i < t ensures s.stack[i].Handler? ==> s.stack[i].isRequest && !Top(s).isRequest {
      if s.stack[i].Handler? { AboveRequest(s, i, t); }
      assert MayCall(s.stack[i], s.stack[i + 1]);
    }
  }

  lemma CountsOnPush(stack: seq<Frame>, f: Frame)
    ensures CountReq(stack + [f]) == CountReq(stack) + if f.Handler? && f.isRequest then 1 else 0
    ensures CountRep(stack + [f]) == CountRep(stack) + if f.Handler? && !f.isRequest then 1 else 0
    ensures InHand(stack + [f]) == Carried(f) + InHand(stack)
  {
  }

  lemma PushKeepsInv(s: Proc, f: Frame)
    requires Inv(s) && FrameOk(f, s.reqHead, s.repHead) && !f.Handler? && Carried(f) == []
    requires if s.stack == [] then Bottom(f) else MayCall(Top(s), f)
    ensures Inv(s.(stack := s.stack + [f]))
  {
  }

  lemma SwapKeepsInv(s: Proc, f: Frame)
    requires Inv(s) && s.stack != [] && FrameOk(f, s.reqHead, s.repHead)
    requires Bottom(Top(s)) ==> Bottom(f)
    requires forall g :: MayCall(g, Top(s)) ==> MayCall(g, f)
    requires Carried(f) == Carried(Top(s))
    requires (f.Handler? <==> Top(s).Handler?) && (f.Handler? ==> f.isRequest == Top(s).isRequest)
    ensures Inv(s.(stack := Swap(s, f)))
  {
  }

  lemma PopKeepsInv(s: Proc)
    requires Inv(s) && s.stack != [] && !Top(s).Handler?
    ensures Inv(s.(stack := Pop(s), sent := s.sent + Carried(Top(s))))
  {
  }

  lemma HandsReply(s: Proc, s': Proc, h: Frame)
    requires Inv(s) && s.stack != [] && MayCall(Top(s), h) && FrameOk(h, s.reqHead, s.repHead)
    requires h.Handler? && !h.isRequest && CountRep(s.stack) == 0 && s.repHead < |s.reps|
    requires s' == s.(stack := s.stack + [h], repHanded := s.repHanded + [s.repHead])
    ensures Inv(s')
  {
    PushKeepsChain(s, h);
    CountsOnPush(s.stack, h);
  }

  lemma HandsRequest(s: Proc, s': Proc, h: Frame)
    requires Inv(s) && s.stack != [] && MayCall(Top(s), h) && FrameOk(h, s.reqHead, s.repHead)
    requires h.Handler? && h.isRequest && CountReq(s.stack) == 0 && s.reqHead < |s.reqs|
    requires s' == s.(stack := s.stack + [h], reqHanded := s.reqHanded + [s.reqHead])
    ensures Inv(s')
  {
    PushKeepsChain(s, h);
    CountsOnPush(s.stack, h);
  }

  /** A poll hands over the packet at the head, which nobody is handling. */
  lemma HandReplyKeepsInv(s: Proc)
    requires Inv(s) && s.stack != [] && Top(s).Poll? && Top(s).stage == Replies && s.repHead < |s.reps|
    ensures Inv(Proceed(s))
  {
    PollSeesFreshHead(s);
    HandsReply(s, Proceed(s), Handler(false, s.repHead, s.reps[s.repHead]));
  }

  lemma HandRequestKeepsInv(s: Proc)
    requires Inv(s) && s.stack != [] && Top(s).Poll? && Top(s).stage == Requests && s.reqHead < |s.reqs|
    ensures Inv(Proceed(s))
  {
    PollSeesFreshHead(s);
    assert FrameOk(Top(s), s.reqHead, s.repHead);
    HandsRequest(s, Proceed(s), Handler(true, s.reqHead, s.reqs[s.reqHead]));
  }

  lemma ReturnKeepsInv(s: Proc)
    requires Inv(s) && s.stack != [] && Top(s).Handler?
    ensures Inv(Proceed(s))
  {
    ReturnKeepsChain(s);
  }

  /** The outermost poll detaches the whole FIFO. */
  lemma DetachKeepsInv(s: Proc)
    requires Inv(s) && s.stack != [] && Top(s).Poll? && Top(s).stage == Requests && !Top(s).internal
    ensures Inv(s.(stack := s.stack + [Drain(s.fifo)], fifo := []))
  {
    DrainAtBottom(s);
    PushKeepsChain(s, Drain(s.fifo));
    CountsOnPush(s.stack, Drain(s.fifo));
    assert Pop(s) == [] && InHand(s.stack) == [];
  }

  /** Only the stack changes, and what its frames stand for does not. */
  lemma NewStack(s: Proc, s': Proc)
    requires Inv(s) && Chain(s') && s' == s.(stack := s'.stack)
    requires CountReq(s'.stack) == CountReq(s.stack) && CountRep(s'.stack) == CountRep(s.stack)
    requires InHand(s'.stack) == InHand(s.stack)
    ensures Inv(s')
  {
  }

  lemma Joined(a: seq<nat>, b: seq<nat>, c: seq<nat>)
    ensures a + (b + c) == (a + b) + c
  {
  }

  /** The frame t on top becomes f, and g is put on it. */
  lemma {:induction false} CountsOnChange(rest: seq<Frame>, t: Frame, f: Frame, g: Frame)
    requires !g.Handler? && Carried(g) + Carried(f) == Carried(t)
    requires (f.Handler? <==> t.Handler?) && (f.Handler? ==> f.isRequest == t.isRequest)
    ensures CountReq(rest + [f] + [g]) == CountReq(rest + [t]) && CountRep(rest + [f] + [g]) == CountRep(rest + [t])
    ensures InHand(rest + [f] + [g]) == InHand(rest + [t])
  {
    CountsOnPush(rest, t);
    CountsOnPush(rest, f);
    CountsOnPush(rest + [f], g);
    Joined(Carried(g), Carried(f), InHand(rest));
  }

  lemma CountsOnCall(s: Proc, f: Frame, g: Frame)
    requires s.stack != [] && !g.Handler? && Carried(g) + Carried(f) == Carried(Top(s))
    requires (f.Handler? <==> Top(s).Handler?) && (f.Handler? ==> f.isRequest == Top(s).isRequest)
    ensures CountReq(Swap(s, f) + [g]) == CountReq(s.stack) && CountRep(Swap(s, f) + [g]) == CountRep(s.stack)
    ensures InHand(Swap(s, f) + [g]) == InHand(s.stack)
  {
    assert Swap(s, f) == Pop(s) + [f] && s.stack == Pop(s) + [Top(s)];
    CountsOnChange(Pop(s), Top(s), f, g);
  }

  lemma CallKeepsChain(s: Proc, f: Frame, g: Frame)
    requires Chain(s) && s.stack != [] && FrameOk(f, s.reqHead, s.repHead) && FrameOk(g, s.reqHead, s.repHead)
    requires MayCall(f, g) && (Bottom(Top(s)) ==> Bottom(f)) && forall e :: MayCall(e, Top(s)) ==> MayCall(e, f)
    ensures Chain(s.(stack := Swap(s, f) + [g]))
  {
  }

  lemma DrainKeepsInv(s: Proc)
    requires Inv(s) && s.stack != [] && Top(s).Drain? && Top(s).list != []
    ensures Inv(Proceed(s))
  {
    var list := Top(s).list;
    var f, g := Drain(list[1..]), Send(false, [list[0]]);
    assert [list[0]] + list[1..] == list;
    CountsOnCall(s, f, g);
    CallKeepsChain(s, f, g);
    NewStack(s, Proceed(s));
  }

  /** A poll turns to the requests, and first drains the FIFO if it is the outermost. */
  lemma DrainsKeepsInv(s: Proc)
    requires Inv(s) && s.stack != [] && Top(s).Poll? && Top(s).stage == Drains
    ensures Inv(Proceed(s))
  {
    var f := Top(s).(stage := Requests);
    SwapKeepsInv(s, f);
    if !f.internal && s.fifo != [] { DetachKeepsInv(s.(stack := Swap(s, f))); }
  }

  /** A poll without packets to hand over goes on to drain, or returns. */
  lemma EmptyKeepsInv(s: Proc)
    requires Inv(s) && s.stack != [] && Top(s).Poll? && Top(s).stage != Drains
    requires if Top(s).stage == Replies then s.repHead >= |s.reps| else s.reqHead >= |s.reqs|
    ensures Inv(Proceed(s))
  {
    if Top(s).stage == Replies && !Top(s).replyOnly {
      SwapKeepsInv(s, Top(s).(stage := Drains));
    } else {
      PopKeepsInv(s);
      assert s.sent + [] == s.sent;
    }
  }

  lemma PollKeepsInv(s: Proc)
    requires Inv(s) && s.stack != [] && Top(s).Poll?
    ensures Inv(Proceed(s))
  {
    if Top(s).stage == Drains {
      DrainsKeepsInv(s);
    } else if Top(s).stage == Replies && s.repHead < |s.reps| {
      HandReplyKeepsInv(s);
    } else if Top(s).stage == Requests && s.reqHead < |s.reqs| {
      HandRequestKeepsInv(s);
    } else {
      EmptyKeepsInv(s);
    }
  }

  lemma ProceedKeepsInv(s: Proc)
    requires Inv(s) && s.stack != []
    ensures Inv(Proceed(s))
  {
    match Top(s)
    case Poll(_, _, _) => PollKeepsInv(s);
    case Drain(list) =>
      if list == [] {
        PopKeepsInv(s);
        assert s.sent + [] == s.sent;
      } else {
        DrainKeepsInv(s);
      }
    case Handler(_, _, _) => ReturnKeepsInv(s);
    case Send(_, _) =>
  }

  lemma HandlerRepliesKeepsInv(s: Proc)
    requires Inv(s) && s.stack != [] && Top(s).Handler? && Top(s).todo.replies > 0
    ensures Inv(Step(s, HandlerReplies))
  {
    var t := Top(s);
    assert FrameOk(t, s.reqHead, s.repHead);
    var f, g := t.(todo := t.todo.(replies := t.todo.replies - 1)), Send(true, []);
    CountsOnCall(s, f, g);
    CallKeepsChain(s, f, g);
    NewStack(s, Step(s, HandlerReplies));
  }

  lemma HandlerDefersKeepsInv(s: Proc)
    requires Inv(s) && s.stack != [] && Top(s).Handler? && Top(s).todo.defers != []
    ensures Inv(Step(s, HandlerDefers))
  {
  }

  lemma StepKeepsInv(s: Proc, ev: Event)
    requires Inv(s) && Disciplined(ev)
    ensures Inv(Step(s, ev))
  {
    match ev
    case ArriveRequest(_) =>
    case ArriveReply(_) =>
    case CallPoll =>
      if s.stack == [] {
        PushKeepsInv(s, Poll(false, false, Replies));
        assert s.stack + [Poll(false, false, Replies)] == [Poll(false, false, Replies)];
      }
    case CallSend =>
      if s.stack == [] {
        PushKeepsInv(s, Send(false, []));
        assert s.stack + [Send(false, [])] == [Send(false, [])];
      }
    case SlotFree => if s.stack != [] && Top(s).Send? { PopKeepsInv(s); }
    case SlotBusy => if s.stack != [] && Top(s).Send? { PushKeepsInv(s, Poll(true, Top(s).isReply, Replies)); }
    case Go => if s.stack != [] { ProceedKeepsInv(s); }
    case HandlerReplies => if s.stack != [] && Top(s).Handler? && Top(s).todo.replies > 0 { HandlerRepliesKeepsInv(s); }
    case HandlerDefers => if s.stack != [] && Top(s).Handler? && Top(s).todo.defers != [] { HandlerDefersKeepsInv(s); }
    case HandlerRequests =>
      assert s.stack != [] ==> FrameOk(Top(s), s.reqHead, s.repHead);
  }

  lemma {:induction false} RunKeepsInv(evs: seq<Event>)
    requires forall i :: 0 <= i < |evs| ==> Disciplined(evs[i])
    ensures Inv(Run(START, evs))
  {
    if evs != [] {
      RunKeepsInv(evs[..|evs| - 1]);
      StepKeepsInv(Run(START, evs[..|evs| - 1]), evs[|evs| - 1]);
    }
  }

  // ---- what nesting cannot break ---------------------------------------------------------

  /**
   In every run with disciplined handlers, no packet is handed to its handler
   twice and none is skipped, on either queue, however deep the polls nest.
   */
  lemma HandedOnce(evs: seq<Event>)
    requires forall i :: 0 <= i < |evs| ==> Disciplined(evs[i])
    ensures var s := Run(START, evs);
            && |s.reqHanded| <= |s.reqs| && |s.repHanded| <= |s.reps|
            && (forall i :: 0 <= i < |s.reqHanded| ==> s.reqHanded[i] == i)
            && (forall i :: 0 <= i < |s.repHanded| ==> s.repHanded[i] == i)
  {
    RunKeepsInv(evs);
  }

  /**
   Deferred requests are sent once each, in the order they were deferred,
   including those deferred while an earlier batch is being sent.
   */
  lemma DeferredInOrder(evs: seq<Event>)
    requires forall i :: 0 <= i < |evs| ==> Disciplined(evs[i])
    ensures var s := Run(START, evs); s.sent <= s.added && (s.stack == [] ==> s.added == s.sent + s.fifo)
  {
    RunKeepsInv(evs);
    SentIsPrefix(Run(START, evs));
  }

  lemma SentIsPrefix(s: Proc)
    requires s.sent + InHand(s.stack) + s.fifo == s.added
    ensures s.sent <= s.added && (s.stack == [] ==> s.added == s.sent + s.fifo)
  {
  }

  // ---- what happens without the discipline -----------------------------------------------

  /** A run in which only these packets arrive. */
  ghost predicate Over(evs: seq<Event>, requests: iset<Packet>, replies: iset<Packet>) {
    forall i :: 0 <= i < |evs| ==>
      (evs[i].ArriveRequest? ==> evs[i].pkt in requests) && (evs[i].ArriveReply? ==> evs[i].pkt in replies)
  }

  /** Some packet was handed to its handler twice. */
  ghost predicate HandedTwice(s: Proc) {
    || (exists i, j :: 0 <= i < j < |s.reqHanded| && s.reqHanded[i] == s.reqHanded[j])
    || (exists i, j :: 0 <= i < j < |s.repHanded| && s.repHanded[i] == s.repHanded[j])
  }

  /** State s comes about in a run in which only these packets arrive. */
  ghost predicate Reached(s: Proc, requests: iset<Packet>, replies: iset<Packet>) {
    exists evs :: Over(evs, requests, replies) && Run(START, evs) == s
  }

  lemma Then(s: Proc, ev: Event, requests: iset<Packet>, replies: iset<Packet>)
    requires Reached(s, requests, replies) && Over([ev], requests, replies)
    ensures Reached(Step(s, ev), requests, replies)
  {
    var evs :| Over(evs, requests, replies) && Run(START, evs) == s;
    var evs' := evs + [ev];
    assert evs'[..|evs|] == evs && [ev][0] == ev;
    assert Over(evs', requests, replies) && Run(START, evs') == Step(s, ev);
  }

  lemma AtStart(requests: iset<Packet>, replies: iset<Packet>)
    ensures Reached(START, requests, replies)
  {
    assert Over([], requests, replies) && Run(START, []) == START;
  }

  /** The outermost poll runs the handler of the first reply. */
  function HandlingReply(pkt: Packet): Proc {
    START.(stack := [Poll(false, false, Replies), Handler(false, 0, pkt)], reps := [pkt], repHanded := [0])
  }

  lemma ReachHandlingReply(pkt: Packet, requests: iset<Packet>, replies: iset<Packet>)
    requires pkt in replies
    ensures Reached(HandlingReply(pkt), requests, replies)
  {
    var s := START.(reps := [pkt]);
    AtStart(requests, replies);
    Then(START, ArriveReply(pkt), requests, replies);
    assert Step(START, ArriveReply(pkt)) == s;
    Then(s, CallPoll, requests, replies);
    Then(s.(stack := [Poll(false, false, Replies)]), Go, requests, replies);
    assert Step(s.(stack := [Poll(false, false, Replies)]), Go) == HandlingReply(pkt);
  }

  /** A reply handler that sends can be handed its own packet again: the send polls before the head has moved. */
  lemma SendingReplyHandlerReenters(pkt: Packet, requests: iset<Packet>, replies: iset<Packet>) returns (s: Proc)
    requires pkt in replies && !Quiet(pkt)
    ensures Reached(s, requests, replies) && s.repHanded == [0, 0]
  {
    ReachHandlingReply(pkt, requests, replies);
    s := HandlingReply(pkt);
    var send := if pkt.replies > 0 then HandlerReplies else HandlerRequests;
    Then(s, send, requests, replies);
    s := Step(s, send);
    assert s.repHanded == [0] && s.repHead == 0 && s.reps == [pkt] && Top(s) == Send(pkt.replies > 0, []);
    Then(s, SlotBusy, requests, replies);
    s := Step(s, SlotBusy);
    assert s.repHanded == [0] && s.repHead == 0 && s.reps == [pkt] && Top(s) == Poll(true, pkt.replies > 0, Replies);
    Then(s, Go, requests, replies);
    s := Step(s, Go);
  }

  /** A poll that finds no reply, and has nothing to drain, comes to the request queue. */
  lemma PollComesToRequests(s: Proc, internal: bool, requests: iset<Packet>, replies: iset<Packet>)
    requires Reached(s, requests, replies) && s.stack != [] && Top(s) == Poll(internal, false, Replies)
    requires s.repHead == |s.reps| && s.reqHead < |s.reqs| && (internal || s.fifo == [])
    ensures var s' := s.(stack := Swap(s, Poll(internal, false, Requests))); Reached(Step(s', Go), requests, replies)
  {
    Then(s, Go, requests, replies);
    var s1 := s.(stack := Swap(s, Poll(internal, false, Drains)));
    assert Step(s, Go) == s1;
    Then(s1, Go, requests, replies);
    var s2 := s.(stack := Swap(s, Poll(internal, false, Requests)));
    assert Swap(s1, Poll(internal, false, Requests)) == s2.stack;
    assert Step(s1, Go) == s2;
    Then(s2, Go, requests, replies);
  }

  /** The outermost poll runs the handler of the first request. */
  function HandlingRequest(pkt: Packet): Proc {
    START.(stack := [Poll(false, false, Requests), Handler(true, 0, pkt)], reqs := [pkt], reqHanded := [0])
  }

  lemma ReachPollingRequest(pkt: Packet, requests: iset<Packet>, replies: iset<Packet>)
    requires pkt in requests
    ensures Reached(START.(stack := [Poll(false, false, Replies)], reqs := [pkt]), requests, replies)
  {
    var s := START.(reqs := [pkt]);
    AtStart(requests, replies);
    Then(START, ArriveRequest(pkt), requests, replies);
    assert Step(START, ArriveRequest(pkt)) == s;
    Then(s, CallPoll, requests, replies);
  }

  lemma ReachHandlingRequest(pkt: Packet, requests: iset<Packet>, replies: iset<Packet>)
    requires pkt in requests
    ensures Reached(HandlingRequest(pkt), requests, replies)
  {
    ReachPollingRequest(pkt, requests, replies);
    var s := START.(stack := [Poll(false, false, Replies)], reqs := [pkt]);
    PollComesToRequests(s, false, requests, replies);
    HandFirstRequest(pkt, s.(stack := Swap(s, Poll(false, false, Requests))));
  }

  lemma HandFirstRequest(pkt: Packet, s: Proc)
    requires s == START.(stack := [Poll(false, false, Requests)], reqs := [pkt])
    ensures Step(s, Go) == HandlingRequest(pkt)
  {
  }

  /** So can a request handler that sends a request directly instead of deferring it. */
  lemma RequestingHandlerReenters(pkt: Packet, requests: iset<Packet>, replies: iset<Packet>) returns (s: Proc)
    requires pkt in requests && pkt.requests > 0
    ensures Reached(s, requests, replies) && s.reqHanded == [0, 0]
  {
    ReachHandlingRequest(pkt, requests, replies);
    s := HandlingRequest(pkt);
    Then(s, HandlerRequests, requests, replies);
    s := Step(s, HandlerRequests);
    Then(s, SlotBusy, requests, replies);
    s := Step(s, SlotBusy);
    PollComesToRequests(s, true, requests, replies);
    s := Step(s.(stack := Swap(s, Poll(true, false, Requests))), Go);
  }

  /**
   The discipline is exactly what is needed: whatever packets may arrive, some run
   hands one over twice if and only if the handler of a reply sends something, or
   the handler of a request sends a request without deferring it.
   */
  lemma ReentryExactly(requests: iset<Packet>, replies: iset<Packet>)
    ensures (exists s :: Reached(s, requests, replies) && HandedTwice(s))
            <==> (exists pkt :: pkt in replies && !Quiet(pkt)) || (exists pkt :: pkt in requests && pkt.requests > 0)
  {
    if pkt :| pkt in replies && !Quiet(pkt) {
      var s := SendingReplyHandlerReenters(pkt, requests, replies);
      assert s.repHanded[0] == s.repHanded[1] && HandedTwice(s);
    } else if pkt :| pkt in requests && pkt.requests > 0 {
      var s := RequestingHandlerReenters(pkt, requests, replies);
      assert s.reqHanded[0] == s.reqHanded[1] && HandedTwice(s);
    } else {
      forall s | Reached(s, requests, replies) ensures !HandedTwice(s) {
        var evs :| Over(evs, requests, replies) && Run(START, evs) == s;
        HandedOnce(evs);
      }
    }
  }
}
