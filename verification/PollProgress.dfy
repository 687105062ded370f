/**
 What nested polling gets done: every packet that arrived is handled, every reply
 of its handler is sent, and so is every request it deferred.
 */
module PollProgress {
  import opened NestedPoll

  // ---- what handlers owe ------------------------------------------------------------------

  /** One of the things that handlers send: replies, or the deferred request x. */
  datatype Item = Reply | Deferred(x: nat)

  function Often(q: seq<nat>, x: nat): nat { multiset(q)[x] }

  function OfPacket(pkt: Packet, y: Item): nat {
    match y
    case Reply => pkt.replies
    case Deferred(x) => Often(pkt.defers, x)
  }

  function OfFrame(f: Frame, y: Item): nat {
    if f.Handler? then OfPacket(f.todo, y) else if f.Send? && f.isReply && y.Reply? then 1 else 0
  }

  /** How much of it the activations on a stack have still to send or to defer. */
  function Owed(stack: seq<Frame>, y: Item): nat {
    if stack == [] then 0 else Owed(stack[..|stack| - 1], y) + OfFrame(stack[|stack| - 1], y)
  }

  /** How much of it the handlers of these packets send or defer. */
  function Due(pkts: seq<Packet>, y: Item): nat {
    if pkts == [] then 0 else Due(pkts[..|pkts| - 1], y) + OfPacket(pkts[|pkts| - 1], y)
  }

  function DoneWith(s: Proc, y: Item): nat {
    match y
    case Reply => s.replied
    case Deferred(x) => Often(s.added, x)
  }

  /** Nothing that a handler has to send is lost or made up. */
  ghost predicate Kept(s: Proc, y: Item) {
    && |s.reqHanded| <= |s.reqs| && |s.repHanded| <= |s.reps|
    && DoneWith(s, y) + Owed(s.stack, y) == Due(s.reqs[..|s.reqHanded|], y) + Due(s.reps[..|s.repHanded|], y)
  }

  lemma OwedPush(stack: seq<Frame>, f: Frame, y: Item)
    ensures Owed(stack + [f], y) == Owed(stack, y) + OfFrame(f, y)
  {
    assert (stack + [f])[..|stack|] == stack;
  }

  lemma OwedSwap(s: Proc, f: Frame, y: Item)
    requires s.stack != []
    ensures Owed(s.stack, y) == Owed(Pop(s), y) + OfFrame(Top(s), y)
    ensures Owed(Swap(s, f), y) == Owed(Pop(s), y) + OfFrame(f, y)
  {
    assert Swap(s, f) == Pop(s) + [f];
    OwedPush(Pop(s), f, y);
  }

  lemma OneMore(pkts: seq<Packet>, k: nat, y: Item)
    requires k < |pkts|
    ensures Due(pkts[..k + 1], y) == Due(pkts[..k], y) + OfPacket(pkts[k], y)
  {
    assert pkts[..k + 1][..k] == pkts[..k];
  }

  lemma HandRequestKept(s: Proc, s': Proc, h: Frame, y: Item)
    requires Kept(s, y) && h.Handler? && s'.stack == s.stack + [h] && s'.reqs == s.reqs && s'.reps == s.reps
    requires s'.added == s.added && s'.replied == s.replied && s'.repHanded == s.repHanded
    requires |s'.reqHanded| == |s.reqHanded| + 1 <= |s.reqs| && h.todo == s.reqs[|s.reqHanded|]
    ensures Kept(s', y)
  {
    OwedPush(s.stack, h, y);
    OneMore(s.reqs, |s.reqHanded|, y);
  }

  lemma HandReplyKept(s: Proc, s': Proc, h: Frame, y: Item)
    requires Kept(s, y) && h.Handler? && s'.stack == s.stack + [h] && s'.reqs == s.reqs && s'.reps == s.reps
    requires s'.added == s.added && s'.replied == s.replied && s'.reqHanded == s.reqHanded
    requires |s'.repHanded| == |s.repHanded| + 1 <= |s.reps| && h.todo == s.reps[|s.repHanded|]
    ensures Kept(s', y)
  {
    OwedPush(s.stack, h, y);
    OneMore(s.reps, |s.repHanded|, y);
  }

  /** The stack changes, and owes the same. */
  lemma SameKept(s: Proc, s': Proc, y: Item)
    requires Kept(s, y) && s'.added == s.added && s'.replied == s.replied
    requires s.reqs <= s'.reqs && s.reps <= s'.reps
    requires |s'.reqHanded| == |s.reqHanded| && |s'.repHanded| == |s.repHanded|
    requires Owed(s'.stack, y) == Owed(s.stack, y)
    ensures Kept(s', y)
  {
    assert s'.reqs[..|s.reqHanded|] == s.reqs[..|s.reqHanded|];
    assert s'.reps[..|s.repHanded|] == s.reps[..|s.repHanded|];
  }

  lemma PollKept(s: Proc, y: Item)
    requires Inv(s) && Kept(s, y) && s.stack != [] && Top(s).Poll?
    ensures Kept(Proceed(s), y)
  {
    var s', t := Proceed(s), Top(s);
    PollSeesFreshHead(s);
    if t.stage == Replies && s.repHead < |s.reps| {
      HandReplyKept(s, s', Handler(false, s.repHead, s.reps[s.repHead]), y);
    } else if t.stage == Requests && s.reqHead < |s.reqs| {
      HandRequestKept(s, s', Handler(true, s.reqHead, s.reqs[s.reqHead]), y);
    } else {
      PollMovesOn(s, y);
      SameKept(s, s', y);
    }
  }

  lemma PollMovesOn(s: Proc, y: Item)
    requires s.stack != [] && Top(s).Poll?
    requires Top(s).stage == Replies ==> s.repHead >= |s.reps|
    requires Top(s).stage == Requests ==> s.reqHead >= |s.reqs|
    ensures Owed(Proceed(s).stack, y) == Owed(s.stack, y)
  {
    var t := Top(s);
    OwedSwap(s, t.(stage := Drains), y);
    OwedSwap(s, t.(stage := Requests), y);
    OwedPush(Swap(s, t.(stage := Requests)), Drain(s.fifo), y);
  }

  lemma DrainKept(s: Proc, y: Item)
    requires Kept(s, y) && s.stack != [] && Top(s).Drain?
    ensures Kept(Proceed(s), y)
  {
    var list := Top(s).list;
    OwedSwap(s, Top(s), y);
    if list != [] {
      OwedSwap(s, Drain(list[1..]), y);
      OwedPush(Swap(s, Drain(list[1..])), Send(false, [list[0]]), y);
    }
    SameKept(s, Proceed(s), y);
  }

  lemma ReturnKept(s: Proc, y: Item)
    requires Inv(s) && Kept(s, y) && s.stack != [] && Top(s).Handler?
    ensures Kept(Proceed(s), y)
  {
    OwedSwap(s, Top(s), y);
    SameKept(s, Proceed(s), y);
  }

  lemma ReplyKept(s: Proc, y: Item)
    requires Kept(s, y) && s.stack != [] && Top(s).Handler? && Top(s).todo.replies > 0
    ensures Kept(Step(s, HandlerReplies), y)
  {
    var t := Top(s);
    var t' := t.(todo := t.todo.(replies := t.todo.replies - 1));
    OwedSwap(s, t', y);
    OwedPush(Swap(s, t'), Send(true, []), y);
    SameKept(s, Step(s, HandlerReplies), y);
  }

  lemma OftenFirst(ds: seq<nat>, x: nat)
    requires ds != []
    ensures Often(ds, x) == Often(ds[1..], x) + if ds[0] == x then 1 else 0
  {
    assert ds == [ds[0]] + ds[1..];
  }

  lemma OftenMore(q: seq<nat>, d: nat, x: nat)
    ensures Often(q + [d], x) == Often(q, x) + if d == x then 1 else 0
  {
  }

  lemma DeferKept(s: Proc, y: Item)
    requires Kept(s, y) && s.stack != [] && Top(s).Handler? && Top(s).todo.defers != []
    ensures Kept(Step(s, HandlerDefers), y)
  {
    var t := Top(s);
    var ds := t.todo.defers;
    OwedSwap(s, t.(todo := t.todo.(defers := ds[1..])), y);
    if y.Deferred? {
      OftenFirst(ds, y.x);
      OftenMore(s.added, ds[0], y.x);
    }
  }

  lemma SentKept(s: Proc, y: Item)
    requires Kept(s, y) && s.stack != [] && Top(s).Send?
    ensures Kept(Step(s, SlotFree), y)
  {
    OwedSwap(s, Top(s), y);
  }

  lemma CallKept(s: Proc, s': Proc, f: Frame, y: Item)
    requires Kept(s, y) && OfFrame(f, y) == 0 && s' == s.(stack := s.stack + [f])
    ensures Kept(s', y)
  {
    OwedPush(s.stack, f, y);
    SameKept(s, s', y);
  }

  lemma GoKept(s: Proc, y: Item)
    requires Inv(s) && Kept(s, y)
    ensures Kept(Step(s, Go), y)
  {
    if s.stack != [] {
      if Top(s).Poll? { PollKept(s, y); }
      else if Top(s).Drain? { DrainKept(s, y); }
      else if Top(s).Handler? { ReturnKept(s, y); }
    }
  }

  predicate Arrives(ev: Event) { ev.ArriveRequest? || ev.ArriveReply? }

  lemma ArriveKept(s: Proc, ev: Event, y: Item)
    requires Kept(s, y) && Arrives(ev)
    ensures Kept(Step(s, ev), y)
  {
    SameKept(s, Step(s, ev), y);
  }

  lemma CallsKept(s: Proc, ev: Event, y: Item)
    requires Kept(s, y) && (ev.CallPoll? || ev.CallSend? || ev.SlotBusy?)
    ensures Kept(Step(s, ev), y)
  {
    var s' := Step(s, ev);
    if s.stack == [] {
      if ev.CallPoll? { CallKept(s, s', Poll(false, false, Replies), y); }
      else if ev.CallSend? { CallKept(s, s', Send(false, []), y); }
    } else if ev.SlotBusy? && Top(s).Send? {
      CallKept(s, s', Poll(true, Top(s).isReply, Replies), y);
    }
  }

  lemma WorkKept(s: Proc, ev: Event, y: Item)
    requires Kept(s, y) && (ev.SlotFree? || ev.HandlerReplies? || ev.HandlerDefers?)
    ensures Kept(Step(s, ev), y)
  {
    if s.stack != [] {
      if ev.SlotFree? && Top(s).Send? { SentKept(s, y); }
      if ev.HandlerReplies? && Top(s).Handler? && Top(s).todo.replies > 0 { ReplyKept(s, y); }
      if ev.HandlerDefers? && Top(s).Handler? && Top(s).todo.defers != [] { DeferKept(s, y); }
    }
  }

  lemma NoRequests(s: Proc)
    requires Inv(s)
    ensures Step(s, HandlerRequests) == s
  {
    assert s.stack != [] ==> FrameOk(Top(s), s.reqHead, s.repHead);
  }

  lemma StepKept(s: Proc, ev: Event, y: Item)
    requires Inv(s) && Kept(s, y) && Disciplined(ev)
    ensures Kept(Step(s, ev), y)
  {
    if ev.Go? { GoKept(s, y); }
    else if ev.HandlerRequests? { NoRequests(s); }
    else if Arrives(ev) { ArriveKept(s, ev, y); }
    else if ev.SlotFree? || ev.HandlerReplies? || ev.HandlerDefers? { WorkKept(s, ev, y); }
    else { CallsKept(s, ev, y); }
  }

  lemma {:induction false} RunKept(evs: seq<Event>, y: Item)
    requires forall i :: 0 <= i < |evs| ==> Disciplined(evs[i])
    ensures Kept(Run(START, evs), y)
  {
    if evs != [] {
      var n := |evs| - 1;
      RunKept(evs[..n], y);
      RunKeepsInv(evs[..n]);
      StepKept(Run(START, evs[..n]), evs[n], y);
    }
  }

  // ---- how much is left to do ----------------------------------------------------------------

  function FrameWork(f: Frame): nat {
    match f
    case Poll(_, _, stage) => if stage == Replies then 3 else if stage == Drains then 2 else 1
    case Send(_, _) => 1
    case Handler(_, _, todo) => 1 + 2 * todo.replies + 4 * |todo.defers|
    case Drain(list) => 1 + 2 * |list|
  }

  function StackWork(stack: seq<Frame>): nat {
    if stack == [] then 0 else StackWork(stack[..|stack| - 1]) + FrameWork(stack[|stack| - 1])
  }

  function QueueWork(pkts: seq<Packet>): nat {
    if pkts == [] then 0 else 2 + 2 * pkts[0].replies + 4 * |pkts[0].defers| + QueueWork(pkts[1..])
  }

  predicate Sized(s: Proc) { |s.reqHanded| <= |s.reqs| && |s.repHanded| <= |s.reps| }

  /** Steps until all activations have returned. */
  function Work(s: Proc): nat
    requires Sized(s)
  {
    StackWork(s.stack) + QueueWork(s.reqs[|s.reqHanded|..]) + QueueWork(s.reps[|s.repHanded|..]) + 3 * |s.fifo|
  }

  /** What the activation on top does next if a slot is free whenever it needs one. */
  function NextEvent(s: Proc): Event
    requires s.stack != []
  {
    match Top(s)
    case Send(_, _) => SlotFree
    case Handler(_, _, todo) =>
      if todo.replies > 0 then HandlerReplies else if todo.defers != [] then HandlerDefers else Go
    case _ => Go
  }

  lemma WorkPush(stack: seq<Frame>, f: Frame)
    ensures StackWork(stack + [f]) == StackWork(stack) + FrameWork(f)
  {
    assert (stack + [f])[..|stack|] == stack;
  }

  lemma WorkSwap(s: Proc, f: Frame)
    requires s.stack != []
    ensures StackWork(s.stack) == StackWork(Pop(s)) + FrameWork(Top(s))
    ensures StackWork(Swap(s, f)) == StackWork(Pop(s)) + FrameWork(f)
  {
    assert Swap(s, f) == Pop(s) + [f];
    WorkPush(Pop(s), f);
  }

  lemma QueueNext(pkts: seq<Packet>, k: nat)
    requires k < |pkts|
    ensures QueueWork(pkts[k..]) == 2 + 2 * pkts[k].replies + 4 * |pkts[k].defers| + QueueWork(pkts[k + 1..])
  {
    assert pkts[k..][1..] == pkts[k + 1..];
  }

  /** The next step leaves what has arrived alone, and takes nothing back. */
  ghost predicate Later(s: Proc, s': Proc) {
    && s'.reqs == s.reqs && s'.reps == s.reps && s.added <= s'.added
    && |s.added| - |s.fifo| <= |s'.added| - |s'.fifo| && s.reqHead <= s'.reqHead && s.repHead <= s'.repHead
  }

  /** A step towards the end. */
  ghost predicate Onward(s: Proc, s': Proc) { Sized(s) && Sized(s') && Work(s') < Work(s) && Later(s, s') }

  lemma PollHands(s: Proc, s': Proc)
    requires Inv(s) && s.stack != [] && Top(s).Poll? && s' == Proceed(s)
    requires if Top(s).stage == Replies then s.repHead < |s.reps| else Top(s).stage == Requests && s.reqHead < |s.reqs|
    ensures Onward(s, s')
  {
    PollSeesFreshHead(s);
    if Top(s).stage == Replies {
      QueueNext(s.reps, s.repHead);
      WorkPush(s.stack, Handler(false, s.repHead, s.reps[s.repHead]));
    } else {
      QueueNext(s.reqs, s.reqHead);
      WorkPush(s.stack, Handler(true, s.reqHead, s.reqs[s.reqHead]));
    }
  }

  lemma PollMoves(s: Proc, s': Proc)
    requires Sized(s) && s.stack != [] && Top(s).Poll? && s' == Proceed(s)
    requires Top(s).stage == Replies ==> s.repHead >= |s.reps|
    requires Top(s).stage == Requests ==> s.reqHead >= |s.reqs|
    ensures Onward(s, s')
  {
    var t := Top(s);
    WorkSwap(s, t.(stage := Drains));
    WorkSwap(s, t.(stage := Requests));
    WorkPush(Swap(s, t.(stage := Requests)), Drain(s.fifo));
  }

  lemma DrainWorks(s: Proc, s': Proc)
    requires Sized(s) && s.stack != [] && Top(s).Drain? && s' == Proceed(s)
    ensures Onward(s, s')
  {
    var list := Top(s).list;
    WorkSwap(s, Top(s));
    if list != [] {
      WorkSwap(s, Drain(list[1..]));
      WorkPush(Swap(s, Drain(list[1..])), Send(false, [list[0]]));
    }
  }

  lemma ReplyWorks(s: Proc, s': Proc)
    requires Sized(s) && s.stack != [] && Top(s).Handler? && Top(s).todo.replies > 0 && s' == Step(s, HandlerReplies)
    ensures Onward(s, s')
  {
    var t := Top(s);
    var t' := t.(todo := t.todo.(replies := t.todo.replies - 1));
    WorkSwap(s, t');
    WorkPush(Swap(s, t'), Send(true, []));
  }

  lemma DeferWorks(s: Proc, s': Proc)
    requires Sized(s) && s.stack != [] && Top(s).Handler? && Top(s).todo.defers != [] && s' == Step(s, HandlerDefers)
    ensures Onward(s, s')
  {
    var t := Top(s);
    WorkSwap(s, t.(todo := t.todo.(defers := t.todo.defers[1..])));
  }

  lemma HandlerWorks(s: Proc, s': Proc)
    requires Sized(s) && s.stack != [] && Top(s).Handler? && Top(s).todo.requests == 0 && s' == Step(s, NextEvent(s))
    ensures Onward(s, s')
  {
    if Top(s).todo.replies > 0 { ReplyWorks(s, s'); }
    else if Top(s).todo.defers != [] { DeferWorks(s, s'); }
    else { WorkSwap(s, Top(s)); }
  }

  lemma SendWorks(s: Proc, s': Proc)
    requires Sized(s) && s.stack != [] && Top(s).Send? && s' == Step(s, SlotFree)
    ensures Onward(s, s')
  {
    WorkSwap(s, Top(s));
  }

  lemma NextWorks(s: Proc, s': Proc)
    requires Inv(s) && s.stack != [] && s' == Step(s, NextEvent(s))
    ensures Onward(s, s')
  {
    assert FrameOk(Top(s), s.reqHead, s.repHead);
    match Top(s)
    case Poll(_, _, stage) =>
      if if stage == Replies then s.repHead < |s.reps| else stage == Requests && s.reqHead < |s.reqs| {
        PollHands(s, s');
      } else {
        PollMoves(s, s');
      }
    case Drain(_) => DrainWorks(s, s');
    case Handler(_, _, _) => HandlerWorks(s, s');
    case Send(_, _) => SendWorks(s, s');
  }

  // ---- all activations return -----------------------------------------------------------------

  /** The outermost activation is a poll of the user, at this stage. */
  predicate Polling(s: Proc, stage: Stage) { s.stack != [] && s.stack[0] == Poll(false, false, stage) }

  predicate AllHandled(s: Proc) { s.reqHead == |s.reqs| && s.repHead == |s.reps| }

  /** What has come about once the stack of s is empty, in state f. */
  ghost predicate Unwound(s: Proc, f: Proc) {
    && f.stack == [] && Inv(f) && Later(s, f)
    && (Polling(s, Replies) ==> f.repHead == |f.reps|)
    && (Polling(s, Replies) || Polling(s, Drains) || Polling(s, Requests) ==> f.reqHead == |f.reqs|)
    && (Polling(s, Replies) || Polling(s, Drains) ==> s.added <= f.sent)
    && (AllHandled(s) ==> f.added == s.added)
  }

  /** With an empty stack, all that was taken off the FIFO has been sent. */
  lemma EmptySent(s: Proc, f: Proc)
    requires Inv(f) && f.stack == [] && s.added <= f.added && |s.added| <= |f.added| - |f.fifo|
    ensures s.added <= f.sent
  {
    assert f.added == f.sent + f.fifo;
  }

  lemma HeadBound(f: Proc)
    requires Inv(f)
    ensures f.reqHead <= |f.reqs| && f.repHead <= |f.reps|
  {
  }

  /** The bottom of the stack moves on only when it is the top. */
  lemma BottomStays(s: Proc, s': Proc)
    requires Inv(s) && |s.stack| > 1 && s' == Step(s, NextEvent(s))
    ensures s'.stack != [] && s'.stack[0] == s.stack[0]
  {
  }

  lemma HandledAdds(s: Proc, s': Proc)
    requires Inv(s) && s.stack != [] && AllHandled(s) && s' == Step(s, NextEvent(s))
    ensures s'.added == s.added && (Later(s, s') && Inv(s') ==> AllHandled(s'))
  {
    if Top(s).Handler? { HandlerCounts(s); }
  }

  lemma HandlerCounts(s: Proc)
    requires Inv(s) && s.stack != [] && Top(s).Handler?
    ensures !AllHandled(s)
  {
  }

  /** The poll at the bottom is on top: it passes a stage only when that is done. */
  lemma BottomMoves(s: Proc, s': Proc, f: Proc)
    requires Inv(s) && |s.stack| == 1 && s' == Step(s, NextEvent(s)) && Later(s, s') && Unwound(s', f)
    ensures Polling(s, Replies) ==> f.repHead == |f.reps|
    ensures Polling(s, Replies) || Polling(s, Drains) || Polling(s, Requests) ==> f.reqHead == |f.reqs|
    ensures Polling(s, Replies) || Polling(s, Drains) ==> s.added <= f.sent
  {
    HeadBound(f);
    if Polling(s, Drains) { EmptySent(s, f); }
  }

  lemma UnwoundBy(s: Proc, s': Proc, f: Proc)
    requires Inv(s) && s.stack != [] && s' == Step(s, NextEvent(s)) && Inv(s') && Later(s, s') && Unwound(s', f)
    ensures Unwound(s, f)
  {
    if AllHandled(s) { HandledAdds(s, s'); }
    if |s.stack| > 1 { BottomStays(s, s'); } else { BottomMoves(s, s', f); }
  }

  // ---- runs -------------------------------------------------------------------------------------

  lemma {:induction false} RunConcat(s: Proc, a: seq<Event>, b: seq<Event>)
    ensures Run(s, a + b) == Run(Run(s, a), b)
    decreases |b|
  {
    if b == [] {
      assert a + b == a;
    } else {
      var n := |b| - 1;
      RunConcat(s, a, b[..n]);
      assert (a + b)[..|a| + n] == a + b[..n];
    }
  }

  ghost predicate NoArrivals(evs: seq<Event>) { forall i :: 0 <= i < |evs| ==> !Arrives(evs[i]) }

  lemma RunOne(s: Proc, ev: Event, evs: seq<Event>)
    ensures Run(s, [ev] + evs) == Run(Step(s, ev), evs)
  {
    RunConcat(s, [ev], evs);
    assert [ev][..0] == [];
  }

  /** From every state all activations return, if slots become free. */
  lemma {:induction false} Unwind(s: Proc) returns (evs: seq<Event>)
    requires Inv(s)
    ensures NoArrivals(evs) && Unwound(s, Run(s, evs))
    decreases Work(s)
  {
    evs := [];
    if s.stack != [] {
      var s' := Step(s, NextEvent(s));
      StepKeepsInv(s, NextEvent(s));
      NextWorks(s, s');
      var rest := Unwind(s');
      UnwoundBy(s, s', Run(s', rest));
      RunOne(s, NextEvent(s), rest);
      evs := [NextEvent(s)] + rest;
    }
  }

  /** A poll of the user that runs to its end handles all that has arrived, and sends all that was deferred before. */
  lemma PollOnce(s: Proc) returns (evs: seq<Event>)
    requires Inv(s) && s.stack == []
    ensures NoArrivals(evs)
    ensures var f := Run(s, evs);
            && Inv(f) && f.stack == [] && Later(s, f) && AllHandled(f) && s.added <= f.sent
            && (AllHandled(s) ==> f.added == s.added)
  {
    var s' := Step(s, CallPoll);
    StepKeepsInv(s, CallPoll);
    var rest := Unwind(s');
    RunOne(s, CallPoll, rest);
    HeadBound(Run(s', rest));
    evs := [CallPoll] + rest;
  }

  /** Nothing is left to do, and nothing was lost: all is handled, answered and sent. */
  ghost predicate AtRest(s: Proc) {
    && s.stack == [] && AllHandled(s) && s.sent == s.added
    && s.replied == Due(s.reqs, Reply) + Due(s.reps, Reply)
    && forall x :: Often(s.sent, x) == Due(s.reqs, Deferred(x)) + Due(s.reps, Deferred(x))
  }

  lemma RestOwesNothing(s: Proc, y: Item)
    requires Inv(s) && s.stack == [] && AllHandled(s) && Kept(s, y)
    ensures DoneWith(s, y) == Due(s.reqs, y) + Due(s.reps, y)
  {
    assert s.reqs[..|s.reqs|] == s.reqs && s.reps[..|s.reps|] == s.reps;
  }

  lemma {:induction false} RunOnKept(s: Proc, evs: seq<Event>, y: Item)
    requires Inv(s) && Kept(s, y) && forall i :: 0 <= i < |evs| ==> Disciplined(evs[i])
    ensures Inv(Run(s, evs)) && Kept(Run(s, evs), y)
    decreases |evs|
  {
    if evs != [] {
      var n := |evs| - 1;
      RunOnKept(s, evs[..n], y);
      StepKeepsInv(Run(s, evs[..n]), evs[n]);
      StepKept(Run(s, evs[..n]), evs[n], y);
    }
  }

  lemma NowSent(s: Proc, f: Proc)
    requires Inv(f) && f.stack == [] && f.added == s.added <= f.sent
    ensures f.sent == f.added
  {
    assert f.added == f.sent + f.fifo;
  }

  lemma TwoPolls(s: Proc) returns (evs: seq<Event>)
    requires Inv(s)
    ensures NoArrivals(evs)
    ensures var f := Run(s, evs); Inv(f) && f.stack == [] && AllHandled(f) && f.sent == f.added
  {
    var a := Unwind(s);
    var s1 := Run(s, a);
    var b := PollOnce(s1);
    var s2 := Run(s1, b);
    var c := PollOnce(s2);
    var s3 := Run(s2, c);
    NowSent(s2, s3);
    RunConcat(s, a, b);
    RunConcat(s, a + b, c);
    evs := a + b + c;
  }

  /**
   After every run with disciplined handlers, steps without arrivals lead to rest:
   every packet handled, every reply sent, and the deferred requests sent in order,
   each as often as handlers deferred it.
   */
  lemma Settles(evs: seq<Event>) returns (more: seq<Event>)
    requires forall i :: 0 <= i < |evs| ==> Disciplined(evs[i])
    ensures NoArrivals(more) && AtRest(Run(START, evs + more))
  {
    RunKeepsInv(evs);
    var s := Run(START, evs);
    more := TwoPolls(s);
    var f := Run(s, more);
    RunConcat(START, evs, more);
    forall y: Item ensures DoneWith(f, y) == Due(f.reqs, y) + Due(f.reps, y) {
      RunKept(evs, y);
      RunOnKept(s, more, y);
      RestOwesNothing(f, y);
    }
    assert DoneWith(f, Reply) == f.replied;
    forall x ensures Often(f.sent, x) == Due(f.reqs, Deferred(x)) + Due(f.reps, Deferred(x)) {
      assert DoneWith(f, Deferred(x)) == Often(f.added, x);
    }
  }

  // ---- a poll that has returned -----------------------------------------------------------------

  lemma StepDrains(s: Proc, ev: Event)
    requires Inv(s)
    ensures s.added <= Step(s, ev).added
    ensures |s.added| - |s.fifo| <= |Step(s, ev).added| - |Step(s, ev).fifo|
  {
  }

  /** All of `list` has been deferred, and taken off the FIFO unless the outermost poll is about to. */
  ghost predicate Coming(s: Proc, list: seq<nat>) {
    list <= s.added && (s.stack == [Poll(false, false, Drains)] || |list| <= |s.added| - |s.fifo|)
  }

  lemma StepComing(s: Proc, ev: Event, list: seq<nat>)
    requires Inv(s) && Coming(s, list)
    ensures Coming(Step(s, ev), list)
  {
    StepDrains(s, ev);
  }

  lemma {:induction false} RunComing(s: Proc, evs: seq<Event>, list: seq<nat>)
    requires Inv(s) && Coming(s, list) && forall i :: 0 <= i < |evs| ==> Disciplined(evs[i])
    ensures Inv(Run(s, evs)) && Coming(Run(s, evs), list)
    decreases |evs|
  {
    if evs != [] {
      var n := |evs| - 1;
      RunComing(s, evs[..n], list);
      StepKeepsInv(Run(s, evs[..n]), evs[n]);
      StepComing(Run(s, evs[..n]), evs[n], list);
    }
  }

  /**
   Whatever happens in between: an outermost poll that comes to its drain has sent
   all that was in the FIFO then, by the time it has returned.
   */
  lemma DrainSends(before: seq<Event>, after: seq<Event>)
    requires forall i :: 0 <= i < |before| ==> Disciplined(before[i])
    requires forall i :: 0 <= i < |after| ==> Disciplined(after[i])
    requires Run(START, before).stack == [Poll(false, false, Drains)] && Run(START, before + after).stack == []
    ensures Run(START, before).added == Run(START, before).sent + Run(START, before).fifo
    ensures Run(START, before).added <= Run(START, before + after).sent
  {
    RunKeepsInv(before);
    RunConcat(START, before, after);
    AtDrain(Run(START, before));
    DrainSendsFrom(Run(START, before), after);
  }

  lemma AtDrain(s: Proc)
    requires Inv(s) && s.stack == [Poll(false, false, Drains)]
    ensures s.added == s.sent + s.fifo
  {
    assert s.stack[..0] == [] && InHand(s.stack) == [];
  }

  lemma DrainSendsFrom(s: Proc, after: seq<Event>)
    requires Inv(s) && s.stack == [Poll(false, false, Drains)] && Run(s, after).stack == []
    requires forall i :: 0 <= i < |after| ==> Disciplined(after[i])
    ensures s.added <= Run(s, after).sent
  {
    RunComing(s, after, s.added);
    EmptySent(s, Run(s, after));
  }
}
