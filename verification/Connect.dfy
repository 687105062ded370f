/**
 Connect and disconnect over shared memory.

 A request covers many peers at once.  Each peer is sent a packet that carries
 the request's phase and a pointer to the peer's slot in the caller's error
 array; the peer echoes both.  Replies may be delayed without bound, past the
 end of the request and into later ones.  Finishing a request moves the phase
 on, which is what makes late replies harmless.

 Wherever the code polls, any packet of `net` may be answered.  `Arrivals` says
 what is certain all the same: peers that do not answer during a call, peers that
 answer as soon as the code polls, and who may connect to us meanwhile.
 */
module Connect {
  import opened Basics
  import opened Errors

  type Epid = nat

  datatype Op = OpConnect | OpDisconnect
  datatype Mask = NoReq | PreReq | PostReq | Done
  datatype Pace = Prompt | Slow | Unsure
  datatype To = ToNone | Replied | Established | DiscReplied

  datatype Arrivals = Arrivals(callers: set<Epid>, pace: Epid -> Pace)

  /** A request under way to a peer, or the peer's reply: both carry the same phase and error pointer. */
  datatype Packet = Packet(op: Op, phase: nat, peer: Epid, perr: array<Err>, idx: nat)

  // ---- what holds of each entry of a request -------------------------------------------------

  predicate Is(state: map<Epid, To>, e: Epid, t: To) { e in state && state[e] == t }

  predicate Active(m: Mask) { m.PreReq? || m.PostReq? }

  ghost predicate ConnectEntry(e: Epid, m: Mask, err: Err, addr: Option<Epid>, state: map<Epid, To>) {
    match m
    case NoReq =>
      || (err == UNREACHABLE && !Is(state, e, Established))
      || (err == OK && Is(state, e, Established) && addr == Some(e))
    case PreReq => !Is(state, e, Established) && !Is(state, e, Replied) && (addr.Some? ==> e in state)
    case PostReq =>
      e in state && addr == Some(e) && !Is(state, e, Established) && (Is(state, e, Replied) ==> err == OK)
    case Done =>
      || (err == OK && Is(state, e, Established) && addr == Some(e))
      || (err == INVALID_VERSION && !Is(state, e, Established) && !Is(state, e, Replied))
  }

  ghost predicate DisconnectEntry(e: Epid, m: Mask, err: Err, state: map<Epid, To>) {
    match m
    case NoReq => !Is(state, e, Established)
    case PreReq => Is(state, e, Established)
    case PostReq => Is(state, e, Established) || (Is(state, e, DiscReplied) && err == OK)
    case Done => Is(state, e, ToNone)
  }

  ghost predicate EntryOk(op: Op, wanted: bool, e: Epid, m: Mask, err: Err, addr: Option<Epid>, state: map<Epid, To>) {
    if !wanted then m.NoReq?
    else if op.OpConnect? then ConnectEntry(e, m, err, addr, state)
    else DisconnectEntry(e, m, err, state)
  }

  /** An entry does not depend on the state of other peers. */
  lemma EntryFrame(op: Op, wanted: bool, e: Epid, m: Mask, err: Err, addr: Option<Epid>, state: map<Epid, To>,
                   x: Epid, t: To)
    requires EntryOk(op, wanted, e, m, err, addr, state) && (wanted ==> e != x)
    ensures EntryOk(op, wanted, e, m, err, addr, state[x := t])
  {
  }

  ghost predicate Distinct(epids: seq<Epid>, wanted: seq<bool>)
    requires |epids| == |wanted|
  {
    forall i, j :: 0 <= i < j < |epids| && wanted[i] && wanted[j] ==> epids[i] != epids[j]
  }

  function CountActive(mask: seq<Mask>): nat { Count(mask, Active) }

  /** A reply that is still to come in the current phase. */
  ghost predicate Pending(p: Packet, state: map<Epid, To>) {
    if p.op.OpConnect? then p.peer in state && !Is(state, p.peer, Replied) && !Is(state, p.peer, Established)
    else Is(state, p.peer, Established)
  }

  /** The state of a peer that has answered. */
  function Answered(op: Op): To { if op.OpConnect? then Replied else DiscReplied }

  /** The peers that answers of this phase are under way from. */
  ghost function Asking(net: set<Packet>, phase: nat): set<Epid> {
    set p | p in net && p.phase == phase :: p.peer
  }

  /** What a poll of the code may have brought: answers of peers that were asked and are not slow, and callers. */
  ghost predicate Drift(
    env: Arrivals, phase: nat, net: set<Packet>, state: map<Epid, To>, net': set<Packet>, state': map<Epid, To>)
  {
    && net' <= net && state.Keys <= state'.Keys <= state.Keys + env.callers
    && (forall e :: e in state && (e !in Asking(net, phase) || env.pace(e).Slow?) ==> state'[e] == state[e])
    && (forall e :: Is(state', e, Established) ==> Is(state, e, Established))
  }

  /** An answer, of this phase or of an earlier one. */
  lemma DriftArrives(
    env: Arrivals, phase: nat, net: set<Packet>, state: map<Epid, To>, p: Packet, state': map<Epid, To>)
    requires p in net && !env.pace(p.peer).Slow?
    requires p.phase == phase ==> Pending(p, state)
    requires state' == if p.phase == phase then state[p.peer := Answered(p.op)] else state
    ensures Drift(env, phase, net, state, net - {p}, state')
  {
    assert p.phase == phase ==> p.peer in Asking(net, phase);
  }

  lemma DriftOn(env: Arrivals, phase: nat, net: set<Packet>, state: map<Epid, To>, net1: set<Packet>,
                state1: map<Epid, To>, net': set<Packet>, state': map<Epid, To>)
    requires Drift(env, phase, net, state, net1, state1) && Drift(env, phase, net1, state1, net', state')
    ensures Drift(env, phase, net, state, net', state')
  {
  }

  /** What connect owes its caller: entry by entry, and in its result. */
  ghost predicate ConnectOutcome(epids: seq<Epid>, wanted: seq<bool>, errs: seq<Err>, addr: seq<Option<Epid>>,
                                 state: map<Epid, To>, result: Err)
    requires |epids| == |wanted| == |errs| == |addr|
  {
    && (forall i :: 0 <= i < |epids| && wanted[i] ==>
          && (errs[i] == OK <==> Is(state, epids[i], Established))
          && (errs[i] == OK ==> addr[i] == Some(epids[i]))
          && errs[i] in {OK, UNREACHABLE, TIMEOUT, INVALID_VERSION})
    && result == Reported(wanted, errs)
  }

  ghost predicate SomeError(wanted: seq<bool>, errs: seq<Err>, e: Err)
    requires |wanted| == |errs|
  {
    exists i :: 0 <= i < |wanted| && wanted[i] && errs[i] == e
  }

  /** The code that connect returns: an unfit version before a time-out before success. */
  ghost function Reported(wanted: seq<bool>, errs: seq<Err>): Err
    requires |wanted| == |errs|
  {
    if SomeError(wanted, errs, INVALID_VERSION) then INVALID_VERSION
    else if SomeError(wanted, errs, TIMEOUT) then TIMEOUT
    else OK
  }

  /** err is the worst code of the entries that were dealt with, or success if there are none. */
  ghost predicate Worst(mask: seq<Mask>, errs: seq<Err>, n: nat, err: Err)
    requires n <= |mask| == |errs|
  {
    && (err == OK || exists i :: 0 <= i < n && !mask[i].NoReq? && errs[i] == err)
    && forall i :: 0 <= i < n && !mask[i].NoReq? ==> NoWorse(errs[i], err)
  }

  /** So a connect, which meets three codes only, returns the one that is reported. */
  lemma WorstReported(wanted: seq<bool>, mask: seq<Mask>, errs: seq<Err>, err: Err)
    requires |wanted| == |mask| == |errs| && Worst(mask, errs, |mask|, err)
    requires forall i :: 0 <= i < |mask| && !mask[i].NoReq? ==>
               wanted[i] && errs[i] in {OK, TIMEOUT, INVALID_VERSION}
    requires forall i :: 0 <= i < |mask| && mask[i].NoReq? && wanted[i] ==> errs[i] in {OK, UNREACHABLE}
    ensures err == Reported(wanted, errs)
  {
    if i :| 0 <= i < |mask| && wanted[i] && errs[i] == INVALID_VERSION {
      assert NoWorse(errs[i], err);
    } else if i :| 0 <= i < |mask| && wanted[i] && errs[i] == TIMEOUT {
      assert NoWorse(errs[i], err);
    }
  }

  /** The shared directory as one poll sees it: who is mapped, runs a fitting version, and can be added. */
  datatype Directory = Directory(mapped: set<Epid>, interop: set<Epid>, canAdd: set<Epid>)

  /** Peer e is there and could be asked, but its address cannot be added. */
  predicate Blocked(dir: Directory, e: Epid) { e in dir.mapped && e in dir.interop && e !in dir.canAdd }

  /** The directory shows e for the first time at poll k. */
  ghost predicate FirstAt(dir: nat -> Directory, k: nat, e: Epid) {
    e in dir(k).mapped && Unmapped(dir, k, e)
  }

  ghost predicate Unmapped(dir: nat -> Directory, k: nat, e: Epid) {
    forall h: nat :: h < k ==> e !in dir(h).mapped
  }

  /** What asking the peers that have appeared makes of an entry. */
  function AskedMask(dir: Directory, e: Epid, m: Mask): Mask {
    if m.PreReq? && e in dir.mapped then if e in dir.interop then PostReq else Done else m
  }

  /** What a poll makes of an entry. */
  ghost predicate Polled(dir: Directory, pace: Pace, e: Epid, m: Mask, m': Mask, est: bool, est': bool) {
    if m.PostReq? then (m'.PostReq? && !pace.Prompt?) || (m'.Done? && est' && !pace.Slow?)
    else m' == AskedMask(dir, e, m) && (!m.NoReq? && est' ==> est)
  }

  /** An entry that was to be asked, after k polls: whoever was found was asked, prompt peers are established. */
  ghost predicate Stage(dir: nat -> Directory, k: nat, pace: Pace, e: Epid, m: Mask, established: bool) {
    && (m.PreReq? <==> Unmapped(dir, k, e)) && (m.PreReq? ==> !established)
    && forall h: nat :: h < k && FirstAt(dir, h, e) ==>
         if e !in dir(h).interop then m.Done? && !established
         else (m.PostReq? && (pace.Prompt? ==> h == k - 1)) || (m.Done? && established && !pace.Slow?)
  }

  lemma StageOn(dir: nat -> Directory, k: nat, pace: Pace, e: Epid, m: Mask, m': Mask, est: bool, est': bool)
    requires Stage(dir, k, pace, e, m, est) && Polled(dir(k), pace, e, m, m', est, est') && (est ==> est')
    ensures Stage(dir, k + 1, pace, e, m', est')
  {
    assert Unmapped(dir, k + 1, e) <==> Unmapped(dir, k, e) && e !in dir(k).mapped;
    forall h: nat | h < k + 1 && FirstAt(dir, h, e)
      ensures if e !in dir(h).interop then m'.Done? && !est'
              else (m'.PostReq? && (pace.Prompt? ==> h == k)) || (m'.Done? && est' && !pace.Slow?)
    {
      if h < k { assert !Unmapped(dir, k, e); }
    }
  }

  ghost predicate AllPolled(epids: seq<Epid>, dir: Directory, env: Arrivals, m: seq<Mask>, m': seq<Mask>,
                            state: map<Epid, To>, state': map<Epid, To>)
  {
    && |epids| == |m| == |m'|
    && forall i :: 0 <= i < |epids| ==>
         Polled(dir, env.pace(epids[i]), epids[i], m[i], m'[i], Is(state, epids[i], Established),
                Is(state', epids[i], Established))
  }

  /** A directory that shows nobody. */
  const NOBODY := Directory({}, {}, {})

  /** A poll came to a stop at an entry whose peer cannot be added; only those before it that appeared were asked. */
  ghost predicate PollStopped(epids: seq<Epid>, dir: Directory, env: Arrivals, m: seq<Mask>, m': seq<Mask>,
                              state: map<Epid, To>, state': map<Epid, To>, at: nat)
  {
    && at < |epids| == |m| == |m'| && m[at].PreReq? && Blocked(dir, epids[at]) && epids[at] !in state'
    && forall j :: 0 <= j < |epids| ==>
         Polled(if j < at then dir else NOBODY, env.pace(epids[j]), epids[j], m[j], m'[j],
                Is(state, epids[j], Established), Is(state', epids[j], Established))
  }

  /** What accepting replies makes of an entry. */
  ghost predicate AcceptedEntry(e: Epid, m: Mask, state: map<Epid, To>, m': Mask, state': map<Epid, To>) {
    if m.PostReq? && Is(state, e, Replied) then m'.Done? && Is(state', e, Established)
    else m' == m && (!m.NoReq? && Is(state', e, Established) ==> Is(state, e, Established))
  }

  /** The same for the entries before i, with the rest as they were. */
  ghost predicate AcceptedTo(epids: seq<Epid>, wanted: seq<bool>, m0: seq<Mask>, s0: map<Epid, To>, m: seq<Mask>,
                             s: map<Epid, To>, i: nat)
  {
    && i <= |epids| == |wanted| == |m0| == |m|
    && (forall j :: 0 <= j < i ==> AcceptedEntry(epids[j], m0[j], s0, m[j], s))
    && (forall j :: i <= j < |epids| ==> m[j] == m0[j])
    && (forall j :: i <= j < |epids| && wanted[j] ==> (Is(s, epids[j], Replied) <==> Is(s0, epids[j], Replied)))
    && (forall j :: i <= j < |epids| && wanted[j] && Is(s, epids[j], Established) ==> Is(s0, epids[j], Established))
  }

  lemma AcceptedOn(epids: seq<Epid>, wanted: seq<bool>, m0: seq<Mask>, s0: map<Epid, To>, m: seq<Mask>,
                   s: map<Epid, To>, m': seq<Mask>, s': map<Epid, To>, i: nat)
    requires AcceptedTo(epids, wanted, m0, s0, m, s, i) && i < |epids| == |m'| && Distinct(epids, wanted)
    requires forall j :: 0 <= j < |epids| && !wanted[j] ==> m[j].NoReq?
    requires if m[i].PostReq? && Is(s, epids[i], Replied) then m' == m[i := Done] && s' == s[epids[i] := Established]
             else m' == m && s' == s
    ensures AcceptedTo(epids, wanted, m0, s0, m', s', i + 1)
  {
  }

  /** Replies are accepted, then peers are asked: all of them, or up to one that cannot be added. */
  lemma PollComposed(epids: seq<Epid>, dir: Directory, env: Arrivals, m: seq<Mask>, m1: seq<Mask>, m': seq<Mask>,
                     s: map<Epid, To>, s1: map<Epid, To>, s': map<Epid, To>, at: nat)
    requires at <= |epids| == |m| == |m1| == |m'|
    requires forall i :: 0 <= i < |epids| ==> AcceptedEntry(epids[i], m[i], s, m1[i], s1)
    requires forall i :: 0 <= i < |epids| && m[i].PostReq? && env.pace(epids[i]).Prompt? ==> Is(s, epids[i], Replied)
    requires forall e :: Is(s, e, Replied) ==> !env.pace(e).Slow?
    requires forall i :: 0 <= i < at ==> m'[i] == AskedMask(dir, epids[i], m1[i])
    requires forall i :: at <= i < |epids| ==> m'[i] == m1[i]
    requires forall e :: Is(s1, e, Established) <==> Is(s', e, Established)
    requires at < |epids| ==> m1[at].PreReq? && Blocked(dir, epids[at]) && epids[at] !in s'
    ensures at == |epids| ==> AllPolled(epids, dir, env, m, m', s, s')
    ensures at < |epids| ==> PollStopped(epids, dir, env, m, m', s, s', at)
  {
  }

  /** Entry by entry, what k polls have come to. */
  ghost predicate Stages(
    epids: seq<Epid>, m0: seq<Mask>, dir: nat -> Directory, k: nat, env: Arrivals, m: seq<Mask>, state: map<Epid, To>)
  {
    && |epids| == |m0| == |m|
    && forall i :: 0 <= i < |epids| && m0[i].PreReq? ==>
         Stage(dir, k, env.pace(epids[i]), epids[i], m[i], Is(state, epids[i], Established))
  }

  /** Stages do not change while connections are neither made nor lost. */
  lemma StagesKept(epids: seq<Epid>, m0: seq<Mask>, dir: nat -> Directory, k: nat, env: Arrivals, m: seq<Mask>,
                   s: map<Epid, To>, s': map<Epid, To>)
    requires Stages(epids, m0, dir, k, env, m, s)
    requires forall e :: Is(s, e, Established) <==> Is(s', e, Established)
    ensures Stages(epids, m0, dir, k, env, m, s')
  {
  }

  lemma StagesOn(epids: seq<Epid>, m0: seq<Mask>, dir: nat -> Directory, k: nat, env: Arrivals, m: seq<Mask>,
                 s: map<Epid, To>, m': seq<Mask>, s': map<Epid, To>)
    requires Stages(epids, m0, dir, k, env, m, s) && AllPolled(epids, dir(k), env, m, m', s, s')
    requires forall e :: Is(s, e, Established) ==> Is(s', e, Established)
    ensures Stages(epids, m0, dir, k + 1, env, m', s')
  {
    forall i | 0 <= i < |epids| && m0[i].PreReq?
      ensures Stage(dir, k + 1, env.pace(epids[i]), epids[i], m'[i], Is(s', epids[i], Established))
    {
      var e := epids[i];
      StageOn(dir, k, env.pace(e), e, m[i], m'[i], Is(s, e, Established), Is(s', e, Established));
    }
  }

  /**
   An entry that was to be asked, after the polls came to a stop at poll k: slow
   peers found earlier are still waited for, prompt ones are established, and a peer
   found at poll k was asked if it stands before the one that stopped it.
   */
  ghost predicate StoppedEntry(dir: nat -> Directory, k: nat, before: bool, pace: Pace, e: Epid, m: Mask, est: bool) {
    && (Unmapped(dir, k, e) ==> m == AskedMask(if before then dir(k) else NOBODY, e, PreReq))
    && forall h: nat :: h < k && FirstAt(dir, h, e) ==>
         if e !in dir(h).interop then m.Done? else (m.PostReq? && !pace.Prompt?) || (m.Done? && est && !pace.Slow?)
  }

  /** The polls came to a stop at entry `at` of poll k. */
  ghost predicate Stopped(epids: seq<Epid>, m0: seq<Mask>, dir: nat -> Directory, k: nat, env: Arrivals, m: seq<Mask>,
                          state: map<Epid, To>, at: nat)
  {
    && at < |epids| == |m0| == |m| && CannotAsk(m0[at].PreReq?, epids[at], dir, k, state) && Untouched(m0, m)
    && (forall j :: 0 <= j < |epids| && m[j].PostReq? ==> epids[j] in state)
    && forall j :: 0 <= j < |epids| && m0[j].PreReq? ==>
         StoppedEntry(dir, k, j < at, env.pace(epids[j]), epids[j], m[j], Is(state, epids[j], Established))
  }

  /** How poll k of a connect ends: it is done, it is to be repeated, or it stops at entry `at`. */
  ghost predicate PollEnds(epids: seq<Epid>, m0: seq<Mask>, dir: nat -> Directory, k: nat, env: Arrivals, m: seq<Mask>,
                           state: map<Epid, To>, err: Err, at: nat)
  {
    if err == NO_MEMORY then Stopped(epids, m0, dir, k, env, m, state, at)
    else
      && (err == OK || err == NO_PROGRESS) && Untouched(m0, m) && Stages(epids, m0, dir, k + 1, env, m, state)
      && (err == OK ==> forall i :: 0 <= i < |m| ==> !Active(m[i]))
  }

  /** A peer that leaves its entry settled if the polls stop at poll k: unfit, or prompt and found before that poll. */
  ghost predicate SettledPeer(dir: nat -> Directory, k: nat, before: bool, pace: Pace, e: Epid) {
    && (forall h: nat :: h < k && FirstAt(dir, h, e) && e in dir(h).interop ==> pace.Prompt?)
    && (before && FirstAt(dir, k, e) ==> e !in dir(k).interop)
  }

  /**
   Stopping at entry `at` of poll k does no harm: every fitting peer found before
   that poll is prompt, and no fitting one found at that poll stands before `at`.
   */
  ghost predicate Harmless(
    epids: seq<Epid>, m0: seq<Mask>, dir: nat -> Directory, k: nat, env: Arrivals, at: nat)
  {
    && |epids| == |m0|
    && forall j :: 0 <= j < |epids| && m0[j].PreReq? ==>
         SettledPeer(dir, k, j < at, env.pace(epids[j]), epids[j])
  }

  lemma SettledExactly(dir: nat -> Directory, k: nat, before: bool, pace: Pace, e: Epid, m: Mask, est: bool)
    requires StoppedEntry(dir, k, before, pace, e, m, est)
    ensures SettledPeer(dir, k, before, pace, e) ==> !m.PostReq?
    ensures !pace.Unsure? && !m.PostReq? ==> SettledPeer(dir, k, before, pace, e)
  {
    if !Unmapped(dir, k, e) {
      var h := FirstMapped(dir, k, e);
      assert FirstAt(dir, h, e);
      forall g: nat | g < k && FirstAt(dir, g, e) ensures g == h { }
    }
  }

  /** The poll at which e was first there. */
  lemma {:induction false} FirstMapped(dir: nat -> Directory, k: nat, e: Epid) returns (h: nat)
    requires !Unmapped(dir, k, e)
    ensures h < k && FirstAt(dir, h, e)
  {
    if Unmapped(dir, k - 1, e) {
      h := k - 1;
    } else {
      h := FirstMapped(dir, k - 1, e);
    }
  }

  /** Nobody is left asked and not accepted, if and only if the directory and the peers' pace say so. */
  lemma HarmlessExactly(epids: seq<Epid>, m0: seq<Mask>, dir: nat -> Directory, k: nat, env: Arrivals, m: seq<Mask>,
                        s: map<Epid, To>, at: nat)
    requires Stopped(epids, m0, dir, k, env, m, s, at)
    ensures Harmless(epids, m0, dir, k, env, at) ==> forall i :: 0 <= i < |epids| ==> !m[i].PostReq?
    ensures (forall i :: 0 <= i < |epids| && m0[i].PreReq? ==> !env.pace(epids[i]).Unsure?) &&
            (forall i :: 0 <= i < |epids| ==> !m[i].PostReq?) ==>
              Harmless(epids, m0, dir, k, env, at)
  {
    forall i | 0 <= i < |epids| && m0[i].PreReq?
      ensures SettledPeer(dir, k, i < at, env.pace(epids[i]), epids[i]) ==> !m[i].PostReq?
      ensures !env.pace(epids[i]).Unsure? && !m[i].PostReq? ==>
                SettledPeer(dir, k, i < at, env.pace(epids[i]), epids[i])
    {
      SettledExactly(dir, k, i < at, env.pace(epids[i]), epids[i], m[i], Is(s, epids[i], Established));
    }
  }

  /** The polls stop at the first peer that cannot be asked. */
  lemma StopsFirst(epids: seq<Epid>, m0: seq<Mask>, dir: nat -> Directory, k: nat, env: Arrivals, m: seq<Mask>,
                   s: map<Epid, To>, at: nat, h: nat, i: nat)
    requires Stopped(epids, m0, dir, k, env, m, s, at) && i < |epids|
    requires CannotAsk(m0[i].PreReq?, epids[i], dir, h, s)
    ensures k < h || (k == h && at <= i)
  {
    assert StoppedEntry(dir, k, i < at, env.pace(epids[i]), epids[i], m[i], Is(s, epids[i], Established));
  }

  lemma FirstToStop(epids: seq<Epid>, m0: seq<Mask>, dir: nat -> Directory, k: nat, env: Arrivals, m: seq<Mask>,
                    s: map<Epid, To>, at: nat)
    requires Stopped(epids, m0, dir, k, env, m, s, at)
    ensures forall h: nat, i: nat :: i < |epids| && CannotAsk(m0[i].PreReq?, epids[i], dir, h, s) ==>
              k < h || (k == h && at <= i)
  {
    forall h: nat, i: nat | i < |epids| && CannotAsk(m0[i].PreReq?, epids[i], dir, h, s)
      ensures k < h || (k == h && at <= i)
    {
      StopsFirst(epids, m0, dir, k, env, m, s, at, h, i);
    }
  }

  /** A peer that is to be asked appears at poll k, cannot be added then, and has not made itself known. */
  ghost predicate CannotAsk(asked: bool, e: Epid, dir: nat -> Directory, k: nat, state: map<Epid, To>) {
    asked && FirstAt(dir, k, e) && Blocked(dir(k), e) && e !in state
  }

  /** A peer that is to be asked, and answers at once, appears at poll k with a fitting version. */
  ghost predicate FoundPrompt(asked: bool, e: Epid, dir: nat -> Directory, k: nat, env: Arrivals) {
    asked && FirstAt(dir, k, e) && e in dir(k).interop && env.pace(e).Prompt?
  }

  /** Polls that did not stop met no such peer, and established every prompt peer they found in time. */
  lemma AllStaged(epids: seq<Epid>, m0: seq<Mask>, dir: nat -> Directory, k: nat, polls: nat, env: Arrivals,
                  m: seq<Mask>, s: map<Epid, To>)
    requires Stages(epids, m0, dir, k + 1, env, m, s) && k <= polls
    requires k == polls || forall i :: 0 <= i < |epids| ==> !Active(m[i])
    requires forall i :: 0 <= i < |epids| && m[i].PostReq? ==> epids[i] in s
    ensures forall h: nat, i: nat :: h <= polls && i < |epids| ==> !CannotAsk(m0[i].PreReq?, epids[i], dir, h, s)
    ensures forall h: nat, i: nat ::
              h < polls && i < |epids| && FoundPrompt(m0[i].PreReq?, epids[i], dir, h, env) ==>
                Is(s, epids[i], Established)
  {
    forall h: nat, i: nat | h <= polls && i < |epids| && m0[i].PreReq? && FirstAt(dir, h, epids[i])
      && epids[i] in dir(h).interop
      ensures epids[i] in s && (h < polls && env.pace(epids[i]).Prompt? ==> Is(s, epids[i], Established))
    {
      assert Stage(dir, k + 1, env.pace(epids[i]), epids[i], m[i], Is(s, epids[i], Established));
      if k < polls {
        var q: nat :| q < k + 1 && epids[i] in dir(q).mapped;
        assert h <= q;
      }
    }
  }

  /** Peer e appeared in time, with a version we cannot talk to. */
  ghost predicate Unfit(dir: nat -> Directory, polls: nat, e: Epid) {
    exists h: nat :: h <= polls && FirstAt(dir, h, e) && e !in dir(h).interop
  }

  /** What finishing a request makes of an entry that a reply has not settled by then. */
  ghost predicate Ended(e: Epid, m: Mask, state: map<Epid, To>, err: Err, addr: Option<Epid>, err': Err,
                        addr': Option<Epid>)
  {
    match m
    case NoReq => err' == err && addr' == addr
    case PreReq => err' == TIMEOUT && addr' == None
    case PostReq => err' == (if Is(state, e, Replied) then err else TIMEOUT) && addr' == addr
    case Done => err' == err && addr' == addr
  }

  /**
   Which code connect reports for an entry: not asked, success or unreachable;
   otherwise an unfit version exactly if the peer appeared with one, and a time-out if
   it never appeared or did not answer.
   */
  ghost predicate Verdict(
    asked: bool, dir: nat -> Directory, polls: nat, pace: Pace, e: Epid, err: Err, addr: Option<Epid>)
  {
    if !asked then err in {OK, UNREACHABLE}
    else
      && err in {OK, TIMEOUT, INVALID_VERSION} && (err == INVALID_VERSION <==> Unfit(dir, polls, e))
      && (Unmapped(dir, polls + 1, e) ==> err == TIMEOUT && addr == None) && (pace.Slow? ==> err != OK)
  }

  lemma VerdictRight(dir: nat -> Directory, k: nat, polls: nat, pace: Pace, e: Epid, m: Mask, s: map<Epid, To>,
                     err: Err, addr: Option<Epid>, err': Err, addr': Option<Epid>)
    requires Stage(dir, k + 1, pace, e, m, Is(s, e, Established)) && k <= polls && (k == polls || !Active(m))
    requires ConnectEntry(e, m, err, addr, s) && (Is(s, e, Replied) ==> !pace.Slow?)
    requires Ended(e, m, s, err, addr, err', addr')
    ensures Verdict(true, dir, polls, pace, e, err', addr')
  {
    if !m.PreReq? {
      var h := FirstMapped(dir, k + 1, e);
      assert FirstAt(dir, h, e) && h <= polls;
      forall g: nat | FirstAt(dir, g, e) ensures g == h { }
    }
  }

  /** Entries to be asked, and none else, have been touched. */
  ghost predicate Untouched(m0: seq<Mask>, m: seq<Mask>) {
    |m0| == |m| && forall i :: 0 <= i < |m0| && !m0[i].PreReq? ==> m[i].NoReq?
  }

  lemma StoppedEntryOn(dir: nat -> Directory, k: nat, before: bool, pace: Pace, e: Epid, m: Mask, m': Mask, est: bool,
                       est': bool)
    requires Stage(dir, k, pace, e, m, est) && (est ==> est')
    requires Polled(if before then dir(k) else NOBODY, pace, e, m, m', est, est')
    ensures StoppedEntry(dir, k, before, pace, e, m', est')
  {
  }

  lemma StoppedOn(epids: seq<Epid>, m0: seq<Mask>, dir: nat -> Directory, k: nat, env: Arrivals, m: seq<Mask>,
                  s: map<Epid, To>, m': seq<Mask>, s': map<Epid, To>, at: nat)
    requires Stages(epids, m0, dir, k, env, m, s) && Untouched(m0, m)
    requires PollStopped(epids, dir(k), env, m, m', s, s', at)
    requires forall e :: Is(s, e, Established) ==> Is(s', e, Established)
    requires forall i :: 0 <= i < |epids| && m'[i].PostReq? ==> epids[i] in s'
    ensures Stopped(epids, m0, dir, k, env, m', s', at)
  {
    forall i | 0 <= i < |epids| && m0[i].PreReq?
      ensures StoppedEntry(dir, k, i < at, env.pace(epids[i]), epids[i], m'[i], Is(s', epids[i], Established))
    {
      var e := epids[i];
      StoppedEntryOn(dir, k, i < at, env.pace(e), e, m[i], m'[i], Is(s, e, Established), Is(s', e, Established));
    }
  }

  /**
   What disconnect leaves behind for a peer it had to ask: the peer is idle, or
   the entry reports a time-out and the peer is as it was or has answered too late.
   */
  ghost predicate Released(e: Epid, err: Err, state: map<Epid, To>) {
    Is(state, e, ToNone) || (err == TIMEOUT && (Is(state, e, Established) || Is(state, e, DiscReplied)))
  }

  /** What a poll of a disconnect makes of an entry. */
  function DiscMask(m: Mask, e: Epid, present: set<Epid>, state: map<Epid, To>): Mask {
    if m.PreReq? then if e in present then PostReq else Done
    else if m.PostReq? && Is(state, e, DiscReplied) then Done
    else m
  }

  /** A later entry, before n, is to be asked and its peer is there. */
  ghost predicate AskedLater(epids: seq<Epid>, m0: seq<Mask>, present: set<Epid>, i: nat, n: nat) {
    n <= |epids| == |m0| && exists j :: i < j < n && m0[j].PreReq? && epids[j] in present
  }

  /** Who was asked before another one in this poll, and answers at once, has answered. */
  ghost predicate AnsweredEarly(epids: seq<Epid>, m0: seq<Mask>, present: set<Epid>, env: Arrivals, m: seq<Mask>,
                                s: map<Epid, To>, n: nat)
  {
    && n <= |epids| == |m0| == |m|
    && forall i :: 0 <= i < n && m0[i].PreReq? && epids[i] in present && env.pace(epids[i]).Prompt? ==>
         AskedLater(epids, m0, present, i, n) ==> m[i].PostReq? && Is(s, epids[i], DiscReplied)
  }

  /** Who has answered is there, is not slow, and was asked before another one in this poll. */
  ghost predicate OnlyEarly(
    epids: seq<Epid>, m0: seq<Mask>, present: set<Epid>, env: Arrivals, s: map<Epid, To>, n: nat)
  {
    && n <= |epids| == |m0|
    && forall i :: 0 <= i < n && m0[i].PreReq? && Is(s, epids[i], DiscReplied) ==>
         epids[i] in present && !env.pace(epids[i]).Slow? && AskedLater(epids, m0, present, i, n)
  }

  /** What a poll of a disconnect has made of the entries before n. */
  ghost predicate DiscTo(epids: seq<Epid>, m0: seq<Mask>, present: set<Epid>, env: Arrivals, m: seq<Mask>,
                         s: map<Epid, To>, n: nat)
  {
    && AnsweredEarly(epids, m0, present, env, m, s, n) && OnlyEarly(epids, m0, present, env, s, n)
    && (forall j :: 0 <= j < |epids| ==>
          if j >= n then m[j] == m0[j]
          else if m0[j].PreReq? then m[j] == if epids[j] in present then PostReq else Done
          else !m[j].PreReq? && (m[j].NoReq? <==> m0[j].NoReq?) && (m0[j].Done? ==> m[j].Done?))
    && ((forall j :: 0 <= j < |epids| ==> !m0[j].PreReq?) ==>
          forall j :: 0 <= j < n && m[j].PostReq? ==> !Is(s, epids[j], DiscReplied))
  }

  /** No entry that still waits has its answer. */
  ghost predicate NoneLate(epids: seq<Epid>, m: seq<Mask>, s: map<Epid, To>) {
    |epids| == |m| && forall i :: 0 <= i < |epids| && m[i].PostReq? ==> !Is(s, epids[i], DiscReplied)
  }

  /** While an entry is being asked, no answer comes but from entries that wait for one and are not slow. */
  ghost predicate NoneElse(epids: seq<Epid>, env: Arrivals, m: seq<Mask>, s: map<Epid, To>, s': map<Epid, To>) {
    && |epids| == |m|
    && forall j :: 0 <= j < |epids| && !m[j].NoReq? && Is(s', epids[j], DiscReplied) ==>
         (m[j].PostReq? && !env.pace(epids[j]).Slow?) || Is(s, epids[j], DiscReplied)
  }

  lemma OnlyEarlyOn(epids: seq<Epid>, wanted: seq<bool>, m0: seq<Mask>, present: set<Epid>, env: Arrivals,
                    m: seq<Mask>, s: map<Epid, To>, s': map<Epid, To>, i: nat)
    requires DiscTo(epids, m0, present, env, m, s, i) && i < |epids| == |wanted| && Distinct(epids, wanted)
    requires if m[i].PreReq? && epids[i] in present
             then NoneElse(epids, env, m, s, s') && Is(s', epids[i], Established)
             else s' == s || s' == s[epids[i] := ToNone]
    requires m[i].PreReq? && epids[i] !in present ==> Is(s', epids[i], ToNone)
    requires forall j :: 0 <= j < |epids| && !wanted[j] ==> m[j].NoReq?
    ensures OnlyEarly(epids, m0, present, env, s', i + 1)
  {
    forall j | 0 <= j < i + 1 && m0[j].PreReq? && Is(s', epids[j], DiscReplied)
      ensures epids[j] in present && !env.pace(epids[j]).Slow? && AskedLater(epids, m0, present, j, i + 1)
    {
      assert j < i && wanted[j] && !m[j].NoReq?;
      if Is(s, epids[j], DiscReplied) {
        assert AskedLater(epids, m0, present, j, i);
      } else {
        assert m[j].PostReq? && m0[i].PreReq? && epids[i] in present;
      }
    }
  }

  lemma DiscOn(epids: seq<Epid>, wanted: seq<bool>, m0: seq<Mask>, present: set<Epid>, env: Arrivals, m: seq<Mask>,
               s: map<Epid, To>, m': seq<Mask>, s': map<Epid, To>, i: nat)
    requires DiscTo(epids, m0, present, env, m, s, i) && i < |epids| == |wanted| && Distinct(epids, wanted)
    requires m' == m[i := DiscMask(m[i], epids[i], present, s)]
    requires if m[i].PreReq? && epids[i] in present
             then && NoneElse(epids, env, m, s, s') && Is(s', epids[i], Established)
                  && forall j :: 0 <= j < |epids| && j != i && m'[j].PostReq? && env.pace(epids[j]).Prompt? ==>
                       Is(s', epids[j], DiscReplied)
             else s' == if m' == m then s else s[epids[i] := ToNone]
    requires forall j :: 0 <= j < |epids| && !wanted[j] ==> m'[j].NoReq?
    ensures DiscTo(epids, m0, present, env, m', s', i + 1)
  {
    OnlyEarlyOn(epids, wanted, m0, present, env, m, s, s', i);
  }

  /** Slow peers have not answered. */
  ghost predicate Quick(epids: seq<Epid>, m: seq<Mask>, env: Arrivals, s: map<Epid, To>) {
    && |epids| == |m|
    && forall j :: 0 <= j < |epids| && !m[j].NoReq? && Is(s, epids[j], DiscReplied) ==> !env.pace(epids[j]).Slow?
  }

  /**
   What a poll of a disconnect has made of the errors: an entry that was asked and is
   done has OK, one that is done without having been asked, or waits for being asked,
   has the error it had.
   */
  ghost predicate ErrorsTo(m0: seq<Mask>, e0: seq<Err>, m: seq<Mask>, e: seq<Err>) {
    && |m0| == |e0| == |m| == |e|
    && forall j :: 0 <= j < |m| && !m[j].PostReq? ==> e[j] == if m0[j].PostReq? then OK else e0[j]
  }

  lemma ErrorsOn(m0: seq<Mask>, e0: seq<Err>, m: seq<Mask>, e: seq<Err>, m': seq<Mask>, e': seq<Err>, i: nat)
    requires ErrorsTo(m0, e0, m, e) && i < |m| == |m'| == |e'| && m[i] == m0[i]
    requires m' == m[i := m'[i]] && (m'[i].PreReq? || m'[i].NoReq? ==> m'[i] == m[i])
    requires forall j :: 0 <= j < |m| && !m[j].PostReq? ==> e'[j] == e[j]
    requires m[i].PostReq? && m'[i].Done? ==> e'[i] == OK
    ensures ErrorsTo(m0, e0, m', e')
  {
  }

  /** Which of the entries that were asked in an earlier poll still wait, once those before n have been looked at. */
  ghost predicate WaitsTo(epids: seq<Epid>, m0: seq<Mask>, env: Arrivals, m: seq<Mask>, s: map<Epid, To>, n: nat) {
    && n <= |epids| == |m0| == |m|
    && (forall j :: 0 <= j < |epids| && m0[j].PostReq? && env.pace(epids[j]).Slow? ==> m[j].PostReq?)
    && ((forall j :: 0 <= j < |epids| ==> !m0[j].PreReq?) ==>
          && (forall j :: 0 <= j < n && m[j].PostReq? ==> !env.pace(epids[j]).Prompt?)
          && (forall j :: n <= j < |epids| && m0[j].PostReq? && env.pace(epids[j]).Prompt? ==>
                Is(s, epids[j], DiscReplied)))
  }

  lemma WaitsOn(epids: seq<Epid>, wanted: seq<bool>, m0: seq<Mask>, present: set<Epid>, env: Arrivals, m: seq<Mask>,
                s: map<Epid, To>, m': seq<Mask>, s': map<Epid, To>, i: nat)
    requires WaitsTo(epids, m0, env, m, s, i) && i < |epids| == |wanted| && Distinct(epids, wanted) && m[i] == m0[i]
    requires m' == m[i := DiscMask(m[i], epids[i], present, s)] && Quick(epids, m, env, s)
    requires if m[i].PreReq? && epids[i] in present then NoneElse(epids, env, m, s, s')
             else s' == if m' == m then s else s[epids[i] := ToNone]
    requires forall j :: 0 <= j < |epids| && !wanted[j] ==> m0[j].NoReq?
    ensures WaitsTo(epids, m0, env, m', s', i + 1) && Quick(epids, m', env, s')
  {
    forall j | 0 <= j < |epids| && !m'[j].NoReq? && Is(s', epids[j], DiscReplied)
      ensures !env.pace(epids[j]).Slow?
    {
      assert !m[j].NoReq?;
    }
  }

  /** What a poll of a disconnect that began with masks m0 and errors e0 has made of the entries before n. */
  ghost predicate PolledTo(epids: seq<Epid>, m0: seq<Mask>, e0: seq<Err>, present: set<Epid>, env: Arrivals,
                           m: seq<Mask>, e: seq<Err>, s: map<Epid, To>, n: nat)
  {
    && DiscTo(epids, m0, present, env, m, s, n) && ErrorsTo(m0, e0, m, e)
    && WaitsTo(epids, m0, env, m, s, n) && Quick(epids, m, env, s)
  }

  lemma PolledNone(epids: seq<Epid>, m0: seq<Mask>, e0: seq<Err>, present: set<Epid>, env: Arrivals, s: map<Epid, To>)
    requires |epids| == |m0| == |e0| && Quick(epids, m0, env, s) && WaitsTo(epids, m0, env, m0, s, 0)
    ensures PolledTo(epids, m0, e0, present, env, m0, e0, s, 0)
  {
  }

  lemma PolledOn(epids: seq<Epid>, wanted: seq<bool>, m0: seq<Mask>, e0: seq<Err>, present: set<Epid>, env: Arrivals,
                 m: seq<Mask>, e: seq<Err>, s: map<Epid, To>, m': seq<Mask>, e': seq<Err>, s': map<Epid, To>, i: nat)
    requires PolledTo(epids, m0, e0, present, env, m, e, s, i)
    requires i < |epids| == |wanted| == |e'| && Distinct(epids, wanted)
    requires m' == m[i := DiscMask(m[i], epids[i], present, s)]
    requires if m[i].PreReq? && epids[i] in present
             then && NoneElse(epids, env, m, s, s') && Is(s', epids[i], Established)
                  && forall j :: 0 <= j < |epids| && j != i && m'[j].PostReq? && env.pace(epids[j]).Prompt? ==>
                       Is(s', epids[j], DiscReplied)
             else s' == if m' == m then s else s[epids[i] := ToNone]
    requires forall j :: 0 <= j < |epids| && !wanted[j] ==> m'[j].NoReq?
    requires forall j :: 0 <= j < |m| && !m[j].PostReq? ==> e'[j] == e[j]
    requires m[i].PostReq? && m'[i].Done? ==> e'[i] == OK
    ensures PolledTo(epids, m0, e0, present, env, m', e', s', i + 1)
  {
    DiscOn(epids, wanted, m0, present, env, m, s, m', s', i);
    ErrorsOn(m0, e0, m, e, m', e', i);
    WaitsOn(epids, wanted, m0, present, env, m, s, m', s', i);
  }

  /**
   Where the polls of a disconnect have brought the entries: who was not there at the
   first poll is done and has the error it had, who was is done without error, or waits.
   */
  ghost predicate SoFar(epids: seq<Epid>, m0: seq<Mask>, present: set<Epid>, env: Arrivals, e0: seq<Err>, m: seq<Mask>,
                        e: seq<Err>)
  {
    && |epids| == |m0| == |e0| == |m| == |e|
    && forall j :: 0 <= j < |epids| ==>
         if m0[j].NoReq? then m[j].NoReq? && e[j] == e0[j]
         else if epids[j] !in present then m[j].Done? && e[j] == e0[j]
         else m[j].PostReq? || (m[j].Done? && e[j] == OK && !env.pace(epids[j]).Slow?)
  }

  /** Nobody who answers at once still waits. */
  ghost predicate NonePrompt(epids: seq<Epid>, m: seq<Mask>, env: Arrivals) {
    |epids| == |m| && forall i :: 0 <= i < |epids| && m[i].PostReq? ==> !env.pace(epids[i]).Prompt?
  }

  /** What the polls of a disconnect after the first leave. */
  ghost predicate Waited(epids: seq<Epid>, m0: seq<Mask>, present: set<Epid>, env: Arrivals, polls: nat, m: seq<Mask>,
                         s: map<Epid, To>)
  {
    if polls > 0 then NoneLate(epids, m, s) && NonePrompt(epids, m, env)
    else AnsweredEarly(epids, m0, present, env, m, s, |epids|) && OnlyEarly(epids, m0, present, env, s, |epids|)
  }

  /** The first poll. */
  lemma FirstPolled(epids: seq<Epid>, m0: seq<Mask>, present: set<Epid>, env: Arrivals, e0: seq<Err>, polls: nat,
                    m: seq<Mask>, e: seq<Err>, s: map<Epid, To>, err: Err)
    requires PolledTo(epids, m0, e0, present, env, m, e, s, |epids|)
    requires forall j :: 0 <= j < |m0| ==> m0[j].PreReq? || m0[j].NoReq?
    requires err == OK ==> forall j :: 0 <= j < |epids| ==> !m[j].PostReq?
    ensures SoFar(epids, m0, present, env, e0, m, e)
    ensures err == OK || polls == 0 ==> Waited(epids, m0, present, env, polls, m, s)
  {
  }

  /** A later one. */
  lemma LaterPolled(epids: seq<Epid>, m0: seq<Mask>, present: set<Epid>, env: Arrivals, e0: seq<Err>, polls: nat,
                    m: seq<Mask>, e: seq<Err>, later: set<Epid>, m': seq<Mask>, e': seq<Err>, s: map<Epid, To>)
    requires SoFar(epids, m0, present, env, e0, m, e) && polls > 0
    requires PolledTo(epids, m, e, later, env, m', e', s, |epids|)
    ensures SoFar(epids, m0, present, env, e0, m', e') && Waited(epids, m0, present, env, polls, m', s)
  {
  }

  /**
   Who is left replied to but not released: only if the time ran out at the first poll,
   and then each that was there, answers while a later one is being asked, and no other.
   */
  ghost predicate LeftReplied(epids: seq<Epid>, m0: seq<Mask>, present: set<Epid>, env: Arrivals, polls: nat,
                              e: seq<Err>, s: map<Epid, To>)
  {
    && |epids| == |m0| == |e|
    && (forall i :: 0 <= i < |epids| && m0[i].PreReq? && Is(s, epids[i], DiscReplied) ==>
          && polls == 0 && epids[i] in present && !env.pace(epids[i]).Slow?
          && AskedLater(epids, m0, present, i, |epids|))
    && (polls == 0 ==> forall i ::
          && 0 <= i < |epids| && m0[i].PreReq? && epids[i] in present && env.pace(epids[i]).Prompt?
          && AskedLater(epids, m0, present, i, |epids|)
          ==> Is(s, epids[i], DiscReplied) && e[i] == TIMEOUT)
  }

  /**
   How a disconnect ends for a peer that was to be asked.  One that is gone is forgotten,
   and nothing is reported.  One that is there is forgotten and OK reported, or it has not
   been released and TIMEOUT is reported; a slow one never is released, a prompt one always
   is if there is a second poll.
   */
  ghost predicate Parting(e: Epid, gone: bool, pace: Pace, polls: nat, err0: Err, err: Err, state: map<Epid, To>) {
    if gone then err == err0 && Is(state, e, ToNone)
    else
      && (err == OK ==> Is(state, e, ToNone) && !pace.Slow?)
      && (err != OK ==>
            && err == TIMEOUT && (Is(state, e, Established) || Is(state, e, DiscReplied))
            && (pace.Slow? ==> Is(state, e, Established)) && (pace.Prompt? ==> polls == 0))
  }

  /** An entry of a finished request. */
  ghost predicate FinalEntry(op: Op, wanted: bool, e: Epid, m: Mask, err: Err, addr: Option<Epid>,
                             state: map<Epid, To>)
  {
    if m.NoReq? then EntryOk(op, wanted, e, m, err, addr, state)
    else if !wanted || !m.Done? then false
    else if op.OpConnect? then
      || (err == OK && Is(state, e, Established) && addr == Some(e))
      || ((err == INVALID_VERSION || err == TIMEOUT) && !Is(state, e, Established))
    else
      Released(e, err, state)
  }

  lemma FinalFrame(op: Op, wanted: bool, e: Epid, m: Mask, err: Err, addr: Option<Epid>, state: map<Epid, To>,
                   x: Epid, t: To, final: bool)
    requires wanted ==> e != x
    requires if final then FinalEntry(op, wanted, e, m, err, addr, state)
             else EntryOk(op, wanted, e, m, err, addr, state)
    ensures if final then FinalEntry(op, wanted, e, m, err, addr, state[x := t])
            else EntryOk(op, wanted, e, m, err, addr, state[x := t])
  {
  }

  lemma WorstSame(mask: seq<Mask>, mask0: seq<Mask>, errs: seq<Err>, err: Err)
    requires |mask0| == |mask| == |errs| && Worst(mask, errs, |mask|, err)
    requires forall i :: 0 <= i < |mask| ==> (mask[i].NoReq? <==> mask0[i].NoReq?)
    ensures Worst(mask0, errs, |mask|, err)
  {
  }

  lemma FinalOutcome(epids: seq<Epid>, wanted: seq<bool>, mask: seq<Mask>, errs: seq<Err>, addr: seq<Option<Epid>>,
                     state: map<Epid, To>, err: Err)
    requires |epids| == |wanted| == |mask| == |errs| == |addr| && Worst(mask, errs, |mask|, err)
    requires forall i :: 0 <= i < |epids| ==>
               FinalEntry(OpConnect, wanted[i], epids[i], mask[i], errs[i], addr[i], state)
    ensures ConnectOutcome(epids, wanted, errs, addr, state, err)
  {
    forall i | 0 <= i < |epids|
      ensures !mask[i].NoReq? ==> wanted[i] && errs[i] in {OK, TIMEOUT, INVALID_VERSION}
      ensures mask[i].NoReq? && wanted[i] ==> errs[i] in {OK, UNREACHABLE}
    {
      assert FinalEntry(OpConnect, wanted[i], epids[i], mask[i], errs[i], addr[i], state);
    }
    WorstReported(wanted, mask, errs, err);
  }

  /** Each peer that has replied and was not accepted yet belongs to an asked entry from `from` on. */
  ghost predicate Owners(op: Op, epids: seq<Epid>, wanted: seq<bool>, mask: seq<Mask>, state: map<Epid, To>, from: nat)
    requires |epids| == |wanted| == |mask|
  {
    forall e :: Is(state, e, Replied) ==>
      op.OpConnect? && exists j :: from <= j < |epids| && wanted[j] && mask[j].PostReq? && epids[j] == e
  }

  lemma OwnersPast(op: Op, epids: seq<Epid>, wanted: seq<bool>, mask: seq<Mask>, mask': seq<Mask>,
                   state: map<Epid, To>, state': map<Epid, To>, i: nat)
    requires i < |epids| == |wanted| == |mask| == |mask'| && Owners(op, epids, wanted, mask, state, i)
    requires forall e :: Is(state', e, Replied) ==> Is(state, e, Replied)
    requires forall j :: 0 <= j < |epids| && j != i ==> mask'[j] == mask[j]
    requires mask[i].PostReq? ==> !Is(state', epids[i], Replied)
    ensures Owners(op, epids, wanted, mask', state', i + 1)
  {
  }

  class Request {
    const op: Op
    const phase: nat
    const epids: seq<Epid>
    const wanted: seq<bool>
    const errors: array<Err>
    var mask: seq<Mask>
    var addr: seq<Option<Epid>>
    var numepLeft: nat

    constructor (op: Op, phase: nat, epids: seq<Epid>, wanted: seq<bool>, errors: array<Err>, mask: seq<Mask>,
                 addr: seq<Option<Epid>>, left: nat)
      ensures this.op == op && this.phase == phase && this.epids == epids && this.wanted == wanted
      ensures this.errors == errors
      ensures this.mask == mask && this.addr == addr && numepLeft == left
    {
      this.op, this.phase, this.epids, this.wanted, this.errors := op, phase, epids, wanted, errors;
      this.mask, this.addr, numepLeft := mask, addr, left;
    }

    ghost predicate Shaped()
      reads this
    {
      && |epids| == |wanted| == |mask| == |addr| == errors.Length
      && Distinct(epids, wanted) && numepLeft == CountActive(mask)
    }

    /** Every entry of the request agrees with the peer's state. */
    ghost predicate Entries(state: map<Epid, To>)
      requires Shaped()
      reads this, errors
    {
      forall i :: 0 <= i < |epids| ==> EntryOk(op, wanted[i], epids[i], mask[i], errors[i], addr[i], state)
    }

    /** Only peers this request has asked are in the state between reply and acceptance. */
    ghost predicate Owns(state: map<Epid, To>)
      requires Shaped()
      reads this
    {
      Owners(op, epids, wanted, mask, state, 0)
    }

    /** The request is being finished; entries before i are. */
    ghost predicate Finishing(state: map<Epid, To>, i: nat)
      reads this, errors
    {
      && |epids| == |wanted| == |mask| == |addr| == errors.Length && Distinct(epids, wanted) && i <= |epids|
      && (forall j :: 0 <= j < i ==> FinalEntry(op, wanted[j], epids[j], mask[j], errors[j], addr[j], state))
      && (forall j :: i <= j < |epids| ==> EntryOk(op, wanted[j], epids[j], mask[j], errors[j], addr[j], state))
      && Owners(op, epids, wanted, mask, state, i)
    }

    /** Entries that are not wanted keep their error. */
    twostate predicate Spared()
      reads errors
    {
      |epids| == |wanted| == errors.Length ==>
        forall i :: 0 <= i < |epids| && !wanted[i] ==> errors[i] == old(errors[i])
    }

    /** Entries that do not wait for an answer keep their error. */
    twostate predicate Still(m: seq<Mask>)
      reads errors
    {
      |epids| == |m| == errors.Length ==>
        forall i :: 0 <= i < |m| && !m[i].PostReq? ==> errors[i] == old(errors[i])
    }

    /** Every entry has come to its end. */
    twostate predicate AllEnded(state: map<Epid, To>)
      reads this, errors
    {
      && |epids| == |mask| == |addr| == errors.Length == |old(mask)| == |old(addr)|
      && forall i :: 0 <= i < |epids| ==>
           Ended(epids[i], old(mask)[i], state, old(errors[i]), old(addr)[i], errors[i], addr[i])
    }

    /** The entries before n have, and the others are as they were. */
    twostate predicate EndedTo(s0: map<Epid, To>, state: map<Epid, To>, n: nat)
      reads this, errors
    {
      && n <= |epids| == |wanted| == |mask| == |addr| == errors.Length == |old(mask)| == |old(addr)|
      && (forall i :: 0 <= i < n ==>
            Ended(epids[i], old(mask)[i], s0, old(errors[i]), old(addr)[i], errors[i], addr[i]))
      && (forall i :: n <= i < |epids| ==>
            mask[i] == old(mask)[i] && addr[i] == old(addr)[i] && errors[i] == old(errors[i]))
      && (forall i :: n <= i < |epids| && wanted[i] ==> (Is(state, epids[i], Replied) <==> Is(s0, epids[i], Replied)))
    }

    /** Packet p is this request's own, for an entry that waits for it. */
    ghost predicate Asked(p: Packet, state: map<Epid, To>)
      requires Shaped()
      reads this
    {
      && p.op == op && p.perr == errors && p.idx < |epids|
      && wanted[p.idx] && mask[p.idx].PostReq? && p.peer == epids[p.idx] && Pending(p, state)
    }
  }

  class Ptl {
    const reachable: Epid -> bool
    var phase: nat
    var state: map<Epid, To>
    var req: Request?
    var net: set<Packet>

    constructor (reachable: Epid -> bool)
      ensures Valid() && this.reachable == reachable && phase == 0 && state == map[] && req == null && net == {}
    {
      this.reachable, phase, state, req, net := reachable, 0, map[], null, {};
    }

    ghost predicate NetOk()
      reads this, req
      requires req != null ==> req.Shaped()
    {
      forall p :: p in net ==>
        && p.idx < p.perr.Length && p.phase <= phase
        && (p.phase == phase ==> req != null && req.Asked(p, state))
    }

    ghost predicate Valid()
      reads this, req, if req == null then {} else {req.errors}
    {
      && (forall e :: e in state ==> reachable(e))
      && (req == null ==> forall e :: !Is(state, e, Replied))
      && (req != null ==>
            && req.phase == phase && req.Shaped() && req.Entries(state) && req.Owns(state)
            && forall i :: 0 <= i < |req.epids| && Active(req.mask[i]) ==> reachable(req.epids[i]))
      && NetOk()
    }

    /** A reply arrives.  This is the handler as written: it trusts the phase and nothing else. */
    method HandleReply(p: Packet)
      requires p in net && p.idx < p.perr.Length
      modifies this`net, this`state, if p.phase == phase then {p.perr} else {}
      ensures net == old(net) - {p}
      ensures p.phase != phase ==> state == old(state)
      ensures p.phase == phase ==>
                && p.perr[..] == old(p.perr[..])[p.idx := OK]
                && state == old(state)[p.peer := Answered(p.op)]
    {
      net := net - {p};
      if p.phase != phase { return; }
      p.perr[p.idx] := OK;
      state := state[p.peer := Answered(p.op)];
    }

    /** No reply from e is under way that the current phase would accept. */
    ghost predicate Unasked(e: Epid)
      reads this
    {
      e !in Asking(net, phase)
    }

    /** Every entry that was asked, but for entry x, has its packet under way or has been answered. */
    ghost predicate Owed(x: int)
      reads this, req
    {
      req != null ==>
        && |req.mask| == |req.epids|
        && forall i :: 0 <= i < |req.epids| && i != x && req.mask[i].PostReq? ==>
             Packet(req.op, phase, req.epids[i], req.errors, i) in net || Is(state, req.epids[i], Answered(req.op))
    }

    /** So it is, and no slow peer has replied. */
    ghost predicate Tidy(env: Arrivals, x: int)
      reads this, req
    {
      Owed(x) && forall e :: Is(state, e, Replied) ==> !env.pace(e).Slow?
    }

    /**
     Stale-reply safety: the only memory a reply can change is the error array of
     the request now running, and then in the slot of a peer that was asked and
     had not answered; a reply of any other request changes nothing.
     */
    method Arrive(p: Packet)
      requires Valid() && p in net
      modifies this`net, this`state, if req == null then {} else {req.errors}
      ensures Valid() && net == old(net) - {p}
      ensures p.phase < phase ==> state == old(state) && (req != null ==> req.errors[..] == old(req.errors[..]))
      ensures p.phase == phase ==>
                && req != null && p.perr == req.errors && old(req.Asked(p, state))
                && req.errors[..] == old(req.errors[..])[p.idx := OK]
                && state == old(state)[p.peer := Answered(p.op)]
    {
      HandleReply(p);
      if p.phase == phase {
        ReplySettles(p);
      }
    }

    /** A reply of a peer that is not slow. */
    method ArriveTidily(p: Packet, env: Arrivals, ghost x: int)
      requires Valid() && p in net && Tidy(env, x) && !env.pace(p.peer).Slow?
      modifies this`net, this`state, if req == null then {} else {req.errors}
      ensures Valid() && net == old(net) - {p} && Tidy(env, x) && Drift(env, phase, old(net), old(state), net, state)
      ensures req != null ==> req.Still(req.mask)
    {
      ghost var net0, state0 := net, state;
      Arrive(p);
      DriftArrives(env, phase, net0, state0, p, state);
    }

    /** A peer becomes known, a reply comes in, or nothing does. */
    method ReceiveOne(env: Arrivals, ghost x: int)
      requires Valid() && Tidy(env, x)
      modifies this`net, this`state, if req == null then {} else {req.errors}
      ensures Valid() && Tidy(env, x) && Drift(env, phase, old(net), old(state), net, state)
      ensures req != null ==> req.Still(req.mask)
    {
      var e: Epid := *;
      if {
        case exists p :: p in net && !env.pace(p.peer).Slow? =>
          var p :| p in net && !env.pace(p.peer).Slow?;
          ArriveTidily(p, env, x);
        case e in env.callers && reachable(e) => PeerConnects(e);
        case true =>
      }
    }

    /** A peer asks to connect to us: its address becomes known. */
    method PeerConnects(e: Epid)
      requires Valid() && reachable(e)
      modifies this`state
      ensures Valid() && state == if e in old(state) then old(state) else old(state)[e := ToNone]
    {
      ghost var was := state;
      if e !in state { state := state[e := ToNone]; }
      forall x | Is(state, x, Replied) ensures Is(was, x, Replied) { }
    }

    twostate lemma ReplySettles(p: Packet)
      requires old(Valid()) && p in old(net) && p.phase == phase == old(phase) && req == old(req)
      requires net == old(net) - {p} && p.perr[..] == old(p.perr[..])[p.idx := OK]
      requires req != null ==>
                 req.mask == old(req.mask) && req.addr == old(req.addr) && req.numepLeft == old(req.numepLeft)
      requires state == old(state)[p.peer := Answered(p.op)]
      ensures Valid()
    {
      assert old(req.Asked(p, state));
      forall x | x != p.peer && Is(state, x, Replied) ensures Is(old(state), x, Replied) { }
      if p.op.OpConnect? {
        assert req.wanted[p.idx] && req.mask[p.idx].PostReq? && req.epids[p.idx] == p.peer;
      }
    }

    /** Whatever arrives while the code polls: late and current replies, and peers that connect to us. */
    method ReceiveSome(env: Arrivals, ghost x: int)
      requires Valid() && Tidy(env, x)
      modifies this`net, this`state, if req == null then {} else {req.errors}
      ensures Valid() && Tidy(env, x) && Drift(env, phase, old(net), old(state), net, state)
      ensures forall p :: p in net ==> !env.pace(p.peer).Prompt?
      ensures req != null ==> req.Still(req.mask)
    {
      var k: nat := *;
      ghost var net0, state0 := net, state;
      while k > 0
        invariant Valid() && Tidy(env, x) && Drift(env, phase, net0, state0, net, state)
        invariant req != null ==> req.Still(req.mask)
      {
        k := k - 1;
        ghost var net1, state1 := net, state;
        ReceiveOne(env, x);
        DriftOn(env, phase, net0, state0, net1, state1, net, state);
      }
      DeliverPrompt(env, x, net0, state0);
    }

    method DeliverPrompt(env: Arrivals, ghost x: int, ghost net0: set<Packet>, ghost state0: map<Epid, To>)
      requires Valid() && Tidy(env, x) && Drift(env, phase, net0, state0, net, state)
      modifies this`net, this`state, if req == null then {} else {req.errors}
      ensures Valid() && Tidy(env, x) && Drift(env, phase, net0, state0, net, state)
      ensures forall p :: p in net ==> !env.pace(p.peer).Prompt?
      ensures req != null ==> req.Still(req.mask)
    {
      while exists p :: p in net && env.pace(p.peer).Prompt?
        invariant Valid() && Tidy(env, x) && Drift(env, phase, net0, state0, net, state)
        invariant req != null ==> req.Still(req.mask)
        decreases net
      {
        var p :| p in net && env.pace(p.peer).Prompt?;
        ghost var net1, state1 := net, state;
        ArriveTidily(p, env, x);
        DriftOn(env, phase, net0, state0, net1, state1, net, state);
      }
    }

    predicate ToAsk(wanted: bool, e: Epid, foreign: set<Epid>)
      reads this`state
    {
      wanted && reachable(e) && e !in foreign && !Is(state, e, Established)
    }

    // ---- connect ---------------------------------------------------------------------------

    /**
     Sort the epids: unreachable, already established, or to be asked.  `sane` is
     the debug assertion that a known peer is either established or idle.
     */
    method InitConnect(epids: seq<Epid>, wanted: seq<bool>, errors: array<Err>, foreign: set<Epid>, canAlloc: bool)
      returns (err: Err, addr: seq<Option<Epid>>, sane: bool)
      requires Valid() && req == null && |epids| == |wanted| == errors.Length && Distinct(epids, wanted)
      requires foreign !! state.Keys
      modifies this`phase, this`req, errors
      ensures Valid() && |addr| == |epids|
      ensures err == NO_MEMORY <==> !canAlloc
      ensures err == NO_MEMORY ==> req == null && phase == old(phase) && errors[..] == old(errors[..])
      ensures err == OK <==> canAlloc && req == null
      ensures err == OK ==> phase == old(phase) + 1 && ConnectOutcome(epids, wanted, errors[..], addr, state, OK)
      ensures err == NO_PROGRESS <==> req != null
      ensures req != null ==>
                && fresh(req) && req.op == OpConnect && req.epids == epids && req.wanted == wanted
                && req.errors == errors && phase == old(phase)
                && forall i :: 0 <= i < |epids| ==>
                     req.mask[i] == if ToAsk(wanted[i], epids[i], foreign) then PreReq else NoReq
      ensures canAlloc ==> (req == null <==> forall i :: 0 <= i < |epids| ==> !ToAsk(wanted[i], epids[i], foreign))
      ensures forall i :: 0 <= i < |epids| && !wanted[i] ==> errors[i] == old(errors[i])
      ensures canAlloc ==> (sane <==> forall i :: 0 <= i < |epids| && wanted[i] && reachable(epids[i]) ==>
                              !Is(state, epids[i], DiscReplied))
    {
      addr, sane := seq(|epids|, _ => None), true;
      if !canAlloc { return NO_MEMORY, addr, sane; }
      var mask, left;
      mask, addr, left, sane := SortEntries(epids, wanted, errors, foreign);
      CountNone(mask, Active);
      if left == 0 {
        phase := phase + 1;
        assert forall i :: 0 <= i < |epids| && wanted[i] ==> ConnectEntry(epids[i], NoReq, errors[i], addr[i], state);
        return OK, addr, sane;
      }
      req := new Request(OpConnect, phase, epids, wanted, errors, mask, addr, left);
      return NO_PROGRESS, addr, sane;
    }

    /** Unreachable, already established, or to be asked. */
    method SortEntries(epids: seq<Epid>, wanted: seq<bool>, errors: array<Err>, foreign: set<Epid>)
      returns (mask: seq<Mask>, addr: seq<Option<Epid>>, left: nat, sane: bool)
      requires |epids| == |wanted| == errors.Length && foreign !! state.Keys
      requires (forall e :: e in state ==> reachable(e)) && (forall e :: !Is(state, e, Replied))
      modifies errors
      ensures |mask| == |addr| == |epids| && left == CountActive(mask)
      ensures forall i :: 0 <= i < |epids| ==> mask[i] == if ToAsk(wanted[i], epids[i], foreign) then PreReq else NoReq
      ensures forall i :: 0 <= i < |epids| ==>
                EntryOk(OpConnect, wanted[i], epids[i], mask[i], errors[i], addr[i], state)
      ensures forall i :: 0 <= i < |epids| && Active(mask[i]) ==> reachable(epids[i])
      ensures forall i :: 0 <= i < |epids| && !wanted[i] ==> errors[i] == old(errors[i])
      ensures sane <==>
                forall i :: 0 <= i < |epids| && wanted[i] && reachable(epids[i]) ==> !Is(state, epids[i], DiscReplied)
    {
      mask, addr, left, sane := [], [], 0, true;
      for i := 0 to |epids|
        invariant |mask| == |addr| == i && left == CountActive(mask)
        invariant forall j :: 0 <= j < i ==> EntryOk(OpConnect, wanted[j], epids[j], mask[j], errors[j], addr[j], state)
        invariant forall j :: 0 <= j < |epids| && (j >= i || !wanted[j]) ==> errors[j] == old(errors[j])
        invariant forall j :: 0 <= j < i ==> mask[j] == if ToAsk(wanted[j], epids[j], foreign) then PreReq else NoReq
        invariant sane <==>
                    forall j :: 0 <= j < i && wanted[j] && reachable(epids[j]) ==> !Is(state, epids[j], DiscReplied)
      {
        var m, a, idle := SortEntry(epids[i], wanted[i], errors, i, foreign);
        if m != NoReq { left := left + 1; }
        sane := sane && idle;
        assert (mask + [m])[..i] == mask;
        mask, addr := mask + [m], addr + [a];
      }
    }

    method SortEntry(e: Epid, wanted: bool, errors: array<Err>, i: nat, foreign: set<Epid>)
      returns (m: Mask, a: Option<Epid>, idle: bool)
      requires i < errors.Length && foreign !! state.Keys
      requires (forall e :: e in state ==> reachable(e)) && (forall e :: !Is(state, e, Replied))
      modifies errors
      ensures m == if ToAsk(wanted, e, foreign) then PreReq else NoReq
      ensures EntryOk(OpConnect, wanted, e, m, errors[i], a, state)
      ensures forall j :: 0 <= j < errors.Length && (j != i || !wanted) ==> errors[j] == old(errors[j])
      ensures idle <==> !(wanted && reachable(e) && Is(state, e, DiscReplied))
    {
      m, a, idle := NoReq, None, true;
      if !wanted { return; }
      if !reachable(e) || e in foreign {
        errors[i] := UNREACHABLE;
      } else if e in state {
        a := Some(e);
        if state[e] == Established {
          errors[i] := OK;
        } else {
          idle := state[e] == ToNone;
          errors[i] := TIMEOUT;
          m := PreReq;
        }
      } else {
        m := PreReq;
      }
    }

    /** No connection is lost. */
    twostate predicate Holding()
      reads this
    {
      forall e :: old(Is(state, e, Established)) ==> Is(state, e, Established)
    }

    /** No connection is made. */
    twostate predicate Gaining()
      reads this
    {
      exists e :: Is(state, e, Established) && !old(Is(state, e, Established))
    }

    /** A reply has come for entry i: the peer is established. */
    method Accept(i: nat)
      requires Valid() && req != null && req.op.OpConnect? && i < |req.epids| && req.wanted[i] && Owed(-1)
      requires req.mask[i].PostReq? && Is(state, req.epids[i], Replied)
      modifies this`state, req`mask, req`numepLeft
      ensures Valid() && req.mask == old(req.mask)[i := Done] && state == old(state)[req.epids[i] := Established]
      ensures Owed(-1)
    {
      Settle(i);
      forall j | 0 <= j < |req.epids| && req.mask[j].PostReq?
        ensures Packet(req.op, phase, req.epids[j], req.errors, j) in net || Is(state, req.epids[j], Replied)
      {
        assert j != i && req.wanted[j] && req.epids[j] != req.epids[i];
      }
    }

    method Settle(i: nat)
      requires Valid() && req != null && req.op.OpConnect? && i < |req.epids| && req.wanted[i]
      requires req.mask[i].PostReq? && Is(state, req.epids[i], Replied)
      modifies this`state, req`mask, req`numepLeft
      ensures Valid() && req.mask == old(req.mask)[i := Done] && state == old(state)[req.epids[i] := Established]
    {
      var r, e := req, req.epids[i];
      CountUpdate(r.mask, Active, i, Done);
      ghost var was := state;
      state := state[e := Established];
      r.mask := r.mask[i := Done];
      r.numepLeft := r.numepLeft - 1;
      forall x | Is(state, x, Replied) ensures Is(was, x, Replied) && x != e { }
      forall j | 0 <= j < |r.epids|
        ensures EntryOk(r.op, r.wanted[j], r.epids[j], r.mask[j], r.errors[j], r.addr[j], state)
      {
        if j != i {
          EntryFrame(r.op, r.wanted[j], r.epids[j], r.mask[j], r.errors[j], r.addr[j], was, e, Established);
        }
      }
    }

    /** The peer of entry i runs a version we cannot talk to. */
    method Refuse(i: nat)
      requires Valid() && req != null && req.op.OpConnect? && i < |req.epids| && req.wanted[i] && req.mask[i].PreReq?
      modifies req`mask, req`numepLeft, req.errors
      ensures Valid() && req.mask == old(req.mask)[i := Done]
      ensures req.errors[..] == old(req.errors[..])[i := INVALID_VERSION]
    {
      var r := req;
      CountUpdate(r.mask, Active, i, Done);
      r.errors[i] := INVALID_VERSION;
      r.mask := r.mask[i := Done];
      r.numepLeft := r.numepLeft - 1;
    }

    /** Entry i's peer is mapped: make its address known and note that it is being asked. */
    method Mark(i: nat, canAdd: bool) returns (ok: bool)
      requires Valid() && req != null && req.op.OpConnect? && i < |req.epids| && req.wanted[i] && req.mask[i].PreReq?
      modifies this`state, req`mask, req`addr
      ensures Valid() && (ok ==> Unasked(req.epids[i]) && !Is(state, req.epids[i], Replied))
      ensures ok <==> canAdd || old(req.epids[i] in state)
      ensures req.mask == if ok then old(req.mask)[i := PostReq] else old(req.mask)
      ensures forall e :: e in old(state) ==> e in state && state[e] == old(state)[e]
      ensures ok ==> state.Keys == old(state.Keys) + {req.epids[i]}
      ensures !ok ==> state == old(state) && req.addr == old(req.addr)
      ensures !Gaining()
    {
      var r, e := req, req.epids[i];
      if r.addr[i].None? && e !in state {
        if !canAdd { return false; }
        state := state[e := ToNone];
      }
      r.addr := r.addr[i := Some(e)];
      r.mask := r.mask[i := PostReq];
      AskedValid(i);
      return true;
    }

    /** Send a request packet; replies to others may come in while the code waits for a free slot. */
    method Send(i: nat, env: Arrivals)
      requires Valid() && req != null && i < |req.epids| && req.wanted[i] && req.mask[i].PostReq?
      requires Unasked(req.epids[i])
      requires Pending(Packet(req.op, phase, req.epids[i], req.errors, i), state) && Tidy(env, i) && req.op.OpConnect?
      modifies this`state, this`net, req.errors
      ensures Valid() && Tidy(env, -1) && req.Spared() && Holding()
      ensures old(state).Keys <= state.Keys <= old(state).Keys + env.callers
      ensures !Gaining()
    {
      ReceiveSome(env, i);
      Post(i);
    }

    /** The packet is in the ring. */
    method Post(i: nat)
      requires Valid() && req != null && i < |req.epids| && req.wanted[i] && req.mask[i].PostReq?
      requires Pending(Packet(req.op, phase, req.epids[i], req.errors, i), state)
      modifies this`net
      ensures Valid() && net == old(net) + {Packet(req.op, phase, req.epids[i], req.errors, i)}
    {
      net := net + {Packet(req.op, phase, req.epids[i], req.errors, i)};
    }

    /** One more packet of the running request. */
    method Ask(i: nat, canAdd: bool, env: Arrivals) returns (ok: bool)
      requires Valid() && req != null && req.op.OpConnect? && i < |req.epids| && req.wanted[i] && req.mask[i].PreReq?
      requires Tidy(env, -1)
      modifies this`state, this`net, req`mask, req`addr, req.errors
      ensures Valid() && Tidy(env, -1) && req.Spared() && Holding()
      ensures ok <==> canAdd || old(req.epids[i] in state)
      ensures req.mask == if ok then old(req.mask)[i := PostReq] else old(req.mask)
      ensures !ok ==> state == old(state)
      ensures old(state).Keys <= state.Keys <= old(state).Keys + env.callers + {req.epids[i]}
      ensures !Gaining()
    {
      ok := Mark(i, canAdd);
      if ok { Send(i, env); }
    }

    twostate lemma AskedValid(i: nat)
      requires old(Valid()) && req != null && req == old(req) && net == old(net) && phase == old(phase)
      requires req.op.OpConnect? && i < |req.epids| && req.wanted[i] && old(req.mask[i].PreReq?)
      requires req.mask == old(req.mask)[i := PostReq] && req.addr == old(req.addr)[i := Some(req.epids[i])]
      requires req.errors[..] == old(req.errors[..]) && req.numepLeft == old(req.numepLeft)
      requires state == old(state) || (req.epids[i] !in old(state) && state == old(state)[req.epids[i] := ToNone])
      requires req.epids[i] in state
      ensures Valid() && Unasked(req.epids[i])
    {
      CountUpdate(old(req.mask), Active, i, PostReq);
      forall x | Is(state, x, Replied) ensures Is(old(state), x, Replied) && x != req.epids[i] { }
      assert forall j :: 0 <= j < |req.epids| ==> req.errors[j] == req.errors[..][j] == old(req.errors[..])[j];
    }

    /**
     One poll of a connect request: accept replies, then ask the peers that have
     appeared.  It fails exactly if a peer to be asked cannot be added and has not
     made itself known; those before it have been asked by then.
     */
    method PollConnect(dir: Directory, env: Arrivals) returns (err: Err, ghost at: nat)
      requires Valid() && req != null && req.op.OpConnect? && Tidy(env, -1)
      requires forall p :: p in net ==> !env.pace(p.peer).Prompt?
      modifies this`state, this`net, req`mask, req`addr, req`numepLeft, req.errors
      ensures Valid() && Tidy(env, -1) && req.Spared() && Holding()
      ensures old(state).Keys <= state.Keys <= old(state).Keys + env.callers + dir.canAdd
      ensures err == OK || err == NO_PROGRESS || err == NO_MEMORY
      ensures err == OK ==> forall i :: 0 <= i < |req.epids| ==> !Active(req.mask[i])
      ensures err != NO_MEMORY ==> AllPolled(req.epids, dir, env, old(req.mask), req.mask, old(state), state)
      ensures err == NO_MEMORY ==> PollStopped(req.epids, dir, env, old(req.mask), req.mask, old(state), state, at)
    {
      var ok;
      ok, at := AcceptAndAsk(dir, env);
      if !ok { return NO_MEMORY, at; }
      CountNone(req.mask, Active);
      return if req.numepLeft == 0 then OK else NO_PROGRESS, at;
    }

    method AcceptAndAsk(dir: Directory, env: Arrivals) returns (ok: bool, ghost at: nat)
      requires Valid() && req != null && req.op.OpConnect? && Tidy(env, -1)
      requires forall p :: p in net ==> !env.pace(p.peer).Prompt?
      modifies this`state, this`net, req`mask, req`addr, req`numepLeft, req.errors
      ensures Valid() && Tidy(env, -1) && req.Spared() && Holding()
      ensures old(state).Keys <= state.Keys <= old(state).Keys + env.callers + dir.canAdd
      ensures ok ==> AllPolled(req.epids, dir, env, old(req.mask), req.mask, old(state), state)
      ensures !ok ==> PollStopped(req.epids, dir, env, old(req.mask), req.mask, old(state), state, at)
    {
      ghost var m, s := req.mask, state;
      var nPrereq := AcceptReplies(env);
      ghost var m1, s1 := req.mask, state;
      CountNone(req.mask, Active);
      ok, at := true, |req.epids|;
      if nPrereq > 0 {
        assert req.numepLeft > 0;
        ok, at := AskAll(dir, env);
      }
      PollComposed(req.epids, dir, env, m, m1, req.mask, s, s1, state, at);
    }

    /** Entry i, in the first loop of a poll. */
    method AcceptIfReplied(i: nat, env: Arrivals)
      requires Valid() && req != null && req.op.OpConnect? && Tidy(env, -1) && i < |req.epids|
      modifies this`state, req`mask, req`numepLeft
      ensures Valid() && Tidy(env, -1) && state.Keys == old(state).Keys && Holding()
      ensures if old(req.mask[i].PostReq? && Is(state, req.epids[i], Replied))
              then req.mask == old(req.mask)[i := Done] && state == old(state)[req.epids[i] := Established]
              else req.mask == old(req.mask) && state == old(state)
      ensures forall j :: 0 <= j < |req.epids| && !req.wanted[j] ==> old(req.mask)[j].NoReq?
    {
      if req.mask[i].PostReq? && state[req.epids[i]] == Replied { Accept(i); }
    }

    /** Every asked peer that has replied is established. */
    method AcceptReplies(env: Arrivals) returns (nPrereq: nat)
      requires Valid() && req != null && req.op.OpConnect? && Tidy(env, -1)
      modifies this`state, req`mask, req`numepLeft
      ensures Valid() && Tidy(env, -1) && state.Keys == old(state).Keys && Holding()
      ensures nPrereq > 0 <==> exists i :: 0 <= i < |req.epids| && req.mask[i].PreReq?
      ensures forall i :: 0 <= i < |req.epids| ==>
                AcceptedEntry(req.epids[i], old(req.mask)[i], old(state), req.mask[i], state)
    {
      nPrereq := 0;
      ghost var first, m0, s0 := 0, req.mask, state;
      for i := 0 to |req.epids|
        invariant Valid() && Tidy(env, -1) && state.Keys == s0.Keys && Holding()
        invariant nPrereq == 0 ==> forall j :: 0 <= j < i ==> !m0[j].PreReq?
        invariant nPrereq > 0 ==> first < i && m0[first].PreReq?
        invariant AcceptedTo(req.epids, req.wanted, m0, s0, req.mask, state, i)
      {
        if req.mask[i].PreReq? { nPrereq, first := nPrereq + 1, i; }
        ghost var m, s := req.mask, state;
        AcceptIfReplied(i, env);
        AcceptedOn(req.epids, req.wanted, m0, s0, m, s, req.mask, state, i);
      }
    }

    /** Entry i, in the second loop of a poll. */
    method AskEntry(i: nat, dir: Directory, env: Arrivals) returns (ok: bool)
      requires Valid() && req != null && req.op.OpConnect? && Tidy(env, -1) && i < |req.epids|
      modifies this`state, this`net, req`mask, req`addr, req`numepLeft, req.errors
      ensures Valid() && Tidy(env, -1) && req.Spared() && Holding()
      ensures old(state).Keys <= state.Keys <= old(state).Keys + env.callers + dir.canAdd
      ensures ok ==> req.mask == old(req.mask)[i := AskedMask(dir, req.epids[i], old(req.mask)[i])]
      ensures !ok ==> req.mask == old(req.mask) && req.mask[i].PreReq? && Blocked(dir, req.epids[i])
      ensures !ok ==> req.epids[i] !in state
      ensures !Gaining()
    {
      ok := true;
      if req.mask[i].PreReq? && req.epids[i] in dir.mapped {
        if req.epids[i] !in dir.interop {
          Refuse(i);
        } else {
          ok := Ask(i, req.epids[i] in dir.canAdd, env);
        }
      }
    }

    /** Ask the peers that have appeared, up to the first whose address cannot be added. */
    method AskAll(dir: Directory, env: Arrivals) returns (ok: bool, ghost at: nat)
      requires Valid() && req != null && req.op.OpConnect? && Tidy(env, -1)
      modifies this`state, this`net, req`mask, req`addr, req`numepLeft, req.errors
      ensures Valid() && Tidy(env, -1) && req.Spared() && Holding()
      ensures old(state).Keys <= state.Keys <= old(state).Keys + env.callers + dir.canAdd
      ensures at <= |req.epids| && (ok <==> at == |req.epids|)
      ensures forall j :: 0 <= j < at ==> req.mask[j] == AskedMask(dir, req.epids[j], old(req.mask)[j])
      ensures forall j :: at <= j < |req.epids| ==> req.mask[j] == old(req.mask)[j]
      ensures !ok ==> req.mask[at].PreReq? && Blocked(dir, req.epids[at]) && req.epids[at] !in state
      ensures !Gaining()
    {
      ghost var m0, known := req.mask, state.Keys;
      for i := 0 to |req.epids|
        invariant Valid() && Tidy(env, -1) && req.Spared() && Holding() && !Gaining()
        invariant known <= state.Keys <= known + env.callers + dir.canAdd
        invariant forall j :: 0 <= j < i ==> req.mask[j] == AskedMask(dir, req.epids[j], m0[j])
        invariant forall j :: i <= j < |req.epids| ==> req.mask[j] == m0[j]
      {
        ok := AskEntry(i, dir, env);
        if !ok { return ok, i; }
      }
      return true, |req.epids|;
    }

    // ---- finishing -----------------------------------------------------------------------------

    /** Entry i has just been replied to. */
    method FinishReplied(r: Request, i: nat)
      requires i < |r.epids| && r.Finishing(state, i) && r.numepLeft >= CountActive(r.mask)
      requires r.mask[i].PostReq? && Is(state, r.epids[i], Replied)
      modifies this`state, r`mask, r`numepLeft
      ensures r.Finishing(state, i + 1) && r.numepLeft >= CountActive(r.mask)
      ensures state == old(state)[r.epids[i] := Established] && r.op.OpConnect? && r.mask == old(r.mask)[i := Done]
      ensures r.wanted[i]
    {
      ghost var was, mask := state, r.mask;
      CountUpdate(r.mask, Active, i, Done);
      r.mask := r.mask[i := Done];
      r.numepLeft := r.numepLeft - 1;
      state := state[r.epids[i] := Established];
      OwnersPast(r.op, r.epids, r.wanted, mask, r.mask, was, state, i);
      forall j | 0 <= j < |r.epids| && j != i
        ensures if j < i then FinalEntry(r.op, r.wanted[j], r.epids[j], r.mask[j], r.errors[j], r.addr[j], state)
                else EntryOk(r.op, r.wanted[j], r.epids[j], r.mask[j], r.errors[j], r.addr[j], state)
      {
        FinalFrame(r.op, r.wanted[j], r.epids[j], mask[j], r.errors[j], r.addr[j], was, r.epids[i], Established, j < i);
      }
    }

    /** Entry i, if still active: accept a reply that just came, time out otherwise. */
    method FinishEntry(r: Request, i: nat)
      requires i < |r.epids| && r.Finishing(state, i) && r.numepLeft >= CountActive(r.mask)
      modifies this`state, r`mask, r`addr, r`numepLeft, r.errors
      ensures r.Finishing(state, i + 1) && r.numepLeft >= CountActive(r.mask)
      ensures state.Keys == old(state.Keys) && (r.op.OpDisconnect? ==> state == old(state)) && Holding()
      ensures r.mask == old(r.mask)[i := if old(Active(r.mask[i])) then Done else old(r.mask[i])]
      ensures Ended(r.epids[i], old(r.mask[i]), old(state), old(r.errors[i]), old(r.addr[i]), r.errors[i], r.addr[i])
      ensures !r.wanted[i] ==> r.errors[i] == old(r.errors[i])
      ensures forall j :: 0 <= j < |r.epids| && j != i ==>
                r.errors[j] == old(r.errors[j]) && r.addr[j] == old(r.addr[j])
      ensures forall j :: 0 <= j < |r.epids| && j != i && r.wanted[j] ==>
                (Is(state, r.epids[j], Replied) <==> old(Is(state, r.epids[j], Replied)))
    {
      if r.mask[i].PostReq? && state[r.epids[i]] == Replied {
        FinishReplied(r, i);
      } else {
        FinishUnanswered(r, i);
      }
    }

    method FinishUnanswered(r: Request, i: nat)
      requires i < |r.epids| && r.Finishing(state, i) && r.numepLeft >= CountActive(r.mask)
      requires r.mask[i].PostReq? ==> !Is(state, r.epids[i], Replied)
      modifies r`mask, r`addr, r`numepLeft, r.errors
      ensures r.Finishing(state, i + 1) && r.numepLeft >= CountActive(r.mask)
      ensures r.mask == old(r.mask)[i := if old(Active(r.mask[i])) then Done else old(r.mask[i])]
      ensures Ended(r.epids[i], old(r.mask[i]), state, old(r.errors[i]), old(r.addr[i]), r.errors[i], r.addr[i])
      ensures !r.wanted[i] ==> r.errors[i] == old(r.errors[i])
      ensures forall j :: 0 <= j < |r.epids| && j != i ==>
                r.errors[j] == old(r.errors[j]) && r.addr[j] == old(r.addr[j])
    {
      ghost var mask := r.mask;
      CountUpdate(r.mask, Active, i, Done);
      if r.mask[i].PostReq? {
        r.mask := r.mask[i := Done];
        r.errors[i] := TIMEOUT;
      } else if r.mask[i].PreReq? {
        r.errors[i] := TIMEOUT;
        r.numepLeft := r.numepLeft - 1;
        r.addr := r.addr[i := None];
        r.mask := r.mask[i := Done];
      }
      OwnersPast(r.op, r.epids, r.wanted, mask, r.mask, state, state, i);
    }

    /** All entries, in turn. */
    method Leftovers(r: Request)
      requires r.Shaped() && r.Entries(state) && r.Owns(state)
      modifies this`state, r`mask, r`addr, r`numepLeft, r.errors
      ensures r.Finishing(state, |r.epids|) && state.Keys == old(state.Keys) && Holding()
      ensures forall e :: !Is(state, e, Replied)
      ensures forall i :: 0 <= i < |r.epids| ==> (r.mask[i].NoReq? <==> old(r.mask[i].NoReq?))
      ensures r.Spared() && r.AllEnded(old(state))
      ensures r.op.OpDisconnect? ==> state == old(state)
    {
      for i := 0 to |r.epids|
        invariant r.Finishing(state, i) && r.numepLeft >= CountActive(r.mask)
        invariant state.Keys == old(state.Keys) && Holding()
        invariant forall j :: 0 <= j < |r.epids| ==> (r.mask[j].NoReq? <==> old(r.mask[j].NoReq?))
        invariant r.Spared() && r.EndedTo(old(state), state, i)
        invariant r.op.OpDisconnect? ==> state == old(state)
      {
        FinishEntry(r, i);
      }
    }

    /** The worst error among the entries the request dealt with. */
    method Collect(r: Request) returns (err: Err)
      requires |r.mask| == |r.epids| == r.errors.Length
      ensures Worst(r.mask, r.errors[..], |r.mask|, err)
    {
      err := OK;
      ghost var errs := r.errors[..];
      for i := 0 to |r.epids|
        invariant Worst(r.mask, errs, i, err)
      {
        if !r.mask[i].NoReq? { err := ErrorCmp(err, r.errors[i]); }
      }
    }

    /** Give every entry its end and find the error to report. */
    method Conclude(r: Request) returns (err: Err)
      requires r.Shaped() && r.Entries(state) && r.Owns(state)
      modifies this`state, r`mask, r`addr, r`numepLeft, r.errors
      ensures (forall e :: !Is(state, e, Replied)) && state.Keys == old(state.Keys) && Holding()
      ensures |r.addr| == |r.epids| == |r.wanted| == |r.mask| == r.errors.Length && r.Spared() && r.AllEnded(old(state))
      ensures r.op.OpConnect? ==> ConnectOutcome(r.epids, r.wanted, r.errors[..], r.addr, state, err)
      ensures r.op.OpDisconnect? ==>
                && state == old(state) && Worst(old(r.mask), r.errors[..], |r.epids|, err)
                && forall i :: 0 <= i < |r.epids| && old(!r.mask[i].NoReq?) ==>
                     Released(r.epids[i], r.errors[i], state)
    {
      Leftovers(r);
      err := Collect(r);
      WorstSame(r.mask, old(r.mask), r.errors[..], err);
      if r.op.OpConnect? { FinalOutcome(r.epids, r.wanted, r.mask, r.errors[..], r.addr, state, err); }
    }

    /** End the running request.  Moving the phase on disowns its replies. */
    method Fini() returns (err: Err, addr: seq<Option<Epid>>)
      requires Valid() && req != null
      modifies this`phase, this`state, this`req, req`mask, req`addr, req`numepLeft, req.errors
      ensures Valid() && req == null && phase == old(phase) + 1 && state.Keys == old(state.Keys) && Holding()
      ensures var r := old(req);
              && |addr| == |r.epids| == |r.wanted| == |r.mask| == r.errors.Length
              && (r.op.OpConnect? ==> ConnectOutcome(r.epids, r.wanted, r.errors[..], addr, state, err))
              && (r.op.OpDisconnect? ==>
                    && state == old(state) && Worst(old(r.mask), r.errors[..], |r.epids|, err)
                    && forall i :: 0 <= i < |r.epids| && old(!r.mask[i].NoReq?) ==>
                         Released(r.epids[i], r.errors[i], state))
              && r.Spared() && r.AllEnded(old(state)) && r.addr == addr
    {
      phase := phase + 1;
      var r := req;
      err := Conclude(r);
      addr := r.addr;
      req := null;
    }

    /** Only new callers, and peers that could be added, have become known. */
    ghost predicate Newcomers(known: set<Epid>, env: Arrivals, dir: nat -> Directory, polls: nat)
      reads this
    {
      && known <= state.Keys
      && forall e :: e in state && e !in known && e !in env.callers ==>
           exists k: nat :: k <= polls && e in dir(k).canAdd
    }

    /** Poll until all is settled, time runs out, or an address cannot be added. */
    method PollConnects(polls: nat, dir: nat -> Directory, env: Arrivals, ghost m0: seq<Mask>)
      returns (err: Err, ghost k: nat, ghost at: nat)
      requires Valid() && req != null && req.op.OpConnect? && Tidy(env, -1) && req.mask == m0
      requires forall i :: 0 <= i < |req.mask| ==> req.mask[i].PreReq? || req.mask[i].NoReq?
      modifies this`state, this`net, req`mask, req`addr, req`numepLeft, req.errors
      ensures Valid() && Tidy(env, -1) && req.Spared() && Newcomers(old(state).Keys, env, dir, polls) && k <= polls
      ensures PollEnds(req.epids, m0, dir, k, env, req.mask, state, err, at) && (err == NO_PROGRESS ==> k == polls)
    {
      var n := 0;
      ghost var known := state.Keys;
      k := 0;
      while true
        invariant k == n <= polls && Valid() && Tidy(env, -1) && req.Spared() && Newcomers(known, env, dir, polls)
        invariant Stages(req.epids, m0, dir, n, env, req.mask, state) && Untouched(m0, req.mask)
        decreases polls - n
      {
        err, at := PollOnce(n, dir, env, m0, known, polls);
        if err != NO_PROGRESS || n == polls { break; }
        n, k := n + 1, k + 1;
      }
    }

    /** Poll number k. */
    method PollOnce(k: nat, dir: nat -> Directory, env: Arrivals, ghost m0: seq<Mask>, ghost known: set<Epid>,
                    ghost polls: nat)
      returns (err: Err, ghost at: nat)
      requires Valid() && req != null && req.op.OpConnect? && Tidy(env, -1) && k <= polls
      requires Stages(req.epids, m0, dir, k, env, req.mask, state) && Untouched(m0, req.mask)
      requires Newcomers(known, env, dir, polls)
      modifies this`state, this`net, req`mask, req`addr, req`numepLeft, req.errors
      ensures Valid() && Tidy(env, -1) && req.Spared() && Newcomers(known, env, dir, polls)
      ensures PollEnds(req.epids, m0, dir, k, env, req.mask, state, err, at)
    {
      ghost var s0 := state;
      ReceiveFirst(env);
      ghost var m, s := req.mask, state;
      StagesKept(req.epids, m0, dir, k, env, m, s0, s);
      err, at := PollConnect(dir(k), env);
      assert forall e :: e in state && e !in s ==> e in env.callers || e in dir(k).canAdd;
      if err != NO_MEMORY {
        StagesOn(req.epids, m0, dir, k, env, m, s, req.mask, state);
      } else {
        StoppedOn(req.epids, m0, dir, k, env, m, s, req.mask, state, at);
      }
    }

    /** The poll of the endpoint before a connect request is looked at. */
    method ReceiveFirst(env: Arrivals)
      requires Valid() && req != null && req.op.OpConnect? && Tidy(env, -1)
      modifies this`state, this`net, req.errors
      ensures Valid() && Tidy(env, -1) && req.Spared() && Holding()
      ensures forall p :: p in net ==> !env.pace(p.peer).Prompt?
      ensures old(state).Keys <= state.Keys <= old(state).Keys + env.callers
      ensures !Gaining()
    {
      ReceiveSome(env, -1);
    }

    /** Poll a request that has asked nobody yet, and finish it unless an address cannot be added. */
    method RunConnect(polls: nat, dir: nat -> Directory, env: Arrivals)
      returns (err: Err, addr: seq<Option<Epid>>, failed: bool, ghost k: nat, ghost at: nat)
      requires Valid() && req != null && req.op.OpConnect? && Tidy(env, -1)
      requires forall i :: 0 <= i < |req.mask| ==> req.mask[i].PreReq? || req.mask[i].NoReq?
      modifies this`phase, this`state, this`net, this`req, req`mask, req`addr, req`numepLeft, req.errors
      ensures req == null && Newcomers(old(state).Keys, env, dir, polls) && old(req).Spared()
      ensures var r := old(req); |addr| == |r.epids| == |r.wanted| == |r.mask| == r.errors.Length
      ensures !failed ==>
                && Valid() && phase == old(phase) + 1
                && ConnectOutcome(old(req).epids, old(req).wanted, old(req).errors[..], addr, state, err)
      ensures !failed ==> forall h: nat, i: nat :: h <= polls && i < |addr| ==>
                !CannotAsk(old(req.mask)[i].PreReq?, old(req).epids[i], dir, h, state)
      ensures !failed ==> forall h: nat, i: nat ::
                h < polls && i < |addr| && FoundPrompt(old(req.mask)[i].PreReq?, old(req).epids[i], dir, h, env) ==>
                  Is(state, old(req).epids[i], Established)
      ensures !failed ==> forall i :: 0 <= i < |addr| && old(req).wanted[i] ==>
                Verdict(old(req.mask)[i].PreReq?, dir, polls, env.pace(old(req).epids[i]), old(req).epids[i],
                        old(req).errors[i], addr[i])
      ensures failed ==>
                && err == NO_MEMORY && phase == old(phase)
                && (Valid() <==> forall i :: 0 <= i < |addr| ==> !old(req).mask[i].PostReq?)
      ensures failed ==> forall i ::
                0 <= i < |addr| && old(req).mask[i].PostReq? && env.pace(old(req).epids[i]).Slow? ==>
                  Packet(OpConnect, phase, old(req).epids[i], old(req).errors, i) in net
      ensures failed ==>
                k <= polls && Stopped(old(req).epids, old(req.mask), dir, k, env, old(req).mask, state, at)
    {
      ghost var m0 := req.mask;
      err, k, at := PollConnects(polls, dir, env, m0);
      failed := err == NO_MEMORY;
      if failed {
        addr := req.addr;
        Abandon(env);
      } else {
        AllStaged(req.epids, m0, dir, k, polls, env, req.mask, state);
        err, addr := FiniConnect(m0, dir, k, polls, env);
      }
    }

    /** Finish a connect whose polls were not stopped. */
    method FiniConnect(ghost m0: seq<Mask>, ghost dir: nat -> Directory, ghost k: nat, ghost polls: nat,
                       ghost env: Arrivals)
      returns (err: Err, addr: seq<Option<Epid>>)
      requires Valid() && req != null && req.op.OpConnect? && Tidy(env, -1) && k <= polls
      requires k == polls || forall i :: 0 <= i < |req.epids| ==> !Active(req.mask[i])
      requires Stages(req.epids, m0, dir, k + 1, env, req.mask, state) && Untouched(m0, req.mask)
      modifies this`phase, this`state, this`req, req`mask, req`addr, req`numepLeft, req.errors
      ensures Valid() && req == null && phase == old(phase) + 1 && state.Keys == old(state.Keys) && Holding()
      ensures var r := old(req);
              && |addr| == |r.epids| == |r.wanted| == |r.mask| == r.errors.Length == |m0| && r.Spared()
              && ConnectOutcome(r.epids, r.wanted, r.errors[..], addr, state, err)
              && forall i :: 0 <= i < |addr| && r.wanted[i] ==>
                   Verdict(m0[i].PreReq?, dir, polls, env.pace(r.epids[i]), r.epids[i], r.errors[i], addr[i])
    {
      ghost var r, m, s, errs, a := req, req.mask, state, req.errors[..], req.addr;
      err, addr := Fini();
      forall i | 0 <= i < |addr| && r.wanted[i]
        ensures Verdict(m0[i].PreReq?, dir, polls, env.pace(r.epids[i]), r.epids[i], r.errors[i], addr[i])
      {
        assert ConnectEntry(r.epids[i], m[i], errs[i], a[i], s);
        assert Ended(r.epids[i], m[i], s, errs[i], a[i], r.errors[i], addr[i]);
        if m0[i].PreReq? {
          VerdictRight(dir, k, polls, env.pace(r.epids[i]), r.epids[i], m[i], s, errs[i], a[i], r.errors[i], addr[i]);
        }
      }
    }

    /** The request is dropped where it stands: harmless if and only if nobody is asked and not accepted. */
    method Abandon(ghost env: Arrivals)
      requires Valid() && req != null && req.op.OpConnect? && Tidy(env, -1)
      modifies this`req
      ensures req == null
      ensures Valid() <==> forall i :: 0 <= i < |old(req).mask| ==> !old(req).mask[i].PostReq?
      ensures forall i :: 0 <= i < |old(req).mask| && old(req).mask[i].PostReq? && env.pace(old(req).epids[i]).Slow? ==>
                Packet(OpConnect, phase, old(req).epids[i], old(req).errors, i) in net
    {
      ghost var r := req;
      req := null;
      if i :| 0 <= i < |r.mask| && r.mask[i].PostReq? {
        assert Packet(OpConnect, phase, r.epids[i], r.errors, i) in net || Is(state, r.epids[i], Replied);
      }
    }

    /**
     Connect, start to end, with `polls` extra rounds before the time-out.  `was`
     says who was to be asked.

     It fails if and only if a peer that was to be asked appears, at some poll, with
     a version we can talk to, cannot be added then, and has not made itself known.
     The request is then abandoned where it stands: at the first such peer, entry
     `at` at poll k.  The endpoint is sound afterwards if and only if no entry had been
     asked and not yet accepted, which the directory and the peers' pace decide.
     */
    method Connect(epids: seq<Epid>, wanted: seq<bool>, errors: array<Err>, foreign: set<Epid>, canAlloc: bool,
                   polls: nat, dir: nat -> Directory, env: Arrivals)
      returns (err: Err, addr: seq<Option<Epid>>, sane: bool, failed: bool, ghost was: seq<Mask>,
               ghost left: seq<Mask>, ghost k: nat, ghost at: nat)
      requires Valid() && req == null && |epids| == |wanted| == errors.Length && Distinct(epids, wanted)
      requires foreign !! state.Keys
      modifies this`phase, this`state, this`net, this`req, errors
      ensures req == null && |addr| == |was| == |left| == |epids| && Newcomers(old(state).Keys, env, dir, polls)
      ensures forall i :: 0 <= i < |epids| ==>
                was[i] == if canAlloc && old(ToAsk(wanted[i], epids[i], foreign)) then PreReq else NoReq
      ensures !canAlloc ==>
                Valid() && !failed && err == NO_MEMORY && phase == old(phase) && errors[..] == old(errors[..])
      ensures canAlloc && !failed ==>
                Valid() && phase == old(phase) + 1 && ConnectOutcome(epids, wanted, errors[..], addr, state, err)
      ensures canAlloc && !failed ==> forall i :: 0 <= i < |epids| && wanted[i] ==>
                Verdict(was[i].PreReq?, dir, polls, env.pace(epids[i]), epids[i], errors[i], addr[i])
      ensures failed <==>
                exists k: nat, i: nat :: k <= polls && i < |epids| && CannotAsk(was[i].PreReq?, epids[i], dir, k, state)
      ensures failed ==>
                && err == NO_MEMORY && phase == old(phase)
                && (Valid() <==> forall i :: 0 <= i < |epids| ==> !left[i].PostReq?)
      ensures failed ==> k <= polls && Stopped(epids, was, dir, k, env, left, state, at)
      ensures failed ==> forall h: nat, i: nat :: i < |epids| && CannotAsk(was[i].PreReq?, epids[i], dir, h, state) ==>
                k < h || (k == h && at <= i)
      ensures failed && Harmless(epids, was, dir, k, env, at) ==> Valid()
      ensures failed && (forall i :: 0 <= i < |epids| && was[i].PreReq? ==> !env.pace(epids[i]).Unsure?) ==>
                (Valid() <==> Harmless(epids, was, dir, k, env, at))
      ensures failed ==> forall i :: 0 <= i < |epids| && left[i].PostReq? && env.pace(epids[i]).Slow? ==>
                Packet(OpConnect, phase, epids[i], errors, i) in net
      ensures !failed ==> forall h: nat, i: nat ::
                h < polls && i < |epids| && FoundPrompt(was[i].PreReq?, epids[i], dir, h, env) ==>
                  Is(state, epids[i], Established)
      ensures canAlloc ==> (sane <==> forall i :: 0 <= i < |epids| && wanted[i] && reachable(epids[i]) ==>
                              !old(Is(state, epids[i], DiscReplied)))
      ensures forall i :: 0 <= i < |epids| && !wanted[i] ==> errors[i] == old(errors[i])
    {
      failed, k, at := false, 0, 0;
      was := seq(|epids|, i requires 0 <= i < |epids| => NoReq);
      left := was;
      err, addr, sane := InitConnect(epids, wanted, errors, foreign, canAlloc);
      if err != NO_PROGRESS { return; }
      was := req.mask;
      ghost var r := req;
      err, addr, failed, k, at := RunConnect(polls, dir, env);
      left := r.mask;
      if failed {
        HarmlessExactly(epids, was, dir, k, env, left, state, at);
        FirstToStop(epids, was, dir, k, env, left, state, at);
      }
    }

    // ---- disconnect ------------------------------------------------------------------------------

    /** The peers that are established are to be asked; the phase moves on if there are none. */
    method InitDisconnect(epids: seq<Epid>, wanted: seq<bool>, errors: array<Err>)
      requires Valid() && req == null && |epids| == |wanted| == errors.Length && Distinct(epids, wanted)
      requires forall i :: 0 <= i < |epids| && wanted[i] ==> epids[i] in state
      modifies this`phase, this`req
      ensures Valid()
      ensures req == null <==> forall i :: 0 <= i < |epids| && wanted[i] ==> !Is(state, epids[i], Established)
      ensures phase == old(phase) + if req == null then 1 else 0
      ensures req != null ==>
                && fresh(req) && req.op == OpDisconnect && req.epids == epids && req.wanted == wanted
                && req.errors == errors
                && forall i :: 0 <= i < |epids| ==>
                     req.mask[i] == if wanted[i] && Is(state, epids[i], Established) then PreReq else NoReq
    {
      var mask: seq<Mask>, left := [], 0;
      for i := 0 to |epids|
        invariant |mask| == i && left == CountActive(mask)
        invariant forall j :: 0 <= j < i ==>
                    mask[j] == if wanted[j] && Is(state, epids[j], Established) then PreReq else NoReq
      {
        var m := if wanted[i] && state[epids[i]] == Established then PreReq else NoReq;
        if m != NoReq { left := left + 1; }
        assert (mask + [m])[..i] == mask;
        mask := mask + [m];
      }
      CountNone(mask, Active);
      if left == 0 {
        phase := phase + 1;
        return;
      }
      var addr := seq(|epids|, i requires 0 <= i < |epids| => Some(epids[i]));
      req := new Request(OpDisconnect, phase, epids, wanted, errors, mask, addr, left);
    }

    /** Entry i is finished with: its peer is gone, or has answered. */
    method Release(i: nat)
      requires Valid() && req != null && req.op.OpDisconnect? && i < |req.epids| && Owed(-1)
      requires req.mask[i].PreReq? || (req.mask[i].PostReq? && Is(state, req.epids[i], DiscReplied))
      modifies this`state, req`mask, req`numepLeft
      ensures Valid() && Owed(-1)
      ensures req.mask == old(req.mask)[i := Done] && state == old(state)[req.epids[i] := ToNone]
    {
      Forget(i);
      forall j | 0 <= j < |req.epids| && req.mask[j].PostReq?
        ensures Packet(req.op, phase, req.epids[j], req.errors, j) in net || Is(state, req.epids[j], DiscReplied)
      {
        assert j != i && req.wanted[j] && req.epids[j] != req.epids[i];
      }
    }

    method Forget(i: nat)
      requires Valid() && req != null && req.op.OpDisconnect? && i < |req.epids|
      requires req.mask[i].PreReq? || (req.mask[i].PostReq? && Is(state, req.epids[i], DiscReplied))
      modifies this`state, req`mask, req`numepLeft
      ensures Valid() && req.mask == old(req.mask)[i := Done] && state == old(state)[req.epids[i] := ToNone]
    {
      var r := req;
      CountUpdate(r.mask, Active, i, Done);
      ghost var was := state;
      r.numepLeft := r.numepLeft - 1;
      r.mask := r.mask[i := Done];
      state := state[r.epids[i] := ToNone];
      assert forall x :: Is(state, x, Replied) ==> Is(was, x, Replied);
      forall j | 0 <= j < |r.epids|
        ensures EntryOk(r.op, r.wanted[j], r.epids[j], r.mask[j], r.errors[j], r.addr[j], state)
      {
        if j != i {
          EntryFrame(r.op, r.wanted[j], r.epids[j], r.mask[j], r.errors[j], r.addr[j], was, r.epids[i], ToNone);
        }
      }
    }

    /** Entry i's peer is there: send it the request, then note that it was asked. */
    method AskDisconnect(i: nat, env: Arrivals)
      requires Valid() && req != null && req.op.OpDisconnect? && i < |req.epids| && req.mask[i].PreReq? && Tidy(env, -1)
      modifies this`state, this`net, req`mask, req.errors
      ensures Valid() && Tidy(env, -1) && req.mask == old(req.mask)[i := PostReq] && req.Spared()
      ensures Is(state, req.epids[i], Established) && req.Still(old(req.mask))
      ensures NoneElse(req.epids, env, old(req.mask), old(state), state)
      ensures forall j :: 0 <= j < |req.epids| && j != i && req.mask[j].PostReq? && env.pace(req.epids[j]).Prompt? ==>
                Is(state, req.epids[j], DiscReplied)
    {
      ReceiveOthers(env);
      NoteAsked(i);
    }

    /** What comes in before entries of a disconnect are asked. */
    method ReceiveOthers(env: Arrivals)
      requires Valid() && req != null && req.op.OpDisconnect? && Tidy(env, -1)
      modifies this`state, this`net, req.errors
      ensures Valid() && Tidy(env, -1) && req.Spared() && req.Still(req.mask)
      ensures NoneElse(req.epids, env, req.mask, old(state), state)
      ensures forall j :: 0 <= j < |req.epids| && req.mask[j].PreReq? ==> Is(state, req.epids[j], Established)
      ensures forall p :: p in net ==> !env.pace(p.peer).Prompt?
    {
      forall j | 0 <= j < |req.epids| && (req.mask[j].PreReq? || req.mask[j].Done?) ensures Unasked(req.epids[j]) { }
      ReceiveSome(env, -1);
    }

    method NoteAsked(i: nat)
      requires Valid() && req != null && req.op.OpDisconnect? && i < |req.epids| && req.mask[i].PreReq? && Owed(-1)
      modifies this`net, req`mask
      ensures Valid() && Owed(-1) && req.mask == old(req.mask)[i := PostReq]
    {
      CountUpdate(req.mask, Active, i, PostReq);
      net := net + {Packet(OpDisconnect, phase, req.epids[i], req.errors, i)};
      req.mask := req.mask[i := PostReq];
      assert forall e :: !Is(state, e, Replied);
    }

    /** Entry i of a poll: a peer that is gone or has answered is released, one that is there is asked. */
    method ReleaseOrAsk(i: nat, present: set<Epid>, env: Arrivals)
      requires Valid() && req != null && req.op.OpDisconnect? && Tidy(env, -1) && i < |req.epids|
      modifies this`state, this`net, req`mask, req`numepLeft, req.errors
      ensures Valid() && Tidy(env, -1) && req.Spared() && req.Still(old(req.mask))
      ensures req.mask == old(req.mask)[i := DiscMask(old(req.mask)[i], req.epids[i], present, old(state))]
      ensures old(req.mask)[i].PostReq? && req.mask[i].Done? ==> req.errors[i] == OK
      ensures if old(req.mask)[i].PreReq? && req.epids[i] in present
              then && Is(state, req.epids[i], Established)
                   && NoneElse(req.epids, env, old(req.mask), old(state), state)
                   && forall j ::
                        0 <= j < |req.epids| && j != i && req.mask[j].PostReq? && env.pace(req.epids[j]).Prompt? ==>
                          Is(state, req.epids[j], DiscReplied)
              else state == if req.mask == old(req.mask) then old(state) else old(state)[req.epids[i] := ToNone]
      ensures forall j :: 0 <= j < |req.epids| && !req.wanted[j] ==> req.mask[j].NoReq?
    {
      if req.mask[i].PreReq? {
        if req.epids[i] !in present { Release(i); } else { AskDisconnect(i, env); }
      } else if req.mask[i].PostReq? && state[req.epids[i]] == DiscReplied {
        Release(i);
      }
    }

    /** The same, with what it makes of the poll so far. */
    method ReleaseOrAskNext(i: nat, present: set<Epid>, env: Arrivals, ghost m0: seq<Mask>, ghost e0: seq<Err>)
      requires Valid() && req != null && req.op.OpDisconnect? && Tidy(env, -1) && i < |req.epids|
      requires PolledTo(req.epids, m0, e0, present, env, req.mask, req.errors[..], state, i)
      modifies this`state, this`net, req`mask, req`numepLeft, req.errors
      ensures Valid() && Tidy(env, -1)
      ensures PolledTo(req.epids, m0, e0, present, env, req.mask, req.errors[..], state, i + 1)
    {
      ghost var m, s, e := req.mask, state, req.errors[..];
      ReleaseOrAsk(i, present, env);
      PolledOn(req.epids, req.wanted, m0, e0, present, env, m, e, s, req.mask, req.errors[..], state, i);
    }

    method ReleaseOrAskAll(present: set<Epid>, env: Arrivals, ghost m0: seq<Mask>, ghost e0: seq<Err>)
      requires Valid() && req != null && req.op.OpDisconnect? && Tidy(env, -1) && req.mask == m0
      requires e0 == req.errors[..] && Quick(req.epids, m0, env, state) && WaitsTo(req.epids, m0, env, m0, state, 0)
      modifies this`state, this`net, req`mask, req`numepLeft, req.errors
      ensures Valid() && Tidy(env, -1)
      ensures PolledTo(req.epids, m0, e0, present, env, req.mask, req.errors[..], state, |req.epids|)
    {
      PolledNone(req.epids, m0, e0, present, env, state);
      for i := 0 to |req.epids|
        invariant Valid() && Tidy(env, -1)
        invariant PolledTo(req.epids, m0, e0, present, env, req.mask, req.errors[..], state, i)
      {
        ReleaseOrAskNext(i, present, env, m0, e0);
      }
    }

    method PollDisconnect(present: set<Epid>, env: Arrivals, ghost m0: seq<Mask>, ghost e0: seq<Err>)
      returns (err: Err)
      requires Valid() && req != null && req.op.OpDisconnect? && Tidy(env, -1) && req.mask == m0
      requires e0 == req.errors[..] && Quick(req.epids, m0, env, state) && WaitsTo(req.epids, m0, env, m0, state, 0)
      modifies this`state, this`net, req`mask, req`numepLeft, req.errors
      ensures Valid() && Tidy(env, -1) && (err == OK || err == NO_PROGRESS)
      ensures err == OK ==> forall i :: 0 <= i < |req.epids| && req.wanted[i] ==> !Is(state, req.epids[i], Established)
      ensures err == OK ==> forall i :: 0 <= i < |req.epids| ==> !req.mask[i].PostReq?
      ensures PolledTo(req.epids, m0, e0, present, env, req.mask, req.errors[..], state, |req.epids|)
    {
      ReleaseOrAskAll(present, env, m0, e0);
      CountNone(req.mask, Active);
      return if req.numepLeft == 0 then OK else NO_PROGRESS;
    }

    method PollDisconnectOnce(present: set<Epid>, env: Arrivals, ghost m0: seq<Mask>, ghost e0: seq<Err>)
      returns (err: Err)
      requires Valid() && req != null && req.op.OpDisconnect? && Tidy(env, -1) && req.mask == m0
      requires e0 == req.errors[..] && Quick(req.epids, m0, env, state)
      modifies this`state, this`net, req`mask, req`numepLeft, req.errors
      ensures Valid() && Tidy(env, -1) && (err == OK || err == NO_PROGRESS)
      ensures err == OK ==> forall i :: 0 <= i < |req.epids| ==> !req.mask[i].PostReq?
      ensures PolledTo(req.epids, m0, e0, present, env, req.mask, req.errors[..], state, |req.epids|)
    {
      ReceiveOthers(env);
      ghost var e := req.errors[..];
      err := PollDisconnect(present, env, m0, e);
    }

    method PollDisconnects(polls: nat, present: nat -> set<Epid>, env: Arrivals)
      requires Valid() && req != null && req.op.OpDisconnect? && Tidy(env, -1)
      requires forall i :: 0 <= i < |req.mask| ==> req.mask[i].PreReq? || req.mask[i].NoReq?
      modifies this`state, this`net, req`mask, req`numepLeft, req.errors
      ensures Valid()
      ensures Waited(req.epids, old(req.mask), present(0), env, polls, req.mask, state)
      ensures Quick(req.epids, req.mask, env, state)
      ensures SoFar(req.epids, old(req.mask), present(0), env, old(req.errors[..]), req.mask, req.errors[..])
    {
      ghost var m0, e0 := req.mask, req.errors[..];
      var err := PollDisconnectOnce(present(0), env, req.mask, req.errors[..]);
      FirstPolled(req.epids, m0, present(0), env, e0, polls, req.mask, req.errors[..], state, err);
      var k := 0;
      while err != OK && k < polls
        invariant Valid() && Tidy(env, -1) && k <= polls
        invariant k > 0 || err == OK || polls == 0 ==> Waited(req.epids, m0, present(0), env, polls, req.mask, state)
        invariant Quick(req.epids, req.mask, env, state)
        invariant SoFar(req.epids, m0, present(0), env, e0, req.mask, req.errors[..])
        decreases polls - k
      {
        k := k + 1;
        ghost var m, e := req.mask, req.errors[..];
        err := PollDisconnectOnce(present(k), env, req.mask, req.errors[..]);
        LaterPolled(req.epids, m0, present(0), env, e0, polls, m, e, present(k), req.mask, req.errors[..], state);
      }
    }

    /** Disconnect, start to end.  `was` says who was to be asked. */
    method Disconnect(epids: seq<Epid>, wanted: seq<bool>, errors: array<Err>, polls: nat, present: nat -> set<Epid>,
                      env: Arrivals)
      returns (err: Err, ghost was: seq<Mask>)
      requires Valid() && req == null && |epids| == |wanted| == errors.Length && Distinct(epids, wanted)
      requires forall i :: 0 <= i < |epids| && wanted[i] ==> epids[i] in state
      modifies this`phase, this`state, this`net, this`req, errors
      ensures Valid() && req == null && phase == old(phase) + 1 && |was| == |epids|
      ensures forall i :: 0 <= i < |epids| ==>
                was[i] == if wanted[i] && old(Is(state, epids[i], Established)) then PreReq else NoReq
      ensures forall i :: 0 <= i < |epids| && was[i].PreReq? ==>
                Parting(epids[i], epids[i] !in present(0), env.pace(epids[i]), polls, old(errors[i]), errors[i], state)
      ensures Worst(was, errors[..], |epids|, err)
      ensures LeftReplied(epids, was, present(0), env, polls, errors[..], state)
      ensures forall i :: 0 <= i < |epids| && !was[i].PreReq? ==> errors[i] == old(errors[i])
    {
      InitDisconnect(epids, wanted, errors);
      was := seq(|epids|, i requires 0 <= i < |epids| => NoReq);
      err := OK;
      if req == null { return; }
      was := req.mask;
      PollDisconnects(polls, present, env);
      err := FiniDisconnect(was, polls, present(0), env, old(errors[..]));
    }

    /** Finish a disconnect in which `was` says who was to be asked, and `present` who was there. */
    method FiniDisconnect(ghost was: seq<Mask>, ghost polls: nat, ghost present: set<Epid>, ghost env: Arrivals,
                          ghost e0: seq<Err>)
      returns (err: Err)
      requires Valid() && req != null && req.op.OpDisconnect?
      requires Quick(req.epids, req.mask, env, state)
      requires SoFar(req.epids, was, present, env, e0, req.mask, req.errors[..])
      requires Waited(req.epids, was, present, env, polls, req.mask, state)
      modifies this`phase, this`state, this`req, req`mask, req`addr, req`numepLeft, req.errors
      ensures Valid() && req == null && phase == old(phase) + 1 && state == old(state)
      ensures var r := old(req);
              && |was| == |r.epids| == r.errors.Length == |e0| && Worst(was, r.errors[..], |was|, err)
              && (forall i :: 0 <= i < |was| && was[i].NoReq? ==> r.errors[i] == e0[i])
              && LeftReplied(r.epids, was, present, env, polls, r.errors[..], state)
              && forall i :: 0 <= i < |was| && !was[i].NoReq? ==>
                   Parting(r.epids[i], r.epids[i] !in present, env.pace(r.epids[i]), polls, e0[i], r.errors[i], state)
    {
      ghost var r, m := req, req.mask;
      forall i | 0 <= i < |was|
        ensures EntryOk(OpDisconnect, r.wanted[i], r.epids[i], m[i], r.errors[i], r.addr[i], state)
      {
      }
      var addr;
      err, addr := Fini();
      WorstSame(m, was, r.errors[..], err);
    }
  }

  // ---- runs ------------------------------------------------------------------------------------

  /** A connect to two peers, of which the second cannot be added.  The first has been asked by then. */
  method AbandonTwo() returns (ptl: Ptl, errors: array<Err>, failed: bool)
    ensures fresh(ptl) && fresh(errors) && errors.Length == 2 && failed && !ptl.Valid()
    ensures Packet(OpConnect, ptl.phase, 1, errors, 0) in ptl.net
  {
    ptl := new Ptl(e => true);
    errors := new Err[2](_ => TIMEOUT);
    var epids, wanted := [1, 2], [true, true];
    var dir := _ => Directory({1, 2}, {1, 2}, {1});
    var err, addr, sane;
    ghost var was, left, k, at;
    assert ptl.ToAsk(wanted[1], epids[1], {}) && ptl.ToAsk(wanted[0], epids[0], {});
    var env := Arrivals({}, _ => Slow);
    err, addr, sane, failed, was, left, k, at := ptl.Connect(epids, wanted, errors, {}, true, 0, dir, env);
    assert FirstAt(dir, 0, epids[0]) && CannotAsk(was[1].PreReq?, epids[1], dir, 0, ptl.state);
    assert StoppedEntry(dir, k, true, Slow, epids[0], left[0], Is(ptl.state, epids[0], Established));
  }

  /** The peer that cannot be added appears at the third poll, when the other has been accepted: nothing is lost. */
  method AbandonLate() returns (ptl: Ptl, failed: bool)
    ensures failed && ptl.Valid()
  {
    ptl := new Ptl(e => true);
    var errors := new Err[2](_ => TIMEOUT);
    var epids, wanted := [2, 1], [true, true];
    var dir := n => Directory(if n < 2 then {1} else {1, 2}, {1, 2}, {1});
    var err, addr, sane;
    ghost var was, left, k, at;
    assert ptl.ToAsk(wanted[1], epids[1], {}) && ptl.ToAsk(wanted[0], epids[0], {});
    var env := Arrivals({}, _ => Prompt);
    err, addr, sane, failed, was, left, k, at := ptl.Connect(epids, wanted, errors, {}, true, 2, dir, env);
    assert FirstAt(dir, 2, epids[0]) && CannotAsk(was[0].PreReq?, epids[0], dir, 2, ptl.state);
  }

  /** It appears at the second poll, and the other peer does not answer: the endpoint is left unsound. */
  method AbandonSlow() returns (ptl: Ptl, failed: bool)
    ensures failed && !ptl.Valid()
  {
    ptl := new Ptl(e => true);
    var errors := new Err[2](_ => TIMEOUT);
    var epids, wanted := [2, 1], [true, true];
    var dir := n => Directory(if n < 1 then {1} else {1, 2}, {1, 2}, {1});
    var err, addr, sane;
    ghost var was, left, k, at;
    assert ptl.ToAsk(wanted[1], epids[1], {}) && ptl.ToAsk(wanted[0], epids[0], {});
    var env := Arrivals({}, _ => Slow);
    err, addr, sane, failed, was, left, k, at := ptl.Connect(epids, wanted, errors, {}, true, 1, dir, env);
    assert FirstAt(dir, 1, epids[0]) && CannotAsk(was[0].PreReq?, epids[0], dir, 1, ptl.state);
    assert FirstAt(dir, 0, epids[1]);
  }

  /**
   Why adding an address must not fail: an abandoned request leaves the phase
   where it was, and a reply to it still writes into the caller's memory.
   */
  method AbandonedRequest() returns (errors: array<Err>, failed: bool)
    ensures fresh(errors) && errors.Length == 2 && failed && errors[0] == OK
  {
    var ptl;
    ptl, errors, failed := AbandonTwo();
    errors[0] := TIMEOUT;
    ptl.HandleReply(Packet(OpConnect, ptl.phase, 1, errors, 0));
  }

  /** Two peers that answer at once are connected. */
  method ConnectTwo(env: Arrivals) returns (ptl: Ptl, errors: array<Err>)
    requires env == Arrivals({}, _ => Prompt)
    ensures fresh(ptl) && fresh(errors) && errors.Length == 2 && ptl.Valid() && ptl.req == null && ptl.reachable(1)
    ensures Is(ptl.state, 1, Established) && Is(ptl.state, 2, Established)
  {
    ptl := new Ptl(e => true);
    errors := new Err[2](_ => TIMEOUT);
    var epids, wanted := [1, 2], [true, true];
    var dir := _ => Directory({1, 2}, {1, 2}, {1, 2});
    var err, addr, sane, failed;
    ghost var was, left, k, at;
    assert ptl.ToAsk(wanted[1], epids[1], {}) && ptl.ToAsk(wanted[0], epids[0], {});
    err, addr, sane, failed, was, left, k, at := ptl.Connect(epids, wanted, errors, {}, true, 1, dir, env);
    assert FoundPrompt(was[0].PreReq?, epids[0], dir, 0, env) && FoundPrompt(was[1].PreReq?, epids[1], dir, 0, env);
  }

  /**
   Two peers are connected, and the time for their disconnect is up at its first
   poll, when the first of them has just answered: the next connect finds it in a
   state that its assertion does not allow for.
   */
  method LateDisconnect() returns (sane: bool)
    ensures !sane
  {
    var env := Arrivals({}, _ => Prompt);
    var ptl, errors := ConnectTwo(env);
    var epids, wanted := [1, 2], [true, true];
    var present := _ => {1, 2};
    assert epids[0] in present(0) && epids[1] in present(0);
    assert Is(ptl.state, epids[0], Established) && Is(ptl.state, epids[1], Established);
    var err;
    ghost var was;
    err, was := ptl.Disconnect(epids, wanted, errors, 0, present, env);
    assert was[1].PreReq? && AskedLater(epids, was, present(0), 0, 2);
    assert Is(ptl.state, epids[0], DiscReplied);
    var addr;
    err, addr, sane := ptl.InitConnect(epids, wanted, errors, {}, true);
    assert wanted[0] && ptl.reachable(epids[0]);
  }
}
