/** Error codes, and which of two is reported. */
module Errors {
  import opened Basics

  type Err = nat

  const OK: Err := 0
  const NO_PROGRESS: Err := 1
  const NO_MEMORY: Err := 4
  const INIT_NOT_INIT: Err := 5
  const INIT_BAD_API_VERSION: Err := 6
  const INTERNAL_ERR: Err := 8
  const SHMEM_SEGMENT_ERR: Err := 9
  const TIMEOUT: Err := 11
  const TOO_MANY_ENDPOINTS: Err := 12
  const NO_DEVICE: Err := 21
  const UNIT_NOT_FOUND: Err := 22
  const DEVICE_FAILURE: Err := 23
  const CLOSE_TIMEOUT: Err := 24
  const NO_PORTS_AVAIL: Err := 25
  const NO_NETWORK: Err := 26
  const EP_INVALID_UUID_KEY: Err := 27
  const NO_RESOURCES: Err := 28
  const UNREACHABLE: Err := 41
  const INVALID_NODE: Err := 43
  const INVALID_MTU: Err := 44
  const INVALID_UUID_KEY: Err := 45
  const INVALID_VERSION: Err := 46
  const INVALID_CONNECT: Err := 47
  const NETWORK_ERROR: Err := 49
  const INVALID_PKEY: Err := 50

  /** Codes that psmi_error_cmp reports first, most serious first. */
  const RANKED: seq<Err> := [4, 8, 5, 6, 21, 22, 23, 25, 12, 26, 9, 24, 27, 28, 49, 43, 47, 50, 46, 45, 44, 11]

  // ---- how serious a code is, by name --------------------------------------------------

  /** Runtime, before initialization. */
  function Runtime(e: Err): nat {
    if e == NO_MEMORY then 4 else if e == INTERNAL_ERR then 3 else if e == INIT_NOT_INIT then 2
    else if e == INIT_BAD_API_VERSION then 1 else 0
  }

  /** Before there is an endpoint. */
  function Device(e: Err): nat {
    if e == NO_DEVICE then 5 else if e == UNIT_NOT_FOUND then 4 else if e == DEVICE_FAILURE then 3
    else if e == NO_PORTS_AVAIL then 2 else if e == TOO_MANY_ENDPOINTS then 1 else 0
  }

  /** While it is opened or closed. */
  function Endpoint(e: Err): nat {
    if e == NO_NETWORK then 5 else if e == SHMEM_SEGMENT_ERR then 4 else if e == CLOSE_TIMEOUT then 3
    else if e == EP_INVALID_UUID_KEY then 2 else if e == NO_RESOURCES then 1 else 0
  }

  /** While it connects. */
  function Connecting(e: Err): nat {
    if e == NETWORK_ERROR then 7 else if e == INVALID_NODE then 6 else if e == INVALID_CONNECT then 5
    else if e == INVALID_PKEY then 4 else if e == INVALID_VERSION then 3 else if e == INVALID_UUID_KEY then 2
    else if e == INVALID_MTU then 1 else 0
  }

  /** An error of an earlier stage is more serious than one of a later stage, and a time-out less than any. */
  function Severity(e: Err): nat {
    if Runtime(e) > 0 then 18 + Runtime(e)
    else if Device(e) > 0 then 13 + Device(e)
    else if Endpoint(e) > 0 then 8 + Endpoint(e)
    else if Connecting(e) > 0 then 1 + Connecting(e)
    else if e == TIMEOUT then 1
    else 0
  }

  /** a is no worse than b: less serious, or both unranked and a the smaller number. */
  predicate NoWorse(a: Err, b: Err) { Severity(a) <= Severity(b) && (Severity(b) == 0 ==> a <= b) }

  // ---- the code -------------------------------------------------------------------------

  /** The place of a code in a ranking, or behind all of it. */
  function Rank(ranked: seq<Err>, e: Err): (k: nat)
    ensures k <= |ranked| && (k < |ranked| <==> e in ranked)
  {
    if ranked == [] || ranked[0] == e then 0 else 1 + Rank(ranked[1..], e)
  }

  function FirstRanked(ranked: seq<Err>, a: Err, b: Err): (r: Option<Err>)
    ensures r.Some? ==> r.value == a || r.value == b
    ensures r.Some? ==> Rank(ranked, r.value) <= Rank(ranked, a) && Rank(ranked, r.value) <= Rank(ranked, b)
    ensures r.Some? ==> r.value in ranked
    ensures r.None? <==> a !in ranked && b !in ranked
  {
    if ranked == [] then None
    else if a == ranked[0] || b == ranked[0] then Some(ranked[0])
    else FirstRanked(ranked[1..], a, b)
  }

  /**
   The worse of two error codes: the higher ranked, or the larger if neither is
   ranked; success comes only out of two successes.
   */
  method Worse(ranked: seq<Err>, a: Err, b: Err) returns (r: Err)
    requires OK !in ranked
    ensures r == a || r == b
    ensures Rank(ranked, r) <= Rank(ranked, a) && Rank(ranked, r) <= Rank(ranked, b)
    ensures a !in ranked && b !in ranked ==> r >= a && r >= b
    ensures r == OK <==> a == OK && b == OK
  {
    var first := FirstRanked(ranked, a, b);
    r := if first.Some? then first.value else if a > b then a else b;
  }

  /** The place of an element that does not occur before. */
  lemma {:induction false} RankAt(ranked: seq<Err>, i: nat)
    requires i < |ranked| && forall j :: 0 <= j < i ==> ranked[j] != ranked[i]
    ensures Rank(ranked, ranked[i]) == i
    decreases i
  {
    if i > 0 { RankAt(ranked[1..], i - 1); }
  }

  lemma RankedSeverity(i: nat)
    requires i < |RANKED|
    ensures Severity(RANKED[i]) == 22 - i && |RANKED| == 22
  {
  }

  lemma UnrankedSeverity(e: Err)
    requires Severity(e) > 0
    ensures e in RANKED
  {
    var r := RANKED;
    assert r[0] == 4 && r[1] == 8 && r[2] == 5 && r[3] == 6 && r[4] == 21 && r[5] == 22 && r[6] == 23 && r[7] == 25;
    assert r[8] == 12 && r[9] == 26 && r[10] == 9 && r[11] == 24 && r[12] == 27 && r[13] == 28 && r[14] == 49;
    assert r[15] == 43 && r[16] == 47 && r[17] == 50 && r[18] == 46 && r[19] == 45 && r[20] == 44 && r[21] == 11;
  }

  /** The ranking of the code is that of the names. */
  lemma RankIsSeverity(ranked: seq<Err>, e: Err)
    requires ranked == RANKED
    ensures Severity(e) == 22 - Rank(ranked, e) && |ranked| == 22
  {
    RankedSeverity(0);
    if e in ranked {
      var i :| 0 <= i < |ranked| && ranked[i] == e;
      RankedSeverity(i);
      forall j | 0 <= j < i ensures ranked[j] != e { RankedSeverity(j); }
      RankAt(ranked, i);
    } else if Severity(e) > 0 {
      UnrankedSeverity(e);
    }
  }

  /** A ranking that orders codes as their names do. */
  ghost predicate ByName(ranked: seq<Err>) { forall e {:trigger Severity(e)} :: Severity(e) == 22 - Rank(ranked, e) }

  lemma RankedByName(ranked: seq<Err>)
    requires ranked == RANKED
    ensures ByName(ranked) && |ranked| == 22
  {
    RankIsSeverity(ranked, OK);
    forall e ensures Severity(e) == 22 - Rank(ranked, e) { RankIsSeverity(ranked, e); }
  }

  method WorseByName(ranked: seq<Err>, a: Err, b: Err) returns (r: Err)
    requires ByName(ranked) && |ranked| == 22
    ensures r == a || r == b
    ensures NoWorse(a, r) && NoWorse(b, r)
    ensures r == OK <==> a == OK && b == OK
  {
    assert Severity(OK) == 0;
    r := Worse(ranked, a, b);
  }

  /** The worst of two codes. */
  method ErrorCmp(a: Err, b: Err) returns (r: Err)
    ensures r == a || r == b
    ensures NoWorse(a, r) && NoWorse(b, r)
    ensures r == OK <==> a == OK && b == OK
  {
    var ranked := RANKED;
    RankedByName(ranked);
    r := WorseByName(ranked, a, b);
  }
}
