/** Small definitions that several modules share. */
module Basics {
  datatype Option<+T> = None | Some(value: T)

  newtype Byte = x: int | 0 <= x < 256

  function Min(a: nat, b: nat): nat { if a < b then a else b }

  /** `dst` with the bytes of `src` from `off` on. */
  function Overwrite(dst: seq<Byte>, off: nat, src: seq<Byte>): (r: seq<Byte>)
    requires off + |src| <= |dst|
    ensures |r| == |dst|
  {
    dst[..off] + src + dst[off + |src|..]
  }

  /** How many elements satisfy p. */
  function Count<T>(s: seq<T>, p: T -> bool): (c: nat)
    ensures c <= |s|
  {
    if s == [] then 0 else (if p(s[|s| - 1]) then 1 else 0) + Count(s[..|s| - 1], p)
  }

  lemma {:induction false} CountUpdate<T>(s: seq<T>, p: T -> bool, i: nat, x: T)
    requires i < |s|
    ensures Count(s[i := x], p) == Count(s, p) - (if p(s[i]) then 1 else 0) + (if p(x) then 1 else 0)
    decreases |s|
  {
    var n := |s| - 1;
    if i == n {
      assert s[i := x][..n] == s[..n];
    } else {
      assert s[i := x][..n] == s[..n][i := x];
      CountUpdate(s[..n], p, i, x);
    }
  }

  lemma {:induction false} CountNone<T>(s: seq<T>, p: T -> bool)
    ensures Count(s, p) == 0 <==> forall i :: 0 <= i < |s| ==> !p(s[i])
    decreases |s|
  {
    if s != [] {
      CountNone(s[..|s| - 1], p);
      assert forall i :: 0 <= i < |s| - 1 ==> s[..|s| - 1][i] == s[i];
    }
  }

  lemma {:induction false} CountAll<T>(s: seq<T>, p: T -> bool)
    requires forall i :: 0 <= i < |s| ==> p(s[i])
    ensures Count(s, p) == |s|
    decreases |s|
  {
    if s != [] { CountAll(s[..|s| - 1], p); }
  }

  /** Counting a prefix, element by element. */
  lemma {:induction false} CountPrefix<T>(s: seq<T>, p: T -> bool, i: nat)
    requires i < |s|
    ensures Count(s[..i + 1], p) == Count(s[..i], p) + (if p(s[i]) then 1 else 0) && Count(s[..i + 1], p) <= Count(s, p)
    decreases |s| - i
  {
    assert s[..i + 1][..i] == s[..i];
    if i + 1 < |s| { CountPrefix(s, p, i + 1); } else { assert s[..i + 1] == s; }
  }

  /** Elements past the first n that do not count do not matter. */
  lemma {:induction false} CountHead<T>(s: seq<T>, p: T -> bool, n: nat)
    requires n <= |s| && forall i :: n <= i < |s| ==> !p(s[i])
    ensures Count(s, p) == Count(s[..n], p)
    decreases |s|
  {
    if n == |s| {
      assert s[..n] == s;
    } else {
      CountHead(s[..|s| - 1], p, n);
      assert s[..|s| - 1][..n] == s[..n];
    }
  }
}
