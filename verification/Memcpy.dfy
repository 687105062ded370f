/**
 The tuned memory copy.  One outer loop chooses a copying scheme by the number
 of bytes left: single words, pairs of words, 64-byte blocks after aligning the
 destination to 8, or 128-byte blocks after aligning it to 16.  Memory is one
 array; addresses are indices, so alignment is that of the index.
 */
module Memcpy {
  import opened Basics

  const L1_BYTES := 65536
  const L2_BYTES := 1048576

  /** Plain copy, byte by byte: m with the n bytes at s also at d. */
  function Copied(m: seq<Byte>, d: nat, s: nat, n: nat): (r: seq<Byte>)
    requires d + n <= |m| && s + n <= |m|
    ensures |r| == |m|
  {
    if n == 0 then m else Copied(m, d, s, n - 1)[d + n - 1 := m[s + n - 1]]
  }

  predicate Apart(d: nat, s: nat, n: nat) { d + n <= s || s + n <= d }

  /** The destination holds the source, and nothing else changed. */
  lemma CopiedWhole(m: seq<Byte>, d: nat, s: nat, n: nat)
    requires d + n <= |m| && s + n <= |m|
    ensures Copied(m, d, s, n) == m[..d] + m[s..s + n] + m[d + n..]
  {
  }

  /** Copying w more bytes after the first k. */
  lemma CopyMore(m: seq<Byte>, d: nat, s: nat, n: nat, k: nat, w: nat)
    requires d + n <= |m| && s + n <= |m| && Apart(d, s, n) && k + w <= n
    ensures var c := Copied(m, d, s, k);
            && c[s + k..s + k + w] == m[s + k..s + k + w]
            && c[..d + k] + m[s + k..s + k + w] + c[d + k + w..] == Copied(m, d, s, k + w)
  {
    CopiedWhole(m, d, s, k);
    CopiedWhole(m, d, s, k + w);
    SliceMore(m, d, s, n, k, w);
  }

  lemma SliceMore(m: seq<Byte>, d: nat, s: nat, n: nat, k: nat, w: nat)
    requires d + n <= |m| && s + n <= |m| && Apart(d, s, n) && k + w <= n
    ensures var c := m[..d] + m[s..s + k] + m[d + k..];
            && c[s + k..s + k + w] == m[s + k..s + k + w]
            && c[..d + k] + m[s + k..s + k + w] + c[d + k + w..] == m[..d] + m[s..s + k + w] + m[d + k + w..]
  {
  }

  /** Store bytes held in registers. */
  method Store(mem: array<Byte>, a: nat, tmp: seq<Byte>)
    requires a + |tmp| <= mem.Length
    modifies mem
    ensures mem[..] == old(mem[..a]) + tmp + old(mem[a + |tmp|..])
  {
    for i := 0 to |tmp|
      invariant forall j :: 0 <= j < mem.Length ==> mem[j] == if a <= j < a + i then tmp[j - a] else old(mem[j])
    {
      mem[a + i] := tmp[i];
    }
    assert mem[..] == old(mem[..a]) + tmp + old(mem[a + |tmp|..]);
  }

  /** Bytes k .. k + w of the copy, loaded and then stored. */
  method Move(mem: array<Byte>, d: nat, s: nat, k: nat, w: nat, ghost n: nat, ghost m: seq<Byte>)
    requires d + n <= mem.Length == |m| && s + n <= |m| && Apart(d, s, n) && k + w <= n && mem[..] == Copied(m, d, s, k)
    modifies mem
    ensures mem[..] == Copied(m, d, s, k + w)
  {
    CopyMore(m, d, s, n, k, w);
    ghost var c := mem[..];
    var tmp := mem[s + k..s + k + w];
    assert tmp == c[s + k..s + k + w];
    Store(mem, d + k, tmp);
    assert mem[..] == c[..d + k] + tmp + c[d + k + w..];
  }

  method MoveIf(mem: array<Byte>, d: nat, s: nat, k: nat, w: nat, on: bool, ghost n: nat,
                ghost m: seq<Byte>) returns (next: nat)
    requires d + n <= mem.Length == |m| && s + n <= |m| && Apart(d, s, n) && k <= n && mem[..] == Copied(m, d, s, k)
    requires on ==> k + w <= n
    modifies mem
    ensures next == k + (if on then w else 0) && mem[..] == Copied(m, d, s, next)
  {
    next := k;
    if on {
      Move(mem, d, s, k, w, n, m);
      next := k + w;
    }
  }

  /** Fewer than 16 bytes: at most one word of each size. */
  method CopySmall(mem: array<Byte>, d: nat, s: nat, k: nat, n: nat, ghost m: seq<Byte>)
    requires d + n <= mem.Length == |m| && s + n <= |m| && Apart(d, s, n) && k <= n < k + 16
    requires mem[..] == Copied(m, d, s, k)
    modifies mem
    ensures mem[..] == Copied(m, d, s, n)
  {
    var left := n - k;
    if left == 0 { return; }
    if left == 1 || left == 2 || left == 4 || left == 8 {
      Move(mem, d, s, k, left, n, m);
      return;
    }
    var b8, b4, b2, b1 := left / 8 % 2 == 1, left / 4 % 2 == 1, left / 2 % 2 == 1, left % 2 == 1;
    FourBits(left);
    var at := MoveIf(mem, d, s, k, 8, b8, n, m);
    at := MoveIf(mem, d, s, at, 4, b4, n, m);
    at := MoveIf(mem, d, s, at, 2, b2, n, m);
    at := MoveIf(mem, d, s, at, 1, b1, n, m);
  }

  lemma FourBits(left: nat)
    requires left < 16
    ensures left == (if left / 8 % 2 == 1 then 8 else 0) + (if left / 4 % 2 == 1 then 4 else 0)
                    + (if left / 2 % 2 == 1 then 2 else 0) + (if left % 2 == 1 then 1 else 0)
  {
  }

  /** Fewer than 64 bytes: pairs of 8-byte words. */
  method CopyPairs(mem: array<Byte>, d: nat, s: nat, k: nat, n: nat, ghost m: seq<Byte>) returns (bytes: nat)
    requires d + n <= mem.Length == |m| && s + n <= |m| && Apart(d, s, n) && k + 16 <= n
    requires mem[..] == Copied(m, d, s, k)
    modifies mem
    ensures 16 <= bytes <= n - k && mem[..] == Copied(m, d, s, k + bytes)
  {
    var count, i := (n - k) / 8, 0;
    while i < count - 1
      invariant i <= count && i % 2 == 0 && mem[..] == Copied(m, d, s, k + 8 * i)
    {
      Move(mem, d, s, k + 8 * i, 16, n, m);
      i := i + 2;
    }
    bytes := 8 * i;
  }

  /** Single bytes, up to the alignment the destination needs. */
  method CopyBytes(mem: array<Byte>, d: nat, s: nat, k: nat, a: nat, ghost n: nat, ghost m: seq<Byte>)
    requires d + n <= mem.Length == |m| && s + n <= |m| && Apart(d, s, n) && k + a <= n && mem[..] == Copied(m, d, s, k)
    modifies mem
    ensures mem[..] == Copied(m, d, s, k + a)
  {
    for i := 0 to a
      invariant mem[..] == Copied(m, d, s, k + i)
    {
      Move(mem, d, s, k + i, 1, n, m);
    }
  }

  /** 64-byte blocks, each moved in two halves. */
  method CopyBlocks64(mem: array<Byte>, d: nat, s: nat, k: nat, count: nat, ghost n: nat, ghost m: seq<Byte>)
    requires d + n <= mem.Length == |m| && s + n <= |m| && Apart(d, s, n) && k + 64 * count <= n
    requires mem[..] == Copied(m, d, s, k)
    modifies mem
    ensures mem[..] == Copied(m, d, s, k + 64 * count)
  {
    for i := 0 to count
      invariant mem[..] == Copied(m, d, s, k + 64 * i)
    {
      Move(mem, d, s, k + 64 * i, 32, n, m);
      Move(mem, d, s, k + 64 * i + 32, 32, n, m);
    }
  }

  /** 128-byte blocks, whose first `early` bytes are stored before the rest is loaded. */
  method CopyBlocks128(mem: array<Byte>, d: nat, s: nat, k: nat, count: nat, early: nat, ghost n: nat,
                       ghost m: seq<Byte>)
    requires d + n <= mem.Length == |m| && s + n <= |m| && Apart(d, s, n) && k + 128 * count <= n
    requires mem[..] == Copied(m, d, s, k)
    requires early <= 128
    modifies mem
    ensures mem[..] == Copied(m, d, s, k + 128 * count)
  {
    for i := 0 to count
      invariant mem[..] == Copied(m, d, s, k + 128 * i)
    {
      Move(mem, d, s, k + 128 * i, early, n, m);
      Move(mem, d, s, k + 128 * i + early, 128 - early, n, m);
    }
  }

  /** Fewer than 64 KB: align the destination to 8, then 64-byte blocks. */
  method CopyCached(mem: array<Byte>, d: nat, s: nat, k: nat, n: nat, ghost m: seq<Byte>) returns (bytes: nat)
    requires d + n <= mem.Length == |m| && s + n <= |m| && Apart(d, s, n) && k + 64 <= n
    requires mem[..] == Copied(m, d, s, k)
    modifies mem
    ensures 0 < bytes <= n - k && mem[..] == Copied(m, d, s, k + bytes)
    ensures bytes < n - k ==> n - k - bytes < 64 && (bytes < 8 || (d + k + bytes) % 8 == 0)
  {
    var a := 8 - (d + k) % 8;
    var at := k;
    if a != 8 {
      CopyBytes(mem, d, s, k, a, n, m);
      at := k + a;
    }
    var count := (n - at) / 64;
    CopyBlocks64(mem, d, s, at, count, n, m);
    bytes := at - k + 64 * count;
  }

  lemma Aligned(a: nat, align: nat)
    requires align == (16 - a % 16) % 16
    ensures align < 16 && forall c: nat {:trigger 128 * c} :: (a + align + 128 * c) % 16 == 0
  {
  }

  /** Large copies: align the destination to 16, then 128-byte blocks; the last scheme moves its first word early. */
  method CopyLarge(mem: array<Byte>, d: nat, s: nat, k: nat, n: nat, ghost m: seq<Byte>) returns (bytes: nat)
    requires d + n <= mem.Length == |m| && s + n <= |m| && Apart(d, s, n) && k + L1_BYTES <= n
    requires mem[..] == Copied(m, d, s, k)
    modifies mem
    ensures 0 < bytes <= n - k && mem[..] == Copied(m, d, s, k + bytes)
    ensures n - k - bytes < 128 && (d + k + bytes) % 16 == 0
  {
    var align := (16 - (d + k) % 16) % 16;
    Aligned(d + k, align);
    var at := k;
    if align != 0 {
      CopyBytes(mem, d, s, k, align, n, m);
      at := k + align;
    }
    var count := (n - at) / 128;
    if (s + at) % 16 != 0 && n - at >= L2_BYTES / 4 {
      CopyBlocks128(mem, d, s, at, count, 16, n, m);
    } else {
      CopyBlocks128(mem, d, s, at, count, 0, n, m);
    }
    bytes := align + 128 * count;
  }

  /** One round of the outer loop: choose a scheme for what is left. */
  method CopySome(mem: array<Byte>, d: nat, s: nat, k: nat, n: nat, ghost m: seq<Byte>) returns (bytes: nat)
    requires d + n <= mem.Length == |m| && s + n <= |m| && Apart(d, s, n) && k <= n && mem[..] == Copied(m, d, s, k)
    modifies mem
    ensures bytes <= n - k && (k < n ==> bytes > 0) && mem[..] == Copied(m, d, s, k + bytes)
  {
    var left := n - k;
    if left < 16 {
      CopySmall(mem, d, s, k, n, m);
      bytes := left;
    } else if left < 64 {
      bytes := CopyPairs(mem, d, s, k, n, m);
    } else if left < L1_BYTES {
      bytes := CopyCached(mem, d, s, k, n, m);
    } else {
      bytes := CopyLarge(mem, d, s, k, n, m);
    }
  }

  /** The outer loop; every round leaves less to do. */
  method CopyAll(mem: array<Byte>, d: nat, s: nat, n: nat)
    requires d + n <= mem.Length && s + n <= mem.Length && Apart(d, s, n)
    modifies mem
    ensures mem[..] == Copied(old(mem[..]), d, s, n)
  {
    ghost var m := mem[..];
    var k := CopySome(mem, d, s, 0, n, m);
    while k < n
      invariant k <= n && mem[..] == Copied(m, d, s, k)
    {
      var bytes := CopySome(mem, d, s, k, n, m);
      k := k + bytes;
    }
  }

  /** The whole copy: whatever the length and the alignments, it is the plain copy and touches nothing else. */
  method Memcpyo(mem: array<Byte>, d: nat, s: nat, n: nat)
    requires d + n <= mem.Length && s + n <= mem.Length && Apart(d, s, n)
    modifies mem
    ensures mem[..] == old(mem[..])[..d] + old(mem[..])[s..s + n] + old(mem[..])[d + n..]
  {
    CopiedWhole(mem[..], d, s, n);
    CopyAll(mem, d, s, n);
  }
}
