/** Byte strings, big-endian integers and NUL-terminated text. */
module Bytes {
  type byte = b: int | 0 <= b < 256
  type Frame = seq<byte>

  /** A frame long enough to have a header: opcode, length, fragment id, program key. */
  type NFrame = f: Frame | |f| >= 4 witness [0, 0, 0, 0]

  /** The same fragment under another fragment id. */
  function WithId(f: NFrame, id: int): (r: NFrame)
    requires 0 <= id < 256
    ensures |r| == |f| && r[2] == id
  {
    f[2 := id]
  }

  lemma Renumber(f: NFrame, a: int, b: int)
    requires 0 <= a < 256 && 0 <= b < 256
    ensures WithId(WithId(f, a), b) == WithId(f, b)
    ensures WithId(f, f[2]) == f
  {
  }

  function Be16(v: int): (r: Frame)
    requires 0 <= v < 0x1_0000
    ensures |r| == 2
  {
    [v / 256, v % 256]
  }

  function Be24(v: int): (r: Frame)
    requires 0 <= v < 0x100_0000
    ensures |r| == 3
  {
    [v / 0x1_0000, v / 256 % 256, v % 256]
  }

  function Word16(f: Frame, o: nat): (v: int)
    requires o + 2 <= |f|
    ensures 0 <= v < 0x1_0000
  {
    f[o] as int * 256 + f[o + 1] as int
  }

  function Word24(f: Frame, o: nat): (v: int)
    requires o + 3 <= |f|
    ensures 0 <= v < 0x100_0000
  {
    f[o] as int * 0x1_0000 + f[o + 1] as int * 256 + f[o + 2] as int
  }

  /** Reading back a stored integer, and storing what was read, change nothing. */
  lemma BigEndian(v: int, f: Frame, o: nat)
    ensures 0 <= v < 0x1_0000 ==> Word16(Be16(v), 0) == v
    ensures 0 <= v < 0x100_0000 ==> Word24(Be24(v), 0) == v
    ensures o + 2 <= |f| ==> Be16(Word16(f, o)) == f[o..o + 2]
    ensures o + 3 <= |f| ==> Be24(Word24(f, o)) == f[o..o + 3]
  {
  }

  function Zeros(n: nat): (r: Frame)
    ensures |r| == n
  {
    seq(n, _ => 0)
  }

  /** `bytes.ljust(n, b"\0")`. */
  function Pad(s: Frame, n: nat): (r: Frame)
    requires |s| <= n
    ensures |r| == n
  {
    s + Zeros(n - |s|)
  }

  predicate NulFree(s: Frame) {
    forall k :: 0 <= k < |s| ==> s[k] != 0
  }

  /** `s.split(b"\0", 1)[0]`: the bytes before the first NUL. */
  function CutNul(s: Frame): (r: Frame)
    ensures NulFree(r) && |r| <= |s|
  {
    if s == [] || s[0] == 0 then [] else [s[0]] + CutNul(s[1..])
  }

  lemma {:induction false} CutNulAppend(a: Frame, b: Frame)
    requires NulFree(a)
    ensures CutNul(a + b) == a + CutNul(b)
  {
    if a == [] {
      assert a + b == b;
    } else {
      CutNulAppend(a[1..], b);
      assert (a + b)[1..] == a[1..] + b;
    }
  }

  lemma CutNulPad(a: Frame, n: nat)
    requires NulFree(a) && |a| <= n
    ensures CutNul(Pad(a, n)) == a
  {
    CutNulAppend(a, Zeros(n - |a|));
  }
}
