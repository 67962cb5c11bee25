/** Four-byte identifiers, ordered as memcmp orders them. */
module Ids {
  type Byte = b: int | 0 <= b < 256

  datatype Id4 = Id4(a: Byte, b: Byte, c: Byte, d: Byte)

  /** Nothing but zero bytes after the first NUL. */
  predicate Padded(i: Id4) {
    (i.a == 0 ==> i.b == 0) && (i.b == 0 ==> i.c == 0) && (i.c == 0 ==> i.d == 0)
  }

  type Id = i: Id4 | Padded(i) witness Id4(0, 0, 0, 0)

  const NO_ID: Id := Id4(0, 0, 0, 0)

  function Bytes(i: Id4): (r: seq<Byte>)
    ensures |r| == 4
  {
    [i.a, i.b, i.c, i.d]
  }

  /** mct_set_id: at most four bytes, up to the first NUL. */
  function SetId(s: seq<Byte>): Id {
    if |s| < 1 || s[0] == 0 then Id4(0, 0, 0, 0)
    else if |s| < 2 || s[1] == 0 then Id4(s[0], 0, 0, 0)
    else if |s| < 3 || s[2] == 0 then Id4(s[0], s[1], 0, 0)
    else if |s| < 4 || s[3] == 0 then Id4(s[0], s[1], s[2], 0)
    else Id4(s[0], s[1], s[2], s[3])
  }

  /** The number of characters before the padding. */
  function Length(i: Id): (n: nat)
    ensures n <= 4
  {
    if i.a == 0 then 0 else if i.b == 0 then 1 else if i.c == 0 then 2 else if i.d == 0 then 3 else 4
  }

  /** An identifier as text. */
  function Str(i: Id): (s: seq<Byte>)
    ensures |s| == Length(i)
  {
    Bytes(i)[..Length(i)]
  }

  /** memcmp of n bytes: the sign of the first difference. */
  function MemCmp(a: seq<Byte>, b: seq<Byte>, n: nat): int
    requires n <= |a| && n <= |b|
  {
    if n == 0 then 0
    else if a[0] != b[0] then a[0] as int - b[0] as int
    else MemCmp(a[1..], b[1..], n - 1)
  }

  /** An identifier read as a big-endian number. */
  function Num(i: Id4): (r: nat)
    ensures r < 0x1_0000_0000
  {
    ((i.a as int * 256 + i.b as int) * 256 + i.c as int) * 256 + i.d as int
  }

  lemma {:induction false} LastDigit(p: int, a: int, q: int, b: int)
    requires 0 <= a < 256 && 0 <= b < 256
    ensures p * 256 + a < q * 256 + b <==> p < q || (p == q && a < b)
    ensures p * 256 + a == q * 256 + b <==> p == q && a == b
  {
  }

  lemma {:induction false} NumInjective(i: Id4, j: Id4)
    ensures Num(i) == Num(j) <==> i == j
  {
    var p1, q1 := i.a as int * 256 + i.b as int, j.a as int * 256 + j.b as int;
    LastDigit(p1 * 256 + i.c as int, i.d as int, q1 * 256 + j.c as int, j.d as int);
    LastDigit(p1, i.c as int, q1, j.c as int);
    LastDigit(i.a as int, i.b as int, j.a as int, j.b as int);
  }

  /** The comparison functions of the daemon order by this number. */
  lemma {:induction false} CompareIsNum(i: Id4, j: Id4)
    ensures MemCmp(Bytes(i), Bytes(j), 4) < 0 <==> Num(i) < Num(j)
    ensures MemCmp(Bytes(i), Bytes(j), 4) == 0 <==> i == j
  {
    var p1, q1 := i.a as int * 256 + i.b as int, j.a as int * 256 + j.b as int;
    LastDigit(p1 * 256 + i.c as int, i.d as int, q1 * 256 + j.c as int, j.d as int);
    LastDigit(p1, i.c as int, q1, j.c as int);
    LastDigit(i.a as int, i.b as int, j.a as int, j.b as int);
    MemCmpUnfold(i, j);
  }

  lemma {:induction false} MemCmpUnfold(i: Id4, j: Id4)
    ensures MemCmp(Bytes(i), Bytes(j), 4) ==
      if i.a != j.a then i.a as int - j.a as int
      else if i.b != j.b then i.b as int - j.b as int
      else if i.c != j.c then i.c as int - j.c as int
      else i.d as int - j.d as int
  {
    var a0, b0 := Bytes(i), Bytes(j);
    var a1, b1 := a0[1..], b0[1..];
    var a2, b2 := a1[1..], b1[1..];
    var a3, b3 := a2[1..], b2[1..];
    assert MemCmp(a3, b3, 1) == if a3[0] != b3[0] then a3[0] as int - b3[0] as int else MemCmp(a3[1..], b3[1..], 0);
    assert MemCmp(a2, b2, 2) == if a2[0] != b2[0] then a2[0] as int - b2[0] as int else MemCmp(a3, b3, 1);
    assert MemCmp(a1, b1, 3) == if a1[0] != b1[0] then a1[0] as int - b1[0] as int else MemCmp(a2, b2, 2);
    assert MemCmp(a0, b0, 4) == if a0[0] != b0[0] then a0[0] as int - b0[0] as int else MemCmp(a1, b1, 3);
  }
}
