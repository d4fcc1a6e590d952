/** NDN variable-size numbers and the packet buffer they are written to.  The encoding is that of
    the NDN Packet Format Specification 0.3, "Variable Size Encoding for Type and Length". */
module Tlv {
  import opened Options
  import opened Bytes
  import opened ModArithmetic

  const UINT16_MAX: nat := 65535
  const UINT32_MAX: nat := 0xFFFF_FFFF

  /** n in `width` bytes, most significant byte first. */
  function BigEndian(n: nat, width: nat): (b: seq<byte>)
    ensures |b| == width
  {
    if width == 0 then [] else BigEndian(n / 256, width - 1) + [(n % 256) as byte]
  }

  function FromBigEndian(b: seq<byte>): nat {
    if b == [] then 0 else FromBigEndian(b[..|b| - 1]) * 256 + b[|b| - 1] as nat
  }

  function Pow256(width: nat): nat {
    if width == 0 then 1 else 256 * Pow256(width - 1)
  }

  lemma {:induction false} BigEndianRoundTrip(n: nat, width: nat)
    requires n < Pow256(width)
    ensures FromBigEndian(BigEndian(n, width)) == n
  {
    if width > 0 {
      BigEndianRoundTrip(n / 256, width - 1);
      assert BigEndian(n, width)[..width - 1] == BigEndian(n / 256, width - 1);
    }
  }

  /** Dividing by 256 first is dividing by 256 times as much. */
  lemma DivideTwice(n: nat, b: nat)
    requires b > 0
    ensures n / 256 / b == n / (256 * b)
  {
    var x := n / 256;
    var q, r := x / b, x % b;
    assert x == q * b + r;
    assert q * (256 * b) == 256 * (q * b);
    QuotientUnique(n, q, 256 * r + n % 256, 256 * b);
  }

  lemma QuotientUnique(n: nat, q: nat, r: nat, c: nat)
    requires r < c && n == q * c + r
    ensures n / c == q
  {
    ModUnique(n, q, r, c);
    var d := n / c;
    assert d * c == q * c;
    assert (d - q) * c == 0 by { assert (d - q) * c == d * c - q * c; }
    if d > q { MulAtLeast(d - q, c); } else if d < q { MulAtLeast(q - d, c); }
  }

  lemma {:induction false} PowPositive(width: nat)
    ensures Pow256(width) > 0
  {
    if width > 0 { PowPositive(width - 1); }
  }

  /** Byte i of n in so many bytes, in network order: that of weight 256 to the power of the number of
      bytes behind it. */
  predicate IsByte(b: seq<byte>, n: nat, i: nat)
    requires i < |b|
  {
    Pow256(|b| - 1 - i) > 0 && b[i] as nat == n / Pow256(|b| - 1 - i) % 256
  }

  /** All bytes are at their places. */
  lemma {:induction false} BigEndianAt(n: nat, width: nat, i: nat)
    requires i < width
    ensures IsByte(BigEndian(n, width), n, i)
  {
    PowPositive(width - 1 - i);
    if i < width - 1 {
      BigEndianAt(n / 256, width - 1, i);
      PowPositive(width - 2 - i);
      DivideTwice(n, Pow256(width - 2 - i));
    }
  }

  lemma Powers()
    ensures Pow256(0) == 1 && Pow256(1) == 0x100 && Pow256(2) == 0x1_0000 && Pow256(3) == 0x100_0000
    ensures Pow256(4) == 0x1_0000_0000
  {
    assert Pow256(2) == 256 * Pow256(1);
    assert Pow256(3) == 256 * Pow256(2);
    assert Pow256(4) == 256 * Pow256(3);
  }

  /** Two and four bytes in full. */
  lemma TwoBytes(n: nat)
    ensures BigEndian(n, 2) == [(n / 0x100 % 256) as byte, (n % 256) as byte]
  {
    Powers();
    BigEndianAt(n, 2, 0);
    BigEndianAt(n, 2, 1);
  }

  lemma FourBytes(n: nat)
    ensures BigEndian(n, 4)
         == [(n / 0x100_0000 % 256) as byte, (n / 0x1_0000 % 256) as byte, (n / 0x100 % 256) as byte, (n % 256) as byte]
  {
    Powers();
    BigEndianAt(n, 4, 0);
    BigEndianAt(n, 4, 1);
    BigEndianAt(n, 4, 2);
    BigEndianAt(n, 4, 3);
    hide BigEndian;
  }

  function SizeofVarNum(n: nat): nat {
    if n < 0xFD then 1 else if n <= UINT16_MAX then 3 else 5
  }

  function VarNum(n: nat): (b: seq<byte>)
    requires n <= UINT32_MAX
    ensures |b| == SizeofVarNum(n)
  {
    if n < 0xFD then [n as byte]
    else if n <= UINT16_MAX then [0xFD] + BigEndian(n, 2)
    else [0xFE] + BigEndian(n, 4)
  }

  /** A length read at a position: how many bytes it takes and its value.  `None` where the reader
      fails its assertion, on the markers 0xFE and 0xFF, or would read past the end. */
  datatype Length = Length(size: nat, value: nat)

  function ReadLength(b: seq<byte>, pos: nat): Option<Length> {
    if pos >= |b| then None
    else if b[pos] <= 0xFC then Some(Length(1, b[pos] as nat))
    else if b[pos] == 0xFD && pos + 3 <= |b| then Some(Length(3, FromBigEndian(b[pos + 1..pos + 3])))
    else None
  }

  /** A byte up to 252 is a length of its own, 253 announces one of two bytes, and all else, a number cut
      off included, is refused. */
  lemma ReadLengthExactly(b: seq<byte>, pos: nat)
    ensures ReadLength(b, pos).Some? <==> pos < |b| && (b[pos] < 253 || (b[pos] == 253 && pos + 2 < |b|))
    ensures pos < |b| && b[pos] < 253 ==> ReadLength(b, pos) == Some(Length(1, b[pos] as nat))
    ensures pos + 2 < |b| && b[pos] == 253 ==>
              ReadLength(b, pos) == Some(Length(3, b[pos + 1] as nat * 256 + b[pos + 2] as nat))
  {
    if pos + 2 < |b| {
      var two := b[pos + 1..pos + 3];
      var one := two[..1];
      assert one[..0] == [] && FromBigEndian(one) == FromBigEndian(one[..0]) * 256 + one[0] as nat;
      assert FromBigEndian(two) == FromBigEndian(one) * 256 + two[1] as nat;
    }
  }

  /** A number's bytes in full, for each of its forms. */
  lemma VarNumBytes(n: nat)
    requires n <= UINT32_MAX
    ensures n < 253 ==> VarNum(n) == [n as byte]
    ensures 253 <= n <= 65535 ==> VarNum(n) == [0xFD, (n / 0x100) as byte, (n % 256) as byte]
    ensures 65535 < n ==>
              VarNum(n) == [0xFE, (n / 0x100_0000) as byte, (n / 0x1_0000 % 256) as byte, (n / 0x100 % 256) as byte,
                            (n % 256) as byte]
  {
    TwoBytes(n);
    FourBytes(n);
  }

  /** Up to 65535 a number is read back exactly, wherever it stands; above, never. */
  lemma VarNumRoundTrip(before: seq<byte>, n: nat, after: seq<byte>)
    requires n <= UINT32_MAX
    ensures ReadLength(before + VarNum(n) + after, |before|)
         == if n <= UINT16_MAX then Some(Length(SizeofVarNum(n), n)) else None
  {
    var b := before + VarNum(n) + after;
    assert b[|before|] == VarNum(n)[0];
    if 0xFD <= n <= UINT16_MAX {
      assert b[|before| + 1..|before| + 3] == BigEndian(n, 2);
      assert Pow256(2) == 65536 by { assert Pow256(1) == 256; }
      BigEndianRoundTrip(n, 2);
    }
  }

  /** The writer uses the shortest form: whatever reads back as n takes at least as many bytes. */
  lemma ShortestForm(b: seq<byte>, pos: nat)
    requires ReadLength(b, pos).Some?
    ensures SizeofVarNum(ReadLength(b, pos).value.value) <= ReadLength(b, pos).value.size
  {
    if b[pos] == 0xFD {
      var hi, lo := b[pos + 1..pos + 3][..1], b[pos + 1..pos + 3][1];
      assert FromBigEndian(hi) == FromBigEndian(hi[..0]) * 256 + hi[0] as nat;
      assert hi[..0] == [];
    }
  }

  /** A packet buffer: the packet is a stretch of a fixed array, with room before and behind. */
  class Mbuf {
    const buf: array<byte>
    var dataOff: nat
    var dataLen: nat

    ghost predicate Valid()
      reads this
    {
      dataOff + dataLen <= buf.Length <= UINT16_MAX
    }

    ghost function Contents(): seq<byte>
      requires Valid()
      reads this, buf
    {
      buf[..][dataOff..dataOff + dataLen]
    }

    constructor (headroom: nat, tailroom: nat)
      requires headroom + tailroom <= UINT16_MAX
      ensures Valid() && fresh(buf) && Contents() == [] && dataOff == headroom && buf.Length == headroom + tailroom
    {
      buf := new byte[headroom + tailroom];
      dataOff, dataLen := headroom, 0;
    }

    /** Grows the packet at its end and returns the position of the new room. */
    method Append(len: nat) returns (room: nat)
      requires Valid() && dataOff + dataLen + len <= buf.Length
      modifies this`dataLen
      ensures Valid() && dataLen == old(dataLen) + len && room == dataOff + old(dataLen)
    {
      room := dataOff + dataLen;
      dataLen := dataLen + len;
    }

    method Prepend(len: nat) returns (room: nat)
      requires Valid() && len <= dataOff
      modifies this`dataOff, this`dataLen
      ensures Valid() && dataOff == old(dataOff) - len == room && dataLen == old(dataLen) + len
    {
      dataOff, dataLen := dataOff - len, dataLen + len;
      room := dataOff;
    }

    method AppendBytes(bytes: seq<byte>)
      requires Valid() && dataOff + dataLen + |bytes| <= buf.Length
      modifies this`dataLen, buf
      ensures Valid() && Contents() == old(Contents()) + bytes && dataLen == old(dataLen) + |bytes|
    {
      PatchBehind(buf[..], dataOff, dataLen, bytes);
      var room := Append(|bytes|);
      forall k | 0 <= k < |bytes| { buf[room + k] := bytes[k]; }
      assert buf[..] == Patched(old(buf[..]), room, bytes);
    }

    method AppendVarNum(n: nat)
      requires Valid() && n <= UINT32_MAX && dataOff + dataLen + SizeofVarNum(n) <= buf.Length
      modifies this`dataLen, buf
      ensures Valid() && Contents() == old(Contents()) + VarNum(n)
    {
      hide VarNum, SizeofVarNum, Patched;
      PatchBehind(buf[..], dataOff, dataLen, VarNum(n));
      var room := Append(SizeofVarNum(n));
      WriteVarNum(buf, room, n);
    }

    method PrependTL(typ: nat, length: nat)
      requires Valid() && typ <= UINT32_MAX && length <= UINT32_MAX
      requires SizeofVarNum(typ) + SizeofVarNum(length) <= dataOff
      modifies this, buf
      ensures Valid() && Contents() == VarNum(typ) + VarNum(length) + old(Contents())
    {
      hide VarNum, SizeofVarNum, Patched;
      PatchBefore(buf[..], dataOff, dataLen, VarNum(typ), VarNum(length));
      var sizeT, sizeL := SizeofVarNum(typ), SizeofVarNum(length);
      var room := Prepend(sizeT + sizeL);
      WriteVarNum(buf, room, typ);
      WriteVarNum(buf, room + sizeT, length);
    }
  }

  /** The sequence with these bytes written over it from a position on. */
  function Patched(s: seq<byte>, at: nat, bytes: seq<byte>): (p: seq<byte>)
    requires at + |bytes| <= |s|
    ensures |p| == |s|
  {
    s[..at] + bytes + s[at + |bytes|..]
  }

  lemma PatchBehind(s: seq<byte>, off: nat, len: nat, bytes: seq<byte>)
    requires off + len + |bytes| <= |s|
    ensures Patched(s, off + len, bytes)[off..off + len + |bytes|] == s[off..off + len] + bytes
  {
  }

  lemma PatchBefore(s: seq<byte>, off: nat, len: nat, first: seq<byte>, second: seq<byte>)
    requires |first| + |second| <= off && off + len <= |s|
    ensures var room := off - |first| - |second|;
            Patched(Patched(s, room, first), room + |first|, second)[room..off + len]
            == first + second + s[off..off + len]
  {
    var room := off - |first| - |second|;
    assert Patched(s, room, first)[..room + |first|] == s[..room] + first;
  }

  /** Patching byte by byte. */
  lemma PatchFirst(s: seq<byte>, at: nat, x: byte, rest: seq<byte>)
    requires at + 1 + |rest| <= |s|
    ensures Patched(s, at, [x] + rest) == Patched(s[at := x], at + 1, rest)
  {
    assert s[at := x][..at + 1] == s[..at] + [x];
  }

  method WriteVarNum(buf: array<byte>, room: nat, n: nat)
    requires n <= UINT32_MAX && room + SizeofVarNum(n) <= buf.Length
    modifies buf
    ensures buf[..] == Patched(old(buf[..]), room, VarNum(n))
  {
    if n < 0xFD {
      buf[room] := n as byte;
    } else if n <= UINT16_MAX {
      PatchFirst(buf[..], room, 0xFD, BigEndian(n, 2));
      hide Patched;
      buf[room] := 0xFD;
      WriteBigEndian(buf, room + 1, n, 2);
    } else {
      PatchFirst(buf[..], room, 0xFE, BigEndian(n, 4));
      hide Patched;
      buf[room] := 0xFE;
      WriteBigEndian(buf, room + 1, n, 4);
    }
  }

  method WriteBigEndian(buf: array<byte>, room: nat, n: nat, width: nat)
    requires room + width <= buf.Length
    modifies buf
    ensures buf[..] == Patched(old(buf[..]), room, BigEndian(n, width))
  {
    ghost var bytes := BigEndian(n, width);
    var rest, k := n, width;
    while k > 0
      invariant 0 <= k <= width && BigEndian(rest, k) == bytes[..k]
      invariant forall i :: k <= i < width ==> buf[room + i] == bytes[i]
      invariant forall i :: 0 <= i < room || room + width <= i < buf.Length ==> buf[i] == old(buf[i])
    {
      k := k - 1;
      buf[room + k] := (rest % 256) as byte;
      assert BigEndian(rest, k + 1) == BigEndian(rest / 256, k) + [(rest % 256) as byte];
      rest := rest / 256;
      assert bytes[..k + 1][..k] == bytes[..k] && bytes[..k + 1][k] == bytes[k];
    }
  }
}
