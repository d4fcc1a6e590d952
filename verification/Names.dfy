/** Packet names of the DPDK plugin: a READ name is the prefix /ndn/xrootd/read, one generic
    component per path element, and a byte-offset component holding a NonNegativeInteger of the NDN
    Packet Format Specification 0.3 (1, 2, 4 or 8 bytes, most significant first).

    TtByteOffsetNameComponent comes from a library header; any one-byte type other than that of a
    generic component will do. */
module Names {
  import opened Options
  import opened Bytes
  import opened Numbers
  import opened Tlv

  const TT_GENERIC: byte := 0x08
  const SLASH: byte := 0x2F

  const READ_PREFIX: seq<byte> := [
    0x08, 0x03, 0x6E, 0x64, 0x6E, 0x08, 0x06, 0x78, 0x72, 0x6F, 0x6F, 0x74, 0x64, 0x08, 0x04, 0x72, 0x65, 0x61, 0x64]

  const FILEINFO_PREFIX: seq<byte> := [
    0x08, 0x03, 0x6E, 0x64, 0x6E, 0x08, 0x06, 0x78, 0x72, 0x6F, 0x6F, 0x74, 0x64,
    0x08, 0x08, 0x66, 0x69, 0x6C, 0x65, 0x69, 0x6E, 0x66, 0x6F]

  /** `LName`: its length, like every offset into it, is an unsigned 16-bit number. */
  type LName = name: seq<byte> | |name| <= UINT16_MAX witness []

  datatype PacketType = Read | FileInfo | NotSupported

  function DecodePacketType(name: LName): PacketType {
    if |READ_PREFIX| <= |name| && name[..|READ_PREFIX|] == READ_PREFIX then Read
    else if |FILEINFO_PREFIX| <= |name| && name[..|FILEINFO_PREFIX|] == FILEINFO_PREFIX then FileInfo
    else NotSupported
  }

  /** The order of the two tests does not matter: no name has both prefixes. */
  lemma PacketTypeExactly(name: LName)
    ensures DecodePacketType(name) == Read <==> READ_PREFIX <= name
    ensures DecodePacketType(name) == FileInfo <==> FILEINFO_PREFIX <= name
  {
    assert READ_PREFIX[14] != FILEINFO_PREFIX[14];
  }

  // ---------------------------------------------------------------------------
  // Paths
  // ---------------------------------------------------------------------------

  /** `strncat` copies up to the first zero byte. */
  function UpToZero(s: seq<byte>): seq<byte> {
    if s == [] || s[0] == 0 then [] else [s[0]] + UpToZero(s[1..])
  }

  /** It copies all before the first zero byte, and all there is if there is none. */
  lemma {:induction false} UpToZeroExactly(s: seq<byte>)
    ensures UpToZero(s) <= s && 0 !in UpToZero(s)
    ensures |UpToZero(s)| < |s| ==> s[|UpToZero(s)|] == 0
  {
    if s != [] { UpToZeroExactly(s[1..]); }
  }

  /** Where a walk over generic components stops and the path it has built; `None` where a length
      is malformed or reaches past the name. */
  datatype Walk = Walk(off: nat, path: seq<byte>)

  function WalkFrom(name: LName, off: nat, path: seq<byte>): Option<Walk>
    decreases |name| - off
  {
    if off >= |name| || name[off] != TT_GENERIC then Some(Walk(off, path))
    else
      match ReadLength(name, off + 1)
      case None => None
      case Some(length) =>
        var value := off + 1 + length.size;
        if value + length.value > |name| then None
        else WalkFrom(name, value + length.value, path + [SLASH] + UpToZero(name[value..value + length.value]))
  }

  /** `Name_Decode_FilePath`. */
  method DecodeFilePath(name: LName, start: nat) returns (r: Option<Walk>)
    requires start < |name| && name[start] == TT_GENERIC
    ensures r == WalkFrom(name, start, [])
  {
    var off, filepath: seq<byte> := start, [];
    while off < |name| && name[off] == TT_GENERIC
      invariant WalkFrom(name, start, []) == WalkFrom(name, off, filepath)
      decreases |name| - off
    {
      var read := ReadLength(name, off + 1);
      if read.None? { return None; }
      var value, length := off + 1 + read.value.size, read.value.value;
      if value + length > |name| { return None; }
      filepath := filepath + [SLASH] + UpToZero(name[value..value + length]);
      off := value + length;
    }
    r := Some(Walk(off, filepath));
  }

  /** `Name_Decode_FilePathLength`: the same walk without the path. */
  method DecodeFilePathLength(name: LName, start: nat) returns (r: Option<nat>)
    requires start < |name| && name[start] == TT_GENERIC
    ensures r == match WalkFrom(name, start, []) case None => None case Some(w) => Some(w.off)
  {
    var off := start;
    ghost var path: seq<byte> := [];
    while off < |name| && name[off] == TT_GENERIC
      invariant WalkFrom(name, start, []) == WalkFrom(name, off, path)
      decreases |name| - off
    {
      var read := ReadLength(name, off + 1);
      if read.None? { return None; }
      var value, length := off + 1 + read.value.size, read.value.value;
      if value + length > |name| { return None; }
      path := path + [SLASH] + UpToZero(name[value..value + length]);
      off := value + length;
    }
    r := Some(off);
  }

  /** A generic component stands at a, lies in the name and ends before b. */
  predicate IsComponent(name: LName, a: nat, b: nat) {
    && a < |name| && name[a] == 0x08 && ReadLength(name, a + 1).Some?
    && b == ValueStart(name, a) + ReadLength(name, a + 1).value.value <= |name|
  }

  function ValueStart(name: LName, a: nat): (start: nat)
    requires ReadLength(name, a + 1).Some?
    ensures start > a
  {
    a + 1 + ReadLength(name, a + 1).value.size
  }

  /** Generic components stand one behind the other at these places, and none at the last. */
  predicate IsRow(name: LName, stops: seq<nat>) {
    && |stops| > 0 && (stops[|stops| - 1] < |name| ==> name[stops[|stops| - 1]] != 0x08)
    && forall i :: 0 <= i < |stops| - 1 ==> IsComponent(name, stops[i], stops[i + 1])
  }

  /** A slash and the value, up to a zero byte, for each component of a row. */
  function PathOver(name: LName, stops: seq<nat>): seq<byte>
    requires IsRow(name, stops)
  {
    if |stops| == 1 then []
    else
      assert IsComponent(name, stops[0], stops[1]);
      RestIsRow(name, stops);
      [SLASH] + UpToZero(name[ValueStart(name, stops[0])..stops[1]]) + PathOver(name, stops[1..])
  }

  lemma RestIsRow(name: LName, stops: seq<nat>)
    requires IsRow(name, stops) && |stops| > 1
    ensures IsRow(name, stops[1..])
  {
    hide IsComponent;
    forall i | 0 <= i < |stops[1..]| - 1 ensures IsComponent(name, stops[1..][i], stops[1..][i + 1]) {
      assert IsComponent(name, stops[i + 1], stops[i + 2]);
    }
  }

  lemma {:induction false} RowIsWalked(name: LName, stops: seq<nat>, acc: seq<byte>)
    requires IsRow(name, stops)
    ensures WalkFrom(name, stops[0], acc) == Some(Walk(stops[|stops| - 1], acc + PathOver(name, stops)))
    decreases |stops|
  {
    hide ReadLength, UpToZero;
    if |stops| == 1 {
      assert acc + [] == acc;
    } else {
      assert IsComponent(name, stops[0], stops[1]);
      var element := UpToZero(name[ValueStart(name, stops[0])..stops[1]]);
      RestIsRow(name, stops);
      RowIsWalked(name, stops[1..], acc + [SLASH] + element);
      assert acc + [SLASH] + element + PathOver(name, stops[1..]) == acc + PathOver(name, stops);
    }
  }

  lemma {:induction false} WalkedIsRow(name: LName, off: nat, acc: seq<byte>) returns (stops: seq<nat>)
    requires WalkFrom(name, off, acc).Some?
    ensures IsRow(name, stops) && stops[0] == off
    decreases |name| - off
  {
    hide ReadLength, UpToZero;
    if off >= |name| || name[off] != TT_GENERIC {
      stops := [off];
    } else {
      var value := ValueStart(name, off);
      var next := value + ReadLength(name, off + 1).value.value;
      var rest := WalkedIsRow(name, next, acc + [SLASH] + UpToZero(name[value..next]));
      stops := [off] + rest;
      forall i | 0 <= i < |stops| - 1 ensures IsComponent(name, stops[i], stops[i + 1]) {
        if i > 0 { assert IsComponent(name, rest[i - 1], rest[i]); }
      }
    }
  }

  /** Of any name whatever, the path is decoded exactly if from `start` on there is a row of whole generic
      components, and then it comes out behind the row with their values. */
  lemma WalksExactly(name: LName, start: nat)
    ensures WalkFrom(name, start, []).Some? <==> exists stops :: IsRow(name, stops) && stops[0] == start
    ensures forall stops :: IsRow(name, stops) && stops[0] == start ==>
              WalkFrom(name, start, []) == Some(Walk(stops[|stops| - 1], PathOver(name, stops)))
  {
    if WalkFrom(name, start, []).Some? { var stops := WalkedIsRow(name, start, []); }
    forall stops | IsRow(name, stops) && stops[0] == start
      ensures WalkFrom(name, start, []) == Some(Walk(stops[|stops| - 1], PathOver(name, stops)))
    {
      RowIsWalked(name, stops, []);
      assert [] + PathOver(name, stops) == PathOver(name, stops);
    }
  }

  function Component(c: seq<byte>): seq<byte>
    requires |c| <= UINT16_MAX
  {
    [TT_GENERIC] + VarNum(|c|) + c
  }

  predicate Encodable(path: seq<seq<byte>>) {
    forall i :: 0 <= i < |path| ==> |path[i]| <= UINT16_MAX
  }

  function Components(path: seq<seq<byte>>): seq<byte>
    requires Encodable(path)
  {
    if path == [] then [] else Component(path[0]) + Components(path[1..])
  }

  /** The path as the file system sees it. */
  function Joined(path: seq<seq<byte>>): seq<byte> {
    if path == [] then [] else [SLASH] + UpToZero(path[0]) + Joined(path[1..])
  }

  /** A component is read back in the middle of a name. */
  lemma ComponentRead(before: seq<byte>, c: seq<byte>, after: seq<byte>)
    requires |c| <= UINT16_MAX
    ensures var name, value := before + Component(c) + after, |before| + 1 + SizeofVarNum(|c|);
            && |before + Component(c)| == value + |c| <= |name| && name[|before|] == TT_GENERIC
            && ReadLength(name, |before| + 1) == Some(Length(SizeofVarNum(|c|), |c|))
            && name[value..value + |c|] == c
  {
    hide VarNum, ReadLength;
    var name := before + Component(c) + after;
    assert name == (before + [TT_GENERIC]) + VarNum(|c|) + (c + after);
    VarNumRoundTrip(before + [TT_GENERIC], |c|, c + after);
    assert name == (before + [TT_GENERIC] + VarNum(|c|)) + c + after;
  }

  lemma WalkOverOne(before: seq<byte>, c: seq<byte>, after: seq<byte>, acc: seq<byte>)
    requires |c| <= UINT16_MAX && |before + Component(c) + after| <= UINT16_MAX
    ensures var name := before + Component(c) + after;
            WalkFrom(name, |before|, acc) == WalkFrom(name, |before + Component(c)|, acc + [SLASH] + UpToZero(c))
  {
    hide VarNum, ReadLength, UpToZero, Component;
    ComponentRead(before, c, after);
  }

  lemma WalkStops(before: seq<byte>, after: seq<byte>, acc: seq<byte>)
    requires (after == [] || after[0] != TT_GENERIC) && |before + after| <= UINT16_MAX
    ensures WalkFrom(before + after, |before|, acc) == Some(Walk(|before|, acc))
  {
  }

  lemma NothingJoined()
    ensures Joined([]) == []
  {
  }

  lemma JoinedParts(c: seq<byte>, rest: seq<seq<byte>>, acc: seq<byte>)
    ensures acc + [SLASH] + UpToZero(c) + Joined(rest) == acc + Joined([c] + rest)
  {
    assert ([c] + rest)[1..] == rest;
  }

  /** Walking over encoded components comes out behind them with their path, whatever stands around
      them, as long as no generic component follows. */
  lemma {:induction false} WalkOverComponents(before: seq<byte>, path: seq<seq<byte>>, after: seq<byte>, acc: seq<byte>)
    requires Encodable(path) && (after == [] || after[0] != TT_GENERIC)
    requires |before + Components(path) + after| <= UINT16_MAX
    ensures WalkFrom(before + Components(path) + after, |before|, acc)
         == Some(Walk(|before + Components(path)|, acc + Joined(path)))
    decreases |path|
  {
    hide Component, UpToZero, ReadLength, WalkFrom, Joined;
    var name := before + Components(path) + after;
    if path == [] {
      assert Joined(path) == [] && acc + [] == acc by { NothingJoined(); }
      assert before + Components(path) == before;
      WalkStops(before, after, acc);
    } else {
      var c, rest := path[0], path[1..];
      var head := before + Component(c);
      assert head + Components(rest) == before + Components(path);
      assert name == head + (Components(rest) + after);
      WalkOverOne(before, c, Components(rest) + after, acc);
      assert name == head + Components(rest) + after;
      WalkOverComponents(head, rest, after, acc + [SLASH] + UpToZero(c));
      JoinedParts(c, rest, acc);
      assert [c] + rest == path;
    }
  }

  predicate Printable(path: seq<seq<byte>>) {
    forall i, k :: 0 <= i < |path| && 0 <= k < |path[i]| ==> path[i][k] != 0
  }

  /** The path as it was given. */
  function Plain(path: seq<seq<byte>>): seq<byte> {
    if path == [] then [] else [SLASH] + path[0] + Plain(path[1..])
  }

  lemma {:induction false} UpToZeroShorter(s: seq<byte>)
    ensures |UpToZero(s)| <= |s|
    ensures |UpToZero(s)| == |s| <==> forall k :: 0 <= k < |s| ==> s[k] != 0
    ensures |UpToZero(s)| == |s| ==> UpToZero(s) == s
  {
    if s != [] { UpToZeroShorter(s[1..]); }
  }

  lemma PrintableParts(path: seq<seq<byte>>)
    requires path != []
    ensures Printable(path) <==> Printable(path[1..]) && forall k :: 0 <= k < |path[0]| ==> path[0][k] != 0
  {
    if Printable(path[1..]) && forall k :: 0 <= k < |path[0]| ==> path[0][k] != 0 {
      forall i, k | 0 <= i < |path| && 0 <= k < |path[i]| ensures path[i][k] != 0 {
        if i > 0 { assert path[1..][i - 1] == path[i]; }
      }
    }
    if Printable(path) {
      forall i, k | 0 <= i < |path[1..]| && 0 <= k < |path[1..][i]| ensures path[1..][i][k] != 0 {
        assert path[1..][i] == path[i + 1];
      }
    }
  }

  lemma PrefixAndRest(x: byte, a: seq<byte>, b: seq<byte>, c: seq<byte>, d: seq<byte>)
    requires |a| <= |c| && |b| <= |d| && [x] + a + b == [x] + c + d
    ensures |a| == |c| && b == d
  {
    assert |[x] + a + b| == |[x] + c + d|;
    assert ([x] + a + b)[1 + |a|..] == b && ([x] + c + d)[1 + |c|..] == d;
  }

  /** The path reads back as it was given exactly when no element contains a zero byte. */
  lemma {:induction false} JoinedExactly(path: seq<seq<byte>>)
    ensures |Joined(path)| <= |Plain(path)|
    ensures Joined(path) == Plain(path) <==> Printable(path)
  {
    hide UpToZero, Printable;
    if path == [] {
      assert Printable(path) by { NothingToPrint(); }
    } else {
      UpToZeroShorter(path[0]);
      JoinedExactly(path[1..]);
      PrintableParts(path);
      if Joined(path) == Plain(path) {
        PrefixAndRest(SLASH, UpToZero(path[0]), Joined(path[1..]), path[0], Plain(path[1..]));
      }
    }
  }

  lemma NothingToPrint()
    ensures Printable([])
  {
  }

  /** The bytes of a text of ASCII characters. */
  function Ascii(text: string): (bytes: seq<byte>)
    requires forall i :: 0 <= i < |text| ==> text[i] < 128 as char
    ensures |bytes| == |text|
  {
    seq(|text|, i requires 0 <= i < |text| => text[i] as byte)
  }

  lemma Spelled()
    ensures Ascii("ndn") == [0x6E, 0x64, 0x6E] && Ascii("xrootd") == [0x78, 0x72, 0x6F, 0x6F, 0x74, 0x64]
    ensures Ascii("read") == [0x72, 0x65, 0x61, 0x64]
    ensures Ascii("fileinfo") == [0x66, 0x69, 0x6C, 0x65, 0x69, 0x6E, 0x66, 0x6F]
  {
  }

  lemma ThreeComponents(a: seq<byte>, b: seq<byte>, c: seq<byte>)
    requires |a| < 0xFD && |b| < 0xFD && |c| < 0xFD
    ensures Encodable([a, b, c])
    ensures Components([a, b, c])
         == [0x08, |a| as byte] + a + ([0x08, |b| as byte] + b) + ([0x08, |c| as byte] + c)
  {
    assert Components([c]) == Component(c) + Components([]) == Component(c);
    assert [b, c][1..] == [c];
    assert Components([b, c]) == Component(b) + Component(c);
    assert [a, b, c][1..] == [b, c];
  }

  /** The two prefixes are the names /ndn/xrootd/read and /ndn/xrootd/fileinfo. */
  lemma PrefixesSpelled()
    ensures Encodable([Ascii("ndn"), Ascii("xrootd"), Ascii("read")])
    ensures Encodable([Ascii("ndn"), Ascii("xrootd"), Ascii("fileinfo")])
    ensures Components([Ascii("ndn"), Ascii("xrootd"), Ascii("read")]) == READ_PREFIX
    ensures Components([Ascii("ndn"), Ascii("xrootd"), Ascii("fileinfo")]) == FILEINFO_PREFIX
  {
    hide Ascii, Components;
    Spelled();
    ThreeComponents(Ascii("ndn"), Ascii("xrootd"), Ascii("read"));
    ThreeComponents(Ascii("ndn"), Ascii("xrootd"), Ascii("fileinfo"));
  }

  // ---------------------------------------------------------------------------
  // The byte offset
  // ---------------------------------------------------------------------------

  function NniWidth(n: nat): nat {
    if n < 0x100 then 1 else if n < 0x1_0000 then 2 else if n < 0x1_0000_0000 then 4 else 8
  }

  function Nni(n: nat): seq<byte> { BigEndian(n, NniWidth(n)) }

  /** Decoding accepts the four widths only. */
  function DecodeNni(length: nat, value: seq<byte>): Option<nat> {
    if (length == 1 || length == 2 || length == 4 || length == 8) && length <= |value|
    then Some(FromBigEndian(value[..length])) else None
  }

  /** A NonNegativeInteger takes the fewest of the four widths, and its bytes are in network order. */
  lemma NniBytes(n: nat)
    requires n < WORD
    ensures var w := |Nni(n)|;
            && (w == 1 || w == 2 || w == 4 || w == 8)
            && (w == 1 <==> n < 0x100) && (w <= 2 <==> n < 0x1_0000) && (w <= 4 <==> n < 0x1_0000_0000)
    ensures forall i: nat :: i < |Nni(n)| ==> IsByte(Nni(n), n, i)
  {
    forall i: nat | i < |Nni(n)| ensures IsByte(Nni(n), n, i) {
      BigEndianAt(n, NniWidth(n), i);
    }
  }

  lemma NniRoundTrip(n: nat, after: seq<byte>)
    requires n < WORD
    ensures DecodeNni(|Nni(n)|, Nni(n) + after) == Some(n)
  {
    assert Pow256(1) == 256;
    assert Pow256(2) == 65536;
    assert Pow256(3) == 256 * Pow256(2);
    assert Pow256(4) == 0x1_0000_0000;
    assert Pow256(5) == 256 * Pow256(4);
    assert Pow256(6) == 256 * Pow256(5);
    assert Pow256(7) == 256 * Pow256(6);
    assert Pow256(8) == WORD;
    assert (Nni(n) + after)[..|Nni(n)|] == Nni(n);
    BigEndianRoundTrip(n, NniWidth(n));
  }

  function OffsetComponent(typ: byte, n: nat): (c: seq<byte>)
    ensures |c| == 2 + NniWidth(n) && c[0] == typ
  {
    [typ, NniWidth(n) as byte] + Nni(n)
  }

  /** `ConsumerTx_EncodeReadInterest`: the file's name components and the segment's offset behind
      the READ prefix. */
  function ReadName(path: seq<seq<byte>>, typ: byte, offset: nat): seq<byte>
    requires Encodable(path)
  {
    READ_PREFIX + Components(path) + OffsetComponent(typ, offset)
  }

  /** What both ends make of a READ name: it is recognised as one, the producer's walk yields the
      path, both walks stop at the byte-offset component, and that decodes to the offset. */
  lemma ReadNameRoundTrip(path: seq<seq<byte>>, typ: byte, offset: nat)
    requires Encodable(path) && typ != TT_GENERIC && offset < WORD && |ReadName(path, typ, offset)| <= UINT16_MAX
    ensures var name := ReadName(path, typ, offset);
            var at := |READ_PREFIX| + |Components(path)|;
            && DecodePacketType(name) == Read
            && WalkFrom(name, |READ_PREFIX|, []) == Some(Walk(at, Joined(path)))
            && at + 2 <= |name| && name[at] == typ
            && DecodeNni(name[at + 1] as nat, name[at + 2..]) == Some(offset)
    ensures Printable(path) <==> Joined(path) == Plain(path)
  {
    var name := ReadName(path, typ, offset);
    var at := |READ_PREFIX| + |Components(path)|;
    WalkOverComponents(READ_PREFIX, path, OffsetComponent(typ, offset), []);
    assert [] + Joined(path) == Joined(path);
    assert name[at + 2..] == Nni(offset) + [];
    NniRoundTrip(offset, []);
    JoinedExactly(path);
  }
}
