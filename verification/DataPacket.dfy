/** Data packets of the DPDK plugin: `Data_Encode_` writes one into a packet buffer, `Data_Decode`
    finds the content in one and notes its type.  Types are those of the NDN Packet Format Specification 0.3. */
module DataPacket {
  import opened Options
  import opened Bytes
  import opened Tlv

  const TT_DATA: byte := 0x06
  const TT_NAME: byte := 0x07
  const TT_META_INFO: byte := 0x14
  const TT_CONTENT: byte := 0x15
  const TT_SIG_INFO: byte := 0x16
  const TT_SIG_VALUE: byte := 0x17
  const TT_CONTENT_TYPE: byte := 0x18
  const TT_FRESHNESS_PERIOD: byte := 0x19
  const TT_SIG_TYPE: byte := 0x1B
  const SIG_HMAC_WITH_SHA256: byte := 0x04

  /** The fixed signature: 39 bytes. */
  function FakeSig(): (sig: seq<byte>)
    ensures |sig| == 39 && sig[0] == TT_SIG_INFO
  {
    [TT_SIG_INFO, 0x03, TT_SIG_TYPE, 0x01, SIG_HMAC_WITH_SHA256, TT_SIG_VALUE, 0x20] + seq(32, _ => 0)
  }

  function Header(typ: byte, length: nat): seq<byte>
    requires length <= UINT32_MAX
  {
    VarNum(typ as nat) + VarNum(length)
  }

  function NameField(name: seq<byte>): seq<byte>
    requires |name| <= UINT16_MAX
  {
    Header(TT_NAME, |name|) + name
  }

  function MetaInfo(contentType: byte, freshnessPeriod: nat): (m: seq<byte>)
    ensures |m| == 11 && m[0] == TT_META_INFO && m[1] == 9 && m[2] == TT_CONTENT_TYPE && m[4] == contentType
  {
    [TT_META_INFO, 9, TT_CONTENT_TYPE, 1, contentType, TT_FRESHNESS_PERIOD, 4] + BigEndian(freshnessPeriod, 4)
  }

  /** Empty content is left out altogether. */
  function ContentField(content: seq<byte>): seq<byte>
    requires |content| <= UINT16_MAX
  {
    if content == [] then [] else Header(TT_CONTENT, |content|) + content
  }

  function Inner(name: seq<byte>, contentType: byte, freshnessPeriod: nat, content: seq<byte>): seq<byte>
    requires |name| <= UINT16_MAX && |content| <= UINT16_MAX
  {
    NameField(name) + MetaInfo(contentType, freshnessPeriod) + ContentField(content) + FakeSig()
  }

  function Packet(name: seq<byte>, contentType: byte, freshnessPeriod: nat, content: seq<byte>): seq<byte>
    requires |name| <= UINT16_MAX && |content| <= UINT16_MAX
    requires |Inner(name, contentType, freshnessPeriod, content)| <= UINT32_MAX
  {
    var inner := Inner(name, contentType, freshnessPeriod, content);
    Header(TT_DATA, |inner|) + inner
  }

  method AppendField(m: Mbuf, typ: byte, value: seq<byte>)
    requires m.Valid() && |value| <= UINT16_MAX
    requires m.dataOff + m.dataLen + |Header(typ, |value|)| + |value| <= m.buf.Length
    modifies m, m.buf
    ensures m.Valid() && m.Contents() == old(m.Contents()) + (Header(typ, |value|) + value) && m.dataOff == old(m.dataOff)
    ensures m.dataLen == old(m.dataLen) + |Header(typ, |value|)| + |value|
  {
    hide VarNum;
    m.AppendVarNum(typ as nat);
    m.AppendVarNum(|value|);
    m.AppendBytes(value);
  }

  /** `Data_Encode_` into an empty buffer with room for the packet. */
  method Encode(m: Mbuf, name: seq<byte>, contentType: byte, freshnessPeriod: nat, content: seq<byte>)
    requires m.Valid() && m.Contents() == [] && 0 < |name| <= UINT16_MAX && |content| <= UINT16_MAX
    requires m.dataOff >= 4 && m.dataOff + |Inner(name, contentType, freshnessPeriod, content)| <= m.buf.Length
    modifies m, m.buf
    ensures m.Valid() && |Inner(name, contentType, freshnessPeriod, content)| <= UINT16_MAX
    ensures m.Contents() == Packet(name, contentType, freshnessPeriod, content)
  {
    hide VarNum, Header, MetaInfo, FakeSig, Inner, Packet, Mbuf.Contents;
    InnerParts(name, contentType, freshnessPeriod, content);
    ContentsSize(m);
    AppendField(m, TT_NAME, name);
    m.AppendBytes(MetaInfo(contentType, freshnessPeriod));
    if |content| != 0 { AppendField(m, TT_CONTENT, content); }
    m.AppendBytes(FakeSig());
    ContentsSize(m);
    PacketParts(name, contentType, freshnessPeriod, content);
    m.PrependTL(TT_DATA as nat, m.dataLen);
  }

  lemma ContentsSize(m: Mbuf)
    requires m.Valid()
    ensures |m.Contents()| == m.dataLen
  {
  }

  lemma InnerParts(name: seq<byte>, contentType: byte, freshnessPeriod: nat, content: seq<byte>)
    requires |name| <= UINT16_MAX && |content| <= UINT16_MAX
    ensures var inner := Inner(name, contentType, freshnessPeriod, content);
            var start := Header(TT_NAME, |name|) + name + MetaInfo(contentType, freshnessPeriod);
            && inner == (if content == [] then start else start + (Header(TT_CONTENT, |content|) + content)) + FakeSig()
            && |inner| == |Header(TT_NAME, |name|)| + |name| + 11 + 39
                          + if content == [] then 0 else |Header(TT_CONTENT, |content|)| + |content|
  {
  }

  lemma PacketParts(name: seq<byte>, contentType: byte, freshnessPeriod: nat, content: seq<byte>)
    requires |name| <= UINT16_MAX && |content| <= UINT16_MAX
    requires |Inner(name, contentType, freshnessPeriod, content)| <= UINT32_MAX
    ensures var inner := Inner(name, contentType, freshnessPeriod, content);
            Packet(name, contentType, freshnessPeriod, content) == VarNum(TT_DATA as nat) + VarNum(|inner|) + inner
  {
  }

  lemma MetaInfoBytes(contentType: byte, freshnessPeriod: nat)
    requires freshnessPeriod <= UINT32_MAX
    ensures var m := MetaInfo(contentType, freshnessPeriod);
            && m[..7] == [0x14, 0x09, 0x18, 0x01, contentType, 0x19, 0x04]
            && m[7] as nat * 0x100_0000 + m[8] as nat * 0x1_0000 + m[9] as nat * 0x100 + m[10] as nat == freshnessPeriod
  {
    var n := freshnessPeriod;
    FourBytes(n);
    assert n / 0x100_0000 % 256 == n / 0x100_0000;
  }

  /** The bytes of a packet at their places: the name, the content type, the freshness period in
      milliseconds as a 32-bit number in network order, and the fixed signature at the end. */
  lemma PacketBytes(name: seq<byte>, contentType: byte, freshnessPeriod: nat, content: seq<byte>)
    requires |name| <= UINT16_MAX && |content| <= UINT16_MAX && freshnessPeriod <= UINT32_MAX
    requires |Inner(name, contentType, freshnessPeriod, content)| <= UINT32_MAX
    ensures var p := Packet(name, contentType, freshnessPeriod, content);
            var inner := |Inner(name, contentType, freshnessPeriod, content)|;
            var outer := 1 + SizeofVarNum(inner);
            var at := outer + 1 + SizeofVarNum(|name|);
            var meta := at + |name|;
            && |p| == outer + inner && |p| >= meta + 11 + 39
            && p[0] == 0x06 && p[outer] == 0x07 && p[at..meta] == name
            && p[meta..meta + 7] == [0x14, 0x09, 0x18, 0x01, contentType, 0x19, 0x04]
            && p[meta + 7] as nat * 0x100_0000 + p[meta + 8] as nat * 0x1_0000 + p[meta + 9] as nat * 0x100
               + p[meta + 10] as nat == freshnessPeriod
            && p[|p| - 39..] == [0x16, 0x03, 0x1B, 0x01, 0x04, 0x17, 0x20] + seq(32, _ => 0)
            && (content != [] ==>
                  p[meta + 11] == 0x15 && p[|p| - 39 - |content|..|p| - 39] == content)
  {
    hide VarNum, MetaInfo, FakeSig, Inner, Packet, ContentField;
    MetaInfoBytes(contentType, freshnessPeriod);
    FakeSigBytes();
    var p, inner := Packet(name, contentType, freshnessPeriod, content), |Inner(name, contentType, freshnessPeriod, content)|;
    PacketLayout(name, contentType, freshnessPeriod, content);
    var front := [0x06] + VarNum(inner) + [0x07] + VarNum(|name|);
    var m, tail := MetaInfo(contentType, freshnessPeriod), ContentField(content) + FakeSig();
    PartsAt(front, name, m, tail);
    PartsAt(front + name + m, ContentField(content), FakeSig(), []);
    assert p == (front + name + m) + ContentField(content) + FakeSig() + [];
    if content != [] { ContentAt(content); }
  }

  lemma PacketLayout(name: seq<byte>, contentType: byte, freshnessPeriod: nat, content: seq<byte>)
    requires |name| <= UINT16_MAX && |content| <= UINT16_MAX
    requires |Inner(name, contentType, freshnessPeriod, content)| <= UINT32_MAX
    ensures var inner := |Inner(name, contentType, freshnessPeriod, content)|;
            && Packet(name, contentType, freshnessPeriod, content)
               == [0x06] + VarNum(inner) + [0x07] + VarNum(|name|) + name + MetaInfo(contentType, freshnessPeriod)
                  + (ContentField(content) + FakeSig())
            && inner == 1 + SizeofVarNum(|name|) + |name| + 11 + |ContentField(content)| + 39
  {
    hide MetaInfo, FakeSig, ContentField;
    VarNumBytes(0x06);
    VarNumBytes(0x07);
    hide VarNum;
  }

  /** Where the parts of a sum are. */
  lemma PartsAt(a: seq<byte>, b: seq<byte>, c: seq<byte>, d: seq<byte>)
    ensures var s := a + b + c + d;
            && s[..|a|] == a && s[|a|..|a| + |b|] == b && s[|a| + |b|..|a| + |b| + |c|] == c && s[|a| + |b| + |c|..] == d
  {
  }

  lemma ContentAt(content: seq<byte>)
    requires 0 < |content| <= UINT16_MAX
    ensures var f := ContentField(content);
            |f| == 1 + SizeofVarNum(|content|) + |content| && f[0] == 0x15 && f[|f| - |content|..] == content
  {
    VarNumBytes(0x15);
    hide VarNum;
  }

  lemma FakeSigBytes()
    ensures FakeSig() == [0x16, 0x03, 0x1B, 0x01, 0x04, 0x17, 0x20] + seq(32, _ => 0)
  {
  }

  // ---------------------------------------------------------------------------
  // Decoding
  // ---------------------------------------------------------------------------

  /** The content type noted, where the content starts and its length; `Failed` where the decoder
      would fail an assertion, read past the packet or wrap its 16-bit offset. */
  datatype Decoded = Found(contentType: byte, offset: nat, length: nat) | Failed

  /** Content types: application data, and an application-level Nack. */
  const BLOB: byte := 0
  const APP_LVL_NACK: byte := 3

  predicate Skippable(typ: byte) {
    typ == TT_DATA || typ == TT_NAME || typ == TT_META_INFO || typ == TT_CONTENT
  }

  /** The walk over the fields, with the content type noted so far: the meta information sets it to the
      type it carries, and the content field sets it again, to 0. */
  function DecodeFrom(payload: seq<byte>, offset: nat, contentT: byte): Decoded
    decreases |payload| - offset
  {
    if offset >= |payload| || !Skippable(payload[offset]) then Failed
    else
      match ReadLength(payload, offset + 1)
      case None => Failed
      case Some(length) =>
        var value := offset + 1 + length.size;
        if payload[offset] == TT_META_INFO && (value + 2 >= |payload| || payload[value] != TT_CONTENT_TYPE) then Failed
        else
          var noted := if payload[offset] == TT_META_INFO then payload[value + 2]
                       else if payload[offset] == TT_CONTENT then BLOB else contentT;
          if payload[offset] == TT_CONTENT then Found(noted, value, length.value)
          else if payload[offset] == TT_DATA then DecodeFrom(payload, value, noted)
          else if value + length.value > UINT16_MAX then Failed
          else DecodeFrom(payload, value + length.value, noted)
  }

  /** What the receiver keeps of a Data packet; `contentV` is an offset into the payload. */
  class PContent {
    const payload: seq<byte>
    var contentT: byte
    var contentL: nat
    var contentV: nat

    constructor (payload: seq<byte>, garbage: byte)
      ensures this.payload == payload && contentT == garbage
    {
      this.payload := payload;
      contentT, contentL, contentV := garbage, 0, 0;
    }

    /** `Data_Decode`: fills in the fields from the content; not `ok` where an assertion fails. */
    method Decode(len: nat) returns (ok: bool)
      requires len == |payload| <= UINT16_MAX
      modifies this
      ensures var d := if payload != [] && payload[0] == TT_DATA then DecodeFrom(payload, 0, old(contentT)) else Failed;
              && (ok <==> d.Found?)
              && (ok ==> d == Found(contentT, contentV, contentL))
      ensures ok ==> !IsAppLvlNack()
    {
      if len == 0 || payload[0] != TT_DATA { return false; }
      var offset := 0;
      while offset < len
        invariant DecodeFrom(payload, 0, old(contentT)) == DecodeFrom(payload, offset, contentT)
        decreases len - offset
      {
        var typ := payload[offset];
        if !Skippable(typ) { return false; }
        var read := ReadLength(payload, offset + 1);
        if read.None? { return false; }
        offset := offset + 1 + read.value.size;
        if typ == TT_META_INFO {
          if offset + 2 >= len || payload[offset] != TT_CONTENT_TYPE { return false; }
          contentT := payload[offset + 2];
        }
        if typ == TT_CONTENT {
          contentT := 0;
          contentL := read.value.value;
          contentV := offset;
          return true;
        }
        if typ != TT_DATA {
          if offset + read.value.value > UINT16_MAX { return false; }
          offset := offset + read.value.value;
        }
      }
      contentL := 0;
      ok := false;
    }

    predicate IsAppLvlNack()
      reads this
    {
      contentT == APP_LVL_NACK
    }
  }

  /** A field header is read back in the middle of a packet. */
  lemma HeaderRead(before: seq<byte>, typ: byte, length: nat, after: seq<byte>)
    requires typ < 0xFD && length <= UINT16_MAX
    ensures var p := before + Header(typ, length) + after;
            && p[|before|] == typ && |Header(typ, length)| == 1 + SizeofVarNum(length)
            && ReadLength(p, |before| + 1) == Some(Length(SizeofVarNum(length), length))
  {
    var p := before + Header(typ, length) + after;
    assert p == (before + [typ]) + VarNum(length) + after;
    VarNumRoundTrip(before + [typ], length, after);
  }

  /** Skipping over the name. */
  lemma SkipName(before: seq<byte>, value: seq<byte>, after: seq<byte>, contentT: byte)
    requires |value| <= UINT16_MAX && |before + Header(TT_NAME, |value|) + value| <= UINT16_MAX
    ensures var p := before + Header(TT_NAME, |value|) + value + after;
            DecodeFrom(p, |before|, contentT) == DecodeFrom(p, |before + Header(TT_NAME, |value|) + value|, contentT)
  {
    hide ReadLength, VarNum;
    var p := before + Header(TT_NAME, |value|) + value + after;
    assert p == before + Header(TT_NAME, |value|) + (value + after);
    HeaderRead(before, TT_NAME, |value|, value + after);
  }

  /** Skipping over the meta information notes the type it carries. */
  lemma SkipMetaInfo(before: seq<byte>, value: seq<byte>, after: seq<byte>, contentT: byte)
    requires 3 <= |value| <= UINT16_MAX && value[0] == TT_CONTENT_TYPE
    requires |before + Header(TT_META_INFO, |value|) + value| <= UINT16_MAX
    ensures var p := before + Header(TT_META_INFO, |value|) + value + after;
            DecodeFrom(p, |before|, contentT) == DecodeFrom(p, |before + Header(TT_META_INFO, |value|) + value|, value[2])
  {
    hide ReadLength, VarNum;
    var p := before + Header(TT_META_INFO, |value|) + value + after;
    assert p == before + Header(TT_META_INFO, |value|) + (value + after);
    HeaderRead(before, TT_META_INFO, |value|, value + after);
    var v := |before| + 1 + SizeofVarNum(|value|);
    assert p[v..][..|value|] == value;
    assert p[v] == value[0] && p[v + 2] == value[2];
  }

  lemma SkipOuter(length: nat, after: seq<byte>, contentT: byte)
    requires length <= UINT16_MAX
    ensures var p := Header(TT_DATA, length) + after;
            DecodeFrom(p, 0, contentT) == DecodeFrom(p, |Header(TT_DATA, length)|, contentT)
  {
    hide ReadLength, VarNum;
    assert [] + Header(TT_DATA, length) + after == Header(TT_DATA, length) + after;
    HeaderRead([], TT_DATA, length, after);
  }

  lemma MetaInfoParts(contentType: byte, freshnessPeriod: nat)
    ensures var value := MetaInfo(contentType, freshnessPeriod)[2..];
            && |value| == 9 && value[0] == TT_CONTENT_TYPE && value[2] == contentType
            && MetaInfo(contentType, freshnessPeriod) == Header(TT_META_INFO, 9) + value
  {
  }

  /** Decoding an encoded packet comes to the field after the meta information, and by then has noted
      the encoded content type. */
  lemma ReachesContent(name: seq<byte>, contentType: byte, freshnessPeriod: nat, content: seq<byte>, garbage: byte)
    requires |name| <= UINT16_MAX && |content| <= UINT16_MAX
    requires |Inner(name, contentType, freshnessPeriod, content)| <= UINT32_MAX
    requires |Packet(name, contentType, freshnessPeriod, content)| <= UINT16_MAX
    ensures var inner := Inner(name, contentType, freshnessPeriod, content);
            var before := Header(TT_DATA, |inner|) + NameField(name) + MetaInfo(contentType, freshnessPeriod);
            var p := Packet(name, contentType, freshnessPeriod, content);
            && p == before + (ContentField(content) + FakeSig())
            && DecodeFrom(p, 0, garbage) == DecodeFrom(p, |before|, contentType)
  {
    hide DecodeFrom, VarNum, Header, MetaInfo, ContentField, FakeSig;
    var inner := Inner(name, contentType, freshnessPeriod, content);
    var outer, meta := Header(TT_DATA, |inner|), MetaInfo(contentType, freshnessPeriod);
    var rest := ContentField(content) + FakeSig();
    var p := Packet(name, contentType, freshnessPeriod, content);
    assert p == outer + inner;
    SkipOuter(|inner|, inner, garbage);
    assert p == outer + Header(TT_NAME, |name|) + name + (meta + rest);
    SkipName(outer, name, meta + rest, garbage);
    MetaInfoParts(contentType, freshnessPeriod);
    var before := outer + Header(TT_NAME, |name|) + name;
    assert before == outer + NameField(name);
    assert p == before + Header(TT_META_INFO, 9) + meta[2..] + rest;
    SkipMetaInfo(before, meta[2..], rest, garbage);
    assert before + Header(TT_META_INFO, 9) + meta[2..] == before + meta;
  }

  /** The content field is found; the type noted before it is overwritten with 0. */
  lemma ContentAhead(before: seq<byte>, content: seq<byte>, after: seq<byte>, contentT: byte)
    requires 0 < |content| <= UINT16_MAX
    ensures var p := before + (Header(TT_CONTENT, |content|) + content + after);
            var d := DecodeFrom(p, |before|, contentT);
            && d.Found? && d.contentType == BLOB
            && d.length == |content| && d.offset + d.length <= |p| && p[d.offset..d.offset + d.length] == content
  {
    hide VarNum, ReadLength;
    var p := before + (Header(TT_CONTENT, |content|) + content + after);
    assert p == before + Header(TT_CONTENT, |content|) + (content + after);
    HeaderRead(before, TT_CONTENT, |content|, content + after);
    var head := before + Header(TT_CONTENT, |content|);
    assert p == head + content + after && p[|head|..|head| + |content|] == content;
  }

  lemma NoContentAhead(before: seq<byte>, after: seq<byte>, contentT: byte)
    requires after != [] && !Skippable(after[0])
    ensures DecodeFrom(before + after, |before|, contentT).Failed?
  {
  }

  /** The content of an encoded packet is located exactly when there is any: `Data_Decode` then
      returns the position and length of precisely the content bytes, and otherwise fails. */
  lemma ContentFoundExactly(name: seq<byte>, contentType: byte, freshnessPeriod: nat, content: seq<byte>, garbage: byte)
    requires |name| <= UINT16_MAX && |content| <= UINT16_MAX
    requires |Inner(name, contentType, freshnessPeriod, content)| <= UINT32_MAX
    requires |Packet(name, contentType, freshnessPeriod, content)| <= UINT16_MAX
    ensures var p := Packet(name, contentType, freshnessPeriod, content);
            var d := DecodeFrom(p, 0, garbage);
            && (d.Found? <==> content != [])
            && (d.Found? ==> d.contentType == BLOB && d.length == |content|
                             && d.offset + d.length <= |p| && p[d.offset..d.offset + d.length] == content)
  {
    hide DecodeFrom, Packet, Inner, NameField, MetaInfo, Header, FakeSig;
    ReachesContent(name, contentType, freshnessPeriod, content, garbage);
    var inner := Inner(name, contentType, freshnessPeriod, content);
    var before := Header(TT_DATA, |inner|) + NameField(name) + MetaInfo(contentType, freshnessPeriod);
    if content != [] {
      ContentAhead(before, content, FakeSig(), contentType);
    } else {
      assert ContentField(content) + FakeSig() == FakeSig();
      NoContentAhead(before, FakeSig(), contentType);
    }
  }

  /** The content type comes through exactly when it is 0: the decoder has the right type in hand when
      it arrives at the content and then overwrites it.  An error the producer has encoded as an
      application-level Nack is therefore never recognised as one. */
  lemma TypeSurvivesExactly(name: seq<byte>, contentType: byte, freshnessPeriod: nat, content: seq<byte>, garbage: byte)
    requires |name| <= UINT16_MAX && 0 < |content| <= UINT16_MAX
    requires |Inner(name, contentType, freshnessPeriod, content)| <= UINT32_MAX
    requires |Packet(name, contentType, freshnessPeriod, content)| <= UINT16_MAX
    ensures var d := DecodeFrom(Packet(name, contentType, freshnessPeriod, content), 0, garbage);
            d.Found? && (d.contentType == contentType <==> contentType == BLOB) && d.contentType != APP_LVL_NACK
  {
    hide DecodeFrom, Packet, Inner;
    ContentFoundExactly(name, contentType, freshnessPeriod, content, garbage);
  }

  /** Nor does any other packet whose content is found have another type, wherever decoding stands. */
  lemma {:induction false} ContentTypeIsLost(payload: seq<byte>, offset: nat, contentT: byte)
    ensures DecodeFrom(payload, offset, contentT).Found? ==> DecodeFrom(payload, offset, contentT).contentType == BLOB
    decreases |payload| - offset
  {
    if offset < |payload| && ReadLength(payload, offset + 1).Some? {
      var length := ReadLength(payload, offset + 1).value;
      var value := offset + 1 + length.size;
      ContentTypeIsLost(payload, value, contentT);
      ContentTypeIsLost(payload, value + length.value, contentT);
      if value + 2 < |payload| { ContentTypeIsLost(payload, value + length.value, payload[value + 2]); }
    }
  }

  // ---------------------------------------------------------------------------
  // Any packet
  // ---------------------------------------------------------------------------

  /** The field at a is one to pass over, and b is where the next one begins: behind the header of a Data
      field, and behind the value of a name or of meta information that begins with a content type. */
  predicate PassesTo(payload: seq<byte>, a: nat, b: nat) {
    && a < |payload| && ReadLength(payload, a + 1).Some?
    && var length := ReadLength(payload, a + 1).value;
       var value := a + 1 + length.size;
       || (payload[a] == 0x06 && b == value)
       || (payload[a] == 0x07 && b == value + length.value <= 65535)
       || (payload[a] == 0x14 && b == value + length.value <= 65535 && value + 2 < |payload| && payload[value] == 0x18)
  }

  /** The content begins at `offset`, behind its header at a. */
  predicate ContentBegins(payload: seq<byte>, a: nat, offset: nat, length: nat) {
    && a < offset && a < |payload| && payload[a] == 0x15
    && ReadLength(payload, a + 1) == Some(Length(offset - a - 1, length))
  }

  /** These are the places where fields begin on the way from the first to the content. */
  predicate LeadsToContent(payload: seq<byte>, stops: seq<nat>, offset: nat, length: nat) {
    && |stops| > 0 && ContentBegins(payload, stops[|stops| - 1], offset, length)
    && forall i :: 0 <= i < |stops| - 1 ==> PassesTo(payload, stops[i], stops[i + 1])
  }

  lemma {:induction false} FoundLeads(payload: seq<byte>, a: nat, contentT: byte) returns (stops: seq<nat>)
    requires DecodeFrom(payload, a, contentT).Found?
    ensures var d := DecodeFrom(payload, a, contentT);
            LeadsToContent(payload, stops, d.offset, d.length) && stops[0] == a
    decreases |payload| - a
  {
    hide ReadLength;
    var length := ReadLength(payload, a + 1).value;
    var value := a + 1 + length.size;
    if payload[a] == TT_CONTENT {
      stops := [a];
    } else {
      var b := if payload[a] == TT_DATA then value else value + length.value;
      var rest := FoundLeads(payload, b, if payload[a] == TT_META_INFO then payload[value + 2] else contentT);
      stops := [a] + rest;
      forall i | 0 <= i < |stops| - 1 ensures PassesTo(payload, stops[i], stops[i + 1]) {
        if i > 0 { assert PassesTo(payload, rest[i - 1], rest[i]); }
      }
    }
  }

  lemma {:induction false} LeadsIsFound(payload: seq<byte>, stops: seq<nat>, offset: nat, length: nat, contentT: byte)
    requires LeadsToContent(payload, stops, offset, length)
    ensures DecodeFrom(payload, stops[0], contentT) == Found(BLOB, offset, length)
    decreases |stops|
  {
    hide ReadLength;
    if |stops| > 1 {
      var a := stops[0];
      assert PassesTo(payload, stops[0], stops[1]);
      forall i | 0 <= i < |stops[1..]| - 1 ensures PassesTo(payload, stops[1..][i], stops[1..][i + 1]) {
        assert PassesTo(payload, stops[i + 1], stops[i + 2]);
      }
      var value := a + 1 + ReadLength(payload, a + 1).value.size;
      LeadsIsFound(payload, stops[1..], offset, length, if payload[a] == TT_META_INFO then payload[value + 2] else contentT);
    }
  }

  /** Of any packet whatever, the decoder finds the content exactly if it comes to it over Data headers,
      names and meta information alone, and it finds it there. */
  lemma DecodesExactly(payload: seq<byte>, offset: nat, length: nat, garbage: byte)
    ensures DecodeFrom(payload, 0, garbage) == Found(BLOB, offset, length)
            <==> exists stops :: LeadsToContent(payload, stops, offset, length) && stops[0] == 0
  {
    if DecodeFrom(payload, 0, garbage) == Found(BLOB, offset, length) {
      var stops := FoundLeads(payload, 0, garbage);
    }
    if stops :| LeadsToContent(payload, stops, offset, length) && stops[0] == 0 {
      LeadsIsFound(payload, stops, offset, length, garbage);
    }
  }
}
