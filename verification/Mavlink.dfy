/** MAVLink 2 frames: the X.25 checksum, the builder and the parser (office/src/mavlink-wire.ts). */
module Mavlink {
  import opened Common
  import opened Bits

  const MAGIC: Byte := 0xfd
  const HEADER := 10
  const CHECKSUM := 2
  const SIGNATURE := 13
  const CRC_INIT: bv16 := 0xffff

  datatype Result<+T> = Ok(value: T) | Error

  // ---------------------------------------------------------------- checksum

  function Fold(crc: bv16, bytes: Bytes): bv16 {
    if bytes == [] then crc else Accumulate(Fold(crc, bytes[..|bytes| - 1]), ToBits(bytes[|bytes| - 1]))
  }

  function Crc(bytes: Bytes, extra: Byte): bv16 { Accumulate(Fold(CRC_INIT, bytes), ToBits(extra)) }

  method MavlinkCrc(bytes: Bytes, extra: Byte) returns (crc: bv16)
    ensures crc == Crc(bytes, extra)
  {
    hide Accumulate, ToBits;
    crc := CRC_INIT;
    for i := 0 to |bytes|
      invariant crc == Fold(CRC_INIT, bytes[..i])
    {
      assert bytes[..i + 1][..|bytes[..i + 1]| - 1] == bytes[..i];
      crc := Accumulate(crc, ToBits(bytes[i]));
    }
    assert bytes[..|bytes|] == bytes;
    crc := Accumulate(crc, ToBits(extra));
  }

  /** Different running values stay different over any common suffix. */
  lemma {:induction false} FoldInjective(c: bv16, d: bv16, bytes: Bytes)
    requires c != d
    ensures Fold(c, bytes) != Fold(d, bytes)
  {
    hide Accumulate, ToBits, Hi;
    if bytes != [] {
      var before, last := bytes[..|bytes| - 1], bytes[|bytes| - 1];
      FoldInjective(c, d, before);
      ToBitsSmall(last);
      StepInjectiveInCrc(Fold(c, before), Fold(d, before), ToBits(last));
    }
  }

  lemma {:induction false} FoldSplit(c: bv16, a: Bytes, b: Bytes)
    ensures Fold(c, a + b) == Fold(Fold(c, a), b)
    decreases |b|
  {
    hide Accumulate, ToBits;
    if b == [] {
      assert a + b == a;
    } else {
      FoldSplit(c, a, b[..|b| - 1]);
      assert (a + b)[..|a + b| - 1] == a + b[..|b| - 1];
    }
  }

  lemma FoldOne(c: bv16, b: Byte, tail: Bytes)
    ensures Fold(c, [b] + tail) == Fold(Accumulate(c, ToBits(b)), tail)
  {
    hide Accumulate, ToBits;
    FoldSplit(c, [b], tail);
    assert [b][..0] == [];
  }

  /** The checksum detects every change of a single byte. */
  lemma CrcDetectsByte(bytes: Bytes, i: nat, b: Byte, extra: Byte)
    requires i < |bytes| && bytes[i] != b
    ensures Crc(bytes[i := b], extra) != Crc(bytes, extra)
  {
    hide Accumulate, ToBits, FromBits, Fold, Hi;
    var head, tail := bytes[..i], bytes[i + 1..];
    var c := Fold(CRC_INIT, head);
    assert bytes == head + ([bytes[i]] + tail) && bytes[i := b] == head + ([b] + tail);
    FoldSplit(CRC_INIT, head, [bytes[i]] + tail);
    FoldSplit(CRC_INIT, head, [b] + tail);
    FoldOne(c, bytes[i], tail);
    FoldOne(c, b, tail);
    BitsOfByte(b); BitsOfByte(bytes[i]);
    ToBitsSmall(b); ToBitsSmall(bytes[i]); ToBitsSmall(extra);
    StepInjectiveInByte(c, ToBits(bytes[i]), ToBits(b));
    FoldInjective(Accumulate(c, ToBits(bytes[i])), Accumulate(c, ToBits(b)), tail);
    StepInjectiveInCrc(Fold(CRC_INIT, bytes), Fold(CRC_INIT, bytes[i := b]), ToBits(extra));
  }

  // ---------------------------------------------------------------- frames

  /** The checksum seeds of the messages the office knows. */
  function CrcExtra(messageId: int): Option<Byte> {
    match messageId
    case 0 => Some(50)
    case 11 => Some(89)
    case 69 => Some(243)
    case 76 => Some(152)
    case 77 => Some(143)
    case _ => None
  }

  datatype Frame = Frame(bytes: Bytes, sequence: Byte, systemId: Byte, componentId: Byte, messageId: int,
                         payload: Bytes)

  function MessageId(bytes: Bytes): int
    requires |bytes| >= HEADER
  {
    bytes[7] as int + bytes[8] as int * 256 + bytes[9] as int * 65536
  }

  function ExpectedLength(bytes: Bytes): nat
    requires |bytes| >= HEADER
  {
    HEADER + bytes[1] as int + CHECKSUM + if Odd(bytes[2] as int) then SIGNATURE else 0
  }

  /** The two bytes at `end` are the checksum of everything between the magic and `end`. */
  predicate ChecksumHolds(bytes: Bytes, end: nat, extra: Byte)
    requires 1 <= end && end + 1 < |bytes|
  {
    Join(ToBits(bytes[end]), ToBits(bytes[end + 1])) == Crc(bytes[1..end], extra)
  }

  function Parse(bytes: Bytes): Result<Frame> {
    if |bytes| < HEADER + CHECKSUM || bytes[0] != MAGIC then Error
    else if |bytes| != ExpectedLength(bytes) then Error
    else
      var end := HEADER + bytes[1] as int;
      var extra := CrcExtra(MessageId(bytes));
      if extra.Some? && !ChecksumHolds(bytes, end, extra.value) then Error
      else Ok(Frame(bytes, bytes[4], bytes[5], bytes[6], MessageId(bytes), bytes[HEADER..end]))
  }

  predicate IsByte(n: int) { 0 <= n <= 0xff }

  /** The arguments the builder takes; it throws on all others. */
  predicate Buildable(componentId: int, messageId: int, payload: Bytes, sequence: int, systemId: int) {
    IsByte(componentId) && IsByte(sequence) && IsByte(systemId) && |payload| <= 0xff && CrcExtra(messageId).Some?
  }

  function Header(length: Byte, componentId: Byte, messageId: int, sequence: Byte, systemId: Byte): (r: Bytes)
    ensures |r| == HEADER
  {
    [MAGIC, length, 0, 0, sequence, systemId, componentId,
     (messageId % 256) as Byte, (messageId / 256 % 256) as Byte, (messageId / 65536 % 256) as Byte]
  }

  /** The frame up to its checksum. */
  function Unchecked(componentId: Byte, messageId: int, payload: Bytes, sequence: Byte, systemId: Byte): (r: Bytes)
    requires |payload| <= 0xff
    ensures |r| == HEADER + |payload|
  {
    Header(|payload| as Byte, componentId, messageId, sequence, systemId) + payload
  }

  function Trailer(crc: bv16): (r: Bytes)
    ensures |r| == CHECKSUM
  {
    [FromBits(Lo(crc)), FromBits(Hi(crc))]
  }

  function Built(componentId: Byte, messageId: int, payload: Bytes, sequence: Byte, systemId: Byte,
                 extra: Byte): (r: Bytes)
    requires |payload| <= 0xff
    ensures |r| == HEADER + |payload| + CHECKSUM
  {
    var head := Unchecked(componentId, messageId, payload, sequence, systemId);
    head + Trailer(Crc(head[1..], extra))
  }

  method FillHeader(frame: array<Byte>, length: Byte, componentId: Byte, messageId: int, sequence: Byte, systemId: Byte)
    requires frame.Length >= HEADER
    modifies frame
    ensures frame[..HEADER] == Header(length, componentId, messageId, sequence, systemId)
  {
    frame[0] := MAGIC;
    frame[1] := length;
    frame[2] := 0;
    frame[3] := 0;
    frame[4] := sequence;
    frame[5] := systemId;
    frame[6] := componentId;
    frame[7] := (messageId % 256) as Byte;
    frame[8] := (messageId / 256 % 256) as Byte;
    frame[9] := (messageId / 65536 % 256) as Byte;
  }

  /** The builder fills a buffer piece by piece; it refuses exactly the arguments that are not buildable. */
  method BuildMavlinkFrame(componentId: int, messageId: int, payload: Bytes, sequence: int, systemId: int)
    returns (r: Result<array<Byte>>)
    ensures r.Ok? <==> Buildable(componentId, messageId, payload, sequence, systemId)
    ensures r.Ok? ==> fresh(r.value)
                      && r.value[..] == Built(componentId as Byte, messageId, payload, sequence as Byte,
                                              systemId as Byte, CrcExtra(messageId).value)
  {
    hide Fold, FromBits, Lo, Hi, Crc, Header;
    if !IsByte(componentId) || !IsByte(sequence) || !IsByte(systemId) || messageId < 0
        || messageId > 0xffffff { return Error; }
    if |payload| > 0xff { return Error; }
    var extra := CrcExtra(messageId);
    if extra.None? { return Error; }
    var frame := new Byte[HEADER + |payload| + CHECKSUM](_ => 0);
    FillHeader(frame, |payload| as Byte, componentId as Byte, messageId, sequence as Byte, systemId as Byte);
    ghost var header := frame[..HEADER];
    var end := HEADER + |payload|;
    forall i | HEADER <= i < end { frame[i] := payload[i - HEADER]; }
    assert frame[..HEADER] == header && frame[HEADER..end] == payload;
    ghost var head := header + payload;
    assert frame[..end] == head && frame[1..end] == head[1..];
    var crc := MavlinkCrc(frame[1..end], extra.value);
    frame[end] := FromBits(Lo(crc));
    frame[end + 1] := FromBits(Hi(crc));
    assert frame[..] == head + Trailer(crc);
    return Ok(frame);
  }

  lemma TrailerJoins(crc: bv16)
    ensures Join(ToBits(Trailer(crc)[0]), ToBits(Trailer(crc)[1])) == crc
  {
    hide ToBits, FromBits;
    JoinHalves(crc);
    ByteOfBits(Lo(crc));
    ByteOfBits(Hi(crc));
  }

  /** What a caller sends. */
  datatype Sent = Sent(componentId: Byte, messageId: int, payload: Bytes, sequence: Byte, systemId: Byte) {
    predicate Valid() { |payload| <= 0xff && CrcExtra(messageId).Some? }

    function End(): nat { HEADER + |payload| }

    function Wire(): (r: Bytes)
      requires Valid()
      ensures |r| == End() + CHECKSUM
    {
      Built(componentId, messageId, payload, sequence, systemId, CrcExtra(messageId).value)
    }

    /** The parts of a built frame. */
    predicate CarriedBy(f: Bytes)
      requires Valid()
    {
      && |f| == End() + CHECKSUM && f[0] == MAGIC && f[1] as int == |payload| && f[2] == 0
      && f[4] == sequence && f[5] == systemId && f[6] == componentId
      && MessageId(f) == messageId && f[HEADER..End()] == payload
      && ChecksumHolds(f, End(), CrcExtra(messageId).value)
    }
  }

  lemma HeadParts(s: Sent, f: Bytes)
    requires s.Valid() && |f| == s.End() + CHECKSUM
             && f[..s.End()] == Unchecked(s.componentId, s.messageId, s.payload, s.sequence, s.systemId)
    ensures f[0] == MAGIC && f[1] as int == |s.payload| && f[2] == 0 && f[4] == s.sequence && f[5] == s.systemId
            && f[6] == s.componentId
    ensures MessageId(f) == s.messageId && f[HEADER..s.End()] == s.payload
  {
    var head := f[..s.End()];
    assert forall i :: 0 <= i < HEADER ==> f[i] == head[i];
    assert f[HEADER..s.End()] == head[HEADER..];
  }

  lemma WireParts(s: Sent)
    requires s.Valid()
    ensures s.CarriedBy(s.Wire())
  {
    hide FromBits, ToBits, Lo, Hi, Join, Crc, Trailer, Unchecked;
    var head := Unchecked(s.componentId, s.messageId, s.payload, s.sequence, s.systemId);
    var extra, end, f := CrcExtra(s.messageId).value, s.End(), s.Wire();
    var trailer := Trailer(Crc(head[1..], extra));
    assert f == head + trailer;
    hide Built;
    assert f[..end] == head && f[1..end] == head[1..] && f[end] == trailer[0] && f[end + 1] == trailer[1];
    HeadParts(s, f);
    TrailerJoins(Crc(head[1..], extra));
    assert ChecksumHolds(f, end, extra);
    hide ChecksumHolds;
  }

  /** The unchanged frame parses back to what was sent. */
  lemma ParseRoundTrip(s: Sent)
    requires s.Valid()
    ensures Parse(s.Wire()) == Ok(Frame(s.Wire(), s.sequence, s.systemId, s.componentId, s.messageId, s.payload))
  {
    hide Built, ChecksumHolds;
    WireParts(s);
  }

  /** A change of one checksummed byte breaks the checksum. */
  lemma CoveredChange(f: Bytes, end: nat, extra: Byte, i: nat, b: Byte)
    requires end + 1 < |f| && 1 <= i < end && f[i] != b && ChecksumHolds(f, end, extra)
    ensures !ChecksumHolds(f[i := b], end, extra)
  {
    hide Crc, Join, ToBits;
    assert f[i := b][1..end] == f[1..end][i - 1 := b];
    CrcDetectsByte(f[1..end], i - 1, b, extra);
  }

  /** So does a change of the checksum itself. */
  lemma TrailerChange(f: Bytes, end: nat, extra: Byte, i: nat, b: Byte)
    requires 1 <= end && end + 1 < |f| && end <= i <= end + 1 && f[i] != b && ChecksumHolds(f, end, extra)
    ensures !ChecksumHolds(f[i := b], end, extra)
  {
    hide Crc, ToBits, FromBits, Join, Hi;
    var g := f[i := b];
    assert g[1..end] == f[1..end];
    BitsOfByte(b); BitsOfByte(f[i]);
    ToBitsSmall(f[end]); ToBitsSmall(f[end + 1]); ToBitsSmall(g[end]); ToBitsSmall(g[end + 1]);
    if Join(ToBits(g[end]), ToBits(g[end + 1])) == Join(ToBits(f[end]), ToBits(f[end + 1])) {
      JoinInjective(ToBits(g[end]), ToBits(g[end + 1]), ToBits(f[end]), ToBits(f[end + 1]));
    }
  }

  /** Any change of a single byte of a built frame outside its message-id bytes is rejected by the parser. */
  lemma SingleByteChangeIsRejected(s: Sent, i: nat, b: Byte)
    requires s.Valid() && i < s.End() + CHECKSUM && !(7 <= i <= 9) && s.Wire()[i] != b
    ensures Parse(s.Wire()[i := b]) == Error
  {
    hide Built, ChecksumHolds;
    WireParts(s);
    var f, extra := s.Wire(), CrcExtra(s.messageId).value;
    if i >= s.End() { TrailerChange(f, s.End(), extra, i, b); }
    else if i >= 1 { CoveredChange(f, s.End(), extra, i, b); }
  }

  /**
   * The message-id bytes are the exception: a change to an id without a known seed is taken as a frame of that id,
   * because frames of unknown messages are passed on unchecked.
   */
  lemma UnknownIdIsAccepted(s: Sent, i: nat, b: Byte)
    requires s.Valid() && 7 <= i <= 9 && CrcExtra(MessageId(s.Wire()[i := b])).None?
    ensures Parse(s.Wire()[i := b])
            == Ok(Frame(s.Wire()[i := b], s.sequence, s.systemId, s.componentId, MessageId(s.Wire()[i := b]),
                        s.payload))
  {
    hide Built, ChecksumHolds;
    WireParts(s);
    var f, g := s.Wire(), s.Wire()[i := b];
    assert g[HEADER..s.End()] == f[HEADER..s.End()];
  }
}
