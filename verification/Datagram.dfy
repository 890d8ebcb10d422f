/**
 * Splitting a UDP datagram into MAVLink frames (agent/src/manual.cpp `frames`, agent/src/core.cpp `valid_mavlink2`).
 */
module Datagram {
  import opened Common
  import opened Bits
  import opened Mavlink

  const MAGIC_V1: Byte := 0xfe
  const MAX_FRAMES := 32
  const HEARTBEAT_LENGTH: Byte := 9
  const HEARTBEAT_EXTRA: Byte := 50
  const HEARTBEAT_FRAME := 17

  predicate SignedFlags(flags: Byte) { flags == 1 }

  predicate KnownFlags(flags: Byte) { flags == 0 || flags == 1 }

  function Length2(length: Byte, flags: Byte): nat { 12 + length as int + if SignedFlags(flags) then SIGNATURE else 0 }

  /** The header test every forwarded frame passes. */
  predicate ValidMavlink2(b: Bytes) {
    |b| >= 12 && b[0] == MAGIC && KnownFlags(b[2]) && |b| == Length2(b[1], b[2])
  }

  /** A MAVLink 1 HEARTBEAT, accepted as presence and never forwarded. */
  predicate ValidHeartbeat(b: Bytes) {
    && |b| == HEARTBEAT_FRAME && b[0] == MAGIC_V1 && b[1] == HEARTBEAT_LENGTH && b[5] == 0
    && Join(ToBits(b[15]), ToBits(b[16])) == Crc(b[1..15], HEARTBEAT_EXTRA)
  }

  predicate Piece(b: Bytes) { ValidMavlink2(b) || ValidHeartbeat(b) }

  /** The length of the frame at the start of `data`, or None where the splitter gives up. */
  function FirstLength(data: Bytes): Option<nat> {
    if |data| < 2 then None
    else if data[0] == MAGIC then
      if |data| < 12 || !KnownFlags(data[2]) || Length2(data[1], data[2]) > |data| then None
          else Some(Length2(data[1], data[2]))
    else if data[0] == MAGIC_V1 && |data| >= HEARTBEAT_FRAME
        && ValidHeartbeat(data[..HEARTBEAT_FRAME]) then Some(HEARTBEAT_FRAME)
    else None
  }

  lemma FirstLengthBounds(data: Bytes)
    ensures FirstLength(data).Some? ==> 12 <= FirstLength(data).value <= |data|
  {
    hide ValidHeartbeat;
  }

  /** The frames forwarded from `data` when `budget` more frames are allowed; None where the datagram is refused. */
  function Split(data: Bytes, budget: nat): Option<seq<Bytes>>
    decreases budget
  {
    if data == [] then Some([])
    else
      var n := FirstLength(data);
      if budget == 0 || n.None? then None
      else
        FirstLengthBounds(data);
        var rest := Split(data[n.value..], budget - 1);
        if rest.None? then None else Some((if data[0] == MAGIC then [data[..n.value]] else []) + rest.value)
  }

  /** The body of the source's loop up to its length test. */
  method FrameLength(data: Bytes, offset: nat) returns (length: Option<nat>)
    requires offset < |data|
    ensures length == FirstLength(data[offset..])
  {
    hide Crc, Join, ToBits;
    ghost var here := data[offset..];
    if |data| - offset < 2 { return None; }
    var n;
    if data[offset] == MAGIC {
      if |data| - offset < 12 || !KnownFlags(data[offset + 2]) { return None; }
      n := 12 + data[offset + 1] as int + if SignedFlags(data[offset + 2]) then SIGNATURE else 0;
    } else if data[offset] == MAGIC_V1 {
      if |data| - offset < HEARTBEAT_FRAME || data[offset + 1] != HEARTBEAT_LENGTH
          || data[offset + 5] != 0 { return None; }
      n := HEARTBEAT_FRAME;
      ghost var frame := here[..HEARTBEAT_FRAME];
      assert data[offset + 1..offset + 15] == frame[1..15];
      var crc := MavlinkCrc(data[offset + 1..offset + 15], HEARTBEAT_EXTRA);
      if Join(ToBits(data[offset + 15]), ToBits(data[offset + 16])) != crc { return None; }
    } else { return None; }
    if n > |data| - offset { return None; }
    return Some(n);
  }

  /** What the datagram's result will be, given the frames found so far and what is left. */
  ghost predicate Pending(data: Bytes, output: seq<Bytes>, offset: nat, count: nat) {
    && offset <= |data| && count <= MAX_FRAMES
    && var rest := Split(data[offset..], MAX_FRAMES - count);
       Split(data, MAX_FRAMES) == if rest.None? then None else Some(output + rest.value)
  }

  lemma SplitStep(data: Bytes, output: seq<Bytes>, offset: nat, count: nat)
    requires Pending(data, output, offset, count) && offset < |data| && count < MAX_FRAMES
             && FirstLength(data[offset..]).Some?
    ensures var n := FirstLength(data[offset..]).value;
            && offset + n <= |data|
            && Pending(data, if data[offset] == MAGIC then output + [data[offset..offset + n]]
                       else output, offset + n, count + 1)
  {
    hide FirstLength;
    var here, n := data[offset..], FirstLength(data[offset..]).value;
    FirstLengthBounds(here);
    assert here[n..] == data[offset + n..] && here[..n] == data[offset..offset + n];
    var tail := Split(here[n..], MAX_FRAMES - count - 1);
    if tail.Some? {
      assert output + ([here[..n]] + tail.value) == output + [here[..n]] + tail.value;
      assert [] + tail.value == tail.value;
    }
  }

  /** The source's loop; `output` is meaningful when the datagram is accepted. */
  method Frames(data: Bytes) returns (ok: bool, output: seq<Bytes>)
    ensures ok <==> data != [] && Split(data, MAX_FRAMES).Some?
    ensures ok ==> output == Split(data, MAX_FRAMES).value
  {
    hide FirstLength;
    output := [];
    if data == [] { return false, output; }
    var offset, count := 0, 0;
    assert data[0..] == data && (Split(data, MAX_FRAMES).Some?
                                 ==> [] + Split(data, MAX_FRAMES).value == Split(data, MAX_FRAMES).value);
    while offset < |data|
      invariant Pending(data, output, offset, count)
      decreases |data| - offset
    {
      count := count + 1;
      if count > MAX_FRAMES { return false, output; }
      var length := FrameLength(data, offset);
      if length.None? { return false, output; }
      FirstLengthBounds(data[offset..]);
      SplitStep(data, output, offset, count - 1);
      if data[offset] == MAGIC { output := output + [data[offset..offset + length.value]]; }
      offset := offset + length.value;
    }
    assert data[offset..] == [] && output + [] == output;
    ok := true;
  }

  // ---------------------------------------------------------------- what is accepted

  function Concat(pieces: seq<Bytes>): Bytes { if pieces == [] then [] else pieces[0] + Concat(pieces[1..]) }

  function Forwarded(pieces: seq<Bytes>): seq<Bytes> {
    if pieces == [] then []
    else (if ValidMavlink2(pieces[0]) then [pieces[0]] else []) + Forwarded(pieces[1..])
  }

  predicate AllPieces(pieces: seq<Bytes>) { forall i :: 0 <= i < |pieces| ==> Piece(pieces[i]) }

  /** A piece is recognised whatever follows it. */
  lemma PieceIsFirst(piece: Bytes, rest: Bytes)
    requires Piece(piece)
    ensures FirstLength(piece + rest) == Some(|piece|) && (piece + rest)[0] == piece[0]
    ensures piece[0] == MAGIC <==> ValidMavlink2(piece)
  {
    hide Crc, Join, ToBits;
    var data := piece + rest;
    if ValidHeartbeat(piece) { assert data[..HEARTBEAT_FRAME] == piece; }
  }

  lemma FirstIsPiece(data: Bytes)
    requires FirstLength(data).Some?
    ensures FirstLength(data).value <= |data| && Piece(data[..FirstLength(data).value])
    ensures data[0] == MAGIC <==> ValidMavlink2(data[..FirstLength(data).value])
  {
    hide Crc, Join, ToBits;
  }

  /** Splitting a concatenation of at most `budget` pieces yields exactly the MAVLink 2 pieces, in order. */
  lemma {:induction false} SplitsConcatenation(pieces: seq<Bytes>, budget: nat)
    requires AllPieces(pieces) && |pieces| <= budget
    ensures Split(Concat(pieces), budget) == Some(Forwarded(pieces))
    decreases |pieces|
  {
    hide FirstLength, ValidMavlink2, ValidHeartbeat;
    if pieces != [] {
      var piece, rest := pieces[0], Concat(pieces[1..]);
      PieceIsFirst(piece, rest);
      FirstLengthBounds(piece + rest);
      SplitsConcatenation(pieces[1..], budget - 1);
      assert (piece + rest)[|piece|..] == rest && (piece + rest)[..|piece|] == piece;
    }
  }

  /** Whatever is accepted is a concatenation of pieces, and the output are its MAVLink 2 pieces. */
  lemma {:induction false} SplitCovers(data: Bytes, budget: nat) returns (pieces: seq<Bytes>)
    requires Split(data, budget).Some?
    ensures AllPieces(pieces) && |pieces| <= budget && Concat(pieces) == data
            && Forwarded(pieces) == Split(data, budget).value
    decreases budget
  {
    hide FirstLength, Piece, ValidMavlink2, ValidHeartbeat;
    pieces := [];
    if data != [] {
      var n := FirstLength(data).value;
      FirstIsPiece(data);
      FirstLengthBounds(data);
      var rest := SplitCovers(data[n..], budget - 1);
      pieces := [data[..n]] + rest;
      assert pieces[1..] == rest;
      assert data[..n] + data[n..] == data;
    }
  }

  /**
   * A datagram is accepted exactly when it is the concatenation of 1 to 32 frames, each a MAVLink 2 frame or a
   * MAVLink 1 HEARTBEAT.
   */
  lemma AcceptedExactly(data: Bytes)
    ensures data != [] && Split(data, MAX_FRAMES).Some?
            <==> exists pieces :: 1 <= |pieces| <= MAX_FRAMES && AllPieces(pieces) && Concat(pieces) == data
  {
    if data != [] && Split(data, MAX_FRAMES).Some? {
      var pieces := SplitCovers(data, MAX_FRAMES);
      assert pieces != [];
    }
    forall pieces | 1 <= |pieces| <= MAX_FRAMES && AllPieces(pieces) && Concat(pieces) == data
      ensures data != [] && Split(data, MAX_FRAMES).Some?
    {
      SplitsConcatenation(pieces, MAX_FRAMES);
      assert Piece(pieces[0]);
    }
  }

  lemma {:induction false} ForwardsAll(frames: seq<Bytes>)
    requires forall i :: 0 <= i < |frames| ==> ValidMavlink2(frames[i])
    ensures Forwarded(frames) == frames
  {
    if frames != [] { ForwardsAll(frames[1..]); }
  }

  lemma {:induction false} ForwardsOnlyValid(pieces: seq<Bytes>)
    ensures forall i :: 0 <= i < |Forwarded(pieces)| ==> ValidMavlink2(Forwarded(pieces)[i])
  {
    if pieces != [] { ForwardsOnlyValid(pieces[1..]); }
  }

  /** The concatenation of 1 to 32 valid MAVLink 2 frames splits into exactly those frames, in order. */
  lemma FramesRoundTrip(frames: seq<Bytes>)
    requires |frames| <= MAX_FRAMES && forall i :: 0 <= i < |frames| ==> ValidMavlink2(frames[i])
    ensures Split(Concat(frames), MAX_FRAMES) == Some(frames)
  {
    ForwardsAll(frames);
    assert AllPieces(frames);
    SplitsConcatenation(frames, MAX_FRAMES);
  }

  /** Every emitted frame passes the header test. */
  lemma EmitsOnlyValid(data: Bytes, i: nat)
    requires Split(data, MAX_FRAMES).Some? && i < |Split(data, MAX_FRAMES).value|
    ensures ValidMavlink2(Split(data, MAX_FRAMES).value[i])
  {
    var pieces := SplitCovers(data, MAX_FRAMES);
    ForwardsOnlyValid(pieces);
  }

  /** Frames built by the office pass the agent's header test, so a datagram of them is forwarded whole. */
  lemma BuiltFramesAreForwarded(s: Sent)
    requires s.Valid()
    ensures ValidMavlink2(s.Wire())
  {
    WireParts(s);
    hide ChecksumHolds;
  }
}
