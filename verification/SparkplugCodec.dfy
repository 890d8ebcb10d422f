/** The Sparkplug encoder and decoders in their own form: bytes pushed onto an array, loops over an offset. */
module SparkplugCodec {
  import opened Common
  import opened Bits
  import opened Varints
  import opened Sparkplug
  import opened Loops
  import opened SparkplugLoops

  /** One round of the encoder's loop: the low digit, and the 32-bit pattern shifted down. */
  lemma VarintStep(r: nat)
    ensures var digit, rest := r % 128, (r % U32) / 128;
            && Varint(r % U32) == (if rest > 0 then [(digit + 128) as Byte] + Varint(rest) else [digit as Byte])
            && rest % U32 == rest && (rest > 0 ==> rest < r)
  {
    var x := r % U32;
    LowDigit(r);
    assert x < 128 <==> x / 128 == 0;
    BelowU32(x / 128);
  }

  lemma LowDigit(r: nat)
    ensures (r % U32) % 128 == r % 128
  {
    var x, q := r % U32, 33554432 * (r / U32);
    assert r == 128 * q + x;
    assert (128 * q + x) % 128 == x % 128 by { SameDigit(q, x); }
  }

  lemma SameDigit(q: nat, x: nat)
    ensures (128 * q + x) % 128 == x % 128
  {
  }

  /** The byte array the encoder pushes onto. */
  class Sink {
    var bytes: Bytes

    constructor ()
      ensures bytes == []
    {
      bytes := [];
    }

    /** False where the source throws: the value is negative. */
    method AppendVarint(value: int) returns (ok: bool)
      modifies this
      ensures ok <==> value >= 0
      ensures bytes == old(bytes) + if ok then Varint(value % U32) else []
    {
      hide Varint;
      if value < 0 { return false; }
      var remaining := value;
      while true
        invariant remaining >= 0 && bytes + Varint(remaining % U32) == old(bytes) + Varint(value % U32)
        decreases remaining
      {
        VarintStep(remaining);
        var nextByte := remaining % 128;
        remaining := (remaining % U32) / 128;
        if remaining > 0 {
          assert bytes + ([(nextByte + 128) as Byte] + Varint(remaining))
                 == bytes + [(nextByte + 128) as Byte] + Varint(remaining);
          bytes := bytes + [(nextByte + 128) as Byte];
          continue;
        }
        bytes := bytes + [nextByte as Byte];
        return true;
      }
    }

    method AppendKey(field: nat, wire: nat)
      modifies this
      ensures bytes == old(bytes) + Key(field, wire)
    {
      var ok := AppendVarint(field * 8 + wire);
    }

    method AppendBytesField(field: nat, value: Bytes)
      modifies this
      ensures bytes == old(bytes) + BytesField(field, value)
    {
      AppendKey(field, 2);
      var ok := AppendVarint(|value|);
      ghost var before := bytes;
      for i := 0 to |value|
        invariant bytes == before + value[..i]
      {
        assert value[..i + 1] == value[..i] + [value[i]];
        bytes := bytes + [value[i]];
      }
      assert value[..|value|] == value;
      assert old(bytes) + Key(field, 2) + Varint(|value| % U32) + value == old(bytes) + BytesField(field, value);
    }

    method AppendVarintField(field: nat, value: int) returns (ok: bool)
      modifies this
      ensures ok <==> value >= 0
      ensures ok ==> bytes == old(bytes) + VarintField(field, value)
    {
      hide Key, Varint;
      AppendKey(field, 0);
      ok := AppendVarint(value);
      assert ok ==> old(bytes) + Key(field, 0) + Varint(value % U32) == old(bytes) + VarintField(field, value);
    }

    method AppendFixedField(field: nat, wire: nat, raw: Bytes)
      modifies this
      ensures bytes == old(bytes) + FixedField(field, wire, raw)
    {
      AppendKey(field, wire);
      bytes := bytes + raw;
      assert old(bytes) + Key(field, wire) + raw == old(bytes) + FixedField(field, wire, raw);
    }

    method AppendValue(m: Metric) returns (ok: bool)
      modifies this
      ensures ok <==> ValueField(m).Some?
      ensures ok ==> bytes == old(bytes) + ValueField(m).value
    {
      hide VarintField, BytesField, FixedField;
      if m.intValue.Some? { ok := AppendVarintField(10, m.intValue.value); }
      else if m.longValue.Some? { ok := AppendVarintField(11, m.longValue.value); }
      else if m.floatValue.Some? { AppendFixedField(12, 5, m.floatValue.value); ok := true; }
      else if m.doubleValue.Some? { AppendFixedField(13, 1, m.doubleValue.value); ok := true; }
      else if m.boolValue.Some? { ok := AppendVarintField(14, if m.boolValue.value then 1 else 0); }
      else if m.stringValue.Some? { AppendBytesField(15, m.stringValue.value); ok := true; }
      else { ok := false; }
    }
  }

  method EncodeSparkplugMetric(m: Metric) returns (r: Option<Bytes>)
    ensures r == EncodedMetric(m)
  {
    hide VarintField, BytesField, ValueField;
    var sink := new Sink();
    sink.AppendBytesField(1, m.name);
    if m.timestamp.Some? {
      var ok := sink.AppendVarintField(3, m.timestamp.value);
      if !ok { return None; }
    }
    var ok := sink.AppendVarintField(4, m.kind);
    if !ok { return None; }
    ok := sink.AppendValue(m);
    if !ok { return None; }
    assert [] + BytesField(1, m.name) == BytesField(1, m.name) == BytesField(1, m.name) + [];
    return Some(sink.bytes);
  }

  method EncodeSparkplugPayload(p: Payload) returns (r: Option<Bytes>)
    ensures r == Encoded(p)
  {
    hide VarintField, BytesField, EncodedMetric;
    var sink := new Sink();
    var ok := sink.AppendVarintField(1, p.timestamp);
    if !ok { return None; }
    ghost var stamp := sink.bytes;
    assert [] + VarintField(1, p.timestamp) == VarintField(1, p.timestamp);
    for i := 0 to |p.metrics|
      invariant EncodedMetrics(p.metrics[..i]).Some? && sink.bytes == stamp + EncodedMetrics(p.metrics[..i]).value
    {
      assert p.metrics[..i + 1][..|p.metrics[..i + 1]| - 1] == p.metrics[..i];
      var metric := EncodeSparkplugMetric(p.metrics[i]);
      if metric.None? {
        UnencodableTail(p.metrics, i + 1);
        return None;
      }
      sink.AppendBytesField(2, metric.value);
      assert stamp + EncodedMetrics(p.metrics[..i]).value + BytesField(2, metric.value)
          == stamp + EncodedMetrics(p.metrics[..i + 1]).value;
    }
    assert p.metrics[..|p.metrics|] == p.metrics;
    ok := sink.AppendVarintField(3, p.seqNo);
    if !ok { return None; }
    return Some(sink.bytes);
  }

  /** One metric that cannot be encoded spoils the payload. */
  lemma {:induction false} UnencodableTail(ms: seq<Metric>, i: nat)
    requires i <= |ms| && EncodedMetrics(ms[..i]).None?
    ensures EncodedMetrics(ms).None?
    decreases |ms|
  {
    if i < |ms| {
      var before := ms[..|ms| - 1];
      assert before[..i] == ms[..i];
      UnencodableTail(before, i);
    } else {
      assert ms[..i] == ms;
    }
  }

  /** The metric loop. It is cut after as many turns as there are offsets: by then the source is known never to end. */
  method DecodeSparkplugMetric(bytes: Bytes) returns (r: Outcome<Metric>)
    ensures r == MetricOutcome(bytes)
  {
    hide MetricFieldTurn, Limit;
    var turns, offset, acc := 0, 0, BLANK;
    while offset < |bytes|
      invariant turns <= Limit(|bytes|) && MetricAfter(bytes, turns) == Arrive(|bytes|, offset, acc)
      decreases Limit(|bytes|) - turns
    {
      if turns == Limit(|bytes|) { return NeverEnds; }
      var key := ReadNumberLoop(bytes, offset);
      if key.BadReading? {
        Settled(MetricLoop(bytes), |bytes|, Arrive(|bytes|, 0, BLANK), turns + 1, Limit(|bytes|));
        return Raises;
      }
      match MetricFieldTurn(bytes, key.next, key.value / 8, key.value % 8, acc)
      case Go(more, after) => offset, acc, turns := after, more, turns + 1;
      case Throws =>
        Settled(MetricLoop(bytes), |bytes|, Arrive(|bytes|, 0, BLANK), turns + 1, Limit(|bytes|));
        return Raises;
      case Hangs =>
        MetricNeverHangs(bytes, turns + 1);
        assert false;
    }
    Settled(MetricLoop(bytes), |bytes|, Arrive(|bytes|, 0, BLANK), turns, Limit(|bytes|));
    return Returns(acc);
  }

  method ReadNumberLoop(bytes: Bytes, offset: int) returns (r: Reading)
    ensures r == ReadNumber(bytes, offset)
  {
    if offset < 0 { return Value(0, offset + 1); }
    var v := ReadVarintLoop(bytes, offset);
    return if v.Got? then Value(v.value, v.next) else BadReading;
  }

  method DecodeSparkplugPayload(bytes: Bytes) returns (r: Outcome<DecodedPayload>)
    ensures r == PayloadOutcome(bytes)
  {
    hide PayloadFieldTurn, Limit;
    var turns, offset, acc := 0, 0, EMPTY;
    while offset < |bytes|
      invariant turns <= Limit(|bytes|) && PayloadAfter(bytes, turns) == Arrive(|bytes|, offset, acc)
      decreases Limit(|bytes|) - turns
    {
      if turns == Limit(|bytes|) { return NeverEnds; }
      var key := ReadNumberLoop(bytes, offset);
      if key.BadReading? {
        Settled(PayloadLoop(bytes), |bytes|, Arrive(|bytes|, 0, EMPTY), turns + 1, Limit(|bytes|));
        return Raises;
      }
      var turn := TakePayloadField(bytes, key.next, key.value / 8, key.value % 8, acc);
      match turn
      case Go(more, after) => offset, acc, turns := after, more, turns + 1;
      case Throws =>
        Settled(PayloadLoop(bytes), |bytes|, Arrive(|bytes|, 0, EMPTY), turns + 1, Limit(|bytes|));
        return Raises;
      case Hangs =>
        Settled(PayloadLoop(bytes), |bytes|, Arrive(|bytes|, 0, EMPTY), turns + 1, Limit(|bytes|));
        return NeverEnds;
    }
    Settled(PayloadLoop(bytes), |bytes|, Arrive(|bytes|, 0, EMPTY), turns, Limit(|bytes|));
    return Returns(acc);
  }

  /** The field behind a key; a metric is decoded by the metric loop. */
  method TakePayloadField(bytes: Bytes, offset: int, field: int, wire: int, acc: DecodedPayload)
    returns (t: Turn<DecodedPayload>)
    ensures t == PayloadFieldTurn(bytes, offset, field, wire, acc)
  {
    hide MetricOutcome, ReadPiece, ReadNumber;
    if wire == 2 && field == 2 {
      var piece := ReadPiece(bytes, offset);
      if piece.NoPiece? { return Throws; }
      var m := DecodeSparkplugMetric(piece.value);
      return TakeMetric(m, acc, piece.next);
    }
    return PayloadFieldTurn(bytes, offset, field, wire, acc);
  }

  // ---------------------------------------------------------------- the REDCON command

  const SEQ_MODULO := 2_147_000_000

  /** The bytes of the text "redcon". */
  const REDCON: Bytes := [0x72, 0x65, 0x64, 0x63, 0x6f, 0x6e]

  /** The sequence number of a command sent at `now` with the given salt. */
  function CommandSeq(now: nat, salt: nat): nat { (now + salt) % SEQ_MODULO }

  function RedconMetric(level: int): Metric { BLANK.(name := REDCON, intValue := Some(level)) }

  function RedconCommand(level: int, seqNo: int, timestamp: int): Option<Bytes> {
    if level < 1 || level > 4 then None else Encoded(Payload(timestamp, seqNo, [RedconMetric(level)]))
  }

  lemma VarintFits(value: nat)
    ensures |Varint(value % U32)| <= 5
  {
    PowFive();
    DigitCount(value % U32, 5);
  }

  lemma FieldFits(field: nat, value: nat)
    ensures |VarintField(field, value)| <= 10
  {
    hide Varint;
    VarintFits(field * 8);
    VarintFits(value);
  }

  lemma BytesFieldFits(field: nat, value: Bytes)
    ensures |BytesField(field, value)| <= 10 + |value|
  {
    hide Varint;
    VarintFits(field * 8 + 2);
    VarintFits(|value|);
  }

  lemma CommandFits(level: nat, seqNo: nat, timestamp: nat)
    requires 1 <= level <= 4
    ensures match RedconCommand(level, seqNo, timestamp) case None => false case Some(bytes) => |bytes| < 100
  {
    hide VarintField, BytesField;
    var m := RedconMetric(level);
    BytesFieldFits(1, REDCON);
    FieldFits(4, INT32);
    FieldFits(10, level);
    var body := EncodedMetric(m).value;
    assert |body| <= 36;
    BytesFieldFits(2, body);
    FieldFits(1, timestamp);
    FieldFits(3, seqNo);
    assert [m][..0] == [];
    assert EncodedMetrics([m]) == Some([] + BytesField(2, body));
  }

  /**
   * A REDCON command always reaches the decoder with its level and the sequence number the application gave it,
   * whatever the clock that stamped it.
   */
  lemma RedconCommandSurvives(level: nat, now: nat, salt: nat, timestamp: nat)
    requires 1 <= level <= 4
    ensures match RedconCommand(level, CommandSeq(now, salt), timestamp)
            case None => false
            case Some(bytes) =>
              PayloadOutcome(bytes)
              == Returns(DecodedPayload(Some(ToInt32(timestamp)), Some(CommandSeq(now, salt)), [RedconMetric(level)]))
  {
    var seqNo, m := CommandSeq(now, salt), RedconMetric(level);
    var p := Payload(timestamp, seqNo, [m]);
    CommandFits(level, seqNo, timestamp);
    Reduces(seqNo);
    Reduces(level);
    Reduces(INT32);
    hide Encoded, Decode, ToInt32, PayloadOutcome;
    PayloadRoundTrip(p);
    PayloadDecodes(Encoded(p).value);
    assert ReducedMetrics([m]) == [m];
  }
}
