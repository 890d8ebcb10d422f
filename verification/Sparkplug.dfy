/**
 * The Sparkplug B payload encoder and decoder (office/src/sparkplug-protocol.ts). Texts are the bytes of their
 * encoding.
 */
module Sparkplug {
  import opened Common
  import opened Bits
  import opened Varints

  type Float32 = s: Bytes | |s| == 4 witness [0, 0, 0, 0]
  type Float64 = s: Bytes | |s| == 8 witness [0, 0, 0, 0, 0, 0, 0, 0]

  datatype Metric = Metric(
    name: Bytes,
    kind: int,
    intValue: Option<int>,
    longValue: Option<int>,
    floatValue: Option<Float32>,
    doubleValue: Option<Float64>,
    boolValue: Option<bool>,
    stringValue: Option<Bytes>,
    timestamp: Option<int>)

  datatype Payload = Payload(timestamp: int, seqNo: int, metrics: seq<Metric>)

  const INT32 := 3

  // ---------------------------------------------------------------- encoding

  function Key(field: nat, wire: nat): Bytes { Varint((field * 8 + wire) % U32) }

  function VarintField(field: nat, value: nat): Bytes { Key(field, 0) + Varint(value % U32) }

  function BytesField(field: nat, value: Bytes): Bytes { Key(field, 2) + Varint(|value| % U32) + value }

  function FixedField(field: nat, wire: nat, raw: Bytes): Bytes { Key(field, wire) + raw }

  /** The one value field the encoder writes; it takes the first value that is present. */
  function ValueField(m: Metric): Option<Bytes> {
    if m.intValue.Some? then (if m.intValue.value < 0 then None else Some(VarintField(10, m.intValue.value)))
    else if m.longValue.Some? then (if m.longValue.value < 0 then None else Some(VarintField(11, m.longValue.value)))
    else if m.floatValue.Some? then Some(FixedField(12, 5, m.floatValue.value))
    else if m.doubleValue.Some? then Some(FixedField(13, 1, m.doubleValue.value))
    else if m.boolValue.Some? then Some(VarintField(14, if m.boolValue.value then 1 else 0))
    else if m.stringValue.Some? then Some(BytesField(15, m.stringValue.value))
    else None
  }

  function TimestampField(t: Option<int>): Option<Bytes> {
    if t.None? then Some([]) else if t.value < 0 then None else Some(VarintField(3, t.value))
  }

  /** The bytes of a metric; None where the encoder throws. */
  function EncodedMetric(m: Metric): Option<Bytes> {
    var t, v := TimestampField(m.timestamp), ValueField(m);
    if t.None? || m.kind < 0 || v.None? then None
    else Some(BytesField(1, m.name) + t.value + VarintField(4, m.kind) + v.value)
  }

  function EncodedMetrics(ms: seq<Metric>): Option<Bytes> {
    if ms == [] then Some([])
    else
      var rest, last := EncodedMetrics(ms[..|ms| - 1]), EncodedMetric(ms[|ms| - 1]);
      if rest.None? || last.None? then None else Some(rest.value + BytesField(2, last.value))
  }

  function Encoded(p: Payload): Option<Bytes> {
    var ms := EncodedMetrics(p.metrics);
    if p.timestamp < 0 || ms.None? || p.seqNo < 0 then None
    else Some(VarintField(1, p.timestamp) + ms.value + VarintField(3, p.seqNo))
  }

  // ---------------------------------------------------------------- decoding

  datatype Delimited = Field(value: Bytes, next: nat) | Short | Backward

  /** A length can read as a negative number; the source then moves its offset backwards (`Backward`). */
  function ReadLengthDelimited(bytes: Bytes, start: nat): (r: Delimited)
    ensures r.Field? ==> start <= r.next <= |bytes|
  {
    match ReadVarint(bytes, start)
    case BadVarint => Short
    case Got(length, next) =>
      if length < 0 then Backward else if next + length > |bytes| then Short
          else Field(bytes[next..next + length], next + length)
  }

  /** The decoder's locals after one field read forward, or how that reading stopped. */
  datatype Step<+T> = Next(acc: T, offset: nat) | Threw | WentBack

  /** What reading forward gives; it stops at the first length that reads as a negative number. */
  datatype Decoded<+T> = Ok(value: T) | Error | Stopped

  function SkipField<T>(bytes: Bytes, offset: nat, wire: int, acc: T): (r: Step<T>)
    ensures r.Next? ==> offset <= r.offset
  {
    if wire == 0 then
      match ReadVarint(bytes, offset) {
        case Got(_, next) => Next(acc, next)
        case BadVarint => Threw
      }
    else if wire == 1 then Next(acc, offset + 8)
    else if wire == 2 then
      match ReadLengthDelimited(bytes, offset) {
        case Field(_, next) => Next(acc, next)
        case Short => Threw
        case Backward => WentBack
      }
    else if wire == 5 then Next(acc, offset + 4)
    else Threw
  }

  function NumberField(acc: Metric, field: int, v: int): Metric
    requires field in {3, 4, 10, 11, 12, 14}
  {
    if field == 3 then acc.(timestamp := Some(v))
    else if field == 4 then acc.(kind := v)
    else if field == 10 then acc.(intValue := Some(v))
    else if field == 11 then acc.(longValue := Some(v))
    else acc.(boolValue := Some(v != 0))
  }

  function TextField(acc: Metric, field: int, text: Bytes): Metric
    requires field in {1, 13, 15}
  {
    if field == 1 then acc.(name := text) else acc.(stringValue := Some(text))
  }

  function MetricField(bytes: Bytes, offset: nat, field: int, wire: int, acc: Metric): (r: Step<Metric>)
    ensures r.Next? ==> offset <= r.offset
  {
    if wire == 0 && field in {3, 4, 10, 11, 12, 14} then
      match ReadVarint(bytes, offset) {
        case Got(v, next) => Next(NumberField(acc, field, v), next)
        case BadVarint => Threw
      }
    else if wire == 2 && field in {1, 13, 15} then
      match ReadLengthDelimited(bytes, offset) {
        case Field(text, next) => Next(TextField(acc, field, text), next)
        case Short => Threw
        case Backward => WentBack
      }
    else if wire == 5 && field == 12 then
      if offset + 4 > |bytes| then Threw else Next(acc.(floatValue := Some(bytes[offset..offset + 4])), offset + 4)
    else if wire == 1 && field == 13 then
      if offset + 8 > |bytes| then Threw else Next(acc.(doubleValue := Some(bytes[offset..offset + 8])), offset + 8)
    else SkipField(bytes, offset, wire, acc)
  }

  const BLANK := Metric([], INT32, None, None, None, None, None, None, None)

  /** The rest of a metric's fields, with the locals so far. */
  function DecodeMetricFrom(bytes: Bytes, offset: nat, acc: Metric): Decoded<Metric>
    decreases |bytes| - offset
  {
    if offset >= |bytes| then Ok(acc)
    else
      match ReadVarint(bytes, offset)
      case BadVarint => Error
      case Got(key, next) =>
        match MetricField(bytes, next, key / 8, key % 8, acc)
        case Threw => Error
        case WentBack => Stopped
        case Next(more, after) => DecodeMetricFrom(bytes, after, more)
  }

  function DecodeMetric(bytes: Bytes): Decoded<Metric> { DecodeMetricFrom(bytes, 0, BLANK) }

  datatype DecodedPayload = DecodedPayload(timestamp: Option<int>, seqNo: Option<int>, metrics: seq<Metric>)

  function PayloadField(bytes: Bytes, offset: nat, field: int, wire: int,
                        acc: DecodedPayload): (r: Step<DecodedPayload>)
    ensures r.Next? ==> offset <= r.offset
  {
    if wire == 0 && (field == 1 || field == 3) then
      (match ReadVarint(bytes, offset)
       case Got(v, next) => Next(if field == 1 then acc.(timestamp := Some(v)) else acc.(seqNo := Some(v)), next)
       case BadVarint => Threw)
    else if wire == 2 && field == 2 then
      match ReadLengthDelimited(bytes, offset)
      case Short => Threw
      case Backward => WentBack
      case Field(body, next) =>
        match DecodeMetric(body)
        case Ok(m) => Next(acc.(metrics := acc.metrics + [m]), next)
        case Error => Threw
        case Stopped => WentBack
    else SkipField(bytes, offset, wire, acc)
  }

  function DecodeFrom(bytes: Bytes, offset: nat, acc: DecodedPayload): Decoded<DecodedPayload>
    decreases |bytes| - offset
  {
    if offset >= |bytes| then Ok(acc)
    else
      match ReadVarint(bytes, offset)
      case BadVarint => Error
      case Got(key, next) =>
        match PayloadField(bytes, next, key / 8, key % 8, acc)
        case Threw => Error
        case WentBack => Stopped
        case Next(more, after) => DecodeFrom(bytes, after, more)
  }

  const EMPTY := DecodedPayload(None, None, [])

  function Decode(bytes: Bytes): Decoded<DecodedPayload> { DecodeFrom(bytes, 0, EMPTY) }

  // ---------------------------------------------------------------- what a trip through the wire leaves

  function ReducedOption(v: Option<int>): Option<int> { if v.None? then None else Some(ToInt32(v.value)) }

  /** Only the first value that is present travels, and every integer becomes its signed 32-bit reduction. */
  function ReducedMetric(m: Metric): Metric {
    var base := BLANK.(name := m.name, kind := ToInt32(m.kind), timestamp := ReducedOption(m.timestamp));
    if m.intValue.Some? then base.(intValue := ReducedOption(m.intValue))
    else if m.longValue.Some? then base.(longValue := ReducedOption(m.longValue))
    else if m.floatValue.Some? then base.(floatValue := m.floatValue)
    else if m.doubleValue.Some? then base.(doubleValue := m.doubleValue)
    else if m.boolValue.Some? then base.(boolValue := m.boolValue)
    else base.(stringValue := m.stringValue)
  }

  function ReducedMetrics(ms: seq<Metric>): seq<Metric> { seq(|ms|, i requires 0 <= i < |ms| => ReducedMetric(ms[i])) }

  function Reduced(p: Payload): DecodedPayload {
    DecodedPayload(Some(ToInt32(p.timestamp)), Some(ToInt32(p.seqNo)), ReducedMetrics(p.metrics))
  }

  // ---------------------------------------------------------------- one field

  lemma ReadsKey(bytes: Bytes, offset: nat, field: nat, wire: nat)
    requires At(bytes, offset, Key(field, wire)) && field < 16 && wire < 8
    ensures ReadVarint(bytes, offset) == Got(field * 8 + wire, offset + |Key(field, wire)|)
    ensures (field * 8 + wire) / 8 == field && (field * 8 + wire) % 8 == wire
  {
    hide Varint;
    ReadsEncoded(bytes, offset, field * 8 + wire);
    Reduces(field * 8 + wire);
  }

  lemma ReadsDelimited(bytes: Bytes, offset: nat, value: Bytes)
    requires |value| < INT32_LIMIT && At(bytes, offset, Varint(|value| % U32) + value)
    ensures ReadLengthDelimited(bytes, offset) == Field(value, offset + |Varint(|value| % U32)| + |value|)
  {
    hide Varint;
    AtJoin(bytes, offset, Varint(|value| % U32), value);
    ReadsEncoded(bytes, offset, |value|);
    Reduces(|value|);
  }

  // ---------------------------------------------------------------- metric fields

  /** What a number field of any encoder does: its varint, up to ten bytes long, is all that is read and consumed. */
  lemma MetricTakesVarint(bytes: Bytes, offset: nat, acc: Metric, field: nat, s: Bytes)
    requires IsVarint(s) && |s| <= MAX_DIGITS && At(bytes, offset, Key(field, 0) + s) && field in {3, 4, 10, 11, 12, 14}
    ensures DecodeMetricFrom(bytes, offset, acc)
            == DecodeMetricFrom(bytes, offset + |Key(field, 0) + s|, NumberField(acc, field, ReadAs(Number(s))))
  {
    hide Varint, ReadVarint, ReadAs, Key, NumberField, IsVarint;
    AtJoin(bytes, offset, Key(field, 0), s);
    ReadsKey(bytes, offset, field, 0);
    ReadsVarint(bytes, offset + |Key(field, 0)|, s);
  }

  /** The office's own encoder cuts a number to 32 bits. */
  lemma EncodedNumber(value: nat)
    ensures var s := Varint(value % U32); IsVarint(s) && |s| <= MAX_DIGITS && ReadAs(Number(s)) == ToInt32(value)
  {
    hide Varint, Pow2, ReadAs;
    VarintIsVarint(value % U32);
    PowFive();
    DigitCount(value % U32, 5);
    NothingWraps(value % U32);
  }

  lemma MetricTakesNumber(bytes: Bytes, offset: nat, acc: Metric, field: nat, value: nat)
    requires At(bytes, offset, VarintField(field, value)) && field in {3, 4, 10, 11, 12, 14}
    ensures DecodeMetricFrom(bytes, offset, acc)
            == DecodeMetricFrom(bytes, offset + |VarintField(field, value)|, NumberField(acc, field, ToInt32(value)))
  {
    hide Varint, ToInt32, Key, NumberField, DecodeMetricFrom, IsVarint, ReadAs;
    EncodedNumber(value);
    MetricTakesVarint(bytes, offset, acc, field, Varint(value % U32));
  }

  lemma MetricTakesText(bytes: Bytes, offset: nat, acc: Metric, field: nat, value: Bytes)
    requires At(bytes, offset, BytesField(field, value)) && field in {1, 13, 15} && |value| < INT32_LIMIT
    ensures DecodeMetricFrom(bytes, offset, acc)
            == DecodeMetricFrom(bytes, offset + |BytesField(field, value)|, TextField(acc, field, value))
  {
    hide Varint, ReadVarint, Key, TextField;
    assert BytesField(field, value) == Key(field, 2) + (Varint(|value| % U32) + value);
    AtJoin(bytes, offset, Key(field, 2), Varint(|value| % U32) + value);
    ReadsKey(bytes, offset, field, 2);
    ReadsDelimited(bytes, offset + |Key(field, 2)|, value);
    hide ReadLengthDelimited;
  }

  lemma MetricTakesFloat(bytes: Bytes, offset: nat, acc: Metric, raw: Float32)
    requires At(bytes, offset, FixedField(12, 5, raw))
    ensures DecodeMetricFrom(bytes, offset, acc)
            == DecodeMetricFrom(bytes, offset + |FixedField(12, 5, raw)|, acc.(floatValue := Some(raw)))
  {
    hide Varint, ReadVarint, Key;
    AtJoin(bytes, offset, Key(12, 5), raw);
    ReadsKey(bytes, offset, 12, 5);
  }

  lemma MetricTakesDouble(bytes: Bytes, offset: nat, acc: Metric, raw: Float64)
    requires At(bytes, offset, FixedField(13, 1, raw))
    ensures DecodeMetricFrom(bytes, offset, acc)
            == DecodeMetricFrom(bytes, offset + |FixedField(13, 1, raw)|, acc.(doubleValue := Some(raw)))
  {
    hide Varint, ReadVarint, Key;
    AtJoin(bytes, offset, Key(13, 1), raw);
    ReadsKey(bytes, offset, 13, 1);
  }

  /** The value field, last in a metric. */
  lemma MetricTakesValue(bytes: Bytes, offset: nat, acc: Metric, m: Metric)
    requires ValueField(m).Some? && At(bytes, offset, ValueField(m).value)
             && offset + |ValueField(m).value| == |bytes| < INT32_LIMIT
    requires acc == BLANK.(name := m.name, kind := ToInt32(m.kind), timestamp := ReducedOption(m.timestamp))
    ensures DecodeMetricFrom(bytes, offset, acc) == Ok(ReducedMetric(m))
  {
    hide ToInt32, Varint, MetricField, ReadVarint;
    if m.intValue.Some? { MetricTakesNumber(bytes, offset, acc, 10, m.intValue.value); }
    else if m.longValue.Some? { MetricTakesNumber(bytes, offset, acc, 11, m.longValue.value); }
    else if m.floatValue.Some? { MetricTakesFloat(bytes, offset, acc, m.floatValue.value); }
    else if m.doubleValue.Some? { MetricTakesDouble(bytes, offset, acc, m.doubleValue.value); }
    else if m.boolValue.Some? {
      BoolSurvives(m.boolValue.value);
      MetricTakesNumber(bytes, offset, acc, 14, if m.boolValue.value then 1 else 0);
    } else { MetricTakesText(bytes, offset, acc, 15, m.stringValue.value); }
  }

  lemma BoolSurvives(b: bool)
    ensures (ToInt32(if b then 1 else 0) != 0) == b
  {
  }

  /** Where four consecutive pieces stand. */
  lemma Layout(bytes: Bytes, a: Bytes, b: Bytes, c: Bytes, d: Bytes)
    requires bytes == a + b + c + d
    ensures At(bytes, 0, a) && At(bytes, |a|, b) && At(bytes, |a| + |b|, c) && At(bytes, |a| + |b| + |c|, d)
    ensures |a| + |b| + |c| + |d| == |bytes|
  {
    assert bytes[|a|..|a| + |b|] == b;
    assert bytes[|a| + |b|..|a| + |b| + |c|] == c;
  }

  lemma MetricHead(bytes: Bytes, m: Metric, stamp: nat, kind: nat, value: nat)
    requires |m.name| < INT32_LIMIT && m.kind >= 0 && TimestampField(m.timestamp).Some?
    requires stamp == |BytesField(1, m.name)| && kind == stamp + |TimestampField(m.timestamp).value|
             && value == kind + |VarintField(4, m.kind)|
    requires At(bytes, 0, BytesField(1, m.name)) && At(bytes, stamp, TimestampField(m.timestamp).value)
             && At(bytes, kind, VarintField(4, m.kind))
    ensures DecodeMetric(bytes)
            == DecodeMetricFrom(bytes, value,
                                BLANK.(name := m.name, kind := ToInt32(m.kind),
                                       timestamp := ReducedOption(m.timestamp)))
  {
    hide ToInt32, VarintField, BytesField, DecodeMetricFrom;
    MetricTakesText(bytes, 0, BLANK, 1, m.name);
    var a := BLANK.(name := m.name);
    if m.timestamp.Some? { MetricTakesNumber(bytes, stamp, a, 3, m.timestamp.value); }
    MetricTakesNumber(bytes, kind, a.(timestamp := ReducedOption(m.timestamp)), 4, m.kind);
  }

  lemma MetricRoundTrip(m: Metric)
    requires EncodedMetric(m).Some? && |EncodedMetric(m).value| < INT32_LIMIT
    ensures DecodeMetric(EncodedMetric(m).value) == Ok(ReducedMetric(m))
  {
    hide ToInt32, VarintField, ValueField, DecodeMetricFrom, ReducedMetric, DecodeMetric, At, TimestampField;
    var bytes := EncodedMetric(m).value;
    var name, stamp := BytesField(1, m.name), TimestampField(m.timestamp).value;
    var kind, value := VarintField(4, m.kind), ValueField(m).value;
    assert |m.name| <= |name|;
    hide BytesField;
    Layout(bytes, name, stamp, kind, value);
    MetricHead(bytes, m, |name|, |name| + |stamp|, |name| + |stamp| + |kind|);
    MetricTakesValue(bytes, |name| + |stamp| + |kind|,
                     BLANK.(name := m.name, kind := ToInt32(m.kind), timestamp := ReducedOption(m.timestamp)), m);
  }

  // ---------------------------------------------------------------- payload fields

  function PayloadNumber(acc: DecodedPayload, field: nat, v: int): DecodedPayload {
    if field == 1 then acc.(timestamp := Some(v)) else acc.(seqNo := Some(v))
  }

  /** A 64-bit timestamp of a rig or device, up to ten bytes long, changes the timestamp and nothing behind it. */
  lemma PayloadTakesVarint(bytes: Bytes, offset: nat, acc: DecodedPayload, field: nat, s: Bytes)
    requires IsVarint(s) && |s| <= MAX_DIGITS && At(bytes, offset, Key(field, 0) + s) && (field == 1 || field == 3)
    ensures DecodeFrom(bytes, offset, acc)
            == DecodeFrom(bytes, offset + |Key(field, 0) + s|, PayloadNumber(acc, field, ReadAs(Number(s))))
  {
    hide Varint, ReadVarint, ReadAs, Key, IsVarint;
    AtJoin(bytes, offset, Key(field, 0), s);
    ReadsKey(bytes, offset, field, 0);
    ReadsVarint(bytes, offset + |Key(field, 0)|, s);
  }

  lemma PayloadTakesNumber(bytes: Bytes, offset: nat, acc: DecodedPayload, field: nat, value: nat)
    requires At(bytes, offset, VarintField(field, value)) && (field == 1 || field == 3)
    ensures DecodeFrom(bytes, offset, acc)
            == DecodeFrom(bytes, offset + |VarintField(field, value)|, PayloadNumber(acc, field, ToInt32(value)))
  {
    hide Varint, ToInt32, Key, DecodeFrom, IsVarint, ReadAs, PayloadNumber;
    EncodedNumber(value);
    PayloadTakesVarint(bytes, offset, acc, field, Varint(value % U32));
  }

  /** A metric's bytes, of any encoder, in their field. */
  lemma PayloadTakesBody(bytes: Bytes, offset: nat, acc: DecodedPayload, body: Bytes, m: Metric)
    requires DecodeMetric(body) == Ok(m) && |body| < INT32_LIMIT && At(bytes, offset, BytesField(2, body))
    ensures DecodeFrom(bytes, offset, acc)
            == DecodeFrom(bytes, offset + |BytesField(2, body)|, acc.(metrics := acc.metrics + [m]))
  {
    hide Varint, ReadVarint, Key, DecodeMetric;
    assert BytesField(2, body) == Key(2, 2) + (Varint(|body| % U32) + body);
    AtJoin(bytes, offset, Key(2, 2), Varint(|body| % U32) + body);
    ReadsKey(bytes, offset, 2, 2);
    ReadsDelimited(bytes, offset + |Key(2, 2)|, body);
    hide ReadLengthDelimited;
  }

  lemma PayloadTakesMetric(bytes: Bytes, offset: nat, acc: DecodedPayload, m: Metric)
    requires EncodedMetric(m).Some? && |EncodedMetric(m).value| < INT32_LIMIT
    requires At(bytes, offset, BytesField(2, EncodedMetric(m).value))
    ensures DecodeFrom(bytes, offset, acc)
            == DecodeFrom(bytes, offset + |BytesField(2, EncodedMetric(m).value)|,
                          acc.(metrics := acc.metrics + [ReducedMetric(m)]))
  {
    hide EncodedMetric, ReducedMetric, BytesField, DecodeFrom, DecodeMetric;
    MetricRoundTrip(m);
    PayloadTakesBody(bytes, offset, acc, EncodedMetric(m).value, ReducedMetric(m));
  }

  lemma {:induction false} PayloadTakesMetrics(bytes: Bytes, offset: nat, acc: DecodedPayload, ms: seq<Metric>)
    requires EncodedMetrics(ms).Some? && |EncodedMetrics(ms).value| < INT32_LIMIT
             && At(bytes, offset, EncodedMetrics(ms).value)
    ensures DecodeFrom(bytes, offset, acc)
            == DecodeFrom(bytes, offset + |EncodedMetrics(ms).value|, acc.(metrics := acc.metrics + ReducedMetrics(ms)))
  {
    hide DecodeFrom, EncodedMetric, ReducedMetric;
    if ms == [] {
      assert acc.metrics + ReducedMetrics(ms) == acc.metrics;
    } else {
      var before, last := ms[..|ms| - 1], ms[|ms| - 1];
      var rest, field := EncodedMetrics(before).value, BytesField(2, EncodedMetric(last).value);
      assert |EncodedMetric(last).value| <= |field|;
      AtJoin(bytes, offset, rest, field);
      PayloadTakesMetrics(bytes, offset, acc, before);
      PayloadTakesMetric(bytes, offset + |rest|, acc.(metrics := acc.metrics + ReducedMetrics(before)), last);
      assert ReducedMetrics(ms) == ReducedMetrics(before) + [ReducedMetric(last)];
      assert acc.metrics + ReducedMetrics(before) + [ReducedMetric(last)] == acc.metrics + ReducedMetrics(ms);
    }
  }

  /**
   * Decoding an encoded payload returns the same metrics in order, the sequence number and the timestamp, with every
   * integer reduced to 32 signed bits; no field disturbs a later one.
   */
  lemma PayloadRoundTrip(p: Payload)
    requires Encoded(p).Some? && |Encoded(p).value| < INT32_LIMIT
    ensures Decode(Encoded(p).value) == Ok(Reduced(p))
  {
    hide ToInt32, VarintField, EncodedMetrics, DecodeFrom, At, ReducedMetrics;
    var bytes := Encoded(p).value;
    var stamp, body, tail := VarintField(1, p.timestamp), EncodedMetrics(p.metrics).value, VarintField(3, p.seqNo);
    assert bytes == [] + stamp + body + tail;
    Layout(bytes, [], stamp, body, tail);
    PayloadTakesNumber(bytes, 0, EMPTY, 1, p.timestamp);
    var a := EMPTY.(timestamp := Some(ToInt32(p.timestamp)));
    PayloadTakesMetrics(bytes, |stamp|, a, p.metrics);
    assert [] + ReducedMetrics(p.metrics) == ReducedMetrics(p.metrics);
    var b := a.(metrics := ReducedMetrics(p.metrics));
    PayloadTakesNumber(bytes, |stamp| + |body|, b, 3, p.seqNo);
    AtEnd(bytes, b.(seqNo := Some(ToInt32(p.seqNo))));
  }

  lemma AtEnd(bytes: Bytes, acc: DecodedPayload)
    ensures DecodeFrom(bytes, |bytes|, acc) == Ok(acc)
  {
  }

  // ---------------------------------------------------------------- when nothing is lost

  predicate Small(v: Option<int>) { v.Some? ==> v.value < INT32_LIMIT }

  /** At most one value is present. */
  predicate SingleValued(m: Metric) {
    && (m.intValue.Some? ==>
          m.longValue.None? && m.floatValue.None? && m.doubleValue.None? && m.boolValue.None? && m.stringValue.None?)
    && (m.longValue.Some? ==> m.floatValue.None? && m.doubleValue.None? && m.boolValue.None? && m.stringValue.None?)
    && (m.floatValue.Some? ==> m.doubleValue.None? && m.boolValue.None? && m.stringValue.None?)
    && (m.doubleValue.Some? ==> m.boolValue.None? && m.stringValue.None?)
    && (m.boolValue.Some? ==> m.stringValue.None?)
  }

  predicate Exact(m: Metric) {
    SingleValued(m) && m.kind < INT32_LIMIT && Small(m.intValue) && Small(m.longValue) && Small(m.timestamp)
  }

  lemma ReducedMetricIsSame(m: Metric)
    requires EncodedMetric(m).Some?
    ensures ReducedMetric(m) == m <==> Exact(m)
  {
    hide VarintField, BytesField, FixedField;
    Reduces(m.kind);
    if m.timestamp.Some? { Reduces(m.timestamp.value); }
    if m.intValue.Some? { Reduces(m.intValue.value); }
    else if m.longValue.Some? { Reduces(m.longValue.value); }
    hide ToInt32;
  }

  /** A metric that is encoded and decoded comes back unchanged exactly when it is exact. */
  lemma MetricSurvivesExactly(m: Metric)
    requires EncodedMetric(m).Some? && |EncodedMetric(m).value| < INT32_LIMIT
    ensures DecodeMetric(EncodedMetric(m).value) == Ok(m) <==> Exact(m)
  {
    hide EncodedMetric, DecodeMetric, ReducedMetric, Exact;
    MetricRoundTrip(m);
    ReducedMetricIsSame(m);
  }

  lemma {:induction false} EachEncodes(ms: seq<Metric>, i: nat)
    requires EncodedMetrics(ms).Some? && i < |ms|
    ensures EncodedMetric(ms[i]).Some?
  {
    if i < |ms| - 1 { EachEncodes(ms[..|ms| - 1], i); }
  }

  /** The payload as the decoder would have to return it. */
  function Unchanged(p: Payload): DecodedPayload { DecodedPayload(Some(p.timestamp), Some(p.seqNo), p.metrics) }

  ghost predicate ExactPayload(p: Payload) {
    p.timestamp < INT32_LIMIT && p.seqNo < INT32_LIMIT && forall i :: 0 <= i < |p.metrics| ==> Exact(p.metrics[i])
  }

  lemma ReducedPayloadIsSame(p: Payload)
    requires Encoded(p).Some?
    ensures Reduced(p) == Unchanged(p) <==> ExactPayload(p)
  {
    Reduces(p.timestamp);
    Reduces(p.seqNo);
    hide EncodedMetric, ReducedMetric, Exact, ToInt32, EncodedMetrics;
    forall i | 0 <= i < |p.metrics| ensures ReducedMetric(p.metrics[i]) == p.metrics[i] <==> Exact(p.metrics[i]) {
      EachEncodes(p.metrics, i);
      ReducedMetricIsSame(p.metrics[i]);
    }
    if forall i :: 0 <= i < |p.metrics| ==> Exact(p.metrics[i]) { assert ReducedMetrics(p.metrics) == p.metrics; }
    else {
      var i :| 0 <= i < |p.metrics| && !Exact(p.metrics[i]);
      assert ReducedMetrics(p.metrics)[i] != p.metrics[i];
    }
  }

  /**
   * A payload that is encoded and decoded comes back unchanged exactly when every integer is below 2^31 and no metric
   * carries two values.
   */
  lemma PayloadSurvivesExactly(p: Payload)
    requires Encoded(p).Some? && |Encoded(p).value| < INT32_LIMIT
    ensures Decode(Encoded(p).value) == Ok(Unchanged(p)) <==> ExactPayload(p)
  {
    hide Encoded, Decode, Reduced, ExactPayload;
    PayloadRoundTrip(p);
    ReducedPayloadIsSame(p);
  }

  /** A payload that does not survive: a timestamp of 2^31 comes back negative. */
  lemma TimestampTurnsNegative()
    ensures var p := Payload(INT32_LIMIT, 0, []);
            Encoded(p).Some? && Decode(Encoded(p).value) == Ok(DecodedPayload(Some(-INT32_LIMIT), Some(0), []))
  {
    var p := Payload(INT32_LIMIT, 0, []);
    hide Varint, Decode;
    assert Encoded(p).Some? && ReducedMetrics(p.metrics) == [];
    assert |Encoded(p).value| < INT32_LIMIT by {
      PowFive();
      DigitCount(8, 5); DigitCount(24, 5); DigitCount(INT32_LIMIT, 5); DigitCount(0, 5);
    }
    hide Encoded;
    PayloadRoundTrip(p);
  }

  // ---------------------------------------------------------------- lengths that read as negative numbers

  /** A number reads as a negative one exactly when it, or its wrapped digits, has the 32nd bit. */
  lemma NegativeExactly(n: nat)
    ensures ReadAs(n) < 0 <==> n % U32 >= INT32_LIMIT || Wrapped(n) >= INT32_LIMIT
  {
    var a, b := n % U32, Wrapped(n);
    WrappedFits(n);
    OrGrows(a, b);
    Pow2Is32();
    assert Pow2(31) == INT32_LIMIT by { assert Pow2(32) == 2 * Pow2(31); }
    OrFits(a, b, 32);
    if a < INT32_LIMIT && b < INT32_LIMIT { OrFits(a, b, 31); }
    hide Or, Wrapped, Pow2;
  }

  /**
   * A length field moves the decoder backwards exactly when the 32nd bit is set in its number cut to 32 bits or in its
   * wrapped digits.
   */
  lemma LengthGoesBackExactly(bytes: Bytes, offset: nat, s: Bytes)
    requires IsVarint(s) && |s| <= MAX_DIGITS && At(bytes, offset, s)
    ensures ReadLengthDelimited(bytes, offset).Backward?
            <==> Number(s) % U32 >= INT32_LIMIT || Wrapped(Number(s)) >= INT32_LIMIT
  {
    hide ReadVarint, IsVarint, Wrapped, Or, ReadAs;
    ReadsVarint(bytes, offset, s);
    NegativeExactly(Number(s));
  }
}
