/**
 * Payloads of the rig (rig/internal/sparkplug/sparkplug.go, lines 91-134) as the office decodes them. The rig writes
 * 64-bit varints, which the office reads with 32-bit shifts.
 */
module SparkplugRig {
  import opened Common
  import opened Bits
  import opened Varints
  import opened Sparkplug
  import opened SparkplugLoops

  const U64: int := 0x1_0000_0000_0000_0000

  type UInt64 = n: int | 0 <= n < U64
  type Int32 = n: int | -INT32_LIMIT <= n < INT32_LIMIT

  datatype RigValue =
    | RigInt(v: Int32)
    | RigLong(n: UInt64)
    | RigDouble(raw: Float64)
    | RigBool(b: bool)
    | RigText(text: Bytes)

  datatype RigMetric = RigMetric(name: Bytes, value: RigValue)

  datatype RigPayload = RigPayload(timestamp: UInt64, metrics: seq<RigMetric>, seqNo: Option<UInt64>)

  /** A signed number as the 64-bit pattern it is converted to. */
  function Extended(v: Int32): UInt64 { if v < 0 then v + U64 else v }

  function WideField(field: nat, value: UInt64): Bytes { Key(field, 0) + Varint(value) }

  function KindOf(v: RigValue): nat {
    match v
    case RigInt(_) => 3
    case RigLong(_) => 8
    case RigDouble(_) => 10
    case RigBool(_) => 11
    case RigText(_) => 12
  }

  function RigValueField(v: RigValue): Bytes {
    match v
    case RigInt(n) => WideField(10, Extended(n))
    case RigLong(n) => WideField(11, n)
    case RigDouble(raw) => FixedField(13, 1, raw)
    case RigBool(b) => WideField(14, if b then 1 else 0)
    case RigText(text) => BytesField(15, text)
  }

  function RigMetricBytes(m: RigMetric): Bytes {
    BytesField(1, m.name) + WideField(4, KindOf(m.value)) + RigValueField(m.value)
  }

  function RigMetrics(ms: seq<RigMetric>): Bytes {
    if ms == [] then [] else RigMetrics(ms[..|ms| - 1]) + BytesField(2, RigMetricBytes(ms[|ms| - 1]))
  }

  function RigBytes(p: RigPayload): Bytes {
    WideField(1, p.timestamp) + RigMetrics(p.metrics) + if p.seqNo.Some? then WideField(3, p.seqNo.value) else []
  }

  // ---------------------------------------------------------------- what the office makes of them

  function Seen(m: RigMetric): Metric {
    var base := BLANK.(name := m.name, kind := KindOf(m.value));
    match m.value
    case RigInt(v) => base.(intValue := Some(ReadAs(Extended(v))))
    case RigLong(n) => base.(longValue := Some(ReadAs(n)))
    case RigDouble(raw) => base.(doubleValue := Some(raw))
    case RigBool(b) => base.(boolValue := Some(b))
    case RigText(text) => base.(stringValue := Some(text))
  }

  function SeenAll(ms: seq<RigMetric>): seq<Metric> { seq(|ms|, i requires 0 <= i < |ms| => Seen(ms[i])) }

  function SeenPayload(p: RigPayload): DecodedPayload {
    var seqNo := if p.seqNo.None? then None else Some(ReadAs(p.seqNo.value));
    DecodedPayload(Some(ReadAs(p.timestamp)), seqNo, SeenAll(p.metrics))
  }

  /** A 64-bit number has at most ten digits. */
  lemma WideNumber(n: UInt64)
    ensures IsVarint(Varint(n)) && |Varint(n)| <= MAX_DIGITS && Number(Varint(n)) == n
  {
    hide Varint, Pow2;
    VarintIsVarint(n);
    Pow2Of70();
    DigitCount(n, 10);
  }

  lemma Pow2Of70()
    ensures Pow2(70) > U64
  {
    PowFive();
    Pow2Seven(35); Pow2Seven(42); Pow2Seven(49); Pow2Seven(56); Pow2Seven(63);
    hide Pow2;
  }

  lemma MetricSeesNumber(bytes: Bytes, offset: nat, acc: Metric, field: nat, value: UInt64)
    requires At(bytes, offset, WideField(field, value)) && field in {3, 4, 10, 11, 12, 14}
    ensures DecodeMetricFrom(bytes, offset, acc)
            == DecodeMetricFrom(bytes, offset + |WideField(field, value)|, NumberField(acc, field, ReadAs(value)))
  {
    hide Varint, ReadAs, Key, NumberField, DecodeMetricFrom, IsVarint;
    WideNumber(value);
    MetricTakesVarint(bytes, offset, acc, field, Varint(value));
  }

  lemma PayloadSeesNumber(bytes: Bytes, offset: nat, acc: DecodedPayload, field: nat, value: UInt64)
    requires At(bytes, offset, WideField(field, value)) && (field == 1 || field == 3)
    ensures DecodeFrom(bytes, offset, acc)
            == DecodeFrom(bytes, offset + |WideField(field, value)|, PayloadNumber(acc, field, ReadAs(value)))
  {
    hide Varint, ReadAs, Key, PayloadNumber, DecodeFrom, IsVarint;
    WideNumber(value);
    PayloadTakesVarint(bytes, offset, acc, field, Varint(value));
  }

  lemma SmallSeen(n: nat)
    requires n < INT32_LIMIT
    ensures ReadAs(n) == n
  {
    NothingWraps(n);
    Reduces(n);
    hide ReadAs, ToInt32;
  }

  lemma MetricSeesValue(bytes: Bytes, offset: nat, m: RigMetric)
    requires At(bytes, offset, RigValueField(m.value)) && offset + |RigValueField(m.value)| == |bytes| < INT32_LIMIT
    ensures DecodeMetricFrom(bytes, offset, BLANK.(name := m.name, kind := KindOf(m.value))) == Ok(Seen(m))
  {
    hide ReadAs, Varint, MetricField, ReadVarint;
    var acc := BLANK.(name := m.name, kind := KindOf(m.value));
    match m.value
    case RigInt(v) => MetricSeesNumber(bytes, offset, acc, 10, Extended(v));
    case RigLong(n) => MetricSeesNumber(bytes, offset, acc, 11, n);
    case RigDouble(raw) => MetricTakesDouble(bytes, offset, acc, raw);
    case RigBool(b) => SmallSeen(if b then 1 else 0); MetricSeesNumber(bytes, offset, acc, 14, if b then 1 else 0);
    case RigText(text) => MetricTakesText(bytes, offset, acc, 15, text);
  }

  lemma MetricIsSeen(m: RigMetric)
    requires |RigMetricBytes(m)| < INT32_LIMIT
    ensures DecodeMetric(RigMetricBytes(m)) == Ok(Seen(m))
  {
    hide ReadAs, WideField, RigValueField, DecodeMetricFrom, Seen, At;
    var bytes := RigMetricBytes(m);
    var name, kind, value := BytesField(1, m.name), WideField(4, KindOf(m.value)), RigValueField(m.value);
    assert |m.name| <= |name|;
    hide BytesField;
    assert bytes == [] + name + kind + value;
    Layout(bytes, [], name, kind, value);
    MetricTakesText(bytes, 0, BLANK, 1, m.name);
    MetricSeesNumber(bytes, |name|, BLANK.(name := m.name), 4, KindOf(m.value));
    SmallSeen(KindOf(m.value));
    MetricSeesValue(bytes, |name| + |kind|, m);
  }

  lemma PayloadSeesMetric(bytes: Bytes, offset: nat, acc: DecodedPayload, m: RigMetric)
    requires |RigMetricBytes(m)| < INT32_LIMIT && At(bytes, offset, BytesField(2, RigMetricBytes(m)))
    ensures DecodeFrom(bytes, offset, acc)
            == DecodeFrom(bytes, offset + |BytesField(2, RigMetricBytes(m))|, acc.(metrics := acc.metrics + [Seen(m)]))
  {
    hide RigMetricBytes, Seen, DecodeFrom, DecodeMetric, BytesField;
    MetricIsSeen(m);
    PayloadTakesBody(bytes, offset, acc, RigMetricBytes(m), Seen(m));
  }

  lemma {:induction false} PayloadSeesMetrics(bytes: Bytes, offset: nat, acc: DecodedPayload, ms: seq<RigMetric>)
    requires |RigMetrics(ms)| < INT32_LIMIT && At(bytes, offset, RigMetrics(ms))
    ensures DecodeFrom(bytes, offset, acc)
            == DecodeFrom(bytes, offset + |RigMetrics(ms)|, acc.(metrics := acc.metrics + SeenAll(ms)))
  {
    hide DecodeFrom, RigMetricBytes, Seen;
    if ms == [] {
      assert acc.metrics + SeenAll(ms) == acc.metrics;
    } else {
      var before, last := ms[..|ms| - 1], ms[|ms| - 1];
      var rest, field := RigMetrics(before), BytesField(2, RigMetricBytes(last));
      assert |RigMetricBytes(last)| <= |field|;
      AtJoin(bytes, offset, rest, field);
      PayloadSeesMetrics(bytes, offset, acc, before);
      PayloadSeesMetric(bytes, offset + |rest|, acc.(metrics := acc.metrics + SeenAll(before)), last);
      assert SeenAll(ms) == SeenAll(before) + [Seen(last)];
      assert acc.metrics + SeenAll(before) + [Seen(last)] == acc.metrics + SeenAll(ms);
    }
  }

  /** The office decodes every payload of the rig: all metrics, in order, with every number as the office reads it. */
  lemma RigPayloadIsSeen(p: RigPayload)
    requires |RigBytes(p)| < INT32_LIMIT
    ensures PayloadOutcome(RigBytes(p)) == Returns(SeenPayload(p))
  {
    hide ReadAs, WideField, RigMetrics, DecodeFrom, At, SeenAll, PayloadOutcome;
    var bytes := RigBytes(p);
    var stamp, body := WideField(1, p.timestamp), RigMetrics(p.metrics);
    var tail := if p.seqNo.Some? then WideField(3, p.seqNo.value) else [];
    assert bytes == [] + stamp + body + tail;
    Layout(bytes, [], stamp, body, tail);
    PayloadSeesNumber(bytes, 0, EMPTY, 1, p.timestamp);
    var a := EMPTY.(timestamp := Some(ReadAs(p.timestamp)));
    PayloadSeesMetrics(bytes, |stamp|, a, p.metrics);
    assert [] + SeenAll(p.metrics) == SeenAll(p.metrics);
    var b := a.(metrics := SeenAll(p.metrics));
    if p.seqNo.Some? { PayloadSeesNumber(bytes, |stamp| + |body|, b, 3, p.seqNo.value); }
    AtEnd(bytes, SeenPayload(p));
    PayloadDecodes(bytes);
  }

  // ---------------------------------------------------------------- negative numbers

  lemma {:induction false} OrOnes(x: nat, k: nat)
    requires x < Pow2(k)
    ensures Or(x, Pow2(k) - 1) == Pow2(k) - 1
  {
    if k > 0 && x > 0 {
      OrOnes(x / 2, k - 1);
      assert (Pow2(k) - 1) / 2 == Pow2(k - 1) - 1 && (Pow2(k) - 1) % 2 == 1;
    }
  }

  /** Or-ing in a multiple of eight leaves the three low bits alone. */
  lemma OrOctets(a: nat, m: nat)
    requires a >= 8 && m > 0
    ensures Or(a, 8 * m) == 8 * Or(a / 8, m) + a % 8
  {
    assert 8 * m / 2 == 4 * m && 4 * m / 2 == 2 * m && 2 * m / 2 == m;
    assert Or(a, 8 * m) == 2 * Or(a / 2, 4 * m) + a % 2;
    assert Or(a / 2, 4 * m) == 2 * Or(a / 2 / 2, 2 * m) + a / 2 % 2;
    assert Or(a / 2 / 2, 2 * m) == 2 * Or(a / 2 / 2 / 2, m) + a / 2 / 2 % 2;
    assert a / 2 / 2 / 2 == a / 8;
  }

  lemma PowOf29()
    ensures Pow2(29) == 0x2000_0000
  {
    Pow2Is32();
    assert Pow2(32) == 2 * Pow2(31) == 4 * Pow2(30) == 8 * Pow2(29);
  }

  /** Of a negative 32-bit number only the three low bits arrive. */
  lemma NegativeSeen(v: Int32)
    requires v < 0
    ensures ReadAs(Extended(v)) == v % 8 - 8
  {
    var n, a := v + U64, v + U32;
    assert n % U32 == a && n / FIVE_DIGITS == 0x1fff_ffff;
    assert Wrapped(n) == 8 * 0x1fff_ffff;
    PowOf29();
    OrOnes(a / 8, 29);
    OrOctets(a, 0x1fff_ffff);
    hide Or, Pow2;
    assert a % 8 == v % 8;
  }

  /** A signed number of the rig is seen as it is exactly when it is at least -8. */
  lemma RigIntSeenExactly(v: Int32)
    ensures ReadAs(Extended(v)) == v <==> v >= -8
  {
    if v < 0 { NegativeSeen(v); } else { SmallSeen(v); }
    hide ReadAs;
  }
}
