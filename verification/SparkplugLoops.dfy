/**
 * The Sparkplug decoders as the loops they are (office/src/sparkplug-protocol.ts, lines 246-386): offsets are integers,
 * a length that reads as a negative number moves them back, before the start of the buffer if need be, and a byte that
 * is not there reads as zero.
 */
module SparkplugLoops {
  import opened Common
  import opened Bits
  import opened Varints
  import opened Sparkplug
  import opened Loops

  datatype Reading = Value(value: int, next: int) | BadReading

  /** Before the start of the buffer every read yields zero and consumes one place. */
  function ReadNumber(bytes: Bytes, offset: int): Reading {
    if offset < 0 then Value(0, offset + 1)
    else match ReadVarint(bytes, offset) case Got(v, next) => Value(v, next) case BadVarint => BadReading
  }

  /** A part of the buffer; an end before the start of the buffer counts from its end. */
  function Part(bytes: Bytes, start: int, end: int): Bytes {
    var from, to := Clamp(bytes, start), Clamp(bytes, end);
    if from < to then bytes[from..to] else []
  }

  function Clamp(bytes: Bytes, at: int): (r: nat)
    ensures r <= |bytes|
  {
    if at > |bytes| then |bytes| else if at >= 0 then at else if |bytes| + at >= 0 then |bytes| + at else 0
  }

  datatype Piece = Piece(value: Bytes, next: int) | NoPiece

  function ReadPiece(bytes: Bytes, offset: int): Piece {
    match ReadNumber(bytes, offset)
    case BadReading => NoPiece
    case Value(length, start) =>
      if start + length > |bytes| then NoPiece else Piece(Part(bytes, start, start + length), start + length)
  }

  function Skip<T>(bytes: Bytes, offset: int, wire: int, acc: T): Turn<T> {
    if wire == 0 then
      match ReadNumber(bytes, offset) case Value(_, next) => Go(acc, next) case BadReading => Throws
    else if wire == 1 then Go(acc, offset + 8)
    else if wire == 2 then
      match ReadPiece(bytes, offset) case Piece(_, next) => Go(acc, next) case NoPiece => Throws
    else if wire == 5 then Go(acc, offset + 4)
    else Throws
  }

  /** The bytes of a number of fixed width; the source only gets there at offsets within the buffer. */
  function Fixed(bytes: Bytes, offset: int, width: nat): (r: Bytes)
    ensures |r| == width
  {
    if 0 <= offset && offset + width <= |bytes| then bytes[offset..offset + width] else seq(width, _ => 0)
  }

  /** One turn of the metric decoder: the key, then its field. */
  function MetricTurn(bytes: Bytes, offset: int, acc: Metric): Turn<Metric> {
    match ReadNumber(bytes, offset)
    case BadReading => Throws
    case Value(key, next) => MetricFieldTurn(bytes, next, key / 8, key % 8, acc)
  }

  function MetricFieldTurn(bytes: Bytes, offset: int, field: int, wire: int, acc: Metric): Turn<Metric> {
    if wire == 0 && field in {3, 4, 10, 11, 12, 14} then
      match ReadNumber(bytes, offset) {
        case Value(v, next) => Go(NumberField(acc, field, v), next)
        case BadReading => Throws
      }
    else if wire == 2 && field in {1, 13, 15} then
      match ReadPiece(bytes, offset) {
        case Piece(text, next) => Go(TextField(acc, field, text), next)
        case NoPiece => Throws
      }
    else if wire == 5 && field == 12 then
      if offset + 4 > |bytes| then Throws else Go(acc.(floatValue := Some(Fixed(bytes, offset, 4))), offset + 4)
    else if wire == 1 && field == 13 then
      if offset + 8 > |bytes| then Throws else Go(acc.(doubleValue := Some(Fixed(bytes, offset, 8))), offset + 8)
    else Skip(bytes, offset, wire, acc)
  }

  function MetricLoop(bytes: Bytes): (int, Metric) -> Turn<Metric> { (o, a) => MetricTurn(bytes, o, a) }

  function MetricAfter(bytes: Bytes, k: nat): State<Metric> {
    Steps(MetricLoop(bytes), |bytes|, Arrive(|bytes|, 0, BLANK), k)
  }

  /** What a decoder does: it returns, it throws, or it never ends. */
  datatype Outcome<+T> = Returns(value: T) | Raises | NeverEnds

  function OutcomeOf<T>(s: State<T>): Outcome<T> {
    match s
    case Returned(v) => Returns(v)
    case Raised => Raises
    case _ => NeverEnds
  }

  /** The decoder's outcome, which is settled after as many turns as there are offsets. */
  function MetricOutcome(bytes: Bytes): Outcome<Metric> { OutcomeOf(MetricAfter(bytes, Limit(|bytes|))) }

  function PayloadTurn(bytes: Bytes, offset: int, acc: DecodedPayload): Turn<DecodedPayload> {
    match ReadNumber(bytes, offset)
    case BadReading => Throws
    case Value(key, next) => PayloadFieldTurn(bytes, next, key / 8, key % 8, acc)
  }

  function PayloadFieldTurn(bytes: Bytes, offset: int, field: int, wire: int, acc: DecodedPayload)
    : Turn<DecodedPayload>
  {
    if wire == 0 && (field == 1 || field == 3) then
      match ReadNumber(bytes, offset) {
        case Value(v, next) => Go(PayloadNumber(acc, field, v), next)
        case BadReading => Throws
      }
    else if wire == 2 && field == 2 then
      match ReadPiece(bytes, offset)
      case NoPiece => Throws
      case Piece(body, next) => TakeMetric(MetricOutcome(body), acc, next)
    else Skip(bytes, offset, wire, acc)
  }

  function TakeMetric(m: Outcome<Metric>, acc: DecodedPayload, next: int): Turn<DecodedPayload> {
    match m
    case Returns(v) => Go(acc.(metrics := acc.metrics + [v]), next)
    case Raises => Throws
    case NeverEnds => Hangs
  }

  function PayloadLoop(bytes: Bytes): (int, DecodedPayload) -> Turn<DecodedPayload> {
    (o, a) => PayloadTurn(bytes, o, a)
  }

  function PayloadAfter(bytes: Bytes, k: nat): State<DecodedPayload> {
    Steps(PayloadLoop(bytes), |bytes|, Arrive(|bytes|, 0, EMPTY), k)
  }

  function PayloadOutcome(bytes: Bytes): Outcome<DecodedPayload> { OutcomeOf(PayloadAfter(bytes, Limit(|bytes|))) }

  // ---------------------------------------------------------------- the loops are regular

  /** Every number read has 32 bits. */
  lemma NumbersAreSmall(bytes: Bytes, offset: int)
    ensures var r := ReadNumber(bytes, offset); r.Value? ==> FLOOR <= r.value < INT32_LIMIT && r.next > offset
  {
    if offset >= 0 && ReadVarint(bytes, offset).Got? {
      ReadsOnlyVarints(bytes, offset);
      var s :| IsVarint(s) && |s| <= MAX_DIGITS && At(bytes, offset, s);
      ReadsVarint(bytes, offset, s);
      ReadAsFits(Number(s));
    }
    hide ReadVarint, ReadAs;
  }

  lemma ReadAsFits(n: nat)
    ensures FLOOR <= ReadAs(n) < INT32_LIMIT
  {
    WrappedFits(n);
    Pow2Is32();
    OrFits(n % U32, Wrapped(n), 32);
    hide Or, Wrapped, Pow2;
  }

  lemma PieceStaysAbove(bytes: Bytes, offset: int)
    requires offset >= FLOOR
    ensures var p := ReadPiece(bytes, offset); p.Piece? ==> offset >= 0 ==> p.next >= FLOOR
    ensures var p := ReadPiece(bytes, offset); p.Piece? && offset < 0 ==> p.next > offset
  {
    NumbersAreSmall(bytes, offset);
    hide ReadVarint;
  }

  lemma SkipStaysAbove<T>(bytes: Bytes, offset: int, wire: int, acc: T)
    requires offset >= FLOOR
    ensures var t := Skip(bytes, offset, wire, acc); t.Go? ==> t.offset >= FLOOR
  {
    NumbersAreSmall(bytes, offset);
    PieceStaysAbove(bytes, offset);
    hide ReadNumber, ReadPiece;
  }

  lemma MetricRegular(bytes: Bytes)
    ensures Regular(MetricLoop(bytes), |bytes|)
  {
    var turn := MetricLoop(bytes);
    forall o, a, b ensures SameMove(turn(o, a), turn(o, b)) { MetricMoves(bytes, o, a, b); }
    forall o, a | FLOOR <= o < |bytes| && turn(o, a).Go? ensures turn(o, a).offset >= FLOOR {
      MetricStaysAbove(bytes, o, a);
    }
  }

  lemma MetricMoves(bytes: Bytes, o: int, a: Metric, b: Metric)
    ensures SameMove(MetricTurn(bytes, o, a), MetricTurn(bytes, o, b))
  {
    hide ReadNumber, ReadPiece, NumberField, TextField;
  }

  lemma MetricStaysAbove(bytes: Bytes, o: int, a: Metric)
    requires o >= FLOOR
    ensures var t := MetricTurn(bytes, o, a); t.Go? ==> t.offset >= FLOOR
  {
    NumbersAreSmall(bytes, o);
    var r := ReadNumber(bytes, o);
    if r.Value? {
      NumbersAreSmall(bytes, r.next);
      PieceStaysAbove(bytes, r.next);
      SkipStaysAbove(bytes, r.next, r.value % 8, a);
    }
    hide ReadNumber, ReadPiece, NumberField, TextField, Skip;
  }

  lemma PayloadRegular(bytes: Bytes)
    ensures Regular(PayloadLoop(bytes), |bytes|)
  {
    var turn := PayloadLoop(bytes);
    forall o, a, b ensures SameMove(turn(o, a), turn(o, b)) { PayloadMoves(bytes, o, a, b); }
    forall o, a | FLOOR <= o < |bytes| && turn(o, a).Go? ensures turn(o, a).offset >= FLOOR {
      PayloadStaysAbove(bytes, o, a);
    }
  }

  lemma PayloadMoves(bytes: Bytes, o: int, a: DecodedPayload, b: DecodedPayload)
    ensures SameMove(PayloadTurn(bytes, o, a), PayloadTurn(bytes, o, b))
  {
    hide ReadNumber, ReadPiece, MetricOutcome, PayloadNumber;
  }

  lemma PayloadStaysAbove(bytes: Bytes, o: int, a: DecodedPayload)
    requires o >= FLOOR
    ensures var t := PayloadTurn(bytes, o, a); t.Go? ==> t.offset >= FLOOR
  {
    NumbersAreSmall(bytes, o);
    var r := ReadNumber(bytes, o);
    if r.Value? {
      NumbersAreSmall(bytes, r.next);
      PieceStaysAbove(bytes, r.next);
      SkipStaysAbove(bytes, r.next, r.value % 8, a);
    }
    hide ReadNumber, ReadPiece, MetricOutcome, PayloadNumber, Skip;
  }

  // ---------------------------------------------------------------- when they end

  lemma MetricIsSteps(bytes: Bytes)
    ensures Endless(MetricLoop(bytes), |bytes|, Arrive(|bytes|, 0, BLANK)) <==>
            forall k: nat :: !MetricAfter(bytes, k).Ended()
  {
    var turn, s := MetricLoop(bytes), Arrive(|bytes|, 0, BLANK);
    hide Steps;
    if forall k: nat :: !MetricAfter(bytes, k).Ended() {
      forall k: nat ensures !Steps(turn, |bytes|, s, k).Ended() { assert !MetricAfter(bytes, k).Ended(); }
    }
  }

  /** The metric decoder never ends exactly when it comes back to an offset. */
  lemma MetricEndsExactly(bytes: Bytes)
    ensures MetricOutcome(bytes).NeverEnds? <==> MeetsTwice(MetricLoop(bytes), |bytes|, Arrive(|bytes|, 0, BLANK))
    ensures MetricOutcome(bytes).NeverEnds? <==> forall k: nat :: !MetricAfter(bytes, k).Ended()
  {
    var turn, s := MetricLoop(bytes), Arrive(|bytes|, 0, BLANK);
    MetricRegular(bytes);
    EndlessExactly(turn, |bytes|, s);
    forall k: nat ensures !Steps(turn, |bytes|, s, k).Hung? { MetricNeverHangs(bytes, k); }
    assert !HangsSomewhere(turn, |bytes|, s);
    MetricIsSteps(bytes);
    hide Steps, Regular, MeetsTwice, HangsSomewhere;
  }

  lemma {:induction false} MetricNeverHangs(bytes: Bytes, k: nat)
    ensures !MetricAfter(bytes, k).Hung?
  {
    hide ReadNumber, ReadPiece;
    if k > 0 { MetricNeverHangs(bytes, k - 1); }
  }

  /** The payload decoder meets a metric on which the metric decoder never ends. */
  ghost predicate MeetsEndlessMetric(bytes: Bytes) {
    HangsSomewhere(PayloadLoop(bytes), |bytes|, Arrive(|bytes|, 0, EMPTY))
  }

  lemma PayloadIsSteps(bytes: Bytes)
    ensures Endless(PayloadLoop(bytes), |bytes|, Arrive(|bytes|, 0, EMPTY)) <==>
            forall k: nat :: !PayloadAfter(bytes, k).Ended()
  {
    var turn, s := PayloadLoop(bytes), Arrive(|bytes|, 0, EMPTY);
    hide Steps;
    if forall k: nat :: !PayloadAfter(bytes, k).Ended() {
      forall k: nat ensures !Steps(turn, |bytes|, s, k).Ended() { assert !PayloadAfter(bytes, k).Ended(); }
    }
  }

  /** The payload decoder never ends exactly when it comes back to an offset or meets a metric that never ends. */
  lemma PayloadEndsExactly(bytes: Bytes)
    ensures PayloadOutcome(bytes).NeverEnds?
            <==> MeetsTwice(PayloadLoop(bytes), |bytes|, Arrive(|bytes|, 0, EMPTY)) || MeetsEndlessMetric(bytes)
    ensures PayloadOutcome(bytes).NeverEnds? <==> forall k: nat :: !PayloadAfter(bytes, k).Ended()
  {
    var turn, s := PayloadLoop(bytes), Arrive(|bytes|, 0, EMPTY);
    PayloadRegular(bytes);
    EndlessExactly(turn, |bytes|, s);
    PayloadIsSteps(bytes);
    hide Steps, Regular, MeetsTwice, HangsSomewhere;
  }

  // ---------------------------------------------------------------- without negative lengths

  /** At this offset stands the key of a length-delimited field whose length reads as a negative number. */
  predicate NegativeLengthAt(bytes: Bytes, offset: int) {
    match ReadNumber(bytes, offset)
    case BadReading => false
    case Value(key, next) =>
      var length := ReadNumber(bytes, next); key % 8 == 2 && length.Value? && length.value < 0
  }

  /** The turn of a field without a negative length moves forward. */
  lemma SkipsForward<T>(bytes: Bytes, offset: int, wire: int, acc: T)
    requires wire == 2 && ReadNumber(bytes, offset).Value? ==> ReadNumber(bytes, offset).value >= 0
    ensures var t := Skip(bytes, offset, wire, acc); t.Go? ==> t.offset > offset
    ensures wire == 2 && ReadPiece(bytes, offset).Piece? ==> ReadPiece(bytes, offset).next > offset
  {
    NumbersAreSmall(bytes, offset);
    hide ReadNumber;
  }

  lemma MetricMovesForward(bytes: Bytes, o: int, a: Metric)
    requires !NegativeLengthAt(bytes, o)
    ensures var t := MetricTurn(bytes, o, a); t.Go? ==> t.offset > o
  {
    NumbersAreSmall(bytes, o);
    var r := ReadNumber(bytes, o);
    if r.Value? {
      NumbersAreSmall(bytes, r.next);
      SkipsForward(bytes, r.next, r.value % 8, a);
    }
    hide ReadNumber, ReadPiece, NumberField, TextField, Skip;
  }

  lemma PayloadMovesForward(bytes: Bytes, o: int, a: DecodedPayload)
    requires !NegativeLengthAt(bytes, o)
    ensures var t := PayloadTurn(bytes, o, a); t.Go? ==> t.offset > o
  {
    NumbersAreSmall(bytes, o);
    var r := ReadNumber(bytes, o);
    if r.Value? {
      NumbersAreSmall(bytes, r.next);
      SkipsForward(bytes, r.next, r.value % 8, a);
    }
    hide ReadNumber, ReadPiece, MetricOutcome, PayloadNumber, Skip;
  }

  /** A metric decoder that meets no negative length is over within as many turns as there are bytes. */
  lemma MetricEndsForward(bytes: Bytes)
    requires forall k: nat :: MetricAfter(bytes, k).Running? ==> !NegativeLengthAt(bytes, MetricAfter(bytes, k).offset)
    ensures MetricAfter(bytes, |bytes|).Ended() && !MetricOutcome(bytes).NeverEnds?
  {
    var turn, s := MetricLoop(bytes), Arrive(|bytes|, 0, BLANK);
    forall m: nat | m < |bytes| && Steps(turn, |bytes|, s, m).Running?
      ensures var t := Steps(turn, |bytes|, s, m); turn(t.offset, t.acc).Go? ==> turn(t.offset, t.acc).offset > t.offset
    {
      assert MetricAfter(bytes, m).Running?;
      MetricMovesForward(bytes, MetricAfter(bytes, m).offset, MetricAfter(bytes, m).acc);
    }
    ForwardEnds(turn, |bytes|, s, |bytes|);
    MetricRegular(bytes);
    InRange(turn, |bytes|, s, |bytes|);
    MetricNeverHangs(bytes, |bytes|);
    MetricEndsExactly(bytes);
    hide Steps;
  }

  /** So is a payload decoder that meets no negative length and no metric that never ends. */
  lemma PayloadEndsForward(bytes: Bytes)
    requires !MeetsEndlessMetric(bytes)
    requires forall k: nat ::
               PayloadAfter(bytes, k).Running? ==> !NegativeLengthAt(bytes, PayloadAfter(bytes, k).offset)
    ensures PayloadAfter(bytes, |bytes|).Ended() && !PayloadOutcome(bytes).NeverEnds?
  {
    var turn, s := PayloadLoop(bytes), Arrive(|bytes|, 0, EMPTY);
    forall m: nat | m < |bytes| && Steps(turn, |bytes|, s, m).Running?
      ensures var t := Steps(turn, |bytes|, s, m); turn(t.offset, t.acc).Go? ==> turn(t.offset, t.acc).offset > t.offset
    {
      assert PayloadAfter(bytes, m).Running?;
      PayloadMovesForward(bytes, PayloadAfter(bytes, m).offset, PayloadAfter(bytes, m).acc);
    }
    ForwardEnds(turn, |bytes|, s, |bytes|);
    PayloadRegular(bytes);
    InRange(turn, |bytes|, s, |bytes|);
    assert !PayloadAfter(bytes, |bytes|).Hung?;
    PayloadEndsExactly(bytes);
    hide Steps;
  }

  // ---------------------------------------------------------------- reading forward is what the loops do

  ghost predicate Agrees<T>(d: Decoded<T>, o: Outcome<T>) {
    match d
    case Ok(v) => o == Returns(v)
    case Error => o == Raises
    case Stopped => true
  }

  ghost predicate FieldAgrees<T>(f: Sparkplug.Step<T>, t: Turn<T>) {
    match f
    case Next(acc, offset) => t == Go(acc, offset)
    case Threw => t == Throws
    case WentBack => true
  }

  lemma PieceAgrees(bytes: Bytes, offset: nat)
    ensures match ReadLengthDelimited(bytes, offset)
            case Field(value, next) => ReadPiece(bytes, offset) == Piece(value, next)
            case Short => ReadPiece(bytes, offset) == NoPiece
            case Backward => true
  {
    hide ReadVarint;
  }

  lemma SkipAgrees<T>(bytes: Bytes, offset: nat, wire: int, acc: T)
    ensures FieldAgrees(SkipField(bytes, offset, wire, acc), Skip(bytes, offset, wire, acc))
  {
    PieceAgrees(bytes, offset);
    hide ReadVarint, ReadPiece, ReadLengthDelimited;
  }

  lemma MetricFieldAgrees(bytes: Bytes, offset: nat, field: int, wire: int, acc: Metric)
    ensures FieldAgrees(MetricField(bytes, offset, field, wire, acc), MetricFieldTurn(bytes, offset, field, wire, acc))
  {
    PieceAgrees(bytes, offset);
    SkipAgrees(bytes, offset, wire, acc);
    hide ReadVarint, ReadPiece, ReadLengthDelimited, NumberField, TextField, Skip, SkipField;
  }

  /** From any offset the loop gives what reading forward gives, unless that stops. */
  lemma {:induction false} MetricAgrees(bytes: Bytes, offset: nat, acc: Metric) returns (k: nat)
    ensures DecodeMetricFrom(bytes, offset, acc) != Stopped ==>
              Agrees(DecodeMetricFrom(bytes, offset, acc),
                     OutcomeOf(Steps(MetricLoop(bytes), |bytes|, Arrive(|bytes|, offset, acc), k)))
    decreases |bytes| - offset
  {
    var turn, s := MetricLoop(bytes), Arrive(|bytes|, offset, acc);
    hide MetricFieldTurn, MetricField, ReadVarint;
    k := 0;
    if offset < |bytes| && ReadVarint(bytes, offset).Got? {
      var Got(key, next) := ReadVarint(bytes, offset);
      MetricFieldAgrees(bytes, next, key / 8, key % 8, acc);
      match MetricField(bytes, next, key / 8, key % 8, acc)
      case Next(more, after) =>
        var m := MetricAgrees(bytes, after, more);
        assert Steps(turn, |bytes|, s, 0) == s;
        assert Steps(turn, |bytes|, s, 1) == Arrive(|bytes|, after, more);
        StepsAdd(turn, |bytes|, s, 1, m);
        k := 1 + m;
      case _ =>
        assert Steps(turn, |bytes|, s, 0) == s;
        k := 1;
    } else if offset < |bytes| {
      assert Steps(turn, |bytes|, s, 0) == s;
      k := 1;
    }
  }

  /** Once a loop is over its outcome is settled. */
  lemma SameEnd<T(!new)>(turn: (int, T) -> Turn<T>, size: nat, s: State<T>, k: nat)
    requires Regular(turn, size) && (s.Running? ==> FLOOR <= s.offset < size) && Steps(turn, size, s, k).Ended()
    ensures Steps(turn, size, s, Limit(size)) == Steps(turn, size, s, k)
  {
    EndlessExactly(turn, size, s);
    if k <= Limit(size) { Settled(turn, size, s, k, Limit(size)); } else { Settled(turn, size, s, Limit(size), k); }
    hide Steps, Limit;
  }

  /** The metric decoder returns, or throws, what reading forward does, unless that stops at a negative length. */
  lemma MetricDecodes(bytes: Bytes)
    ensures Agrees(DecodeMetric(bytes), MetricOutcome(bytes))
  {
    var turn, s := MetricLoop(bytes), Arrive(|bytes|, 0, BLANK);
    var k := MetricAgrees(bytes, 0, BLANK);
    MetricRegular(bytes);
    hide Steps, Regular, DecodeMetricFrom, Limit;
    if DecodeMetric(bytes) != Stopped { SameEnd(turn, |bytes|, s, k); }
  }

  lemma PayloadFieldAgrees(bytes: Bytes, offset: nat, field: int, wire: int, acc: DecodedPayload)
    ensures FieldAgrees(PayloadField(bytes, offset, field, wire, acc),
                        PayloadFieldTurn(bytes, offset, field, wire, acc))
  {
    PieceAgrees(bytes, offset);
    SkipAgrees(bytes, offset, wire, acc);
    if ReadLengthDelimited(bytes, offset).Field? { MetricDecodes(ReadLengthDelimited(bytes, offset).value); }
    hide ReadVarint, ReadPiece, ReadLengthDelimited, Skip, SkipField, DecodeMetric, MetricOutcome;
  }

  lemma {:induction false} PayloadAgrees(bytes: Bytes, offset: nat, acc: DecodedPayload) returns (k: nat)
    ensures DecodeFrom(bytes, offset, acc) != Stopped ==>
              Agrees(DecodeFrom(bytes, offset, acc),
                     OutcomeOf(Steps(PayloadLoop(bytes), |bytes|, Arrive(|bytes|, offset, acc), k)))
    decreases |bytes| - offset
  {
    var turn, s := PayloadLoop(bytes), Arrive(|bytes|, offset, acc);
    hide PayloadFieldTurn, PayloadField, ReadVarint;
    k := 0;
    if offset < |bytes| && ReadVarint(bytes, offset).Got? {
      var Got(key, next) := ReadVarint(bytes, offset);
      PayloadFieldAgrees(bytes, next, key / 8, key % 8, acc);
      match PayloadField(bytes, next, key / 8, key % 8, acc)
      case Next(more, after) =>
        var m := PayloadAgrees(bytes, after, more);
        assert Steps(turn, |bytes|, s, 0) == s;
        assert Steps(turn, |bytes|, s, 1) == Arrive(|bytes|, after, more);
        StepsAdd(turn, |bytes|, s, 1, m);
        k := 1 + m;
      case _ =>
        assert Steps(turn, |bytes|, s, 0) == s;
        k := 1;
    } else if offset < |bytes| {
      assert Steps(turn, |bytes|, s, 0) == s;
      k := 1;
    }
  }

  /** The payload decoder returns, or throws, what reading forward does, unless that stops at a negative length. */
  lemma PayloadDecodes(bytes: Bytes)
    ensures Agrees(Decode(bytes), PayloadOutcome(bytes))
  {
    var turn, s := PayloadLoop(bytes), Arrive(|bytes|, 0, EMPTY);
    var k := PayloadAgrees(bytes, 0, EMPTY);
    PayloadRegular(bytes);
    hide Steps, Regular, DecodeFrom, Limit;
    if Decode(bytes) != Stopped { SameEnd(turn, |bytes|, s, k); }
  }

  // ---------------------------------------------------------------- a decoder that never ends

  const ENDLESS: Bytes := [0x22, 0xfa, 0xff, 0xff, 0xff, 0x0f]

  lemma EndlessKey()
    ensures ReadVarint(ENDLESS, 0) == Got(34, 1)
  {
    var key := [0x22 as Byte];
    assert key[1..] == [];
    assert Number(key) == 34;
    ReadsVarint(ENDLESS, 0, key);
    NothingWraps(34);
  }

  lemma EndlessLength()
    ensures ReadVarint(ENDLESS, 1) == Got(-6, 6)
  {
    var s := ENDLESS[1..];
    assert s[1..] == [0xff, 0xff, 0xff, 0x0f] && s[1..][1..] == [0xff, 0xff, 0x0f] && s[1..][1..][1..] == [0xff, 0x0f];
    assert Number([0x0f]) == 15 by { assert [0x0f as Byte][1..] == []; }
    assert Number([0xff, 0x0f]) == 0x7ff by { assert [0xff as Byte, 0x0f][1..] == [0x0f]; }
    assert Number([0xff, 0xff, 0x0f]) == 0x3_ffff by { assert [0xff as Byte, 0xff, 0x0f][1..] == [0xff, 0x0f]; }
    assert Number(s) == 0xffff_fffa;
    hide Number;
    ReadsVarint(ENDLESS, 1, s);
    NothingWraps(0xffff_fffa);
    hide ReadVarint, ReadAs;
  }

  /** Six bytes on which the payload decoder never ends: their one field leads back to its own key. */
  lemma DecoderNeverEnds()
    ensures PayloadOutcome(ENDLESS) == NeverEnds
  {
    var turn, s := PayloadLoop(ENDLESS), Arrive(|ENDLESS|, 0, EMPTY);
    EndlessKey();
    EndlessLength();
    hide ReadVarint;
    assert Steps(turn, |ENDLESS|, s, 0) == Running(0, EMPTY);
    assert Steps(turn, |ENDLESS|, s, 1) == Running(0, EMPTY);
    assert Meets(turn, |ENDLESS|, s, 0, 1);
    PayloadEndsExactly(ENDLESS);
  }
}
