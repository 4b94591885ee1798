/**
 * The CyberFlake snowflake codec (src/utils/timer.js): a 64-bit identifier
 * laid out, from the most significant bit, as a 41-bit millisecond offset
 * from EPOCH, a 5-bit worker id, a 5-bit process id and a 12-bit sequence
 * number, exchanged as a decimal string.
 */
module Snowflake {
  import opened Wrappers
  import opened Bits
  import opened Numerals

  /** The generator epoch, 2015-01-01T00:00:00.000Z, in milliseconds since the Unix epoch. */
  const EPOCH: int := 1420070400000

  const MS_PER_DAY: int := 86400000

  /** Leap years of the Gregorian calendar among the years 1..y. */
  function LeapYearsThrough(y: nat): int
  {
    y / 4 - y / 100 + y / 400
  }

  /** Days from 1970-01-01 to January 1st of year y. */
  function DaysBeforeYear(y: int): int
    requires y >= 1970
  {
    365 * (y - 1970) + LeapYearsThrough(y - 1) - LeapYearsThrough(1969)
  }

  /** The `EPOCH` getter: the epoch as milliseconds, never changed. */
  function Epoch(): (ms: int)
    ensures ms == DaysBeforeYear(2015) * MS_PER_DAY
  {
    EPOCH
  }

  /** A JavaScript number, as far as `generate` distinguishes them. */
  datatype NumberValue =
    | Integral(ms: int)
    | NaN
    | NonInteger    // a fraction, Infinity or -Infinity: finite-or-not, but no BigInt exists for it

  /** The argument of `generate`. */
  datatype TimestampArg =
    | Omitted                       // `undefined`: the default `Date.now()` applies
    | Number(n: NumberValue)
    | DateValue(time: NumberValue)  // a Date object, read through `getTime()`
    | NotNumber                     // a string, a BigInt, an object, ...

  datatype GenerateError =
    | InvalidTimestamp   // the TypeError of line 26
    | NotAnInteger       // the RangeError BigInt throws for a number that is not an integer

  /** The error `BigInt(string)` throws for a string that is not an integer literal. */
  datatype ParseError = InvalidSnowflake

  /** Lines 21-27: `now` is what `Date.now()` returns at the time of the call. */
  function ResolveTimestamp(arg: TimestampArg, now: int): (r: Result<NumberValue, GenerateError>)
    ensures r.Err? <==> arg.NotNumber? || arg == Number(NaN) || arg == DateValue(NaN)
    ensures r.Err? ==> r.error == InvalidTimestamp
    ensures r.Ok? ==> r.value != NaN
    ensures arg.Omitted? ==> r == Ok(Integral(now))
    ensures arg.Number? && arg.n != NaN ==> r == Ok(arg.n)
    ensures arg.DateValue? && arg.time != NaN ==> r == Ok(arg.time)
  {
    var timestamp :=
      match arg
      case Omitted => Number(Integral(now))
      case DateValue(time) => Number(time)
      case _ => arg;
    match timestamp
    case Number(n) => if n.NaN? then Err(InvalidTimestamp) else Ok(n)
    case _ => Err(InvalidTimestamp)
  }

  /** Lines 29-32: the sequence number a call uses, given the counter before the call. */
  function SequenceUsed(counter: nat): (inc: nat)
    ensures inc < 4095
    ensures counter < 4095 ==> inc == counter
    ensures counter >= 4095 ==> inc == 0
  {
    if counter >= 0xFFF then 0 else counter
  }

  /**
   * The value of line 35, `(offset << 22n) | (1n << 17n) | increment`, for a
   * sequence number that fits in its 12-bit field: offset in bits 22 and up,
   * the worker id 1 in bit 17, the sequence number in bits 0-11.
   */
  function Pack(offset: int, increment: nat): (n: int)
    requires increment < 4096
    ensures n / 4194304 == offset && n % 4194304 == 131072 + increment
  {
    DivModUnique(offset * 4194304 + 131072 + increment, 4194304, offset, 131072 + increment);
    offset * 4194304 + 131072 + increment
  }

  /** The three fields of line 35 do not overlap, so its ORs are the sum `Pack` computes. */
  lemma PackIsBitwiseOr(offset: int, increment: nat)
    requires increment < 4096
    ensures Or(Or(Shl(offset, 22), Shl(1, 17)), increment) == Pack(offset, increment)
  {
    Pow2Constants();
    var high, worker := Shl(offset, 22), Shl(1, 17);
    OrDisjoint(high, worker, 22);
    DivModUnique(high + worker, worker, offset * 32 + 1, 0);
    OrDisjoint(high + worker, increment, 17);
  }

  /** Line 35 as written: the ORs of the shifted fields, which is the sum `Pack`. */
  method PackBits(offset: int, increment: nat) returns (n: int)
    requires increment < 4096
    ensures n == Pack(offset, increment)
  {
    n := Or(Or(Shl(offset, 22), Shl(1, 17)), increment);
    PackIsBitwiseOr(offset, increment);
  }

  /**
   * A generation call: the BigInt snowflake of line 35 (or the error thrown
   * before it) and the counter the call leaves behind.
   */
  datatype Step = Step(result: Result<int, GenerateError>, counter: nat)

  /** Line 36: what `generate` returns, the snowflake as its decimal string. */
  function Returned(result: Result<int, GenerateError>): (r: Result<string, GenerateError>)
    ensures r.Ok? <==> result.Ok?
    ensures r.Err? ==> r.error == result.error
    ensures r.Ok? ==> Parse(r.value, 10) == (if result.value >= 0 then Some(result.value) else None)
  {
    match result
    case Ok(n) =>
      assert Parse(IntToString(n), 10) == (if n >= 0 then Some(n) else None) by {
        if n >= 0 {
          DecimalRoundTrip(n);
        }
      }
      Ok(IntToString(n))
    case Err(e) => Err(e)
  }

  /**
   * `generate(arg)` with the module counter at `counter` (lines 21-37).
   * The counter reset of line 31 happens before line 35 converts the
   * timestamp, so a non-integer timestamp leaves the counter reset but not
   * advanced.
   */
  function GenerateStep(counter: nat, arg: TimestampArg, now: int): (st: Step)
    ensures ResolveTimestamp(arg, now).Err? ==> st == Step(Err(InvalidTimestamp), counter)
    ensures ResolveTimestamp(arg, now) == Ok(NonInteger) ==> st == Step(Err(NotAnInteger), SequenceUsed(counter))
    ensures st.result.Ok? <==> ResolveTimestamp(arg, now).Ok? && ResolveTimestamp(arg, now).value.Integral?
    ensures st.result.Ok? ==> st.counter == SequenceUsed(counter) + 1
    ensures st.result.Ok? ==> st.result.value == Pack(ResolveTimestamp(arg, now).value.ms - EPOCH, SequenceUsed(counter))
    ensures counter <= 4095 ==> st.counter <= 4095
  {
    match ResolveTimestamp(arg, now)
    case Err(e) => Step(Err(e), counter)
    case Ok(timestamp) =>
      var inc := SequenceUsed(counter);
      match timestamp
      case Integral(t) => Step(Ok(Pack(t - EPOCH, inc)), inc + 1)
      case _ => Step(Err(NotAnInteger), inc)
  }

  /** Lines 22-24: a Date argument behaves exactly like the number its `getTime()` returns. */
  lemma DateIsItsTime(counter: nat, time: NumberValue, now: int)
    ensures GenerateStep(counter, DateValue(time), now) == GenerateStep(counter, Number(time), now)
  {
  }

  /** The record `deconstruct` returns; the lazy `date` getter is not part of it. */
  datatype Deconstructed = Deconstructed(
    timestamp: int,
    workerId: nat,
    processId: nat,
    increment: nat,
    binary: string)

  /** Line 57: `n.toString(2).padStart(64, '0')`. */
  function Binary(n: nat): (s: string)
    ensures |s| >= 64
    ensures AllDigits(s, 2)
  {
    PadStart(Render(n, 2), 64, '0')
  }

  /** Lines 45-59. */
  function Deconstruct(snowflake: string): (r: Result<Deconstructed, ParseError>)
    ensures r.Ok? <==> Parse(snowflake, 10).Some?
    ensures r.Ok? ==> r.value.workerId <= 31 && r.value.processId <= 31 && r.value.increment <= 4095
  {
    match Parse(snowflake, 10)
    case None => Err(InvalidSnowflake)
    case Some(n) =>
      Ok(Deconstructed(
        Shr(n, 22) + EPOCH,
        And(Shr(n, 17), 0x1F),
        And(Shr(n, 12), 0x1F),
        And(n, 0xFFF),
        Binary(n)))
  }

  /**
   * Lines 67-69: EPOCH plus the bits of the parsed value above bit 22, so
   * never before EPOCH, since only digit strings parse.
   */
  function GetTimestamp(snowflake: string): (r: Result<int, ParseError>)
    ensures r.Ok? <==> Parse(snowflake, 10).Some?
    ensures r.Ok? ==> r.value >= EPOCH
    ensures r.Ok? ==>
      var offset, n := r.value - EPOCH, Parse(snowflake, 10).value;
      offset * 4194304 <= n < offset * 4194304 + 4194304
  {
    Pow2Constants();
    match Parse(snowflake, 10)
    case None => Err(InvalidSnowflake)
    case Some(n) => Ok(Shr(n, 22) + EPOCH)
  }

  /** `getTimestamp` is the timestamp field of `deconstruct`, and fails exactly when it does. */
  lemma TimestampOfDeconstruct(snowflake: string)
    ensures GetTimestamp(snowflake).Ok? <==> Deconstruct(snowflake).Ok?
    ensures GetTimestamp(snowflake).Ok? ==> GetTimestamp(snowflake).value == Deconstruct(snowflake).value.timestamp
  {
  }

  /** Lines 78-83: the distance in milliseconds between the timestamps of two snowflakes. */
  function CalculateDuration(snowflake1: string, snowflake2: string): (r: Result<nat, ParseError>)
    ensures r.Ok? <==> GetTimestamp(snowflake1).Ok? && GetTimestamp(snowflake2).Ok?
    ensures r.Ok? ==>
      var t1, t2 := GetTimestamp(snowflake1).value, GetTimestamp(snowflake2).value;
      r.value == t1 - t2 || r.value == t2 - t1
  {
    match GetTimestamp(snowflake1)
    case Err(e) => Err(e)
    case Ok(t1) =>
      match GetTimestamp(snowflake2)
      case Err(e) => Err(e)
      case Ok(t2) => Ok(if t1 >= t2 then t1 - t2 else t2 - t1)
  }

  /** Unpacking a packed value gives back the offset and sequence, worker id 1 and process id 0. */
  lemma UnpackPacked(offset: int, increment: nat, n: int)
    requires increment < 4096 && n == offset * 4194304 + 131072 + increment
    ensures Shr(n, 22) == offset
    ensures And(Shr(n, 17), 0x1F) == 1
    ensures And(Shr(n, 12), 0x1F) == 0
    ensures And(n, 0xFFF) == increment
  {
    Pow2Constants();
    DivModUnique(n, 4194304, offset, 131072 + increment);
    WorkerField(offset, increment, n);
    ProcessField(offset, increment, n);
    DivModUnique(n, 4096, offset * 1024 + 32, increment);
    AndLowMask(n, 12);
  }

  /** Bits 17-21 of a packed value hold the worker id 1. */
  lemma WorkerField(offset: int, increment: nat, n: int)
    requires increment < 4096 && n == offset * 4194304 + 131072 + increment
    ensures And(Shr(n, 17), 0x1F) == 1
  {
    Pow2Constants();
    var b := offset * 32 + 1;
    DivModUnique(n, 131072, b, increment);
    DivModUnique(b, 32, offset, 1);
    AndLowMask(b, 5);
    assert Shr(n, 17) == b;
  }

  /** Bits 12-16 of a packed value, the process id, are never written and read 0. */
  lemma ProcessField(offset: int, increment: nat, n: int)
    requires increment < 4096 && n == offset * 4194304 + 131072 + increment
    ensures And(Shr(n, 12), 0x1F) == 0
  {
    Pow2Constants();
    var c := offset * 1024 + 32;
    DivModUnique(n, 4096, c, increment);
    DivModUnique(c, 32, offset * 32 + 1, 0);
    AndLowMask(c, 5);
    assert Shr(n, 12) == c;
  }

  /** The four fields `deconstruct` reads out of a non-negative value put it back together. */
  lemma Recompose(n: nat)
    ensures Shr(n, 22) * 4194304 + And(Shr(n, 17), 0x1F) * 131072 + And(Shr(n, 12), 0x1F) * 4096 + And(n, 0xFFF) == n
  {
    Pow2Constants();
    var a, b, c := n / 4194304, n / 131072, n / 4096;
    AndLowMask(b, 5);
    AndLowMask(c, 5);
    AndLowMask(n, 12);
    DivModUnique(n, 4194304, b / 32, 131072 * (b % 32) + n % 131072);
    DivModUnique(n, 131072, c / 32, 4096 * (c % 32) + n % 4096);
    assert b == 32 * a + b % 32;
    assert c == 32 * b + c % 32;
  }

  /** The fields of a deconstructed snowflake are its bits: they put the parsed value back together. */
  lemma DeconstructRecompose(snowflake: string, n: nat)
    requires Parse(snowflake, 10) == Some(n)
    ensures Deconstruct(snowflake).Ok?
    ensures var d := Deconstruct(snowflake).value;
      (d.timestamp - EPOCH) * 4194304 + d.workerId * 131072 + d.processId * 4096 + d.increment == n
  {
    DeconstructValue(snowflake, n);
    Recompose(n);
    var d := Deconstruct(snowflake).value;
    assert d.timestamp - EPOCH == Shr(n, 22);
  }

  /** The binary field is the base-2 rendering of the value, zero-padded to at least 64 digits. */
  lemma BinaryIsBase2(n: nat)
    ensures Parse(Binary(n), 2) == Some(n)
    ensures |Binary(n)| >= 64
  {
    var s := Render(n, 2);
    RenderValue(n, 2);
    if |s| < 64 {
      LeadingZeros(64 - |s|, s, 2);
      assert Binary(n) == seq(64 - |s|, _ => '0') + s;
    }
  }

  /** The binary field is exactly 64 characters long exactly when the value is below 2^64. */
  lemma BinaryWidth(n: nat)
    ensures |Binary(n)| == 64 <==> n < Pow2(64)
  {
    Base2Width(n, 64);
  }

  /**
   * `r` is a successful `deconstruct` result with these fields, compared
   * field by field.
   */
  predicate HasFields(r: Result<Deconstructed, ParseError>, timestamp: int, workerId: nat, processId: nat, increment: nat, binary: string)
  {
    && r.Ok?
    && r.value.timestamp == timestamp
    && r.value.workerId == workerId
    && r.value.processId == processId
    && r.value.increment == increment
    && r.value.binary == binary
  }

  /** A snowflake generated from a timestamp at or after EPOCH deconstructs to its parts. */
  lemma GeneratedFields(counter: nat, arg: TimestampArg, now: int, t: int)
    requires ResolveTimestamp(arg, now) == Ok(Integral(t)) && t >= EPOCH
    ensures var st := GenerateStep(counter, arg, now);
      var inc := SequenceUsed(counter);
      && st.result.Ok?
      && HasFields(Deconstruct(Returned(st.result).value), t, 1, 0, inc, Binary(Pack(t - EPOCH, inc)))
  {
    var inc := SequenceUsed(counter);
    var n := Pack(t - EPOCH, inc);
    assert GenerateStep(counter, arg, now).result == Ok(n);
    DeconstructPacked(t, inc, n);
  }

  /** Deconstructing the decimal string of a value packed at or after EPOCH recovers its fields. */
  lemma DeconstructPacked(t: int, increment: nat, n: nat)
    requires t >= EPOCH && increment < 4096 && n == Pack(t - EPOCH, increment)
    ensures HasFields(Deconstruct(IntToString(n)), t, 1, 0, increment, Binary(n))
  {
    DecimalRoundTrip(n);
    DeconstructValue(IntToString(n), n);
    UnpackPacked(t - EPOCH, increment, n);
  }

  /** `deconstruct` of a string that parses to n, field by field. */
  lemma DeconstructValue(s: string, n: nat)
    requires Parse(s, 10) == Some(n)
    ensures HasFields(Deconstruct(s), Shr(n, 22) + EPOCH, And(Shr(n, 17), 0x1F), And(Shr(n, 12), 0x1F), And(n, 0xFFF), Binary(n))
  {
  }

  /** Round trip: the timestamp read back from a generated snowflake is the one it was made from. */
  lemma GenerateRoundTrip(counter: nat, arg: TimestampArg, now: int, t: int)
    requires ResolveTimestamp(arg, now) == Ok(Integral(t)) && t >= EPOCH
    ensures GenerateStep(counter, arg, now).result.Ok?
    ensures GetTimestamp(Returned(GenerateStep(counter, arg, now).result).value) == Ok(t)
  {
    GeneratedFields(counter, arg, now, t);
    TimestampOfDeconstruct(Returned(GenerateStep(counter, arg, now).result).value);
  }

  /** Within the 41-bit range the snowflake fits in 63 bits and its binary field is 64 characters. */
  lemma GeneratedFits64Bits(offset: int, increment: nat)
    requires 0 <= offset < Pow2(41) && increment < 4096
    ensures 0 <= Pack(offset, increment) < Pow2(63)
    ensures |Binary(Pack(offset, increment))| == 64
  {
    Pow2Constants();
    BinaryWidth(Pack(offset, increment));
  }

  /** `calculateDuration` does not depend on the order of its arguments. */
  lemma DurationSymmetric(snowflake1: string, snowflake2: string)
    ensures CalculateDuration(snowflake1, snowflake2) == CalculateDuration(snowflake2, snowflake1)
  {
  }

  /** `calculateDuration` is the distance between the two timestamps the snowflakes carry. */
  lemma DurationOfTimestamps(snowflake1: string, snowflake2: string, t1: int, t2: int)
    requires GetTimestamp(snowflake1) == Ok(t1) && GetTimestamp(snowflake2) == Ok(t2)
    ensures CalculateDuration(snowflake1, snowflake2) == Ok(if t1 >= t2 then t1 - t2 else t2 - t1)
  {
  }

  /** The duration between two generated snowflakes is the distance between their timestamps. */
  lemma DurationOfGenerated(c1: nat, t1: int, c2: nat, t2: int, now: int)
    requires t1 >= EPOCH && t2 >= EPOCH
    ensures var s1 := Returned(GenerateStep(c1, Number(Integral(t1)), now).result);
      var s2 := Returned(GenerateStep(c2, Number(Integral(t2)), now).result);
      && s1.Ok? && s2.Ok?
      && CalculateDuration(s1.value, s2.value) == Ok(if t1 >= t2 then t1 - t2 else t2 - t1)
  {
    var s1 := Returned(GenerateStep(c1, Number(Integral(t1)), now).result);
    var s2 := Returned(GenerateStep(c2, Number(Integral(t2)), now).result);
    GenerateRoundTrip(c1, Number(Integral(t1)), now, t1);
    GenerateRoundTrip(c2, Number(Integral(t2)), now, t2);
    DurationOfTimestamps(s1.value, s2.value, t1, t2);
  }

  /** The results of n consecutive `generate(arg)` calls starting with the counter at `counter`. */
  function Burst(counter: nat, arg: TimestampArg, now: int, n: nat): (b: seq<Result<int, GenerateError>>)
    ensures |b| == n
    decreases n
  {
    if n == 0 then []
    else
      var st := GenerateStep(counter, arg, now);
      [st.result] + Burst(st.counter, arg, now, n - 1)
  }

  /** The counter after i successful calls. */
  function CounterAfter(counter: nat, i: nat): nat
    decreases i
  {
    if i == 0 then counter else CounterAfter(SequenceUsed(counter) + 1, i - 1)
  }

  /** Call i of a burst at a fixed millisecond is a snowflake built from the counter left by the first i calls. */
  lemma BurstElement(counter: nat, arg: TimestampArg, now: int, t: int, n: nat, i: nat)
    requires ResolveTimestamp(arg, now) == Ok(Integral(t)) && i < n
    ensures Burst(counter, arg, now, n)[i]
         == Ok(Pack(t - EPOCH, SequenceUsed(CounterAfter(counter, i))))
  {
    BurstCall(counter, arg, now, t, n, i);
  }

  /** Call i of a burst is a call made with the counter the first i calls leave behind. */
  lemma {:induction false} BurstCall(counter: nat, arg: TimestampArg, now: int, t: int, n: nat, i: nat)
    requires ResolveTimestamp(arg, now) == Ok(Integral(t)) && i < n
    ensures Burst(counter, arg, now, n)[i] == GenerateStep(CounterAfter(counter, i), arg, now).result
    decreases i
  {
    var st := GenerateStep(counter, arg, now);
    var rest := Burst(st.counter, arg, now, n - 1);
    assert Burst(counter, arg, now, n) == [st.result] + rest;
    if i > 0 {
      BurstCall(st.counter, arg, now, t, n - 1, i - 1);
    }
  }

  /**
   * Starting from sequence number s, call i uses s + i, wrapping to 0 after
   * 4094: the emitted sequence numbers cycle through 0..4094.
   */
  lemma {:induction false} SequenceCycle(counter: nat, i: nat)
    requires i <= 4095
    ensures var s := SequenceUsed(counter);
      SequenceUsed(CounterAfter(counter, i)) == if s + i < 4095 then s + i else s + i - 4095
    decreases i
  {
    if i > 0 {
      SequenceCycle(SequenceUsed(counter) + 1, i - 1);
    }
  }

  /**
   * With the clock frozen, 4095 consecutive calls return pairwise distinct
   * strings and call 4096 repeats the first: the sequence has period 4095.
   */
  lemma BurstPeriod(counter: nat, arg: TimestampArg, now: int, t: int)
    requires ResolveTimestamp(arg, now) == Ok(Integral(t))
    ensures var b := Burst(counter, arg, now, 4096);
      && (forall i, j :: 0 <= i < j < 4095 ==> Returned(b[i]) != Returned(b[j]))
      && Returned(b[4095]) == Returned(b[0])
  {
    var b := Burst(counter, arg, now, 4096);
    forall i, j | 0 <= i < j < 4095
      ensures Returned(b[i]) != Returned(b[j])
    {
      BurstDistinct(counter, arg, now, t, i, j);
    }
    BurstElement(counter, arg, now, t, 4096, 0);
    BurstElement(counter, arg, now, t, 4096, 4095);
    SequenceCycle(counter, 4095);
  }

  /** Calls i < j < 4095 of a burst at a fixed millisecond return different strings. */
  lemma BurstDistinct(counter: nat, arg: TimestampArg, now: int, t: int, i: nat, j: nat)
    requires ResolveTimestamp(arg, now) == Ok(Integral(t)) && i < j < 4095
    ensures Returned(Burst(counter, arg, now, 4096)[i]) != Returned(Burst(counter, arg, now, 4096)[j])
  {
    BurstElement(counter, arg, now, t, 4096, i);
    BurstElement(counter, arg, now, t, 4096, j);
    SequenceCycle(counter, i);
    SequenceCycle(counter, j);
    var x, y := SequenceUsed(CounterAfter(counter, i)), SequenceUsed(CounterAfter(counter, j));
    assert x != y;
    var p, q := Pack(t - EPOCH, x), Pack(t - EPOCH, y);
    assert p != q;
    if IntToString(p) == IntToString(q) {
      IntToStringInjective(p, q);
    }
  }

  /**
   * The module-level sequence counter (line 9) with `generate` (lines 21-37)
   * as the method that reads, resets and post-increments it.
   */
  class CyberFlake {
    var increment: nat

    ghost predicate Valid()
      reads this
    {
      increment <= 0xFFF
    }

    /** Line 9: the counter starts at 0. */
    constructor ()
      ensures Valid() && increment == 0
    {
      increment := 0;
    }

    method Generate(arg: TimestampArg, now: int) returns (r: Result<string, GenerateError>)
      modifies this
      ensures r == Returned(GenerateStep(old(increment), arg, now).result)
      ensures increment == GenerateStep(old(increment), arg, now).counter
      ensures old(Valid()) ==> Valid()
    {
      ghost var counter := increment;
      var timestamp: NumberValue;
      match arg {
        case Omitted => timestamp := Integral(now);
        case DateValue(time) => timestamp := time;
        case Number(n) => timestamp := n;
        case NotNumber => return Err(InvalidTimestamp);
      }
      if timestamp.NaN? {
        return Err(InvalidTimestamp);
      }
      if increment >= 0xFFF {
        increment := 0;
      }
      if !timestamp.Integral? {
        return Err(NotAnInteger);
      }
      var snowflake := PackBits(timestamp.ms - EPOCH, increment);
      increment := increment + 1;
      r := Ok(IntToString(snowflake));
    }
  }
}
