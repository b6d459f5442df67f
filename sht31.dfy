/**
 * The two Sensirion SHT31 temperature and humidity sensors of the humidity
 * box, on one I2C bus. A reading sends a two-byte measurement command, reads
 * the six-byte reply and turns its two 16-bit words (the CRC bytes are
 * skipped) into degrees and percent relative humidity.
 *
 * The bus records every write and serves the sensor replies from a queue,
 * in the order the sensors produce them; the 50 ms wait between command
 * and reply is not modelled. Temperatures and humidities are reals.
 */
module Sht31 {
  import opened Wrappers

  newtype byte = b: int | 0 <= b < 256

  /** Repeatability settings. */
  const RHigh: int := 1
  const RMedium: int := 2
  const RLow: int := 3

  predicate ValidRepeatability(r: int) {
    r == RHigh || r == RMedium || r == RLow
  }

  /** `ValueError` with its message, and Python's division by zero. */
  datatype SensorError = ValueError(message: string) | ZeroDivisionError

  /** `_map_cs_r`: the measurement command by clock stretching and repeatability. */
  const CommandTable: map<bool, map<int, seq<byte>>> :=
    map[true := map[RHigh := [0x2c, 0x06], RMedium := [0x2c, 0x0d], RLow := [0x2c, 0x10]],
        false := map[RHigh := [0x24, 0x00], RMedium := [0x24, 0x0b], RLow := [0x24, 0x16]]]

  /** `_map_cs_r[cs][r]` */
  function Command(cs: bool, r: int): (cmd: seq<byte>)
    requires ValidRepeatability(r)
  {
    CommandTable[cs][r]
  }

  /** Every command is two bytes, and the six commands are pairwise different. */
  lemma CommandsDistinct()
    ensures forall cs: bool, r: int | ValidRepeatability(r) :: |Command(cs, r)| == 2
    ensures forall cs: bool, r: int, cs2: bool, r2: int
              | ValidRepeatability(r) && ValidRepeatability(r2) && Command(cs, r) == Command(cs2, r2)
              :: cs == cs2 && r == r2
  {
    forall cs: bool, r: int, cs2: bool, r2: int
      | ValidRepeatability(r) && ValidRepeatability(r2) && Command(cs, r) == Command(cs2, r2)
      ensures cs == cs2 && r == r2
    {
      var c, c2 := Command(cs, r), Command(cs2, r2);
      assert c[0] == c2[0] && c[1] == c2[1];
    }
  }

  /** The raw temperature and humidity words of a six-byte reply: bytes 0-1 and 3-4, big-endian. */
  function Decode(raw: seq<byte>): (words: (int, int))
    requires |raw| == 6
    ensures 0 <= words.0 <= 65535 && 0 <= words.1 <= 65535
  {
    (raw[0] as int * 256 + raw[1] as int, raw[3] as int * 256 + raw[4] as int)
  }

  /** The reply a sensor sends for the words `t` and `h`, with CRC bytes `crc1` and `crc2`. */
  function Encode(t: int, h: int, crc1: byte, crc2: byte): (raw: seq<byte>)
    requires 0 <= t <= 65535 && 0 <= h <= 65535
    ensures |raw| == 6
  {
    [(t / 256) as byte, (t % 256) as byte, crc1, (h / 256) as byte, (h % 256) as byte, crc2]
  }

  /** Decoding recovers both words whatever the CRC bytes are. */
  lemma DecodeEncode(t: int, h: int, crc1: byte, crc2: byte)
    requires 0 <= t <= 65535 && 0 <= h <= 65535
    ensures Decode(Encode(t, h, crc1, crc2)) == (t, h)
  {
  }

  /** Every reply is the encoding of its own words: decoding loses nothing but the CRC bytes. */
  lemma EncodeDecode(raw: seq<byte>)
    requires |raw| == 6
    ensures Encode(Decode(raw).0, Decode(raw).1, raw[2], raw[5]) == raw
  {
    var (t, h) := Decode(raw);
    assert t / 256 == raw[0] as int && t % 256 == raw[1] as int;
    assert h / 256 == raw[3] as int && h % 256 == raw[4] as int;
  }

  /** `-45 + 175 * (t / 65535)` */
  function Celsius(t: int): real {
    -45.0 + 175.0 * (t as real / 65535.0)
  }

  /** `-49 + 315 * (t / 65535)` */
  function Fahrenheit(t: int): real {
    -49.0 + 315.0 * (t as real / 65535.0)
  }

  /** `100 * (h / 65535)` */
  function Humidity(h: int): real {
    100.0 * (h as real / 65535.0)
  }

  /** Over the 16-bit range the conversions cover exactly the sensor's scales, rising with the word. */
  lemma ConversionRanges(w: int, w2: int)
    requires 0 <= w <= w2 <= 65535
    ensures -45.0 <= Celsius(w) <= Celsius(w2) <= 130.0
    ensures -49.0 <= Fahrenheit(w) <= Fahrenheit(w2) <= 266.0
    ensures 0.0 <= Humidity(w) <= Humidity(w2) <= 100.0
    ensures Celsius(0) == -45.0 && Celsius(65535) == 130.0
    ensures Fahrenheit(0) == -49.0 && Fahrenheit(65535) == 266.0
    ensures Humidity(0) == 0.0 && Humidity(65535) == 100.0
  {
    var x, x2 := w as real / 65535.0, w2 as real / 65535.0;
    assert 0.0 <= x <= x2 <= 1.0;
  }

  /** The temperature (in the chosen unit) and humidity of one reply. */
  function Reading(raw: seq<byte>, celsius: bool): (real, real)
    requires |raw| == 6
  {
    var (t, h) := Decode(raw);
    (if celsius then Celsius(t) else Fahrenheit(t), Humidity(h))
  }

  /** The I2C bus: what was written to which address, and the replies still to come. */
  class I2cBus {
    var writes: seq<(int, seq<byte>)>
    var replies: seq<seq<byte>>

    constructor (replies: seq<seq<byte>>)
      ensures writes == [] && this.replies == replies
    {
      writes := [];
      this.replies := replies;
    }

    /** `writeto(addr, buf)` */
    method WriteTo(addr: int, buf: seq<byte>)
      modifies this`writes
      ensures writes == old(writes) + [(addr, buf)]
    {
      writes := writes + [(addr, buf)];
    }

    /** `readfrom(addr, count)`: the next reply, which has `count` bytes. */
    method ReadFrom(addr: int, count: nat) returns (data: seq<byte>)
      requires |replies| > 0 && |replies[0]| == count
      modifies this`replies
      ensures data == old(replies[0]) && replies == old(replies[1..])
    {
      data := replies[0];
      replies := replies[1..];
    }
  }

  /** `SHT31`: one sensor at address `addr` on `bus`. */
  class Sht31 {
    const bus: I2cBus
    const addr: int

    constructor (bus: I2cBus, addr: int)
      ensures this.bus == bus && this.addr == addr
    {
      this.bus := bus;
      this.addr := addr;
    }

    /** `_raw_temp_humi(r, cs)`: the repeatability is checked before anything goes on the bus. */
    method RawTempHumi(r: int, cs: bool) returns (result: Result<(int, int), SensorError>)
      requires ValidRepeatability(r) ==> |bus.replies| > 0 && |bus.replies[0]| == 6
      modifies bus
      ensures !ValidRepeatability(r) ==>
                result == Failure(ValueError("Wrong repeatabillity value given!")) &&
                bus.writes == old(bus.writes) && bus.replies == old(bus.replies)
      ensures ValidRepeatability(r) ==>
                result == Success(Decode(old(bus.replies[0]))) &&
                bus.writes == old(bus.writes) + [(addr, Command(cs, r))] &&
                bus.replies == old(bus.replies[1..])
    {
      if !ValidRepeatability(r) {
        return Failure(ValueError("Wrong repeatabillity value given!"));
      }
      bus.WriteTo(addr, CommandTable[cs][r]);
      var raw := bus.ReadFrom(addr, 6);
      return Success(Decode(raw));
    }

    /** `get_temp_humi(resolution, clock_stretch, celsius)` */
    method GetTempHumi(resolution: int, clockStretch: bool, celsius: bool) returns (result: Result<(real, real), SensorError>)
      requires ValidRepeatability(resolution) ==> |bus.replies| > 0 && |bus.replies[0]| == 6
      modifies bus
      ensures !ValidRepeatability(resolution) ==>
                result == Failure(ValueError("Wrong repeatabillity value given!")) &&
                bus.writes == old(bus.writes) && bus.replies == old(bus.replies)
      ensures ValidRepeatability(resolution) ==>
                result == Success(Reading(old(bus.replies[0]), celsius)) &&
                bus.writes == old(bus.writes) + [(addr, Command(clockStretch, resolution))] &&
                bus.replies == old(bus.replies[1..])
    {
      var raw :- RawTempHumi(resolution, clockStretch);
      var (t, h) := raw;
      var temp := if celsius then -45.0 + 175.0 * (t as real / 65535.0) else -49.0 + 315.0 * (t as real / 65535.0);
      return Success((temp, 100.0 * (h as real / 65535.0)));
    }
  }

  /** `SHT31(i2c, addr)`: a missing bus is a ValueError. */
  method NewSht31(i2c: Option<I2cBus>, addr: int) returns (result: Result<Sht31, SensorError>)
    ensures i2c.None? ==> result == Failure(ValueError("I2C object needed as argument!"))
    ensures i2c.Some? ==> result.Success? && result.value.bus == i2c.value && result.value.addr == addr
  {
    if i2c.None? {
      return Failure(ValueError("I2C object needed as argument!"));
    }
    var sensor := new Sht31(i2c.value, addr);
    return Success(sensor);
  }

  /** The sum of the first and of the second components. */
  function SumFirst(xs: seq<(real, real)>): real {
    if xs == [] then 0.0 else SumFirst(xs[..|xs| - 1]) + xs[|xs| - 1].0
  }

  function SumSecond(xs: seq<(real, real)>): real {
    if xs == [] then 0.0 else SumSecond(xs[..|xs| - 1]) + xs[|xs| - 1].1
  }

  /**
   * The readings one sensor takes during `measure(n)`: sensor a reads the
   * even replies and sensor b the odd ones, since each round asks a, then b.
   */
  function SensorReadings(replies: seq<seq<byte>>, n: nat, which: nat): (rs: seq<(real, real)>)
    requires which < 2 && 2 * n <= |replies|
    requires forall k :: 0 <= k < |replies| ==> |replies[k]| == 6
    ensures |rs| == n
  {
    seq(n, i requires 0 <= i < n => Reading(replies[2 * i + which], true))
  }

  /** The bus writes of `measure(n)`: the high-repeatability command to 0x45, then 0x44, n times. */
  function MeasureWrites(n: nat): (ws: seq<(int, seq<byte>)>)
    ensures |ws| == 2 * n
  {
    if n == 0 then [] else MeasureWrites(n - 1) + [(0x45, Command(true, RHigh)), (0x44, Command(true, RHigh))]
  }

  /** Python's `x / n` for the mean, with `n` as an int. */
  function Mean(sum: real, n: int): real
    requires n != 0
  {
    sum / n as real
  }

  /** `Sensors_sht31`: sensor a fixed at 0x45 and sensor b on the cable at 0x44, on one bus. */
  class SensorsSht31 {
    const bus: I2cBus
    const sensorA: Sht31
    const sensorB: Sht31
    var temperatureCA: real
    var humidityPercentA: real
    var temperatureCB: real
    var humidityPercentB: real

    predicate Valid()
      reads this, sensorA, sensorB
    {
      sensorA.bus == bus && sensorB.bus == bus &&
      sensorA.addr == 0x45 && sensorB.addr == 0x44
    }

    constructor (bus: I2cBus)
      ensures Valid() && this.bus == bus
      ensures temperatureCA == 0.0 && humidityPercentA == 0.0
      ensures temperatureCB == 0.0 && humidityPercentB == 0.0
    {
      this.bus := bus;
      sensorA := new Sht31(bus, 0x45);
      sensorB := new Sht31(bus, 0x44);
      temperatureCA, humidityPercentA := 0.0, 0.0;
      temperatureCB, humidityPercentB := 0.0, 0.0;
    }

    /**
     * `measure(average_n)`: each field becomes the mean of its `average_n`
     * readings. With `average_n` = 0 the division fails and nothing is
     * stored; with a negative one no reading is taken and every field
     * becomes 0.
     */
    method Measure(averageN: int) returns (result: Result<(), SensorError>)
      requires Valid()
      requires 2 * averageN <= |bus.replies| && forall k :: 0 <= k < |bus.replies| ==> |bus.replies[k]| == 6
      modifies bus, this`temperatureCA, this`humidityPercentA, this`temperatureCB, this`humidityPercentB
      ensures var n := if averageN < 0 then 0 else averageN;
              bus.writes == old(bus.writes) + MeasureWrites(n) && bus.replies == old(bus.replies[2 * n..])
      ensures averageN == 0 ==>
                result == Failure(ZeroDivisionError) &&
                temperatureCA == old(temperatureCA) && humidityPercentA == old(humidityPercentA) &&
                temperatureCB == old(temperatureCB) && humidityPercentB == old(humidityPercentB)
      ensures averageN != 0 ==>
                var n := if averageN < 0 then 0 else averageN;
                var a := SensorReadings(old(bus.replies), n, 0);
                var b := SensorReadings(old(bus.replies), n, 1);
                result == Success(()) &&
                temperatureCA == Mean(SumFirst(a), averageN) && humidityPercentA == Mean(SumSecond(a), averageN) &&
                temperatureCB == Mean(SumFirst(b), averageN) && humidityPercentB == Mean(SumSecond(b), averageN)
    {
      var n := if averageN < 0 then 0 else averageN;
      var sumTempA, sumHumiA, sumTempB, sumHumiB := Accumulate(n);
      if averageN == 0 {
        return Failure(ZeroDivisionError);
      }
      temperatureCA := sumTempA / averageN as real;
      humidityPercentA := sumHumiA / averageN as real;
      temperatureCB := sumTempB / averageN as real;
      humidityPercentB := sumHumiB / averageN as real;
      return Success(());
    }

    /** One round of `measure`: sensor a, then sensor b, each with the default settings. */
    method ReadBoth() returns (ra: (real, real), rb: (real, real))
      requires Valid()
      requires |bus.replies| >= 2 && |bus.replies[0]| == 6 && |bus.replies[1]| == 6
      modifies bus
      ensures ra == Reading(old(bus.replies[0]), true) && rb == Reading(old(bus.replies[1]), true)
      ensures bus.writes == old(bus.writes) + [(0x45, Command(true, RHigh)), (0x44, Command(true, RHigh))]
      ensures bus.replies == old(bus.replies[2..])
    {
      var resultA := sensorA.GetTempHumi(RHigh, true, true);
      var resultB := sensorB.GetTempHumi(RHigh, true, true);
      ra, rb := resultA.value, resultB.value;
    }

    /** The loop of `measure`: `n` rounds of reading sensor a, then sensor b, summing each quantity. */
    method Accumulate(n: nat) returns (sumTempA: real, sumHumiA: real, sumTempB: real, sumHumiB: real)
      requires Valid()
      requires 2 * n <= |bus.replies| && forall k :: 0 <= k < |bus.replies| ==> |bus.replies[k]| == 6
      modifies bus
      ensures bus.writes == old(bus.writes) + MeasureWrites(n) && bus.replies == old(bus.replies[2 * n..])
      ensures var a := SensorReadings(old(bus.replies), n, 0);
              sumTempA == SumFirst(a) && sumHumiA == SumSecond(a)
      ensures var b := SensorReadings(old(bus.replies), n, 1);
              sumTempB == SumFirst(b) && sumHumiB == SumSecond(b)
    {
      ghost var replies := bus.replies;
      ghost var writes := bus.writes;
      ghost var a := SensorReadings(replies, n, 0);
      ghost var b := SensorReadings(replies, n, 1);
      sumTempA, sumHumiA, sumTempB, sumHumiB := 0.0, 0.0, 0.0, 0.0;
      for i := 0 to n
        invariant bus.replies == replies[2 * i..] && bus.writes == writes + MeasureWrites(i)
        invariant Summed(a, i, sumTempA, sumHumiA) && Summed(b, i, sumTempB, sumHumiB)
      {
        ghost var repliesBefore, writesBefore := bus.replies, bus.writes;
        assert repliesBefore[0] == replies[2 * i] && repliesBefore[1] == replies[2 * i + 1];
        var ra, rb := ReadBoth();
        BusStep(replies, writes, i, repliesBefore, writesBefore, bus.replies, bus.writes);
        assert ra == a[i] && rb == b[i];
        SumsStep(a, i, sumTempA, sumHumiA);
        SumsStep(b, i, sumTempB, sumHumiB);
        sumTempA, sumHumiA := sumTempA + ra.0, sumHumiA + ra.1;
        sumTempB, sumHumiB := sumTempB + rb.0, sumHumiB + rb.1;
      }
      assert a[..n] == a && b[..n] == b;
    }
  }

  /**
   * One round of `measure` moves the bus from the state after round `i` to
   * the state after round `i + 1`: two replies consumed, the round's two
   * commands written.
   */
  lemma BusStep(replies: seq<seq<byte>>, writes: seq<(int, seq<byte>)>, i: nat,
                repliesBefore: seq<seq<byte>>, writesBefore: seq<(int, seq<byte>)>,
                repliesAfter: seq<seq<byte>>, writesAfter: seq<(int, seq<byte>)>)
    requires 2 * (i + 1) <= |replies|
    requires repliesBefore == replies[2 * i..] && writesBefore == writes + MeasureWrites(i)
    requires repliesAfter == repliesBefore[2..]
    requires writesAfter == writesBefore + [(0x45, Command(true, RHigh)), (0x44, Command(true, RHigh))]
    ensures repliesAfter == replies[2 * (i + 1)..] && writesAfter == writes + MeasureWrites(i + 1)
  {
  }

  /** `sumT` and `sumH` are the sums of the first `i` readings of `xs`. */
  ghost predicate Summed(xs: seq<(real, real)>, i: nat, sumT: real, sumH: real)
    requires i <= |xs|
  {
    sumT == SumFirst(xs[..i]) && sumH == SumSecond(xs[..i])
  }

  /** Adding reading `i` to both sums extends them to the first `i + 1` readings. */
  lemma SumsStep(xs: seq<(real, real)>, i: nat, sumT: real, sumH: real)
    requires i < |xs| && Summed(xs, i, sumT, sumH)
    ensures Summed(xs, i + 1, sumT + xs[i].0, sumH + xs[i].1)
  {
    assert xs[..i + 1][..i] == xs[..i];
  }

  /** A sum of n first components that all lie in [lo, hi] lies in [n * lo, n * hi]. */
  lemma {:induction false} SumFirstBounds(xs: seq<(real, real)>, lo: real, hi: real)
    requires forall k :: 0 <= k < |xs| ==> lo <= xs[k].0 <= hi
    ensures |xs| as real * lo <= SumFirst(xs) <= |xs| as real * hi
  {
    if xs != [] {
      var m := (|xs| - 1) as real;
      SumFirstBounds(xs[..|xs| - 1], lo, hi);
      assert (m + 1.0) * lo == m * lo + lo && (m + 1.0) * hi == m * hi + hi;
    }
  }

  /** The same for the second components. */
  lemma {:induction false} SumSecondBounds(xs: seq<(real, real)>, lo: real, hi: real)
    requires forall k :: 0 <= k < |xs| ==> lo <= xs[k].1 <= hi
    ensures |xs| as real * lo <= SumSecond(xs) <= |xs| as real * hi
  {
    if xs != [] {
      var m := (|xs| - 1) as real;
      SumSecondBounds(xs[..|xs| - 1], lo, hi);
      assert (m + 1.0) * lo == m * lo + lo && (m + 1.0) * hi == m * hi + hi;
    }
  }

  /** A sum between n * lo and n * hi has its mean between lo and hi. */
  lemma MeanBetween(sum: real, n: nat, lo: real, hi: real)
    requires n > 0 && n as real * lo <= sum <= n as real * hi
    ensures lo <= Mean(sum, n) <= hi
  {
    var nr := n as real;
    var q := sum / nr;
    assert q * nr == sum;
    if q < lo {
      assert q * nr < lo * nr;
    }
    if q > hi {
      assert q * nr > hi * nr;
    }
  }

  /**
   * Every stored mean is a plausible reading: the temperature in [-45, 130]
   * degrees Celsius and the humidity in [0, 100] percent.
   */
  lemma MeanInRange(replies: seq<seq<byte>>, n: nat, which: nat)
    requires which < 2 && 2 * n <= |replies| && n > 0
    requires forall k :: 0 <= k < |replies| ==> |replies[k]| == 6
    ensures var rs := SensorReadings(replies, n, which);
            -45.0 <= Mean(SumFirst(rs), n) <= 130.0 && 0.0 <= Mean(SumSecond(rs), n) <= 100.0
  {
    var rs := SensorReadings(replies, n, which);
    forall k | 0 <= k < n
      ensures -45.0 <= rs[k].0 <= 130.0 && 0.0 <= rs[k].1 <= 100.0
    {
      var (t, h) := Decode(replies[2 * k + which]);
      ConversionRanges(t, t);
      ConversionRanges(h, h);
    }
    SumFirstBounds(rs, -45.0, 130.0);
    SumSecondBounds(rs, 0.0, 100.0);
    MeanBetween(SumFirst(rs), n, -45.0, 130.0);
    MeanBetween(SumSecond(rs), n, 0.0, 100.0);
  }

  /** `measure(1)` stores exactly one reading of each sensor. */
  lemma MeasureOne(replies: seq<seq<byte>>, which: nat)
    requires which < 2 && 2 <= |replies|
    requires forall k :: 0 <= k < |replies| ==> |replies[k]| == 6
    ensures var rs := SensorReadings(replies, 1, which);
            (Mean(SumFirst(rs), 1), Mean(SumSecond(rs), 1)) == Reading(replies[which], true)
  {
    var rs := SensorReadings(replies, 1, which);
    assert rs[..0] == [];
  }
}
