/**
 * The MPU6050 motion sensor example (examples/i2c_mpu6050/main.cpp): the start-up check and
 * the decoding of one 14-byte burst of raw readings.
 *
 * `Wire.readRegister`, `Wire.writeRegister` and `Wire.readRegisters` are oracles (the value
 * read, whether the write succeeded, the bytes read and their count).  Scaling the raw
 * words to g, degrees per second and degrees Celsius is floating point and is left out.
 */
module Mpu6050 {
  import opened Common

  const MPU6050_ADDR: int := 0x68
  const REG_PWR_MGMT_1: int := 0x6B
  const REG_ACCEL_XOUT_H: int := 0x3B
  const REG_WHO_AM_I: int := 0x75
  const BURST_LENGTH: int := 14

  /** What `initMPU6050` does: its result, whether it warned, and whether it wrote the wake-up byte. */
  datatype InitOutcome = InitOutcome(ok: bool, warned: bool, wakeWritten: bool)

  /**
   * `initMPU6050()`: `whoAmI` is what reading WHO_AM_I returned (negative on failure) and
   * `wakeOk` whether writing 0 to PWR_MGMT_1 succeeded.  A failed read stops before the
   * write; an identity other than 0x68 or 0x69 only warns.
   */
  function InitMPU6050(whoAmI: int, wakeOk: bool): (r: InitOutcome)
    ensures r.wakeWritten <==> whoAmI >= 0
    ensures r.warned <==> whoAmI >= 0 && whoAmI != 0x68 && whoAmI != 0x69
    ensures r.ok <==> whoAmI >= 0 && wakeOk
  {
    if whoAmI < 0 then InitOutcome(false, false, false)
    else InitOutcome(wakeOk, whoAmI != 0x68 && whoAmI != 0x69, true)
  }

  /** An unexpected identity does not change the outcome: only the read and the write matter. */
  lemma IdentityOnlyWarns(id1: int, id2: int, wakeOk: bool)
    requires id1 >= 0 && id2 >= 0
    ensures InitMPU6050(id1, wakeOk).ok == InitMPU6050(id2, wakeOk).ok
  {
  }

  /** The seven raw words of a burst, in register order. */
  datatype RawSample = RawSample(
    accelX: int, accelY: int, accelZ: int, temp: int, gyroX: int, gyroY: int, gyroZ: int)

  ghost predicate ValidSample(s: RawSample)
  {
    -0x8000 <= s.accelX < 0x8000 && -0x8000 <= s.accelY < 0x8000 && -0x8000 <= s.accelZ < 0x8000
    && -0x8000 <= s.temp < 0x8000
    && -0x8000 <= s.gyroX < 0x8000 && -0x8000 <= s.gyroY < 0x8000 && -0x8000 <= s.gyroZ < 0x8000
  }

  /** An `int16_t` value. */
  type Int16 = v: int | -0x8000 <= v < 0x8000

  /** Big-endian word i of the burst, `(b[2i] << 8) | b[2i + 1]`, stored in an `int16_t`. */
  function BurstWords(b: seq<Byte>): (ws: seq<Int16>)
    requires |b| == BURST_LENGTH
    ensures |ws| == 7
    ensures forall i :: 0 <= i < 7 ==> FromInt16(ws[i]) == Word16(b[2 * i], b[2 * i + 1])
    ensures forall i :: 0 <= i < 7 ==> (ws[i] >= 0 <==> b[2 * i] < 0x80)
  {
    seq(7, i requires 0 <= i < 7 => ToInt16(Word16(b[2 * i], b[2 * i + 1])))
  }

  /** The words sent again as bytes: each word's high byte, then its low byte. */
  function WordsBurst(ws: seq<Int16>): (b: seq<Byte>)
    requires |ws| == 7
    ensures |b| == BURST_LENGTH
    ensures forall k :: 0 <= k < BURST_LENGTH ==>
      b[k] == if k % 2 == 0 then FromInt16(ws[k / 2]) / 0x100 else FromInt16(ws[k / 2]) % 0x100
  {
    seq(BURST_LENGTH, k requires 0 <= k < BURST_LENGTH =>
      if k % 2 == 0 then FromInt16(ws[k / 2]) / 0x100 else FromInt16(ws[k / 2]) % 0x100)
  }

  /** The seven words as the fields, in the order accel x, y, z, temperature, gyro x, y, z. */
  function FromWords(ws: seq<Int16>): (s: RawSample)
    requires |ws| == 7
    ensures ValidSample(s)
  {
    RawSample(ws[0], ws[1], ws[2], ws[3], ws[4], ws[5], ws[6])
  }

  function ToWords(s: RawSample): (ws: seq<Int16>)
    requires ValidSample(s)
    ensures |ws| == 7
  {
    [s.accelX, s.accelY, s.accelZ, s.temp, s.gyroX, s.gyroY, s.gyroZ]
  }

  /** The raw sample of a complete burst. */
  function DecodeBurst(b: seq<Byte>): (s: RawSample)
    requires |b| == BURST_LENGTH
    ensures ValidSample(s)
    ensures s.accelX == ToInt16(b[0] as int * 0x100 + b[1] as int)
    ensures s.gyroZ == ToInt16(b[12] as int * 0x100 + b[13] as int)
  {
    FromWords(BurstWords(b))
  }

  /** The burst a sensor holding sample s sends. */
  function EncodeBurst(s: RawSample): (b: seq<Byte>)
    requires ValidSample(s)
    ensures |b| == BURST_LENGTH
  {
    WordsBurst(ToWords(s))
  }

  /**
   * `readSensorData(data)`: `buffer` is the 14-byte array and `bytesRead` what
   * `Wire.readRegisters` returned; anything but 14 fails.
   */
  function ReadSensorData(buffer: seq<Byte>, bytesRead: int): (r: Option<RawSample>)
    requires |buffer| == BURST_LENGTH
    ensures r.Some? <==> bytesRead == BURST_LENGTH
    ensures r.Some? ==> ValidSample(r.value)
  {
    if bytesRead != BURST_LENGTH then None else Some(DecodeBurst(buffer))
  }

  lemma WordsRoundTrip(ws: seq<Int16>)
    requires |ws| == 7
    ensures BurstWords(WordsBurst(ws)) == ws
  {
    var b := WordsBurst(ws);
    var r := BurstWords(b);
    forall i | 0 <= i < 7
      ensures r[i] == ws[i]
    {
      assert b[2 * i] == FromInt16(ws[i]) / 0x100 && b[2 * i + 1] == FromInt16(ws[i]) % 0x100;
      Word16Split(FromInt16(ws[i]));
    }
  }

  lemma BytesRoundTrip(b: seq<Byte>)
    requires |b| == BURST_LENGTH
    ensures WordsBurst(BurstWords(b)) == b
  {
    var r := WordsBurst(BurstWords(b));
    forall k | 0 <= k < BURST_LENGTH
      ensures r[k] == b[k]
    {
      assert k == 2 * (k / 2) + k % 2;
    }
  }

  /** Decoding a sample's burst gives the sample back, each word in its own field. */
  lemma DecodeEncode(s: RawSample)
    requires ValidSample(s)
    ensures DecodeBurst(EncodeBurst(s)) == s
  {
    WordsRoundTrip(ToWords(s));
  }

  /** Every 14-byte burst is the encoding of the sample it decodes to. */
  lemma EncodeDecode(b: seq<Byte>)
    requires |b| == BURST_LENGTH
    ensures EncodeBurst(DecodeBurst(b)) == b
  {
    assert ToWords(FromWords(BurstWords(b))) == BurstWords(b);
    BytesRoundTrip(b);
  }
}
