/**
 * The BMP280 pressure sensor example (examples/i2c_bmp280/main.cpp): the globals `calib`,
 * `bmp280_addr` and `t_fine`, the decoding of the 24 calibration bytes and of the 6 data
 * bytes, and the integer part of the compensation formulas.
 *
 * Detection runs over the modelled `WireClass`.  `Wire.readRegisters` is an oracle here: the
 * bytes it left in the buffer and the count it returned (see `Wire.WireClass.ReadRegisters`).
 * The final conversions to `float` (`T / 100.0`, `p / 256.0`) are left out, so temperatures
 * are in hundredths of a degree and pressures in 1/256 Pa.
 */
module Bmp280 {
  import opened Common
  import opened Wire

  const BMP280_ADDR_LOW: int := 0x76
  const BMP280_ADDR_HIGH: int := 0x77
  const CALIBRATION_LENGTH: int := 24
  const DATA_LENGTH: int := 6

  /** A `uint16_t` value: the 16-bit pattern of a calibration word. */
  type Uint16 = w: int | 0 <= w < 0x1_0000

  predicate IsInt16(v: int)
  {
    -0x8000 <= v < 0x8000
  }

  /** `CalibrationData`: dig_T1 and dig_P1 are `uint16_t`, the other ten `int16_t`. */
  datatype Calibration = Calibration(
    digT1: int, digT2: int, digT3: int,
    digP1: int, digP2: int, digP3: int, digP4: int, digP5: int,
    digP6: int, digP7: int, digP8: int, digP9: int)

  ghost predicate ValidCalibration(c: Calibration)
  {
    0 <= c.digT1 < 0x1_0000 && IsInt16(c.digT2) && IsInt16(c.digT3)
    && 0 <= c.digP1 < 0x1_0000 && IsInt16(c.digP2) && IsInt16(c.digP3) && IsInt16(c.digP4)
    && IsInt16(c.digP5) && IsInt16(c.digP6) && IsInt16(c.digP7) && IsInt16(c.digP8) && IsInt16(c.digP9)
  }

  /** The zero-initialised global `calib`, before any calibration has been read. */
  const ZERO_CALIBRATION: Calibration := Calibration(0, 0, 0, 0, 0, 0, 0, 0, 0, 0, 0, 0)

  /** Little-endian word i of the calibration block: `(b[2i + 1] << 8) | b[2i]`. */
  function CalibrationWords(b: seq<Byte>): (ws: seq<Uint16>)
    requires |b| == CALIBRATION_LENGTH
    ensures |ws| == 12
    ensures forall i :: 0 <= i < 12 ==> ws[i] % 0x100 == b[2 * i] && ws[i] / 0x100 == b[2 * i + 1]
  {
    seq(12, i requires 0 <= i < 12 => Word16(b[2 * i + 1], b[2 * i]))
  }

  /** The calibration block written out again: each word as its low byte, then its high byte. */
  function CalibrationBytes(ws: seq<Uint16>): (b: seq<Byte>)
    requires |ws| == 12
    ensures |b| == CALIBRATION_LENGTH
    ensures forall k :: 0 <= k < CALIBRATION_LENGTH ==>
      b[k] == if k % 2 == 0 then ws[k / 2] % 0x100 else ws[k / 2] / 0x100
  {
    seq(CALIBRATION_LENGTH, k requires 0 <= k < CALIBRATION_LENGTH =>
      if k % 2 == 0 then ws[k / 2] % 0x100 else ws[k / 2] / 0x100)
  }

  /** The twelve words read as the fields, in the order T1, T2, T3, P1, ..., P9. */
  function FromWords(ws: seq<Uint16>): (c: Calibration)
    requires |ws| == 12
    ensures ValidCalibration(c)
  {
    Calibration(
      ws[0], ToInt16(ws[1]), ToInt16(ws[2]),
      ws[3], ToInt16(ws[4]), ToInt16(ws[5]), ToInt16(ws[6]), ToInt16(ws[7]),
      ToInt16(ws[8]), ToInt16(ws[9]), ToInt16(ws[10]), ToInt16(ws[11]))
  }

  /** The 16-bit patterns of the fields, in field order. */
  function ToWords(c: Calibration): (ws: seq<Uint16>)
    requires ValidCalibration(c)
    ensures |ws| == 12
  {
    [c.digT1, FromInt16(c.digT2), FromInt16(c.digT3),
     c.digP1, FromInt16(c.digP2), FromInt16(c.digP3), FromInt16(c.digP4), FromInt16(c.digP5),
     FromInt16(c.digP6), FromInt16(c.digP7), FromInt16(c.digP8), FromInt16(c.digP9)]
  }

  /** The decoding done by `readCalibrationData` once all 24 bytes have arrived. */
  function DecodeCalibration(b: seq<Byte>): (c: Calibration)
    requires |b| == CALIBRATION_LENGTH
    ensures ValidCalibration(c)
    ensures c.digT1 == b[0] as int + 0x100 * b[1] as int && c.digP1 == b[6] as int + 0x100 * b[7] as int
  {
    FromWords(CalibrationWords(b))
  }

  /** The 24 bytes a sensor holding calibration c returns. */
  function EncodeCalibration(c: Calibration): (b: seq<Byte>)
    requires ValidCalibration(c)
    ensures |b| == CALIBRATION_LENGTH
  {
    CalibrationBytes(ToWords(c))
  }

  lemma WordsRoundTrip(ws: seq<Uint16>)
    requires |ws| == 12
    ensures CalibrationWords(CalibrationBytes(ws)) == ws
  {
    var b := CalibrationBytes(ws);
    var r := CalibrationWords(b);
    forall i | 0 <= i < 12
      ensures r[i] == ws[i]
    {
      assert b[2 * i] == ws[i] % 0x100 && b[2 * i + 1] == ws[i] / 0x100;
      Word16Split(ws[i]);
    }
  }

  lemma BytesRoundTrip(b: seq<Byte>)
    requires |b| == CALIBRATION_LENGTH
    ensures CalibrationBytes(CalibrationWords(b)) == b
  {
    var ws := CalibrationWords(b);
    var r := CalibrationBytes(ws);
    forall k | 0 <= k < CALIBRATION_LENGTH
      ensures r[k] == b[k]
    {
      assert k == 2 * (k / 2) + k % 2;
    }
  }

  lemma FieldsRoundTrip(c: Calibration)
    requires ValidCalibration(c)
    ensures FromWords(ToWords(c)) == c
  {
  }

  lemma {:induction false} FieldWordsRoundTrip(ws: seq<Uint16>)
    requires |ws| == 12
    ensures ToWords(FromWords(ws)) == ws
  {
    var r := ToWords(FromWords(ws));
    forall i | 0 <= i < 12
      ensures r[i] == ws[i]
    {
      if i != 0 && i != 3 {
        ToInt16Inverse(ws[i]);
      }
    }
  }

  lemma ToInt16Inverse(w: Uint16)
    ensures FromInt16(ToInt16(w)) == w
  {
  }

  /** Decoding the bytes of a calibration gives it back: no field is lost or mixed up. */
  lemma DecodeEncode(c: Calibration)
    requires ValidCalibration(c)
    ensures DecodeCalibration(EncodeCalibration(c)) == c
  {
    WordsRoundTrip(ToWords(c));
    FieldsRoundTrip(c);
  }

  /** Every 24-byte block is the encoding of the calibration it decodes to. */
  lemma EncodeDecode(b: seq<Byte>)
    requires |b| == CALIBRATION_LENGTH
    ensures EncodeCalibration(DecodeCalibration(b)) == b
  {
    FieldWordsRoundTrip(CalibrationWords(b));
    BytesRoundTrip(b);
  }

  /**
   * A raw 20-bit reading: `(b0 << 12) | (b1 << 4) | (b2 >> 4)`.  The three parts occupy
   * bits 12..19, 4..11 and 0..3, so the result is below 2^20 and gives back b0, b1 and the
   * top nibble of b2.
   */
  function Adc20(b0: Byte, b1: Byte, b2: Byte): (adc: int)
    ensures 0 <= adc < 0x10_0000
    ensures adc / 0x1000 == b0 && (adc / 0x10) % 0x100 == b1 && adc % 0x10 == b2 / 0x10
  {
    assert 0 <= b1 * 0x10 + b2 / 0x10 < 0x1000;
    b0 * 0x1000 + b1 * 0x10 + b2 / 0x10
  }

  /** Two readings are equal exactly when their bytes agree, ignoring the low nibble of b2. */
  lemma Adc20Injective(a0: Byte, a1: Byte, a2: Byte, b0: Byte, b1: Byte, b2: Byte)
    ensures Adc20(a0, a1, a2) == Adc20(b0, b1, b2) <==> a0 == b0 && a1 == b1 && a2 / 0x10 == b2 / 0x10
  {
  }

  /** C++ integer division, which truncates toward zero. */
  function TruncDiv(n: int, d: int): (q: int)
    requires d != 0
    ensures Abs(q) == Abs(n) / Abs(d)
    ensures q != 0 ==> ((q < 0) <==> ((n < 0) != (d < 0)))
  {
    var u := Abs(n) / Abs(d);
    if (n < 0) != (d < 0) then -u else u
  }

  /** The quotient's magnitude is the largest whose multiple of |d| does not exceed |n|. */
  lemma TruncDivBounds(n: int, d: int)
    requires d != 0
    ensures Abs(TruncDiv(n, d)) * Abs(d) <= Abs(n) < (Abs(TruncDiv(n, d)) + 1) * Abs(d)
  {
    NatDivBounds(Abs(n), Abs(d));
  }

  lemma NatDivBounds(a: nat, b: nat)
    requires b > 0
    ensures (a / b) * b <= a < (a / b + 1) * b
  {
    var u := a / b;
    assert a == u * b + a % b;
    assert (u + 1) * b == u * b + b;
  }

  /** `compensateTemperature`'s `t_fine` (`>>` on `int32_t` is a floor division by a power of 2). */
  function TFine(adcT: int, c: Calibration): (tFine: int)
    ensures c.digT2 == 0 && c.digT3 == 0 ==> tFine == 0
  {
    var var1 := ((adcT / 8 - c.digT1 * 2) * c.digT2) / 0x800;
    var d := adcT / 16 - c.digT1;
    var var2 := (((d * d) / 0x1000) * c.digT3) / 0x4000;
    var1 + var2
  }

  /** The temperature in hundredths of a degree Celsius: `(t_fine * 5 + 128) >> 8`. */
  function CentiCelsius(tFine: int): (centi: int)
    ensures centi * 0x100 <= tFine * 5 + 128 < (centi + 1) * 0x100
  {
    (tFine * 5 + 128) / 0x100
  }

  /** The `var1` that `compensatePressure` divides by (lines 211-216). */
  function PressureDivisor(tFine: int, c: Calibration): (var1: int)
    ensures c.digP1 == 0 ==> var1 == 0
  {
    var v := tFine - 128000;
    var v1 := (v * v * c.digP3) / 0x100 + (v * c.digP2) * 0x1000;
    ((0x8000_0000_0000 + v1) * c.digP1) / 0x2_0000_0000
  }

  /**
   * `compensatePressure(adc_P)` in 1/256 Pa: 0 when the divisor is 0, otherwise the
   * datasheet's 64-bit integer formula.
   */
  function PressureQ8(adcP: int, tFine: int, c: Calibration): (p: int)
    ensures PressureDivisor(tFine, c) == 0 ==> p == 0
  {
    var var1 := PressureDivisor(tFine, c);
    if var1 == 0 then 0
    else
      var v := tFine - 128000;
      var var2 := v * v * c.digP6 + (v * c.digP5) * 0x2_0000 + c.digP4 * 0x8_0000_0000;
      var p0 := 1048576 - adcP;
      var p1 := TruncDiv((p0 * 0x8000_0000 - var2) * 3125, var1);
      var w1 := (c.digP9 * (p1 / 0x2000) * (p1 / 0x2000)) / 0x200_0000;
      var w2 := (c.digP8 * p1) / 0x8_0000;
      (p1 + w1 + w2) / 0x100 + c.digP7 * 0x10
  }

  /** With no dig_P1 (in particular with the zero-initialised `calib`) the pressure is 0, without a division. */
  lemma ZeroP1GivesZeroPressure(adcP: int, tFine: int, c: Calibration)
    requires c.digP1 == 0
    ensures PressureDivisor(tFine, c) == 0 && PressureQ8(adcP, tFine, c) == 0
  {
  }

  /** The sketch's globals: `bmp280_addr`, `calib` and `t_fine`. */
  class Bmp280 {
    var addr: int
    var calib: Calibration
    var tFine: int
    /** The addresses passed to `Wire.exists`, in order. */
    ghost var probes: seq<int>

    ghost predicate Valid()
      reads this
    {
      ValidCalibration(calib) && (addr == BMP280_ADDR_LOW || addr == BMP280_ADDR_HIGH)
    }

    constructor ()
      ensures Valid()
      ensures addr == BMP280_ADDR_LOW && calib == ZERO_CALIBRATION && tFine == 0 && probes == []
    {
      addr := BMP280_ADDR_LOW;
      calib := ZERO_CALIBRATION;
      tFine := 0;
      probes := [];
    }

    /**
     * `detectBMP280()` over the modelled `Wire.exists`: 0x76 is probed first, and 0x77 only when
     * 0x76 does not answer; the first address that answers is selected, and when neither does
     * the address is left alone.  Since `exists` answers for every address of an open bus, an
     * open bus always settles on 0x76 and a closed one on neither.
     */
    method DetectBMP280(wire: WireClass, bus: Bus) returns (found: bool)
      requires Valid() && wire.Valid()
      modifies this`addr, this`probes, wire
      ensures Valid() && wire.Valid()
      ensures found <==> old(wire.IsOpen())
      ensures addr == if found then BMP280_ADDR_LOW else old(addr)
      ensures probes == old(probes) + (if found then [BMP280_ADDR_LOW] else [BMP280_ADDR_LOW, BMP280_ADDR_HIGH])
      ensures wire.traffic == old(wire.traffic) && wire.fd == old(wire.fd)
      ensures wire.txAddress == (if found then BMP280_ADDR_LOW else BMP280_ADDR_HIGH) && wire.txBuffer == []
      ensures wire.rxBuffer == old(wire.rxBuffer) && wire.rxIndex == old(wire.rxIndex)
      ensures wire.busNumber == old(wire.busNumber) && wire.clockFrequency == old(wire.clockFrequency)
    {
      probes := probes + [BMP280_ADDR_LOW];
      var low := wire.Exists(BMP280_ADDR_LOW, bus);
      if low {
        addr := BMP280_ADDR_LOW;
        return true;
      }
      probes := probes + [BMP280_ADDR_HIGH];
      var high := wire.Exists(BMP280_ADDR_HIGH, bus);
      if high {
        addr := BMP280_ADDR_HIGH;
        return true;
      }
      return false;
    }

    /**
     * `readCalibrationData()`: `data` is the 24-byte buffer and `bytesRead` what
     * `Wire.readRegisters` returned; anything but 24 fails and keeps the old calibration.
     */
    method ReadCalibrationData(data: seq<Byte>, bytesRead: int) returns (ok: bool)
      requires Valid() && |data| == CALIBRATION_LENGTH
      modifies this`calib
      ensures Valid()
      ensures ok <==> bytesRead == CALIBRATION_LENGTH
      ensures calib == if ok then DecodeCalibration(data) else old(calib)
    {
      if bytesRead != CALIBRATION_LENGTH {
        return false;
      }
      calib := DecodeCalibration(data);
      return true;
    }

    /** `compensateTemperature(adc_T)`: updates `t_fine` and returns the temperature. */
    method CompensateTemperature(adcT: int) returns (centi: int)
      modifies this`tFine
      ensures tFine == TFine(adcT, calib) && centi == CentiCelsius(tFine)
    {
      tFine := TFine(adcT, calib);
      centi := CentiCelsius(tFine);
    }

    /**
     * `readSensorData()`: anything but 6 bytes fails before any compensation.  Otherwise
     * bytes 0..2 are the pressure and 3..5 the temperature reading; the temperature is
     * compensated first, and its `t_fine` feeds the pressure.
     */
    method ReadSensorData(data: seq<Byte>, bytesRead: int) returns (ok: bool, centi: int, pressure: int)
      requires |data| == DATA_LENGTH
      modifies this`tFine
      ensures ok <==> bytesRead == DATA_LENGTH
      ensures !ok ==> tFine == old(tFine)
      ensures ok ==>
        tFine == TFine(Adc20(data[3], data[4], data[5]), calib)
        && centi == CentiCelsius(tFine)
        && pressure == PressureQ8(Adc20(data[0], data[1], data[2]), tFine, calib)
    {
      if bytesRead != DATA_LENGTH {
        return false, 0, 0;
      }
      var adcP := Adc20(data[0], data[1], data[2]);
      var adcT := Adc20(data[3], data[4], data[5]);
      centi := CompensateTemperature(adcT);
      pressure := PressureQ8(adcP, tFine, calib);
      ok := true;
    }
  }
}
