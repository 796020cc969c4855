/**
 * The Arduino-style SPI master (`SPIClass`, src/SPI.cpp) over Linux spidev.
 *
 * The configuration ioctls and the transfer ioctl are oracles passed to the
 * methods.  Ghost fields record what reached the device: every mode byte
 * written with `SPI_IOC_WR_MODE` and every transmitted payload.
 */
module SPI {
  import opened Common

  const SPI_MODE0: Byte := 0
  const SPI_MODE1: Byte := 1
  const SPI_MODE2: Byte := 2
  const SPI_MODE3: Byte := 3
  /** Arduino bit-order values. */
  const LSBFIRST: Byte := 0
  const MSBFIRST: Byte := 1
  /** The spidev mode flag that selects least-significant-bit-first transfers. */
  const SPI_LSB_FIRST: bv8 := 0x08
  const DEFAULT_SPEED: int := 4000000
  const BASE_CLOCK: int := 250000000
  const SPI_CLOCK_DIV2: Byte := 2
  const SPI_CLOCK_DIV128: Byte := 128

  /** Whether each configuration ioctl succeeds: mode, bits per word, maximum speed. */
  datatype SettingsResult = SettingsResult(modeOk: bool, bitsOk: bool, speedOk: bool)

  /** The mode byte `applySettings` hands to `SPI_IOC_WR_MODE`. */
  function ModeByte(mode: Byte, bitOrder: Byte): (m: bv8)
    requires mode <= 3
    ensures m & 0x03 == mode as bv8
    ensures (m & SPI_LSB_FIRST != 0) <==> bitOrder == LSBFIRST
    ensures m & 0xF4 == 0
  {
    var base := mode as bv8;
    if bitOrder == LSBFIRST then base | SPI_LSB_FIRST else base
  }

  /** The mode byte determines both the SPI mode and whether the order is LSB first. */
  lemma ModeByteInjective(mode1: Byte, order1: Byte, mode2: Byte, order2: Byte)
    requires mode1 <= 3 && mode2 <= 3
    requires ModeByte(mode1, order1) == ModeByte(mode2, order2)
    ensures mode1 == mode2
    ensures order1 == LSBFIRST <==> order2 == LSBFIRST
  {
    assert mode1 as bv8 == ModeByte(mode1, order1) & 0x03;
    assert mode2 as bv8 == ModeByte(mode2, order2) & 0x03;
  }

  /** `BASE_CLOCK / divider` with C++ unsigned division: the largest speed whose multiple stays within the base clock. */
  function ClockForDivider(divider: Byte): (speed: int)
    requires divider > 0
    ensures speed * divider <= BASE_CLOCK < (speed + 1) * divider
    ensures 0 < speed <= BASE_CLOCK
  {
    BASE_CLOCK / divider
  }

  /** The named Arduino dividers give the expected fractions of the 250 MHz base clock. */
  lemma ClockDividerExamples()
    ensures ClockForDivider(SPI_CLOCK_DIV2) == 125000000
    ensures ClockForDivider(SPI_CLOCK_DIV128) == 1953125
    ensures ClockForDivider(3) == 83333333
  {
  }

  class SPIClass {
    var fd: int
    var busNumber: int
    var csNumber: int
    var mode: Byte
    var bitOrder: Byte
    var speed: int
    var bitsPerWord: Byte
    /** Every byte written to the device with `SPI_IOC_WR_MODE`, oldest first. */
    ghost var modeWrites: seq<bv8>
    /** Every payload handed to the transfer ioctl, oldest first. */
    ghost var sentFrames: seq<seq<Byte>>

    ghost predicate Valid()
      reads this
    {
      fd >= -1 && mode <= 3 && 0 <= speed < 0x1_0000_0000 && bitsPerWord == 8
    }

    /** `isInitialized()`. */
    predicate IsInitialized()
      reads this
    {
      fd >= 0
    }

    constructor ()
      ensures Valid() && !IsInitialized()
      ensures busNumber == 0 && csNumber == 0 && mode == SPI_MODE0 && bitOrder == MSBFIRST
      ensures speed == DEFAULT_SPEED && bitsPerWord == 8
      ensures modeWrites == [] && sentFrames == []
    {
      fd := -1;
      busNumber := 0;
      csNumber := 0;
      mode := SPI_MODE0;
      bitOrder := MSBFIRST;
      speed := DEFAULT_SPEED;
      bitsPerWord := 8;
      modeWrites := [];
      sentFrames := [];
    }

    /** `applySettings()`: pushes mode byte, word size and speed to an open device, stopping at the first failure. */
    method ApplySettings(result: SettingsResult) returns (ok: bool)
      requires Valid()
      modifies this`modeWrites
      ensures ok <==> IsInitialized() && result.modeOk && result.bitsOk && result.speedOk
      ensures modeWrites == if IsInitialized() then old(modeWrites) + [ModeByte(mode, bitOrder)] else old(modeWrites)
    {
      if fd < 0 {
        return false;
      }
      var spiMode := ModeByte(mode, bitOrder);
      modeWrites := modeWrites + [spiMode];
      if !result.modeOk {
        return false;
      }
      if !result.bitsOk {
        return false;
      }
      if !result.speedOk {
        return false;
      }
      return true;
    }

    /**
     * `begin(bus, cs)`: closes any open descriptor and opens `/dev/spidev<bus>.<cs>`.
     * On failure the object is left closed with its configuration untouched; on success
     * the configuration is reset to mode 0, MSB first, 4 MHz, 8 bits and then applied.
     */
    method Begin(bus: int, cs: int, openResult: int, result: SettingsResult) returns (ok: bool)
      requires Valid() && openResult >= -1
      modifies this
      ensures Valid()
      ensures fd == openResult && busNumber == bus && csNumber == cs
      ensures openResult < 0 ==>
        (!ok && mode == old(mode) && bitOrder == old(bitOrder) && speed == old(speed) && modeWrites == old(modeWrites))
      ensures openResult >= 0 ==>
        (mode == SPI_MODE0 && bitOrder == MSBFIRST && speed == DEFAULT_SPEED
         && modeWrites == old(modeWrites) + [ModeByte(SPI_MODE0, MSBFIRST)]
         && (ok <==> result.modeOk && result.bitsOk && result.speedOk))
      ensures ok ==> IsInitialized()
      ensures sentFrames == old(sentFrames)
    {
      if fd >= 0 {
        fd := -1; // close(fd_)
      }
      busNumber := bus;
      csNumber := cs;
      fd := openResult;
      if fd < 0 {
        return false;
      }
      mode := SPI_MODE0;
      bitOrder := MSBFIRST;
      speed := DEFAULT_SPEED;
      bitsPerWord := 8;
      ok := ApplySettings(result);
    }

    /** `end()`: closes the device; a second call changes nothing. */
    method End()
      requires Valid()
      modifies this
      ensures Valid() && !IsInitialized()
      ensures !old(IsInitialized()) ==> fd == old(fd)
      ensures busNumber == old(busNumber) && csNumber == old(csNumber) && mode == old(mode)
      ensures bitOrder == old(bitOrder) && speed == old(speed)
      ensures modeWrites == old(modeWrites) && sentFrames == old(sentFrames)
    {
      if fd >= 0 {
        fd := -1;
      }
    }

    /** `setDataMode(mode)`: values above 3 are ignored; 0..3 are stored whether or not the device is open. */
    method SetDataMode(newMode: Byte, result: SettingsResult)
      requires Valid()
      modifies this
      ensures Valid()
      ensures mode == if newMode > 3 then old(mode) else newMode
      ensures modeWrites == if newMode <= 3 && IsInitialized() then old(modeWrites) + [ModeByte(newMode, bitOrder)] else old(modeWrites)
      ensures fd == old(fd) && bitOrder == old(bitOrder) && speed == old(speed) && sentFrames == old(sentFrames)
      ensures busNumber == old(busNumber) && csNumber == old(csNumber)
    {
      if newMode > 3 {
        return;
      }
      mode := newMode;
      if fd >= 0 {
        var _ := ApplySettings(result);
      }
    }

    /** `setBitOrder(order)`: any value is stored; only LSBFIRST changes the mode byte. */
    method SetBitOrder(order: Byte, result: SettingsResult)
      requires Valid()
      modifies this
      ensures Valid()
      ensures bitOrder == order
      ensures modeWrites == if IsInitialized() then old(modeWrites) + [ModeByte(mode, order)] else old(modeWrites)
      ensures fd == old(fd) && mode == old(mode) && speed == old(speed) && sentFrames == old(sentFrames)
      ensures busNumber == old(busNumber) && csNumber == old(csNumber)
    {
      bitOrder := order;
      if fd >= 0 {
        var _ := ApplySettings(result);
      }
    }

    /** `setClockDivider(divider)`: speed becomes the base clock divided by the divider, open or not. */
    method SetClockDivider(divider: Byte, result: SettingsResult)
      requires Valid() && divider > 0
      modifies this
      ensures Valid()
      ensures speed == ClockForDivider(divider)
      ensures modeWrites == if IsInitialized() then old(modeWrites) + [ModeByte(mode, bitOrder)] else old(modeWrites)
      ensures fd == old(fd) && mode == old(mode) && bitOrder == old(bitOrder) && sentFrames == old(sentFrames)
      ensures busNumber == old(busNumber) && csNumber == old(csNumber)
    {
      speed := BASE_CLOCK / divider;
      if fd >= 0 {
        var _ := ApplySettings(result);
      }
    }

    /** `setClock(speed)`: stored as given, so `getClock()` returns it. */
    method SetClock(newSpeed: int, result: SettingsResult)
      requires Valid() && 0 <= newSpeed < 0x1_0000_0000
      modifies this
      ensures Valid()
      ensures GetClock() == newSpeed
      ensures modeWrites == if IsInitialized() then old(modeWrites) + [ModeByte(mode, bitOrder)] else old(modeWrites)
      ensures fd == old(fd) && mode == old(mode) && bitOrder == old(bitOrder) && sentFrames == old(sentFrames)
      ensures busNumber == old(busNumber) && csNumber == old(csNumber)
    {
      speed := newSpeed;
      if fd >= 0 {
        var _ := ApplySettings(result);
      }
    }

    function GetClock(): (s: int)
      requires Valid()
      reads this
      ensures 0 <= s < 0x1_0000_0000
    {
      speed
    }

    /** `transfer(byte)`: the byte clocked in, or 0 when the device is closed or the ioctl fails. */
    method Transfer(data: Byte, reply: Option<Byte>) returns (rx: Byte)
      requires Valid()
      modifies this`sentFrames
      ensures !IsInitialized() ==> rx == 0 && sentFrames == old(sentFrames)
      ensures IsInitialized() ==>
        (sentFrames == old(sentFrames) + [[data]] && rx == (match reply case None => 0 case Some(b) => b))
    {
      if fd < 0 {
        return 0;
      }
      sentFrames := sentFrames + [[data]];
      match reply {
        case None => return 0;
        case Some(b) => return b;
      }
    }

    /**
     * `transfer(buffer, length)`: full duplex in place.  Does nothing when closed, when the
     * buffer is null or when the length is 0; otherwise the first `length` bytes are sent
     * and, when the ioctl succeeds, replaced by the bytes received.
     */
    method TransferInPlace(buffer: array?<Byte>, length: nat, reply: Option<seq<Byte>>)
      requires Valid()
      requires buffer != null ==> length <= buffer.Length
      requires reply.Some? ==> |reply.value| == length
      modifies this`sentFrames, buffer
      ensures buffer == null || !IsInitialized() || length == 0 ==>
        sentFrames == old(sentFrames) && (buffer != null ==> buffer[..] == old(buffer[..]))
      ensures buffer != null && IsInitialized() && length > 0 ==>
        sentFrames == old(sentFrames) + [old(buffer[..length])]
        && buffer[length..] == old(buffer[length..])
        && buffer[..length] == (match reply case None => old(buffer[..length]) case Some(bytes) => bytes)
    {
      if fd < 0 || buffer == null || length == 0 {
        return;
      }
      sentFrames := sentFrames + [buffer[..length]];
      match reply {
        case None =>
        case Some(bytes) =>
          forall i | 0 <= i < length {
            buffer[i] := bytes[i];
          }
      }
    }

    /**
     * `transfer(txBuffer, rxBuffer, length)`: like the in-place form with separate buffers;
     * nothing happens when closed, when either buffer is null or when the length is 0.
     */
    method TransferBuffers(txBuffer: array?<Byte>, rxBuffer: array?<Byte>, length: nat, reply: Option<seq<Byte>>)
      requires Valid()
      requires txBuffer != null ==> length <= txBuffer.Length
      requires rxBuffer != null ==> length <= rxBuffer.Length
      requires reply.Some? ==> |reply.value| == length
      modifies this`sentFrames, rxBuffer
      ensures txBuffer == null || rxBuffer == null || !IsInitialized() || length == 0 ==>
        sentFrames == old(sentFrames) && (rxBuffer != null ==> rxBuffer[..] == old(rxBuffer[..]))
      ensures txBuffer != null && rxBuffer != null && IsInitialized() && length > 0 ==>
        sentFrames == old(sentFrames) + [old(txBuffer[..length])]
        && rxBuffer[length..] == old(rxBuffer[length..])
        && rxBuffer[..length] == (match reply case None => old(rxBuffer[..length]) case Some(bytes) => bytes)
    {
      if fd < 0 || txBuffer == null || rxBuffer == null || length == 0 {
        return;
      }
      sentFrames := sentFrames + [txBuffer[..length]];
      match reply {
        case None =>
        case Some(bytes) =>
          forall i | 0 <= i < length {
            rxBuffer[i] := bytes[i];
          }
      }
    }
  }
}
