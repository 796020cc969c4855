/**
 * The Arduino-style UART port (`SerialPort`, src/Serial.cpp) over a Linux tty.
 *
 * `open()`, the termios calls and `write()` are oracles passed to the methods.
 * The receive side is the field `rxPending`: the bytes that will arrive, one per
 * `read()`, before the read timeout expires; once it is empty `read()` times out
 * and returns -1.  The ghost field `transmitted` is what reached the line.
 * Text is handled as bytes (`std::string` holds `char` bit patterns).
 */
module Serial {
  import opened Common

  const CR: Byte := 13
  const LF: Byte := 10
  const CRLF: seq<Byte> := [CR, LF]
  const MINUS: Byte := 45
  const DIGIT_ZERO: Byte := 48

  /** The line rates `begin` accepts, in the order of the table. */
  const SUPPORTED_RATES: seq<int> := [50, 75, 110, 134, 150, 200, 300, 600, 1200, 1800, 2400, 4800,
    9600, 19200, 38400, 57600, 115200, 230400, 460800, 500000, 576000, 921600, 1000000,
    1152000, 1500000, 2000000, 2500000, 3000000, 3500000, 4000000]

  /** `getBaudRateConstant`: the termios speed code of a line rate (Linux `B50` .. `B4000000`), 0 when unlisted. */
  function BaudRateConstant(baud: int): (code: int)
    ensures code == 0 || 1 <= code <= 15 || 0x1001 <= code <= 0x100F
  {
    if baud == 50 then 1
    else if baud == 75 then 2
    else if baud == 110 then 3
    else if baud == 134 then 4
    else if baud == 150 then 5
    else if baud == 200 then 6
    else if baud == 300 then 7
    else if baud == 600 then 8
    else if baud == 1200 then 9
    else if baud == 1800 then 10
    else if baud == 2400 then 11
    else if baud == 4800 then 12
    else if baud == 9600 then 13
    else if baud == 19200 then 14
    else if baud == 38400 then 15
    else if baud == 57600 then 0x1001
    else if baud == 115200 then 0x1002
    else if baud == 230400 then 0x1003
    else if baud == 460800 then 0x1004
    else if baud == 500000 then 0x1005
    else if baud == 576000 then 0x1006
    else if baud == 921600 then 0x1007
    else if baud == 1000000 then 0x1008
    else if baud == 1152000 then 0x1009
    else if baud == 1500000 then 0x100A
    else if baud == 2000000 then 0x100B
    else if baud == 2500000 then 0x100C
    else if baud == 3000000 then 0x100D
    else if baud == 3500000 then 0x100E
    else if baud == 4000000 then 0x100F
    else 0
  }

  /** The line rate a termios speed code stands for (what `cfgetospeed` decoding gives), 0 for no code. */
  function RateOfCode(code: int): (baud: int)
  {
    if 1 <= code <= 15 then SUPPORTED_RATES[code - 1]
    else if 0x1001 <= code <= 0x100F then SUPPORTED_RATES[code - 0x1001 + 15]
    else 0
  }

  /** Exactly the 30 listed rates have a speed code. */
  lemma BaudRateConstantSupported(baud: int)
    ensures BaudRateConstant(baud) != 0 <==> baud in SUPPORTED_RATES
  {
  }

  /** Every listed rate is recovered from its code, so no two rates share a code. */
  lemma BaudRateRoundTrip(baud: int)
    requires baud in SUPPORTED_RATES
    ensures RateOfCode(BaudRateConstant(baud)) == baud
  {
    if baud < 1200 {
      assert baud in {50, 75, 110, 134, 150, 200, 300, 600};
      SlowRatesRoundTrip(baud);
    } else if baud < 57600 {
      assert baud in {1200, 1800, 2400, 4800, 9600, 19200, 38400};
      MiddleRatesRoundTrip(baud);
    } else if baud < 1000000 {
      assert baud in {57600, 115200, 230400, 460800, 500000, 576000, 921600};
      FastRatesRoundTrip(baud);
    } else {
      assert baud in {1000000, 1152000, 1500000, 2000000, 2500000, 3000000, 3500000, 4000000};
      FastestRatesRoundTrip(baud);
    }
  }

  lemma SlowRatesRoundTrip(baud: int)
    requires baud in {50, 75, 110, 134, 150, 200, 300, 600}
    ensures RateOfCode(BaudRateConstant(baud)) == baud
  {
  }

  lemma MiddleRatesRoundTrip(baud: int)
    requires baud in {1200, 1800, 2400, 4800, 9600, 19200, 38400}
    ensures RateOfCode(BaudRateConstant(baud)) == baud
  {
  }

  lemma FastRatesRoundTrip(baud: int)
    requires baud in {57600, 115200, 230400, 460800, 500000, 576000, 921600}
    ensures RateOfCode(BaudRateConstant(baud)) == baud
  {
  }

  lemma FastestRatesRoundTrip(baud: int)
    requires baud in {1000000, 1152000, 1500000, 2000000, 2500000, 3000000, 3500000, 4000000}
    ensures RateOfCode(BaudRateConstant(baud)) == baud
  {
  }

  lemma BaudRateConstantInjective(b1: int, b2: int)
    requires BaudRateConstant(b1) != 0
    requires BaudRateConstant(b1) == BaudRateConstant(b2)
    ensures b1 == b2
  {
    BaudRateConstantSupported(b1);
    BaudRateConstantSupported(b2);
    BaudRateRoundTrip(b1);
    BaudRateRoundTrip(b2);
  }

  /** Decimal digits of a natural number, most significant first, no leading zero. */
  function Digits(n: nat): (s: seq<Byte>)
    ensures |s| > 0 && forall i :: 0 <= i < |s| ==> IsDigit(s[i])
    decreases n
  {
    if n < 10 then [DIGIT_ZERO + n] else Digits(n / 10) + [DIGIT_ZERO + n % 10]
  }

  /** `std::to_string(int)`: an optional minus sign followed by the digits of the magnitude. */
  function DecimalText(n: int): (s: seq<Byte>)
    ensures |s| > 0 && (s[0] == MINUS <==> n < 0)
    ensures forall i :: (if n < 0 then 1 else 0) <= i < |s| ==> IsDigit(s[i])
  {
    if n < 0 then [MINUS] + Digits(-n) else Digits(n)
  }

  predicate IsDigit(b: Byte)
  {
    DIGIT_ZERO <= b < DIGIT_ZERO + 10
  }

  function DigitValue(b: Byte): (d: nat)
    requires IsDigit(b)
    ensures d < 10
  {
    b - DIGIT_ZERO
  }

  /** The value of a run of decimal digits. */
  function ParseDigits(s: seq<Byte>): (n: nat)
    requires forall i :: 0 <= i < |s| ==> IsDigit(s[i])
    decreases |s|
  {
    if s == [] then 0 else 10 * ParseDigits(s[..|s| - 1]) + DigitValue(s[|s| - 1])
  }

  /** Reads back text produced by `DecimalText`. */
  function ParseDecimal(s: seq<Byte>): (n: int)
    requires |s| > 0
    requires forall i :: (if s[0] == MINUS then 1 else 0) <= i < |s| ==> IsDigit(s[i])
  {
    if s[0] == MINUS then -(ParseDigits(s[1..]) as int) else ParseDigits(s)
  }

  lemma {:induction false} DigitsShape(n: nat)
    ensures |Digits(n)| > 0
    ensures forall i :: 0 <= i < |Digits(n)| ==> IsDigit(Digits(n)[i])
    ensures ParseDigits(Digits(n)) == n
    ensures |Digits(n)| > 1 ==> Digits(n)[0] != DIGIT_ZERO
    decreases n
  {
    if n >= 10 {
      DigitsShape(n / 10);
      var s := Digits(n);
      assert s[..|s| - 1] == Digits(n / 10);
    }
  }

  /** `print(int)` text reads back as the number it printed. */
  lemma DecimalTextRoundTrip(n: int)
    ensures |DecimalText(n)| > 0
    ensures (n < 0) <==> DecimalText(n)[0] == MINUS
    ensures forall i :: (if n < 0 then 1 else 0) <= i < |DecimalText(n)| ==> IsDigit(DecimalText(n)[i])
    ensures ParseDecimal(DecimalText(n)) == n
  {
    if n < 0 {
      DigitsShape(-n);
      assert DecimalText(n)[1..] == Digits(-n);
    } else {
      DigitsShape(n);
    }
  }

  /** Position of the first `t` in `s`, or `|s|` when there is none. */
  function FirstIndex(s: seq<Byte>, t: Byte): (k: nat)
    ensures k <= |s|
    ensures forall i :: 0 <= i < k ==> s[i] != t
    ensures k < |s| ==> s[k] == t
    decreases |s|
  {
    if s == [] then 0 else if s[0] == t then 0 else 1 + FirstIndex(s[1..], t)
  }

  class SerialPort {
    var fd: int
    var baudRate: int
    var timeout: int
    var device: seq<char>
    /** Bytes that will arrive on the line before the read timeout, oldest first. */
    var rxPending: seq<Byte>
    /** Every byte accepted by `write()`, oldest first. */
    ghost var transmitted: seq<Byte>

    ghost predicate Valid()
      reads this
    {
      fd >= -1 && baudRate >= 0 && timeout >= 0
    }

    /** `isOpen()`. */
    predicate IsOpen()
      reads this
    {
      fd >= 0
    }

    constructor (arriving: seq<Byte>)
      ensures Valid() && !IsOpen()
      ensures baudRate == 0 && timeout == 1000 && device == ""
      ensures rxPending == arriving && transmitted == []
    {
      fd := -1;
      baudRate := 0;
      timeout := 1000;
      device := "";
      rxPending := arriving;
      transmitted := [];
    }

    /**
     * `begin(baudRate, device)`: closes an open port, opens the device and configures it
     * (attributes read, rate looked up, attributes written).  Device and rate are recorded
     * only on success; any failure leaves the port closed with the old record.
     */
    method Begin(baud: int, dev: seq<char>, openResult: int, getAttrOk: bool, setAttrOk: bool) returns (ok: bool)
      requires Valid() && baud >= 0 && openResult >= -1
      modifies this
      ensures Valid()
      ensures ok <==> openResult >= 0 && getAttrOk && BaudRateConstant(baud) != 0 && setAttrOk
      ensures ok ==> fd == openResult && device == dev && baudRate == baud
      ensures !ok ==> !IsOpen() && device == old(device) && baudRate == old(baudRate)
      ensures timeout == old(timeout) && rxPending == old(rxPending) && transmitted == old(transmitted)
    {
      if fd >= 0 {
        fd := -1; // close(fd_)
      }
      fd := openResult;
      if fd < 0 {
        return false;
      }
      var configured := getAttrOk && BaudRateConstant(baud) != 0 && setAttrOk;
      if !configured {
        fd := -1;
        return false;
      }
      device := dev;
      baudRate := baud;
      return true;
    }

    /** `end()`: an open port is closed and forgets its rate and device; a closed port is left alone. */
    method End()
      requires Valid()
      modifies this
      ensures Valid() && !IsOpen()
      ensures old(IsOpen()) ==> baudRate == 0 && device == ""
      ensures !old(IsOpen()) ==> fd == old(fd) && baudRate == old(baudRate) && device == old(device)
      ensures timeout == old(timeout) && rxPending == old(rxPending) && transmitted == old(transmitted)
    {
      if fd >= 0 {
        fd := -1;
        baudRate := 0;
        device := "";
      }
    }

    /** `getBaudRate()`. */
    function GetBaudRate(): (baud: int)
      requires Valid()
      reads this
      ensures baud >= 0
    {
      baudRate
    }

    /** `setTimeout(milliseconds)`: the read timeout only. */
    method SetTimeout(milliseconds: int)
      requires Valid() && milliseconds >= 0
      modifies this
      ensures Valid() && timeout == milliseconds
      ensures fd == old(fd) && baudRate == old(baudRate) && device == old(device)
      ensures rxPending == old(rxPending) && transmitted == old(transmitted)
    {
      timeout := milliseconds;
    }

    /** `available()`: 0 when closed or when the FIONREAD query fails, else the count it reports. */
    function Available(queryResult: Option<nat>): (n: nat)
      reads this
      ensures !IsOpen() || queryResult.None? ==> n == 0
      ensures IsOpen() && queryResult.Some? ==> n == queryResult.value
    {
      if fd < 0 then 0 else match queryResult case None => 0 case Some(count) => count
    }

    /** `read()`: the next arriving byte, or -1 when closed or when the timeout expires first. */
    method Read() returns (b: int)
      requires Valid()
      modifies this`rxPending
      ensures !IsOpen() || old(rxPending) == [] ==> b == -1 && rxPending == old(rxPending)
      ensures IsOpen() && old(rxPending) != [] ==> b == old(rxPending)[0] && rxPending == old(rxPending)[1..]
    {
      if fd < 0 {
        return -1;
      }
      if rxPending == [] {
        return -1; // select() timed out
      }
      b := rxPending[0];
      rxPending := rxPending[1..];
    }

    /** `write(buffer, size)`: 0 when closed, for a null buffer or for size 0; else what `write()` accepted. */
    method WriteBuffer(buffer: Option<seq<Byte>>, size: nat, writeResult: int) returns (n: nat)
      requires Valid()
      requires buffer.Some? ==> size <= |buffer.value|
      requires writeResult <= size
      modifies this`transmitted
      ensures !IsOpen() || buffer.None? || size == 0 ==> n == 0 && transmitted == old(transmitted)
      ensures IsOpen() && buffer.Some? && size > 0 ==>
        n == (if writeResult > 0 then writeResult else 0) && transmitted == old(transmitted) + buffer.value[..n]
      ensures n <= size
    {
      if fd < 0 || buffer.None? || size == 0 {
        return 0;
      }
      n := if writeResult > 0 then writeResult else 0;
      transmitted := transmitted + buffer.value[..n];
    }

    /** `write(byte)`: 0 when closed; else what `write()` accepted of the single byte. */
    method WriteByte(data: Byte, writeResult: int) returns (n: nat)
      requires Valid() && writeResult <= 1
      modifies this`transmitted
      ensures !IsOpen() ==> n == 0 && transmitted == old(transmitted)
      ensures IsOpen() ==> n == (if writeResult > 0 then 1 else 0) && transmitted == old(transmitted) + [data][..n]
    {
      if fd < 0 {
        return 0;
      }
      n := if writeResult > 0 then writeResult else 0;
      transmitted := transmitted + [data][..n];
    }

    /** `write(string)`, `print(string)`: the whole text in one `write()` call. */
    method WriteText(text: seq<Byte>, writeResult: int) returns (n: nat)
      requires Valid() && writeResult <= |text|
      modifies this`transmitted
      ensures !IsOpen() || text == [] ==> n == 0 && transmitted == old(transmitted)
      ensures IsOpen() ==> n == (if writeResult > 0 then writeResult else 0) && transmitted == old(transmitted) + text[..n]
    {
      n := WriteBuffer(Some(text), |text|, writeResult);
    }

    /** `print(int)`: the decimal text of the number. */
    method PrintInt(num: int, writeResult: int) returns (n: nat)
      requires Valid() && -0x8000_0000 <= num < 0x8000_0000 && writeResult <= |DecimalText(num)|
      modifies this`transmitted
      ensures IsOpen() && writeResult == |DecimalText(num)| ==> transmitted == old(transmitted) + DecimalText(num)
      ensures n <= |DecimalText(num)|
      ensures IsOpen() ==> n == (if writeResult > 0 then writeResult else 0) && transmitted == old(transmitted) + DecimalText(num)[..n]
      ensures !IsOpen() ==> n == 0 && transmitted == old(transmitted)
    {
      n := WriteText(DecimalText(num), writeResult);
    }

    /** `println(data)`: the text followed by CR LF, in one `write()` call. */
    method Println(data: seq<Byte>, writeResult: int) returns (n: nat)
      requires Valid() && writeResult <= |data| + 2
      modifies this`transmitted
      ensures IsOpen() && writeResult == |data| + 2 ==> n == |data| + 2 && transmitted == old(transmitted) + data + CRLF
      ensures n <= |data| + 2
      ensures IsOpen() ==> transmitted == old(transmitted) + (data + CRLF)[..n]
      ensures !IsOpen() ==> n == 0 && transmitted == old(transmitted)
    {
      n := WriteText(data + CRLF, writeResult);
    }

    /** `println(int)`: the decimal text followed by CR LF. */
    method PrintlnInt(num: int, writeResult: int) returns (n: nat)
      requires Valid() && -0x8000_0000 <= num < 0x8000_0000 && writeResult <= |DecimalText(num)| + 2
      modifies this`transmitted
      ensures IsOpen() && writeResult == |DecimalText(num)| + 2 ==> transmitted == old(transmitted) + DecimalText(num) + CRLF
      ensures n <= |DecimalText(num)| + 2
      ensures IsOpen() ==> n == (if writeResult > 0 then writeResult else 0) && transmitted == old(transmitted) + (DecimalText(num) + CRLF)[..n]
      ensures !IsOpen() ==> n == 0 && transmitted == old(transmitted)
    {
      n := WriteText(DecimalText(num) + CRLF, writeResult);
    }

    /** `println()`: CR LF alone. */
    method PrintlnEmpty(writeResult: int) returns (n: nat)
      requires Valid() && writeResult <= 2
      modifies this`transmitted
      ensures IsOpen() && writeResult == 2 ==> n == 2 && transmitted == old(transmitted) + CRLF
      ensures n <= 2
      ensures IsOpen() ==> n == (if writeResult > 0 then writeResult else 0) && transmitted == old(transmitted) + CRLF[..n]
      ensures !IsOpen() ==> n == 0 && transmitted == old(transmitted)
    {
      n := WriteText(CRLF, writeResult);
    }

    /** `readString()`: every byte that arrives before a read times out. */
    method ReadString() returns (result: seq<Byte>)
      requires Valid()
      modifies this`rxPending
      ensures IsOpen() ==> result == old(rxPending) && rxPending == []
      ensures !IsOpen() ==> result == [] && rxPending == old(rxPending)
    {
      result := [];
      while true
        invariant IsOpen() ==> result + rxPending == old(rxPending)
        invariant !IsOpen() ==> result == [] && rxPending == old(rxPending)
        decreases |rxPending|
      {
        var b := Read();
        if b < 0 {
          break;
        }
        result := result + [b as Byte];
      }
    }

    /**
     * `readStringUntil(terminator)`: the bytes before the first terminator, which is consumed
     * but not returned; stops with what it has when a read times out first.
     */
    method ReadStringUntil(terminator: Byte) returns (result: seq<Byte>)
      requires Valid()
      modifies this`rxPending
      ensures IsOpen() ==> result == old(rxPending)[..FirstIndex(old(rxPending), terminator)]
      ensures IsOpen() && terminator in old(rxPending) ==>
        rxPending == old(rxPending)[FirstIndex(old(rxPending), terminator) + 1..]
      ensures IsOpen() && terminator !in old(rxPending) ==> rxPending == []
      ensures terminator !in result
      ensures !IsOpen() ==> result == [] && rxPending == old(rxPending)
    {
      result := [];
      ghost var k := 0;
      while true
        invariant IsOpen() ==>
          (0 <= k <= |old(rxPending)| && result == old(rxPending)[..k]
           && rxPending == old(rxPending)[k..] && terminator !in result)
        invariant !IsOpen() ==> result == [] && rxPending == old(rxPending)
        decreases |rxPending|
      {
        var b := Read();
        if b < 0 {
          break;
        }
        if b == terminator {
          break;
        }
        result := result + [b as Byte];
        k := k + 1;
      }
    }
  }
}
