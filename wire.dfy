/**
 * The Arduino-style I2C master (`WireClass`, src/Wire.cpp) over Linux i2c-dev.
 *
 * The kernel calls are an oracle: `Bus` says, per address, whether the
 * `I2C_SLAVE` ioctl succeeds, how many bytes `write()` reports for a payload,
 * and what `read()` returns.  The ghost field `traffic` records every payload
 * actually handed to `write()`, so "no bus traffic" can be stated.
 */
module Wire {
  import opened Common

  /** Capacity of the transmit and receive buffers (`BUFFER_SIZE`). */
  const BUFFER_SIZE: nat := 256
  /** First and last 7-bit addresses probed by `scan`; the others are reserved. */
  const FIRST_SCAN_ADDRESS: Byte := 0x03
  const LAST_SCAN_ADDRESS: Byte := 0x77
  /** Candidate bus numbers tried by the auto-detecting `begin()`, in order. */
  const BUS_CANDIDATES: seq<int> := [1, 20, 21, 0, 2]

  /** `endTransmission` status codes. */
  const STATUS_OK: Byte := 0
  const STATUS_ADDRESS_NACK: Byte := 2
  const STATUS_DATA_NACK: Byte := 3
  const STATUS_OTHER: Byte := 4

  /** What the kernel answers for the calls `WireClass` makes on an open descriptor. */
  datatype Bus = Bus(
    addressAccepted: Byte -> bool,            // ioctl(fd, I2C_SLAVE, address) >= 0
    writeResult: (Byte, seq<Byte>) -> int,    // value returned by write(fd, data, size)
    readResult: (Byte, nat) -> Option<seq<Byte>>  // read(fd, buf, n): None for -1, else the bytes
  )

  /** One payload handed to `write()` for a slave address. */
  datatype Frame = Frame(address: Byte, data: seq<Byte>)

  /** `endTransmission` answers 0 for a non-empty payload: the bus is open, the address is accepted and every byte is written. */
  predicate RegisterWritten(open: bool, address: Byte, payload: seq<Byte>, bus: Bus)
  {
    open && bus.addressAccepted(address) && bus.writeResult(address, payload) == |payload|
  }

  /** The addresses lo, lo+1, ..., hi-1 in ascending order. */
  function AddressRange(lo: Byte, hi: int): (r: seq<Byte>)
    requires lo <= hi <= 256
    decreases hi - lo
  {
    if hi <= lo then [] else AddressRange(lo, hi - 1) + [(hi - 1) as Byte]
  }

  lemma {:induction false} AddressRangeShape(lo: Byte, hi: int)
    requires lo <= hi <= 256
    ensures |AddressRange(lo, hi)| == hi - lo
    ensures forall i :: 0 <= i < |AddressRange(lo, hi)| ==> AddressRange(lo, hi)[i] == lo + i
    decreases hi - lo
  {
    if lo < hi {
      AddressRangeShape(lo, hi - 1);
    }
  }

  /** The addresses `scan` walks through, in order. */
  const SCAN_ADDRESSES: seq<Byte> := AddressRange(FIRST_SCAN_ADDRESS, LAST_SCAN_ADDRESS as int + 1)

  /** The scan range 0x03..0x77 holds 117 addresses, strictly ascending, and exactly those addresses. */
  lemma ScanRangeFacts()
    ensures |SCAN_ADDRESSES| == 117
    ensures forall i, j :: 0 <= i < j < |SCAN_ADDRESSES| ==> SCAN_ADDRESSES[i] < SCAN_ADDRESSES[j]
    ensures forall a: Byte :: a in SCAN_ADDRESSES <==> FIRST_SCAN_ADDRESS <= a <= LAST_SCAN_ADDRESS
  {
    AddressRangeShape(FIRST_SCAN_ADDRESS, LAST_SCAN_ADDRESS as int + 1);
    forall a: Byte | FIRST_SCAN_ADDRESS <= a <= LAST_SCAN_ADDRESS
      ensures a in SCAN_ADDRESSES
    {
      assert SCAN_ADDRESSES[a - FIRST_SCAN_ADDRESS] == a;
    }
  }

  /** The bus chosen by the auto-detecting `begin()`: the first candidate whose device node exists, or -1. */
  method DetectBusNumber(deviceExists: int -> bool) returns (bus: int)
    ensures bus == -1 <==> forall i :: 0 <= i < |BUS_CANDIDATES| ==> !deviceExists(BUS_CANDIDATES[i])
    ensures bus != -1 ==> exists k :: 0 <= k < |BUS_CANDIDATES| && bus == BUS_CANDIDATES[k] && deviceExists(bus)
                                      && forall i :: 0 <= i < k ==> !deviceExists(BUS_CANDIDATES[i])
  {
    var k := 0;
    while k < |BUS_CANDIDATES|
      invariant 0 <= k <= |BUS_CANDIDATES|
      invariant forall i :: 0 <= i < k ==> !deviceExists(BUS_CANDIDATES[i])
    {
      if deviceExists(BUS_CANDIDATES[k]) {
        return BUS_CANDIDATES[k];
      }
      k := k + 1;
    }
    return -1;
  }

  class WireClass {
    var fd: int
    var busNumber: int
    var clockFrequency: int
    var txAddress: Byte
    var txBuffer: seq<Byte>
    var rxBuffer: seq<Byte>
    var rxIndex: nat
    /** Every payload passed to `write()`, oldest first. */
    ghost var traffic: seq<Frame>

    ghost predicate Valid()
      reads this
    {
      fd >= -1 && |txBuffer| <= BUFFER_SIZE && |rxBuffer| <= BUFFER_SIZE && rxIndex <= |rxBuffer|
      && 0 <= clockFrequency < 0x1_0000_0000
    }

    predicate IsOpen()
      reads this
    {
      fd >= 0
    }

    constructor ()
      ensures Valid() && !IsOpen()
      ensures fd == -1 && busNumber == -1 && clockFrequency == 100000 && txAddress == 0
      ensures txBuffer == [] && rxBuffer == [] && rxIndex == 0 && traffic == []
    {
      fd := -1;
      busNumber := -1;
      clockFrequency := 100000;
      txAddress := 0;
      txBuffer := [];
      rxBuffer := [];
      rxIndex := 0;
      traffic := [];
    }

    /** `begin(busNumber)`: closes any open descriptor, then opens `/dev/i2c-<busNumber>`; `openResult` is what `open()` returns. */
    method Begin(bus: int, openResult: int) returns (ok: bool)
      requires Valid() && openResult >= -1
      modifies this
      ensures Valid()
      ensures ok <==> openResult >= 0
      ensures fd == openResult
      ensures busNumber == (if ok then bus else -1)
      ensures txAddress == old(txAddress) && txBuffer == old(txBuffer) && rxBuffer == old(rxBuffer)
      ensures rxIndex == old(rxIndex) && clockFrequency == old(clockFrequency) && traffic == old(traffic)
    {
      if fd >= 0 {
        fd := -1; // close(fd_)
      }
      busNumber := bus;
      fd := openResult;
      if fd < 0 {
        busNumber := -1;
        return false;
      }
      return true;
    }

    /** The auto-detecting `begin()`: fails without touching the descriptor when no candidate bus exists. */
    method BeginAuto(deviceExists: int -> bool, openResult: int) returns (ok: bool)
      requires Valid() && openResult >= -1
      modifies this
      ensures Valid()
      ensures (forall i :: 0 <= i < |BUS_CANDIDATES| ==> !deviceExists(BUS_CANDIDATES[i])) ==>
        !ok && fd == old(fd) && busNumber == old(busNumber)
      ensures ok ==> fd == openResult && busNumber in BUS_CANDIDATES && deviceExists(busNumber)
      ensures (exists i :: 0 <= i < |BUS_CANDIDATES| && deviceExists(BUS_CANDIDATES[i])) ==>
        (ok <==> openResult >= 0) && fd == openResult
      ensures txAddress == old(txAddress) && txBuffer == old(txBuffer) && rxBuffer == old(rxBuffer)
      ensures rxIndex == old(rxIndex) && clockFrequency == old(clockFrequency) && traffic == old(traffic)
    {
      var detected := DetectBusNumber(deviceExists);
      if detected < 0 {
        return false;
      }
      ok := Begin(detected, openResult);
    }

    /** `end()`: closes the descriptor and forgets the bus and both buffers. */
    method End()
      requires Valid()
      modifies this
      ensures Valid() && !IsOpen()
      ensures fd == -1 && busNumber == -1 && txBuffer == [] && rxBuffer == [] && rxIndex == 0
      ensures txAddress == old(txAddress) && clockFrequency == old(clockFrequency) && traffic == old(traffic)
    {
      if fd >= 0 {
        fd := -1;
      }
      busNumber := -1;
      txBuffer := [];
      rxBuffer := [];
      rxIndex := 0;
    }

    /** `beginTransmission(address)`: target address set, transmit buffer emptied, receive side untouched. */
    method BeginTransmission(address: Byte)
      requires Valid()
      modifies this
      ensures Valid()
      ensures txAddress == address && txBuffer == []
      ensures fd == old(fd) && busNumber == old(busNumber) && rxBuffer == old(rxBuffer) && rxIndex == old(rxIndex)
      ensures clockFrequency == old(clockFrequency) && traffic == old(traffic)
    {
      txAddress := address;
      txBuffer := [];
    }

    /**
     * `endTransmission(sendStop)`: status 4 when closed, 0 without any bus traffic when
     * nothing is queued, 2 when the address is refused, 3 on a failed or short write,
     * and 0 with the buffer emptied after a complete write.  `sendStop` has no effect.
     */
    method EndTransmission(sendStop: bool, bus: Bus) returns (status: Byte)
      requires Valid()
      modifies this
      ensures Valid()
      ensures !old(IsOpen()) ==> status == STATUS_OTHER && txBuffer == old(txBuffer) && traffic == old(traffic)
      ensures old(IsOpen()) && old(txBuffer) == [] ==> status == STATUS_OK && txBuffer == [] && traffic == old(traffic)
      ensures old(IsOpen()) && old(txBuffer) != [] && !bus.addressAccepted(txAddress) ==>
        status == STATUS_ADDRESS_NACK && txBuffer == old(txBuffer) && traffic == old(traffic)
      ensures old(IsOpen()) && old(txBuffer) != [] && bus.addressAccepted(txAddress) ==>
        traffic == old(traffic) + [Frame(txAddress, old(txBuffer))]
        && (if bus.writeResult(txAddress, old(txBuffer)) == |old(txBuffer)|
            then status == STATUS_OK && txBuffer == []
            else status == STATUS_DATA_NACK && txBuffer == old(txBuffer))
      ensures status == STATUS_OK ==> txBuffer == []
      ensures fd == old(fd) && busNumber == old(busNumber) && txAddress == old(txAddress)
      ensures rxBuffer == old(rxBuffer) && rxIndex == old(rxIndex) && clockFrequency == old(clockFrequency)
    {
      if fd < 0 {
        return STATUS_OTHER;
      }
      if txBuffer == [] {
        return STATUS_OK;
      }
      if !bus.addressAccepted(txAddress) {
        return STATUS_ADDRESS_NACK;
      }
      var written := bus.writeResult(txAddress, txBuffer);
      traffic := traffic + [Frame(txAddress, txBuffer)];
      if written < 0 {
        return STATUS_DATA_NACK;
      }
      if written != |txBuffer| {
        return STATUS_DATA_NACK;
      }
      txBuffer := [];
      return STATUS_OK;
    }

    /** `write(byte)`: queues the byte and returns 1 unless the buffer is full, then returns 0. */
    method Write(data: Byte) returns (n: nat)
      requires Valid()
      modifies this
      ensures Valid()
      ensures old(|txBuffer|) < BUFFER_SIZE ==> n == 1 && txBuffer == old(txBuffer) + [data]
      ensures old(|txBuffer|) >= BUFFER_SIZE ==> n == 0 && txBuffer == old(txBuffer)
      ensures fd == old(fd) && busNumber == old(busNumber) && txAddress == old(txAddress)
      ensures rxBuffer == old(rxBuffer) && rxIndex == old(rxIndex) && clockFrequency == old(clockFrequency)
      ensures traffic == old(traffic)
    {
      if |txBuffer| >= BUFFER_SIZE {
        return 0;
      }
      txBuffer := txBuffer + [data];
      return 1;
    }

    /** `write(data, length)`: queues as many leading bytes as fit and returns that count. */
    method WriteBytes(data: seq<Byte>) returns (n: nat)
      requires Valid()
      modifies this
      ensures Valid()
      ensures n == (if |data| < BUFFER_SIZE - old(|txBuffer|) then |data| else BUFFER_SIZE - old(|txBuffer|))
      ensures txBuffer == old(txBuffer) + data[..n]
      ensures fd == old(fd) && busNumber == old(busNumber) && txAddress == old(txAddress)
      ensures rxBuffer == old(rxBuffer) && rxIndex == old(rxIndex) && clockFrequency == old(clockFrequency)
      ensures traffic == old(traffic)
    {
      var room := BUFFER_SIZE - |txBuffer|;
      var toWrite := if |data| < room then |data| else room;
      if toWrite == 0 {
        return 0;
      }
      txBuffer := txBuffer + data[..toWrite];
      return toWrite;
    }

    /**
     * `requestFrom(address, quantity, sendStop)`: nothing changes and 0 is returned when closed,
     * for a quantity outside 1..256, or when the address is refused; otherwise the receive buffer
     * becomes the bytes read (empty when `read()` fails), the index restarts, and the count is returned.
     */
    method RequestFrom(address: Byte, quantity: nat, sendStop: bool, bus: Bus) returns (n: nat)
      requires Valid()
      requires bus.readResult(address, quantity).Some? ==> |bus.readResult(address, quantity).value| <= quantity
      modifies this
      ensures Valid()
      ensures !old(IsOpen()) || quantity == 0 || quantity > BUFFER_SIZE || !bus.addressAccepted(address) ==>
        n == 0 && rxBuffer == old(rxBuffer) && rxIndex == old(rxIndex)
      ensures old(IsOpen()) && 0 < quantity <= BUFFER_SIZE && bus.addressAccepted(address) ==>
        rxIndex == 0
        && rxBuffer == (match bus.readResult(address, quantity) case None => [] case Some(bytes) => bytes)
        && n == |rxBuffer|
      ensures n <= quantity
      ensures fd == old(fd) && busNumber == old(busNumber) && txAddress == old(txAddress) && txBuffer == old(txBuffer)
      ensures clockFrequency == old(clockFrequency) && traffic == old(traffic)
    {
      if fd < 0 {
        return 0;
      }
      if quantity == 0 || quantity > BUFFER_SIZE {
        return 0;
      }
      if !bus.addressAccepted(address) {
        return 0;
      }
      rxIndex := 0;
      var bytesRead := bus.readResult(address, quantity);
      match bytesRead {
        case None =>
          rxBuffer := [];
          return 0;
        case Some(bytes) =>
          rxBuffer := bytes;
          return |bytes|;
      }
    }

    /** `available()`: the received bytes not yet read. */
    function Available(): (n: nat)
      requires Valid()
      reads this
      ensures n <= |rxBuffer|
      ensures n == 0 <==> rxIndex == |rxBuffer|
      ensures rxIndex + n == |rxBuffer|
    {
      if rxIndex >= |rxBuffer| then 0 else |rxBuffer| - rxIndex
    }

    /** `peek()`: the next received byte, or -1 when none is left. */
    function Peek(): (b: int)
      requires Valid()
      reads this
      ensures b == -1 <==> Available() == 0
      ensures b != -1 ==> 0 <= b < 256 && b == rxBuffer[rxIndex]
    {
      if rxIndex >= |rxBuffer| then -1 else rxBuffer[rxIndex]
    }

    /** `read()`: returns what `peek()` returns and consumes it. */
    method Read() returns (b: int)
      requires Valid()
      modifies this
      ensures Valid()
      ensures b == old(Peek())
      ensures old(Available()) > 0 ==> rxIndex == old(rxIndex) + 1 && Available() == old(Available()) - 1
      ensures old(Available()) == 0 ==> rxIndex == old(rxIndex)
      ensures fd == old(fd) && busNumber == old(busNumber) && txAddress == old(txAddress) && txBuffer == old(txBuffer)
      ensures rxBuffer == old(rxBuffer) && clockFrequency == old(clockFrequency) && traffic == old(traffic)
    {
      if rxIndex >= |rxBuffer| {
        return -1;
      }
      b := rxBuffer[rxIndex];
      rxIndex := rxIndex + 1;
    }

    /** `setClock(frequency)`: only records the value (the kernel fixes the real speed) and reports success. */
    method SetClock(frequency: int) returns (ok: bool)
      requires Valid() && 0 <= frequency < 0x1_0000_0000
      modifies this
      ensures Valid() && ok
      ensures GetClock() == frequency
      ensures fd == old(fd) && busNumber == old(busNumber) && txAddress == old(txAddress) && txBuffer == old(txBuffer)
      ensures rxBuffer == old(rxBuffer) && rxIndex == old(rxIndex) && traffic == old(traffic)
    {
      clockFrequency := frequency;
      return true;
    }

    function GetClock(): (f: int)
      requires Valid()
      reads this
      ensures 0 <= f < 0x1_0000_0000
    {
      clockFrequency
    }

    /**
     * `readRegister(address, reg)`: writes the register number, then reads one byte.
     * Returns that byte, or -1 when either phase fails.
     */
    method ReadRegister(address: Byte, reg: Byte, bus: Bus) returns (v: int)
      requires Valid()
      requires bus.readResult(address, 1).Some? ==> |bus.readResult(address, 1).value| <= 1
      modifies this
      ensures Valid()
      ensures v != -1 <==>
        old(IsOpen()) && bus.addressAccepted(address) && bus.writeResult(address, [reg]) == 1
        && bus.readResult(address, 1).Some? && |bus.readResult(address, 1).value| == 1
      ensures v != -1 ==> v == bus.readResult(address, 1).value[0]
      ensures traffic == if old(IsOpen()) && bus.addressAccepted(address) then old(traffic) + [Frame(address, [reg])] else old(traffic)
      ensures txBuffer == if RegisterWritten(old(IsOpen()), address, [reg], bus) then [] else [reg]
      ensures !RegisterWritten(old(IsOpen()), address, [reg], bus) ==> rxBuffer == old(rxBuffer) && rxIndex == old(rxIndex)
      ensures RegisterWritten(old(IsOpen()), address, [reg], bus) ==>
        rxBuffer == (match bus.readResult(address, 1) case None => [] case Some(bytes) => bytes)
        && rxIndex == |rxBuffer|
      ensures txAddress == address && fd == old(fd) && busNumber == old(busNumber) && clockFrequency == old(clockFrequency)
    {
      BeginTransmission(address);
      var _ := Write(reg);
      assert txBuffer == [reg];
      var status := EndTransmission(false, bus);
      if status != STATUS_OK {
        return -1;
      }
      var got := RequestFrom(address, 1, true, bus);
      if got != 1 {
        return -1;
      }
      v := Read();
    }

    /** `writeRegister(address, reg, value)`: true exactly when the two-byte write completes. */
    method WriteRegister(address: Byte, reg: Byte, value: Byte, bus: Bus) returns (ok: bool)
      requires Valid()
      modifies this
      ensures Valid()
      ensures ok <==> old(IsOpen()) && bus.addressAccepted(address) && bus.writeResult(address, [reg, value]) == 2
      ensures traffic == if old(IsOpen()) && bus.addressAccepted(address) then old(traffic) + [Frame(address, [reg, value])] else old(traffic)
      ensures txBuffer == if ok then [] else [reg, value]
      ensures txAddress == address && fd == old(fd) && busNumber == old(busNumber) && clockFrequency == old(clockFrequency)
      ensures rxBuffer == old(rxBuffer) && rxIndex == old(rxIndex)
    {
      BeginTransmission(address);
      var _ := Write(reg);
      var _ := Write(value);
      assert txBuffer == [reg, value];
      var status := EndTransmission(true, bus);
      ok := status == STATUS_OK;
    }

    /**
     * `readRegisters(address, reg, buffer, length)`: -1 for a null buffer, a zero length or when
     * writing the register number fails; otherwise the bytes `requestFrom` buffered, copied out one
     * `read()` at a time, and their count.  `bufferGiven` is false for a null `buffer`, and `data`
     * stands for the filled prefix of `buffer`.
     */
    method ReadRegisters(address: Byte, reg: Byte, bufferGiven: bool, length: nat, bus: Bus) returns (n: int, data: seq<Byte>)
      requires Valid()
      requires bus.readResult(address, length).Some? ==> |bus.readResult(address, length).value| <= length
      modifies this
      ensures Valid()
      ensures n == -1 <==>
        !bufferGiven || length == 0 || !(old(IsOpen()) && bus.addressAccepted(address) && bus.writeResult(address, [reg]) == 1)
      ensures n == -1 ==> data == []
      ensures n != -1 ==>
        n == |data| <= length
        && data == (if length > BUFFER_SIZE then []
                    else match bus.readResult(address, length) case None => [] case Some(bytes) => bytes)
      ensures traffic == if bufferGiven && length > 0 && old(IsOpen()) && bus.addressAccepted(address) then old(traffic) + [Frame(address, [reg])] else old(traffic)
      ensures !bufferGiven || length == 0 ==> txAddress == old(txAddress) && txBuffer == old(txBuffer)
      ensures bufferGiven && length > 0 ==> txAddress == address && txBuffer == if RegisterWritten(old(IsOpen()), address, [reg], bus) then [] else [reg]
      ensures !bufferGiven || length == 0 || length > BUFFER_SIZE || !RegisterWritten(old(IsOpen()), address, [reg], bus) ==>
        rxBuffer == old(rxBuffer) && rxIndex == old(rxIndex)
      ensures bufferGiven && 0 < length <= BUFFER_SIZE && RegisterWritten(old(IsOpen()), address, [reg], bus) ==>
        rxBuffer == (match bus.readResult(address, length) case None => [] case Some(bytes) => bytes)
        && rxIndex == |rxBuffer|
      ensures fd == old(fd) && busNumber == old(busNumber) && clockFrequency == old(clockFrequency)
    {
      data := [];
      if !bufferGiven || length == 0 {
        return -1, [];
      }
      BeginTransmission(address);
      var _ := Write(reg);
      assert txBuffer == [reg];
      var status := EndTransmission(false, bus);
      if status != STATUS_OK {
        return -1, [];
      }
      var received := RequestFrom(address, length, true, bus);
      ghost var buffered := rxBuffer;
      ghost var index0 := rxIndex;
      assert received > 0 ==> buffered == (match bus.readResult(address, length) case None => [] case Some(bytes) => bytes);
      var i := 0;
      while i < received
        invariant 0 <= i <= received && Valid()
        invariant rxBuffer == buffered && rxIndex == index0 + i && (received > 0 ==> |buffered| == received && index0 == 0)
        invariant data == buffered[..i]
        invariant fd == old(fd) && busNumber == old(busNumber) && traffic == old(traffic) + [Frame(address, [reg])]
        invariant txAddress == address && txBuffer == [] && clockFrequency == old(clockFrequency)
      {
        var b := Read();
        // `read()` cannot fail here: exactly `received` bytes are buffered.
        assert 0 <= b < 256;
        data := data + [b as Byte];
        i := i + 1;
      }
      assert received == 0 ==> |buffered| == 0 || length > BUFFER_SIZE;
      n := received;
    }

    /**
     * `exists(address)`: sends an empty transmission.  Because `endTransmission` answers 0 for an
     * empty buffer before touching the bus, the answer is "the bus is open", whatever the device does.
     */
    method Exists(address: Byte, bus: Bus) returns (found: bool)
      requires Valid()
      modifies this
      ensures Valid()
      ensures found <==> old(IsOpen())
      ensures traffic == old(traffic)
      ensures txAddress == address && txBuffer == []
      ensures fd == old(fd) && busNumber == old(busNumber) && rxBuffer == old(rxBuffer) && rxIndex == old(rxIndex)
      ensures clockFrequency == old(clockFrequency)
    {
      BeginTransmission(address);
      var status := EndTransmission(true, bus);
      found := status == STATUS_OK;
    }

    /**
     * `scan()`: the addresses 0x03..0x77, in order, for which `exists` holds, which is all 117
     * of them on an open bus and none on a closed one; nothing is ever written to the bus.
     */
    method Scan(bus: Bus) returns (devices: seq<Byte>)
      requires Valid()
      modifies this
      ensures Valid()
      ensures devices == if old(IsOpen()) then SCAN_ADDRESSES else []
      ensures traffic == old(traffic) && txBuffer == [] && txAddress == LAST_SCAN_ADDRESS
      ensures fd == old(fd) && busNumber == old(busNumber) && rxBuffer == old(rxBuffer) && rxIndex == old(rxIndex)
      ensures clockFrequency == old(clockFrequency)
    {
      devices := [];
      var address: int := FIRST_SCAN_ADDRESS;
      while address <= LAST_SCAN_ADDRESS as int
        invariant FIRST_SCAN_ADDRESS <= address <= LAST_SCAN_ADDRESS as int + 1
        invariant Valid()
        invariant devices == if old(IsOpen()) then AddressRange(FIRST_SCAN_ADDRESS, address) else []
        invariant traffic == old(traffic)
        invariant address > FIRST_SCAN_ADDRESS ==> txBuffer == [] && txAddress == address - 1
        invariant fd == old(fd) && busNumber == old(busNumber) && rxBuffer == old(rxBuffer) && rxIndex == old(rxIndex)
        invariant clockFrequency == old(clockFrequency)
      {
        var found := Exists(address as Byte, bus);
        if found {
          devices := devices + [address as Byte];
        }
        address := address + 1;
      }
    }
  }

  /** Scanning an open bus reports every address in range, answering or not. */
  lemma {:induction false} ScanReportsEveryAddress(a: Byte)
    requires FIRST_SCAN_ADDRESS <= a <= LAST_SCAN_ADDRESS
    ensures a in SCAN_ADDRESSES
  {
    ScanRangeFacts();
  }
}
