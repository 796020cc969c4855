/**
 * Arduino-style pin functions (src/ArduinoCompat.cpp) over the global `globalPins` map
 * from pin number to the `Pin` object that drives it.
 *
 * The `Pin` class itself is not part of this model: constructing one, writing to it and
 * reading from it are oracles, and a registered pin is represented by its direction.
 */
module ArduinoCompat {

  const INPUT: int := 0
  const OUTPUT: int := 1

  datatype PinDirection = Input | Output

  /** The direction `pinMode` asks for: OUTPUT (1) is output, every other mode is input. */
  function DirectionOf(mode: int): (d: PinDirection)
    ensures d == Output <==> mode == OUTPUT
    ensures d == Input <==> mode != OUTPUT
  {
    if mode == OUTPUT then Output else Input
  }

  class ArduinoPins {
    /** `globalPins`: at most one entry per pin number, by construction of a map. */
    var pins: map<int, PinDirection>
    /** The (pin, level) writes handed to registered `Pin` objects, in order. */
    ghost var lineWrites: seq<(int, bool)>

    constructor ()
      ensures pins == map[] && lineWrites == []
    {
      pins := map[];
      lineWrites := [];
    }

    /**
     * `pinMode(pin, mode)`: the old entry is erased first; a new `Pin` is registered only if
     * its construction succeeds, and a failure is swallowed (the pin is left unregistered).
     */
    method PinMode(pin: int, mode: int, pinCreated: bool)
      modifies this`pins
      ensures pinCreated ==> pins == old(pins)[pin := DirectionOf(mode)]
      ensures !pinCreated ==> pins == old(pins) - {pin}
      ensures forall p :: p != pin ==> (p in pins <==> p in old(pins))
    {
      var direction := DirectionOf(mode);
      pins := pins - {pin};
      if pinCreated {
        pins := pins[pin := direction];
      }
    }

    /**
     * `digitalWrite(pin, value)`: a registered pin is written (the outcome is only logged by
     * the source); an unregistered one is reported and left alone.  The registry never changes.
     */
    method DigitalWrite(pin: int, value: bool, writeSucceeded: bool) returns (written: bool)
      modifies this`lineWrites
      ensures written <==> pin in pins
      ensures lineWrites == if written then old(lineWrites) + [(pin, value)] else old(lineWrites)
    {
      if pin in pins {
        lineWrites := lineWrites + [(pin, value)];
        return true;
      }
      return false;
    }

    /** `digitalRead(pin)`: what the registered `Pin` reads, or -1 for an unregistered pin. */
    function DigitalRead(pin: int, lineValue: int): (v: int)
      reads this
      ensures pin !in pins ==> v == -1
      ensures pin in pins ==> v == lineValue
    {
      if pin in pins then lineValue else -1
    }
  }
}
