/**
 * GPIO edge interrupts (`InterruptManager`, src/interrupts.cpp): a registry from pin to
 * handler, plus the dispatch of one batch of edge events read for a ready pin.
 *
 * The libgpiod calls made while attaching are an oracle (`GpiodSetup`), a callback is
 * identified by a number (`None` stands for an empty `std::function`), and the monitor
 * thread's polling is left out: `DispatchBatch` is the body run for one ready pin.
 */
module Interrupts {
  import opened Common

  datatype InterruptMode = Rising | Falling | Change

  /** libgpiod's edge-detection setting. */
  datatype LineEdge = EdgeRising | EdgeFalling | EdgeBoth

  /** `modeToEdge`: RISING and FALLING keep their edge, CHANGE listens to both. */
  function ModeToEdge(mode: InterruptMode): (edge: LineEdge)
    ensures edge == EdgeRising <==> mode == Rising
    ensures edge == EdgeFalling <==> mode == Falling
    ensures edge == EdgeBoth <==> mode == Change
  {
    match mode
    case Rising => EdgeRising
    case Falling => EdgeFalling
    case Change => EdgeBoth
  }

  /** A registered handler (`InterruptHandler`); the libgpiod handles it owns are not modelled. */
  datatype Handler = Handler(pin: int, callback: nat, mode: InterruptMode, active: bool)

  /** How `attachInterrupt` ends: normally, or with the exception it throws. */
  datatype AttachResult =
    | Attached
    | InvalidPinError       // pin outside 0..27
    | InvalidArgument       // empty callback
    | AlreadyAttached       // std::runtime_error: pin already has a handler
    | GpioAccessError       // chip could not be opened, or line request refused
    | ResourceError         // std::runtime_error: a libgpiod allocation failed

  /** What each libgpiod step of an attach returns: success or failure, in call order. */
  datatype GpiodSetup = GpiodSetup(
    chipOpened: bool,
    settingsCreated: bool,
    lineConfigCreated: bool,
    requestConfigCreated: bool,
    lineRequested: bool,
    eventBufferCreated: bool)

  /** The outcome of the libgpiod steps alone, first failure wins. */
  function SetupOutcome(g: GpiodSetup): (r: AttachResult)
    ensures r == Attached <==>
      g.chipOpened && g.settingsCreated && g.lineConfigCreated && g.requestConfigCreated
      && g.lineRequested && g.eventBufferCreated
    ensures r in {Attached, GpioAccessError, ResourceError}
    ensures !g.chipOpened ==> r == GpioAccessError
  {
    if !g.chipOpened then GpioAccessError
    else if !g.settingsCreated || !g.lineConfigCreated || !g.requestConfigCreated then ResourceError
    else if !g.lineRequested then GpioAccessError
    else if !g.eventBufferCreated then ResourceError
    else Attached
  }

  /** The indices j < n with `present[j]`, in increasing order. */
  function PresentIndices(present: seq<bool>, n: nat): (r: seq<int>)
    requires n <= |present|
    ensures |r| <= n
    ensures forall k :: 0 <= k < |r| ==> 0 <= r[k] < n && present[r[k]]
    ensures forall k, m :: 0 <= k < m < |r| ==> r[k] < r[m]
    ensures forall j :: 0 <= j < n && present[j] ==> j in r
  {
    if n == 0 then []
    else PresentIndices(present, n - 1) + (if present[n - 1] then [n - 1] else [])
  }

  /** How many of the first n slots hold an event whose callback throws. */
  function CaughtCount(present: seq<bool>, throws: seq<bool>, n: nat): (c: nat)
    requires n <= |present| && |throws| == |present|
    ensures c <= |PresentIndices(present, n)|
  {
    if n == 0 then 0
    else CaughtCount(present, throws, n - 1) + (if present[n - 1] && throws[n - 1] then 1 else 0)
  }

  class InterruptManager {
    var handlers: map<int, Handler>

    /** Every registered handler sits under its own, valid pin and is active. */
    ghost predicate Valid()
      reads this
    {
      forall p :: p in handlers ==> ValidPin(p) && handlers[p].pin == p && handlers[p].active
    }

    constructor ()
      ensures Valid() && handlers == map[]
    {
      handlers := map[];
    }

    /**
     * `attachInterrupt(pin, callback, mode, chipname)`: the checks run in the order pin range,
     * empty callback, already attached, libgpiod steps; only a full success inserts a handler.
     */
    method AttachInterrupt(pin: int, callback: Option<nat>, mode: InterruptMode, gpiod: GpiodSetup)
      returns (r: AttachResult)
      requires Valid()
      modifies this
      ensures Valid()
      ensures r == (if !ValidPin(pin) then InvalidPinError
                    else if callback.None? then InvalidArgument
                    else if pin in old(handlers) then AlreadyAttached
                    else SetupOutcome(gpiod))
      ensures r == Attached ==>
        handlers == old(handlers)[pin := Handler(pin, callback.value, mode, true)]
      ensures r != Attached ==> handlers == old(handlers)
    {
      if pin < 0 || pin > MAX_GPIO_PIN {
        return InvalidPinError;
      }
      if callback.None? {
        return InvalidArgument;
      }
      if pin in handlers {
        return AlreadyAttached;
      }
      if !gpiod.chipOpened {
        return GpioAccessError;
      }
      if !gpiod.settingsCreated {
        return ResourceError;
      }
      if !gpiod.lineConfigCreated {
        return ResourceError;
      }
      if !gpiod.requestConfigCreated {
        return ResourceError;
      }
      if !gpiod.lineRequested {
        return GpioAccessError;
      }
      if !gpiod.eventBufferCreated {
        return ResourceError;
      }
      handlers := handlers[pin := Handler(pin, callback.value, mode, true)];
      return Attached;
    }

    /** `detachInterrupt(pin)`: any int is accepted; true and removal iff the pin had a handler. */
    method DetachInterrupt(pin: int) returns (ok: bool)
      requires Valid()
      modifies this
      ensures Valid()
      ensures ok <==> pin in old(handlers)
      ensures handlers == old(handlers) - {pin}
    {
      if pin !in handlers {
        return false;
      }
      handlers := handlers - {pin};
      return true;
    }

    /** `isAttached(pin)`. */
    predicate IsAttached(pin: int)
      reads this
    {
      pin in handlers
    }

    /** `getActiveCount()`. */
    function GetActiveCount(): (n: nat)
      reads this
      ensures n == |handlers.Keys|
    {
      |handlers|
    }

    /**
     * One batch of the monitor thread for a ready pin: a pin without an active handler is
     * skipped; otherwise each of the `readCount` events read (negative: read error) whose
     * slot holds an event invokes the callback once.  A throwing invocation is caught and
     * counted, and the loop goes on.  Returns the invoked event indices and the catch count.
     */
    method DispatchBatch(pin: int, readCount: int, present: seq<bool>, throws: seq<bool>)
      returns (invoked: seq<int>, caught: nat)
      requires readCount <= |present| && |throws| == |present|
      ensures pin in handlers && handlers[pin].active && readCount > 0 ==>
        invoked == PresentIndices(present, readCount)
      ensures !(pin in handlers && handlers[pin].active && readCount > 0) ==> invoked == []
      ensures caught == (if invoked == [] then 0 else CaughtCount(present, throws, readCount))
    {
      invoked := [];
      caught := 0;
      if pin !in handlers || !handlers[pin].active {
        return;
      }
      if readCount > 0 {
        var j := 0;
        while j < readCount
          invariant 0 <= j <= readCount
          invariant invoked == PresentIndices(present, j)
          invariant caught == CaughtCount(present, throws, j)
        {
          if present[j] {
            invoked := invoked + [j];
            if throws[j] {
              caught := caught + 1;
            }
          }
          j := j + 1;
        }
      }
    }
  }
}
