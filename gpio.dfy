/**
 * The pin registry: validates allocation requests, exports and unexports
 * lines, keeps the allocated pins by number and registers input pins with the
 * event loop.
 */
module SysfsGpio {
  import opened Results
  import opened DecimalText
  import opened Environment
  import opened SysfsPin

  const INPUT: string := "in"
  const OUTPUT: string := "out"

  const RISING: string := "rising"
  const FALLING: string := "falling"
  const BOTH: string := "both"

  const DIRECTIONS: seq<string> := [INPUT, OUTPUT]
  const EDGES: seq<string> := [RISING, FALLING, BOTH]

  /** Where a number stands in a pin's life, as the registry sees it. */
  datatype Stage = Unallocated | Configured | Watched

  class Gpio {
    const pollQueue: IOLoop
    const fs: Sysfs
    var availablePins: set<int>
    var allocatedPins: map<int, Pin>

    ghost function Handles(): set<ValueFile>
      reads this
    {
      set n | n in allocatedPins :: allocatedPins[n].handle
    }

    /**
     * Every allocated pin is keyed by its own number, uses this registry's
     * filesystem, has its handle at offset 0 and its line exported; every
     * number the event loop watches is an allocated input pin.
     */
    ghost predicate Valid()
      reads this, fs, pollQueue, Handles()
    {
      && (forall n | n in allocatedPins ::
            && allocatedPins[n].number == n
            && allocatedPins[n].handle.fs == fs
            && allocatedPins[n].Valid()
            && n in fs.lines)
      && (forall n | n in pollQueue.handlers :: n in allocatedPins && allocatedPins[n].direction == INPUT)
    }

    ghost function StageOf(number: int): Stage
      reads this, pollQueue
    {
      if number !in allocatedPins then Unallocated
      else if number in pollQueue.handlers then Watched
      else Configured
    }

    /**
     * A corollary of Valid(), which every mutating method preserves: only input
     * pins are ever watched, so output pins go from configured straight to unallocated.
     */
    lemma WatchedOnlyInputs(number: int)
      requires Valid()
      ensures StageOf(number) == Watched ==> allocatedPins[number].direction == INPUT
    {
    }

    /** The four checks alloc_pin makes before it touches anything. */
    predicate Admissible(number: int, direction: string, callback: Option<Handler>, edge: Option<string>)
      reads this
    {
      && number in availablePins
      && number !in allocatedPins
      && direction in DIRECTIONS
      && (callback.Some? ==> edge.Some? && edge.value in EDGES)
    }

    constructor (pollQueue: IOLoop, fs: Sysfs, availablePins: set<int>)
      requires pollQueue.handlers == {}
      ensures Valid()
      ensures this.pollQueue == pollQueue && this.fs == fs
      ensures this.availablePins == availablePins && allocatedPins == map[]
    {
      this.pollQueue := pollQueue;
      this.fs := fs;
      this.availablePins := availablePins;
      allocatedPins := map[];
    }

    /** The number must be on this bus and not yet allocated, checked in that order. */
    method CheckPinValidity(number: int) returns (r: Outcome)
      ensures r.Pass? <==> number in availablePins && number !in allocatedPins
      ensures number !in availablePins ==> r == Fail(InvalidPin)
      ensures number in availablePins && number in allocatedPins ==> r == Fail(PinAlreadyAllocated)
    {
      if number !in availablePins {
        return Fail(InvalidPin);
      }
      if number in allocatedPins {
        return Fail(PinAlreadyAllocated);
      }
      return Pass;
    }

    /** Whether the line's gpio directory exists. */
    method CheckPinAlreadyExported(number: int) returns (exported: bool)
      ensures exported <==> number in fs.lines
    {
      exported := fs.IsDir(number);
    }

    method PollQueueRegisterPin(pin: Pin)
      modifies pollQueue
      ensures pollQueue.handlers == old(pollQueue.handlers) + {pin.number}
    {
      pollQueue.AddHandler(pin.number);
    }

    method PollQueueUnregisterPin(pin: Pin)
      modifies pollQueue
      ensures pollQueue.handlers == old(pollQueue.handlers) - {pin.number}
    {
      pollQueue.RemoveHandler(pin.number);
    }

    /** The event loop's callback for a watched pin: read it once, pass the value on. */
    method PollQueueEvent(pin: Pin) returns (r: Outcome)
      requires pin.Valid()
      modifies pin.handle, pin.Listeners()
      ensures pin.Valid()
      ensures var lines := pin.handle.fs.lines;
        if pin.number !in lines then r == Fail(NoSuchFile)
        else match ParseInt(lines[pin.number].value)
          case None => r == Fail(NotAnInteger)
          case Some(v) =>
            r == Pass
            && (pin.callback.Some? ==> pin.callback.value.calls == old(pin.callback.value.calls) + [(pin, v)])
      ensures r.Fail? && pin.callback.Some? ==> pin.callback.value.calls == old(pin.callback.value.calls)
    {
      var value := pin.Read();
      if value.Err? {
        return Fail(value.error);
      }
      pin.Changed(value.value);
      r := Pass;
    }

    /**
     * alloc_pin(number, direction, callback, edge, active_low). A request that
     * fails one of the four checks changes nothing. Otherwise the line is
     * exported unless its directory exists, the pin is constructed and
     * configured, an input pin is registered with the event loop, and the pin
     * is stored under its number.
     */
    method AllocPin(number: int, direction: string, callback: Option<Handler>,
                    edge: Option<string>, activeLow: int)
      returns (r: Result<Pin>)
      requires Valid()
      modifies this, fs, pollQueue
      ensures Valid()
      ensures availablePins == old(availablePins)
      ensures number !in old(availablePins) ==> r == Err(InvalidPin)
      ensures number in old(availablePins) && number in old(allocatedPins) ==> r == Err(PinAlreadyAllocated)
      ensures number in old(availablePins) && number !in old(allocatedPins) && direction !in DIRECTIONS ==>
        r == Err(InvalidDirection)
      ensures (number in old(availablePins) && number !in old(allocatedPins) && direction in DIRECTIONS
               && callback.Some? && !(edge.Some? && edge.value in EDGES)) ==> r == Err(InvalidEdge)
      ensures !old(Admissible(number, direction, callback, edge)) ==>
        r.Err? && unchanged(this, fs, pollQueue)
      ensures old(Admissible(number, direction, callback, edge)) ==> AllocEffect(number, direction, callback, edge, activeLow, r)
      ensures r.Ok? ==> fresh(r.value) && r.value.callback == callback
      ensures r.Ok? ==> StageOf(number) == (if direction == INPUT then Watched else Configured)
      ensures r.Err? ==> allocatedPins == old(allocatedPins) && pollQueue.handlers == old(pollQueue.handlers)
    {
      var valid := CheckPinValidity(number);
      if valid.Fail? {
        return Err(valid.error);
      }
      if direction !in DIRECTIONS {
        return Err(InvalidDirection);
      }
      if callback.Some? && !(edge.Some? && edge.value in EDGES) {
        return Err(InvalidEdge);
      }
      r := ExportAndConstruct(number, direction, callback, edge, activeLow);
    }

    /**
     * The state after an admissible alloc_pin: the export write was issued only
     * if the line was not exported, the line's files hold the configuration,
     * the call succeeds exactly when active_low is 0 or 1, and a new pin
     * carries the arguments and is watched exactly when it is an input.
     */
    twostate predicate AllocEffect(number: int, direction: string, callback: Option<Handler>,
                                   edge: Option<string>, activeLow: int, new r: Result<Pin>)
      reads this, fs, pollQueue
    {
      && availablePins == old(availablePins)
      && LineEffect(number, direction, edge, activeLow)
      && (r.Ok? <==> activeLow in ACTIVE_LOW_MODES)
      && (r.Err? ==> r.error == InvalidActiveLow && allocatedPins == old(allocatedPins)
                     && pollQueue.handlers == old(pollQueue.handlers))
      && (r.Ok? ==>
            && allocatedPins == old(allocatedPins)[number := r.value]
            && r.value.number == number && r.value.direction == direction
            && r.value.activeLow == activeLow
            && pollQueue.handlers == old(pollQueue.handlers) + (if direction == INPUT then {number} else {}))
    }

    /**
     * The filesystem after export-if-absent and the pin's configuration: one
     * export write with the decimal text only if the line was not exported,
     * and the line's files configured.
     */
    twostate predicate LineEffect(number: int, direction: string, edge: Option<string>, activeLow: int)
      reads fs
    {
      && fs.exportWrites == old(fs.exportWrites) + (if number in old(fs.lines) then [] else [Decimal(number)])
      && fs.unexportWrites == old(fs.unexportWrites)
      && fs.lines == old(fs.lines)[number := SysfsPin.Configured(
           if number in old(fs.lines) then old(fs.lines)[number] else UNCONFIGURED,
           direction, edge, activeLow)]
    }

    /** The step of alloc_pin at sysfs/__init__.py:97-103: export the line unless its directory exists, then construct the pin. */
    method ExportAndCreate(number: int, direction: string, callback: Option<Handler>,
                           edge: Option<string>, activeLow: int)
      returns (r: Result<Pin>)
      requires Valid() && Admissible(number, direction, callback, edge)
      modifies fs
      ensures Valid()
      ensures LineEffect(number, direction, edge, activeLow)
      ensures r.Ok? <==> activeLow in ACTIVE_LOW_MODES
      ensures r.Err? ==> r.error == InvalidActiveLow
      ensures r.Ok? ==>
        && fresh(r.value) && fresh(r.value.handle) && r.value.Valid() && r.value.handle.fs == fs
        && r.value.number == number && r.value.direction == direction
        && r.value.activeLow == activeLow && r.value.callback == callback
    {
      var exported := CheckPinAlreadyExported(number);
      if !exported {
        fs.WriteExport(Decimal(number));
        ExportCreatesLine(old(fs.lines), number);
      }
      assert fs.lines.Keys == old(fs.lines).Keys + {number};
      r := Pin.Create(fs, number, direction, callback, edge, activeLow);
    }

    /** The part of alloc_pin after its checks: export, construct, register, store. */
    method ExportAndConstruct(number: int, direction: string, callback: Option<Handler>,
                              edge: Option<string>, activeLow: int)
      returns (r: Result<Pin>)
      requires Valid() && Admissible(number, direction, callback, edge)
      modifies this, fs, pollQueue
      ensures Valid()
      ensures AllocEffect(number, direction, callback, edge, activeLow, r)
      ensures r.Ok? ==> fresh(r.value) && r.value.callback == callback
    {
      var created := ExportAndCreate(number, direction, callback, edge, activeLow);
      if created.Err? {
        return Err(created.error);
      }
      var pin := created.value;
      if direction == INPUT {
        PollQueueRegisterPin(pin);
      }
      allocatedPins := allocatedPins[number := pin];
      r := Ok(pin);
    }

    /**
     * _poll_queue_register_pin as written: its event mask names `io_loop`,
     * which this module never binds, so the call raises NameError before
     * add_handler is reached.
     */
    method PollQueueRegisterPinAsWritten(pin: Pin) returns (r: Outcome)
      ensures r == Fail(UnboundName)
    {
      r := Fail(UnboundName);
    }

    /**
     * alloc_pin as written, with the registration above. A rejected request
     * changes nothing and output pins behave as in AllocPin. An admissible
     * input request exports and configures the line, then fails at
     * registration, so the pin never enters the map and the loop never
     * watches it; a retry takes the same path.
     */
    method AllocPinAsWritten(number: int, direction: string, callback: Option<Handler>,
                             edge: Option<string>, activeLow: int)
      returns (r: Result<Pin>)
      requires Valid()
      modifies this, fs, pollQueue
      ensures Valid()
      ensures !old(Admissible(number, direction, callback, edge)) ==>
        r.Err? && unchanged(this, fs, pollQueue)
      ensures old(Admissible(number, direction, callback, edge)) ==>
        AllocEffectAsWritten(number, direction, callback, edge, activeLow, r)
    {
      var valid := CheckPinValidity(number);
      if valid.Fail? {
        return Err(valid.error);
      }
      if direction !in DIRECTIONS {
        return Err(InvalidDirection);
      }
      if callback.Some? && !(edge.Some? && edge.value in EDGES) {
        return Err(InvalidEdge);
      }
      r := ExportAndConstructAsWritten(number, direction, callback, edge, activeLow);
    }

    /**
     * The state after an admissible alloc_pin as written: an output pin gets
     * AllocEffect; an input pin's line is exported and configured, but the
     * call fails (with NameError when active_low is valid), the map and the
     * loop are unchanged and the number stays unallocated.
     */
    twostate predicate AllocEffectAsWritten(number: int, direction: string, callback: Option<Handler>,
                                            edge: Option<string>, activeLow: int, new r: Result<Pin>)
      reads this, fs, pollQueue
    {
      if direction != INPUT then AllocEffect(number, direction, callback, edge, activeLow, r)
      else
        && availablePins == old(availablePins)
        && LineEffect(number, direction, edge, activeLow)
        && r.Err?
        && r.error == (if activeLow in ACTIVE_LOW_MODES then UnboundName else InvalidActiveLow)
        && allocatedPins == old(allocatedPins)
        && pollQueue.handlers == old(pollQueue.handlers)
        && StageOf(number) == Unallocated
    }

    /** The part of alloc_pin after its checks (sysfs/__init__.py:97-109), as written. */
    method ExportAndConstructAsWritten(number: int, direction: string, callback: Option<Handler>,
                                       edge: Option<string>, activeLow: int)
      returns (r: Result<Pin>)
      requires Valid() && Admissible(number, direction, callback, edge)
      modifies this, fs, pollQueue
      ensures Valid()
      ensures AllocEffectAsWritten(number, direction, callback, edge, activeLow, r)
    {
      var created := ExportAndCreate(number, direction, callback, edge, activeLow);
      if created.Err? {
        return Err(created.error);
      }
      var pin := created.value;
      if direction == INPUT {
        var registered := PollQueueRegisterPinAsWritten(pin);
        if registered.Fail? {
          return Err(registered.error);
        }
      }
      allocatedPins := allocatedPins[number := pin];
      r := Ok(pin);
    }

    /**
     * dealloc_pin(number): an unallocated number is rejected; otherwise the
     * number is written to unexport, an input pin stops being watched, and
     * exactly that key leaves the map.
     */
    method DeallocPin(number: int) returns (r: Outcome)
      requires Valid()
      modifies this, fs, pollQueue
      ensures Valid()
      ensures availablePins == old(availablePins)
      ensures number !in old(allocatedPins) ==> r == Fail(PinNotAllocated) && unchanged(this, fs, pollQueue)
      ensures number in old(allocatedPins) ==>
        && r == Pass
        && allocatedPins == old(allocatedPins) - {number}
        && fs.unexportWrites == old(fs.unexportWrites) + [Decimal(number)]
        && fs.exportWrites == old(fs.exportWrites)
        && fs.lines == old(fs.lines) - {number}
        && pollQueue.handlers == old(pollQueue.handlers) - {number}
        && StageOf(number) == Unallocated
    {
      if number !in allocatedPins {
        return Fail(PinNotAllocated);
      }
      fs.WriteUnexport(Decimal(number));
      UnexportRemovesLine(old(fs.lines), number);
      var pin := allocatedPins[number];
      if pin.direction == INPUT {
        PollQueueUnregisterPin(pin);
      }
      allocatedPins := allocatedPins - {number};
      r := Pass;
    }

    /** get_pin(number): a plain dictionary lookup. */
    method GetPin(number: int) returns (r: Result<Pin>)
      ensures number in allocatedPins ==> r == Ok(allocatedPins[number])
      ensures number !in allocatedPins ==> r == Err(MissingKey)
    {
      if number !in allocatedPins {
        return Err(MissingKey);
      }
      r := Ok(allocatedPins[number]);
    }

    /** set_pin(number): drives an allocated pin high. */
    method SetPin(number: int) returns (r: Outcome)
      requires Valid()
      modifies fs, Handles()
      ensures Valid()
      ensures number !in allocatedPins ==> r == Fail(PinNotAllocated) && unchanged(fs)
      ensures number in allocatedPins ==>
        r == Pass && fs.lines == old(fs.lines)[number := old(fs.lines)[number].With(Paths.Value, SYSFS_GPIO_VALUE_HIGH)]
      ensures fs.exportWrites == old(fs.exportWrites) && fs.unexportWrites == old(fs.unexportWrites)
    {
      if number !in allocatedPins {
        return Fail(PinNotAllocated);
      }
      r := allocatedPins[number].Set();
    }

    /** reset_pin(number): drives an allocated pin low. */
    method ResetPin(number: int) returns (r: Outcome)
      requires Valid()
      modifies fs, Handles()
      ensures Valid()
      ensures number !in allocatedPins ==> r == Fail(PinNotAllocated) && unchanged(fs)
      ensures number in allocatedPins ==>
        r == Pass && fs.lines == old(fs.lines)[number := old(fs.lines)[number].With(Paths.Value, SYSFS_GPIO_VALUE_LOW)]
      ensures fs.exportWrites == old(fs.exportWrites) && fs.unexportWrites == old(fs.unexportWrites)
    {
      if number !in allocatedPins {
        return Fail(PinNotAllocated);
      }
      r := allocatedPins[number].Reset();
    }

    /**
     * get_pin_state(number): for an allocated pin, an input pin is first
     * removed from the event loop (and not put back), then the value is read;
     * the result is whether it is positive.
     */
    method GetPinState(number: int) returns (r: Result<bool>)
      requires Valid()
      modifies pollQueue, Handles()
      ensures Valid()
      ensures number !in allocatedPins ==> r == Err(PinNotAllocated) && unchanged(pollQueue)
      ensures number in allocatedPins ==>
        && pollQueue.handlers == old(pollQueue.handlers) - {number}
        && StageOf(number) != Watched
        && r == match ParseInt(fs.lines[number].value)
                case Some(v) => Ok(v > 0)
                case None => Err(NotAnInteger)
    {
      if number !in allocatedPins {
        return Err(PinNotAllocated);
      }
      var pin := allocatedPins[number];
      if pin.direction == INPUT {
        PollQueueUnregisterPin(pin);
      }
      var value := pin.Read();
      if value.Err? {
        return Err(value.error);
      }
      if value.value <= 0 {
        return Ok(false);
      } else {
        return Ok(true);
      }
    }
  }
}
