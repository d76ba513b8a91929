/** One GPIO line: its configuration writes and the persistent value file. */
module SysfsPin {
  import opened Results
  import opened DecimalText
  import opened Paths
  import opened Environment

  const SYSFS_GPIO_VALUE_LOW: string := "0"
  const SYSFS_GPIO_VALUE_HIGH: string := "1"

  const ACTIVE_LOW_ON: int := 1
  const ACTIVE_LOW_OFF: int := 0
  const ACTIVE_LOW_MODES: seq<int> := [ACTIVE_LOW_ON, ACTIVE_LOW_OFF]

  /** Python truthiness of the optional edge argument: given and non-empty. */
  predicate Truthy(edge: Option<string>) {
    edge.Some? && edge.value != ""
  }

  /**
   * A line's files after the constructor's configuration writes: the direction
   * always, the edge when it is truthy, and str(active_low) when active_low is
   * nonzero and one of ACTIVE_LOW_MODES.
   */
  function Configured(f: LineFiles, direction: string, edge: Option<string>, activeLow: int): (r: LineFiles)
    ensures r.direction == direction && r.value == f.value
    ensures r.edge == if Truthy(edge) then edge.value else f.edge
    ensures r.activeLow == if activeLow == ACTIVE_LOW_ON then "1" else f.activeLow
  {
    var withDirection := f.With(Direction, direction);
    var withEdge := if Truthy(edge) then withDirection.With(Edge, edge.value) else withDirection;
    if activeLow != 0 && activeLow in ACTIVE_LOW_MODES then withEdge.With(ActiveLow, Decimal(activeLow))
    else withEdge
  }

  /** int(text) with its ValueError. */
  function ParsedValue(text: string): Result<int> {
    match ParseInt(text)
    case Some(v) => Ok(v)
    case None => Err(NotAnInteger)
  }

  /** A consumer of pin changes; it keeps every (pin, value) it is called with. */
  class Handler {
    var calls: seq<(Pin, int)>

    constructor ()
      ensures calls == []
    {
      calls := [];
    }

    method Call(pin: Pin, state: int)
      modifies this
      ensures calls == old(calls) + [(pin, state)]
    {
      calls := calls + [(pin, state)];
    }
  }

  class Pin {
    const number: int
    const direction: string
    const activeLow: int
    var callback: Option<Handler>
    /** The value file, opened once and kept for the pin's lifetime. */
    const handle: ValueFile

    /** The handle belongs to this pin's line and sits at offset 0 between operations. */
    ghost predicate Valid()
      reads handle
    {
      handle.number == number && handle.offset == 0
    }

    /** What a call of changed() may touch: the callback, when there is one. */
    ghost function Listeners(): set<object>
      reads this
    {
      if callback.Some? then {callback.value} else {}
    }

    /** The field assignments and the open() of the value file. */
    constructor (fs: Sysfs, number: int, direction: string, callback: Option<Handler>, activeLow: int)
      ensures this.number == number && this.direction == direction
      ensures this.activeLow == activeLow && this.callback == callback
      ensures fresh(handle) && handle.fs == fs && Valid()
    {
      this.number := number;
      this.direction := direction;
      this.callback := callback;
      this.activeLow := activeLow;
      handle := new ValueFile(fs, number);
    }

    /**
     * Pin(number, direction, callback, edge, active_low): opens the value file
     * (which must exist), rejects a callback without an edge, then writes the
     * direction, the edge if truthy, and active_low if nonzero, rejecting an
     * active_low outside {0, 1} after the first two writes.
     */
    static method Create(fs: Sysfs, number: int, direction: string, callback: Option<Handler>,
                         edge: Option<string>, activeLow: int)
      returns (r: Result<Pin>)
      modifies fs
      ensures fs.exportWrites == old(fs.exportWrites) && fs.unexportWrites == old(fs.unexportWrites)
      ensures number !in old(fs.lines) ==> r == Err(NoSuchFile) && fs.lines == old(fs.lines)
      ensures number in old(fs.lines) && callback.Some? && !Truthy(edge) ==>
        r == Err(MissingEdge) && fs.lines == old(fs.lines)
      ensures number in old(fs.lines) && (callback.Some? ==> Truthy(edge)) ==>
        && fs.lines == old(fs.lines)[number := Configured(old(fs.lines)[number], direction, edge, activeLow)]
        && (r.Ok? <==> activeLow in ACTIVE_LOW_MODES)
        && (r.Err? ==> r.error == InvalidActiveLow)
      ensures r.Ok? ==>
        && fresh(r.value) && fresh(r.value.handle) && r.value.Valid() && r.value.handle.fs == fs
        && r.value.number == number && r.value.direction == direction
        && r.value.activeLow == activeLow && r.value.callback == callback
    {
      if number !in fs.lines {
        return Err(NoSuchFile);
      }
      var pin := new Pin(fs, number, direction, callback, activeLow);
      if callback.Some? && !Truthy(edge) {
        return Err(MissingEdge);
      }
      fs.Store(number, Direction, direction);
      if Truthy(edge) {
        fs.Store(number, Edge, edge.value);
      }
      if activeLow != 0 {
        if activeLow !in ACTIVE_LOW_MODES {
          return Err(InvalidActiveLow);
        }
        fs.Store(number, ActiveLow, Decimal(activeLow));
      }
      return Ok(pin);
    }

    /** The callback setter: replaces the callback and nothing else. */
    method SetCallback(value: Option<Handler>)
      modifies this
      ensures callback == value
    {
      callback := value;
    }

    /** Drives the line high: stores "1" through the handle, then seeks back to 0. */
    method Set() returns (r: Outcome)
      requires Valid()
      modifies handle, handle.fs
      ensures Valid()
      ensures r == (if number in old(handle.fs.lines) then Pass else Fail(NoSuchFile))
      ensures handle.fs.lines == WithValue(old(handle.fs.lines), number, SYSFS_GPIO_VALUE_HIGH)
      ensures handle.fs.exportWrites == old(handle.fs.exportWrites)
      ensures handle.fs.unexportWrites == old(handle.fs.unexportWrites)
    {
      r := handle.Write(SYSFS_GPIO_VALUE_HIGH);
      if r.Fail? {
        return;
      }
      handle.Seek(0);
    }

    /** Drives the line low: stores "0" through the handle, then seeks back to 0. */
    method Reset() returns (r: Outcome)
      requires Valid()
      modifies handle, handle.fs
      ensures Valid()
      ensures r == (if number in old(handle.fs.lines) then Pass else Fail(NoSuchFile))
      ensures handle.fs.lines == WithValue(old(handle.fs.lines), number, SYSFS_GPIO_VALUE_LOW)
      ensures handle.fs.exportWrites == old(handle.fs.exportWrites)
      ensures handle.fs.unexportWrites == old(handle.fs.unexportWrites)
    {
      r := handle.Write(SYSFS_GPIO_VALUE_LOW);
      if r.Fail? {
        return;
      }
      handle.Seek(0);
    }

    /** int() of the whole value text, read through the handle, which is left at offset 0. */
    method Read() returns (r: Result<int>)
      requires Valid()
      modifies handle
      ensures Valid()
      ensures r == if number in handle.fs.lines then ParsedValue(handle.fs.lines[number].value)
                   else Err(NoSuchFile)
    {
      var text := handle.Read();
      if text.Err? {
        return Err(text.error);
      }
      handle.Seek(0);
      r := ParsedValue(text.value);
    }

    /** Passes (this pin, state) to the callback, once, if there is one. */
    method Changed(state: int)
      modifies Listeners()
      ensures callback.Some? ==> callback.value.calls == old(callback.value.calls) + [(this, state)]
    {
      if callback.Some? {
        callback.value.Call(this, state);
      }
    }
  }

  /** set() then read() on an exported line observes 1, and the handle is back at 0. */
  method SetThenRead(pin: Pin) returns (r: Result<int>)
    requires pin.Valid() && pin.number in pin.handle.fs.lines
    modifies pin.handle, pin.handle.fs
    ensures pin.Valid() && r == Ok(1)
  {
    var _ := pin.Set();
    r := pin.Read();
    DecimalRoundTrip(1);
  }

  /** reset() then read() on an exported line observes 0, and the handle is back at 0. */
  method ResetThenRead(pin: Pin) returns (r: Result<int>)
    requires pin.Valid() && pin.number in pin.handle.fs.lines
    modifies pin.handle, pin.handle.fs
    ensures pin.Valid() && r == Ok(0)
  {
    var _ := pin.Reset();
    r := pin.Read();
    DecimalRoundTrip(0);
  }
}
