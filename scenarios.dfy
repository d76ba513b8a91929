/** Client runs of the registry, proved from the contracts alone. */
module Scenarios {
  import opened Results
  import opened DecimalText
  import opened Environment
  import opened SysfsPin
  import opened SysfsGpio

  /** A second alloc_pin of the same number, with no dealloc_pin between, is refused. */
  method AllocTwice() {
    var fs := new Sysfs(map[]);
    var loop := new IOLoop();
    var gpio := new Gpio(loop, fs, {3});
    var first := gpio.AllocPin(3, OUTPUT, None, None, 0);
    assert first.Ok?;
    var second := gpio.AllocPin(3, OUTPUT, None, None, 0);
    assert second == Err(PinAlreadyAllocated);
    var gone := gpio.DeallocPin(3);
    assert gone == Pass;
    var third := gpio.AllocPin(3, OUTPUT, None, None, 0);
    assert third.Ok?;
  }

  /** An already exported line is not exported again: the export file is written once. */
  method ExportOnce() {
    var fs := new Sysfs(map[7 := UNCONFIGURED]);
    var loop := new IOLoop();
    var gpio := new Gpio(loop, fs, {7, 8});
    var p7 := gpio.AllocPin(7, OUTPUT, None, None, 0);
    assert p7.Ok? && fs.exportWrites == [];
    var p8 := gpio.AllocPin(8, OUTPUT, None, None, 0);
    assert p8.Ok? && fs.exportWrites == [Decimal(8)];
  }

  /**
   * alloc_pin(5, INPUT, cb, BOTH); the line then reads "1" and the event loop
   * reports it: cb is called exactly once, with (pin, 1).
   */
  method EdgeNotification() {
    var fs := new Sysfs(map[]);
    var loop := new IOLoop();
    var gpio := new Gpio(loop, fs, {5});
    var cb := new Handler();
    var alloc := gpio.AllocPin(5, INPUT, Some(cb), Some(BOTH), 0);
    assert alloc.Ok?;
    var pin := alloc.value;
    assert 5 in loop.handlers;
    fs.lines := fs.lines[5 := fs.lines[5].(value := "1")];
    DecimalRoundTrip(1);
    var r := gpio.PollQueueEvent(pin);
    assert r == Pass;
    assert cb.calls == [(pin, 1)];
  }

  /** A callback without an edge is refused, and so is dealloc_pin of a number never allocated. */
  method Refusals() {
    var fs := new Sysfs(map[]);
    var loop := new IOLoop();
    var gpio := new Gpio(loop, fs, {2});
    var cb := new Handler();
    var noEdge := gpio.AllocPin(2, INPUT, Some(cb), None, 0);
    assert noEdge == Err(InvalidEdge) && fs.exportWrites == [];
    var offBus := gpio.AllocPin(9, INPUT, None, None, 0);
    assert offBus == Err(InvalidPin);
    var never := gpio.DeallocPin(2);
    assert never == Fail(PinNotAllocated);
    var badActiveLow := gpio.AllocPin(2, OUTPUT, None, None, 2);
    assert badActiveLow == Err(InvalidActiveLow) && 2 !in gpio.allocatedPins;
    assert fs.lines[2].direction == OUTPUT && fs.exportWrites == [Decimal(2)];
  }

  /**
   * With the registration as written, alloc_pin(5, INPUT, cb, BOTH) fails with
   * NameError after exporting and configuring line 5, and so does every retry:
   * pin 5 is never allocated nor watched, and nothing ever calls cb.
   */
  method InputAllocAsWritten() {
    var fs := new Sysfs(map[]);
    var loop := new IOLoop();
    var gpio := new Gpio(loop, fs, {5});
    var cb := new Handler();
    var first := gpio.AllocPinAsWritten(5, INPUT, Some(cb), Some(BOTH), 0);
    assert first == Err(UnboundName);
    assert 5 in fs.lines && fs.lines[5].direction == INPUT && fs.exportWrites == [Decimal(5)];
    var retry := gpio.AllocPinAsWritten(5, INPUT, Some(cb), Some(BOTH), 0);
    assert retry == Err(UnboundName);
    assert gpio.allocatedPins == map[] && loop.handlers == {} && cb.calls == [];
    var output := gpio.AllocPinAsWritten(5, OUTPUT, None, None, 0);
    assert output.Ok? && gpio.StageOf(5) == Configured;
  }
}
