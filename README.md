# GPIO sysfs pin registry — a Dafny model

This project models the core of a small Linux GPIO poller: the pin registry
`Gpio` (`sysfs/__init__.py`) and the pin object `Pin` (`sysfs/pin.py`). The
registry validates allocation requests, exports a line through
`/sys/class/gpio/export` unless its `gpioN` directory already exists, builds and
configures a `Pin`, registers input pins with the event loop, and keeps the
allocated pins in a map keyed by number. A `Pin` writes its direction, edge and
active-low configuration, keeps its value file open for its whole life, drives or
reads the line through that handle (seeking back to offset 0 after each
operation), and forwards changes to an optional callback.

Modules, leaf first:

- `Results` (results.dfy): `Option`, `Result`, `Outcome` and the `Error` kinds the
  layer raises.
- `DecimalText` (decimal.dfy): the text of `'%d' % n` and the parse done by
  `int(text)`, with the round trip `int('%d' % n) == n`.
- `Paths` (paths.dfy): the sysfs path constants and helpers, with their format
  and injectivity.
- `Environment` (environment.dfy): what the layer talks to. `Sysfs` holds the
  exported lines (line n is present exactly when the directory `gpioN` exists)
  with the text of their `direction`, `edge`, `active_low` and `value` files, and
  the logs of what was written to `export` and `unexport`. The kernel's reaction
  to those two writes is modelled: it parses the text and adds the line (with
  the files `in`, `none`, `0`, `0`) or removes it. `ValueFile` is the open value
  file with its offset. `IOLoop` is the event loop's handler table, a set of pin
  numbers.
- `SysfsPin` (pin.dfy): class `Pin`, and class `Handler`, which stands for the
  callback and records each `(pin, value)` it is called with.
- `SysfsGpio` (gpio.dfy): class `Gpio` with fields `availablePins`,
  `allocatedPins: map<int, Pin>`, the shared `IOLoop` and the `Sysfs`. Its
  invariant `Valid()` says that every allocated pin is stored under its own
  number, uses the registry's filesystem, has its handle at offset 0 and its
  line exported. It also says that every number the loop watches is an
  allocated input pin. `StageOf(n)` gives the pin's lifecycle stage:
  unallocated, configured, or watched.
- `Scenarios` (scenarios.dfy): client runs proved from the contracts alone:
  a second allocation of a number is refused; an already exported line is not
  exported again; an edge event on pin 5 reading `"1"` calls the callback once
  with `(pin, 1)`; the error cases; and the failure of input allocation as
  written (see Findings).

The model follows the code on these points. `get_pin` fails with a plain
`KeyError` (`MissingKey`), not with the "not allocated" error of the other
lookups. `dealloc_pin` does not close the pin's value file; it only drops the
reference. `read()` returns whatever integer `int()` parses, although its
docstring (sysfs/pin.py:147-148) says 0 or 1. The edge file is written whenever
the edge argument is truthy, not only when it is one of the three edges.
`get_pin_state` unwatches an input pin for good.

## Model

| member | source | states |
|---|---|---|
| DecimalText.Decimal | sysfs/__init__.py:99 | `'%d' % n` is non-empty, made of digits and a minus sign, ending in a digit, and starts with `-` exactly when n is negative |
| DecimalText.NatDigitsValue | sysfs/pin.py:152 | the digits of a natural number, read back in base ten, give that number |
| DecimalText.DecimalRoundTrip | sysfs/pin.py:152 | `int('%d' % n) == n` for every integer n, so the text written to export/unexport names exactly the line meant |
| DecimalText.DecimalInjective | sysfs/__init__.py:201 | different numbers have different decimal texts |
| Paths.GpioPathInjective | sysfs/__init__.py:192-202 | different numbers have different `gpio%d` directories, so the exported check looks at this line only |
| Paths.AttrPathInjective | sysfs/pin.py:31-37 | no two (number, attribute) pairs share a file path |
| Paths.AttrPathShape | sysfs/pin.py:167-201 | each path helper yields `/sys/class/gpio/gpio`, then text that reads back as the number, then `/value`, `/direction`, `/edge` or `/active_low` |
| Environment.ExportCreatesLine | sysfs/__init__.py:97-99 | writing `'%d' % n` to export adds line n and leaves every other line's files as they were |
| Environment.UnexportRemovesLine | sysfs/__init__.py:118-119 | writing `'%d' % n` to unexport removes exactly line n |
| SysfsPin.Configured | sysfs/pin.py:81-92 | after configuration, the direction file holds the direction; the edge file holds the edge only if the edge is truthy; the active_low file holds "1" when active_low is 1 and otherwise keeps its previous text; the value file is untouched |
| SysfsPin.Pin.constructor | sysfs/pin.py:71-76 | the fields hold the arguments and a fresh handle on this line's value file sits at offset 0 |
| SysfsPin.Pin.Create | sysfs/pin.py:56-92 | fails with no change if the value file does not exist, then with no change if a callback comes without a truthy edge; otherwise writes the configuration and succeeds exactly when active_low is 0 or 1, and the failure for a bad active_low comes after the direction and edge writes; number, direction, active_low and callback read back as given |
| SysfsPin.Pin.SetCallback | sysfs/pin.py:101-106 | replaces the callback and nothing else |
| SysfsPin.Pin.Set | sysfs/pin.py:129-134 | stores "1" in the line's value file, leaves the handle at offset 0, and changes no other file; fails once the line is unexported |
| SysfsPin.Pin.Reset | sysfs/pin.py:136-141 | stores "0" in the line's value file, leaves the handle at offset 0, and changes no other file; fails once the line is unexported |
| SysfsPin.Pin.Read | sysfs/pin.py:143-152 | returns `int()` of the whole value text, or its ValueError; the handle is left at offset 0 and no file changes |
| SysfsPin.Pin.Changed | sysfs/pin.py:163-165 | with a callback, appends exactly one call `(this pin, state)` to it; without one, changes nothing |
| SysfsPin.SetThenRead | sysfs/pin.py:129-152 | `set()` then `read()` on an exported line returns 1 |
| SysfsPin.ResetThenRead | sysfs/pin.py:136-152 | `reset()` then `read()` on an exported line returns 0 |
| SysfsGpio.Gpio.constructor | sysfs/__init__.py:66-73 | a new registry allocates nothing, keeps the given pins, loop and filesystem, and satisfies the invariant |
| SysfsGpio.Gpio.WatchedOnlyInputs | sysfs/__init__.py:105-106 | a corollary of the registry invariant, which every mutating method preserves: a watched number is always an allocated input pin, so output pins are never watched |
| SysfsGpio.Gpio.CheckPinValidity | sysfs/__init__.py:205-219 | passes exactly when the number is available and not allocated; the availability failure is reported first |
| SysfsGpio.Gpio.CheckPinAlreadyExported | sysfs/__init__.py:192-202 | true exactly when the line's directory exists |
| SysfsGpio.Gpio.AllocPin | sysfs/__init__.py:83-109 | checks in order: invalid pin, then already allocated, then bad direction, then bad edge with a callback. A rejected call changes nothing. An admissible call issues the export write with the decimal text only if the line was not exported, configures the line, and succeeds exactly when active_low is 0 or 1. On success the map gains exactly `number ↦ pin`, the loop watches the pin exactly when it is an input, and the invariant holds |
| SysfsGpio.Gpio.ExportAndCreate | sysfs/__init__.py:97-103 | the export write with the decimal text is issued only if the line's directory did not exist; the line's files then hold the configuration, and a fresh pin carrying the arguments comes back exactly when active_low is 0 or 1 |
| SysfsGpio.Gpio.ExportAndConstruct | sysfs/__init__.py:97-109 | the part of alloc_pin after the checks: export-if-absent, construction, registration of input pins and storage, with the same effect as above |
| SysfsGpio.Gpio.PollQueueRegisterPinAsWritten | sysfs/__init__.py:174-177 | registration as written: it fails with NameError and the loop watches nothing new |
| SysfsGpio.Gpio.AllocPinAsWritten | sysfs/__init__.py:83-109 | alloc_pin as written: the same checks and output behaviour as AllocPin, but an admissible input request exports and configures the line and then fails, leaving the number unallocated and unwatched |
| SysfsGpio.Gpio.ExportAndConstructAsWritten | sysfs/__init__.py:97-109 | the part of alloc_pin as written after the checks, with the effect just stated |
| SysfsGpio.Gpio.DeallocPin | sysfs/__init__.py:112-126 | an unallocated number fails with nothing changed; otherwise the decimal text is written to unexport, the line is gone, the loop no longer watches the number, exactly that key leaves the map, and the invariant holds |
| SysfsGpio.Gpio.GetPin | sysfs/__init__.py:129-132 | returns the stored pin, or the KeyError of the lookup |
| SysfsGpio.Gpio.SetPin | sysfs/__init__.py:135-141 | fails on an unallocated number; otherwise the pin's value file holds "1" and nothing else changes |
| SysfsGpio.Gpio.ResetPin | sysfs/__init__.py:144-150 | fails on an unallocated number; otherwise the pin's value file holds "0" and nothing else changes |
| SysfsGpio.Gpio.GetPinState | sysfs/__init__.py:153-169 | fails on an unallocated number; otherwise returns whether `int()` of the value is positive, and the pin is no longer watched afterwards |
| SysfsGpio.Gpio.PollQueueRegisterPin | sysfs/__init__.py:174-177 | the loop watches the pin's number in addition to what it watched before |
| SysfsGpio.Gpio.PollQueueUnregisterPin | sysfs/__init__.py:180-181 | the loop stops watching the pin's number and nothing else |
| SysfsGpio.Gpio.PollQueueEvent | sysfs/__init__.py:184-189 | reads the pin once and, when the value parses, passes exactly that value to the callback, once; when the read fails, the callback is not called |

## Left out

- main.py: configuration files, argument parsing, signal handlers, the JSON POST in `io_callback` and the start of the loop. This is process and network plumbing; the callback is reduced to `Handler`, which records its calls.
- Real file access: `open`, `os.path.isdir` and file descriptors, including `Pin.fileno()` (sysfs/pin.py:154-161). The filesystem is the `Sysfs` state described above. Its defaults for a freshly exported line are an assumption about the kernel, and a store to the value file replaces its text.
- Tornado internals: epoll flags, `EPOLL_TIMEOUT`, and the fallback to `IOLoop.current()` when no loop is given (sysfs/__init__.py:67-69). The loop is a set of watched numbers; the model passes the loop in.
- SysfsGpio.Gpio.constructor: requires a loop with no handlers. The loop is modelled as this registry's own table of pin numbers, so a handler it did not add would have no meaning here.
- `direction is INPUT` (sysfs/__init__.py:105 and 123) is modelled as string equality, as at line 161.
- Logging, the `available_pins` property and its setter (sysfs/__init__.py:75-81), and the mutable default argument: they carry no behaviour here.
- I/O write failures, the kernel refusing an export, concurrent processes on the same line, and the failure points inside `dealloc_pin` (between the unexport and removing the map entry) are not modelled.
- SysfsPin.Pin.Set, SysfsPin.Pin.Reset, SysfsPin.Pin.Read: a write or read through a handle whose line has been unexported is modelled as failing with `NoSuchFile`, and the offset is left where it was; the exact OS error and buffering are not modelled.
- DecimalText.ParseInt: Python `int()` also accepts underscores between digits and non-ASCII digits and whitespace; the model accepts ASCII only.
- Dynamic typing: direction and edge are strings, the callback is either present or absent, and active_low is an integer. A boolean active_low (which Python would write as "True") and non-callable callbacks are not modelled.

## Findings

| source | as written | input that shows it | evidently intended | confidence | as-written member | corrected member |
|---|---|---|---|---|---|---|
| sysfs/__init__.py:177 | the event mask is `io_loop.READ\|io_loop._EPOLLET`, and `io_loop` is not bound in the module, so registration raises `NameError` after the line is exported and the pin is constructed, before the map entry is made | `alloc_pin(5, 'in', cb, 'both')` on a registry whose available pins include 5: it fails, and so does every retry; line 5 stays exported and configured, and the pin is never allocated or watched (`Scenarios.InputAllocAsWritten`) | register the pin with the loop's own read and edge-triggered flags (the mask on the `poll_queue` object) | not executed; high, since the module's imports bind only `os`, `logging`, `partial`, `IOLoop` and `Pin` | SysfsGpio.Gpio.AllocPinAsWritten | SysfsGpio.Gpio.AllocPin |
