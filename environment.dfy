/**
 * What the GPIO layer talks to: the sysfs GPIO interface of the kernel, an
 * open value file, and the event loop's handler table. Each is reduced to the
 * state the registry and the pins can observe.
 */
module Environment {
  import opened Results
  import opened DecimalText
  import opened Paths

  /** The text held by the four attribute files of one exported line. */
  datatype LineFiles = LineFiles(direction: string, edge: string, activeLow: string, value: string)
  {
    function Get(a: Attribute): string {
      match a
      case Value => value
      case Direction => direction
      case Edge => edge
      case ActiveLow => activeLow
    }

    /** The files after `text` is written to attribute `a`; the other three keep their text. */
    function With(a: Attribute, text: string): (f: LineFiles)
      ensures f.Get(a) == text
      ensures forall b :: b != a ==> f.Get(b) == Get(b)
    {
      match a
      case Value => this.(value := text)
      case Direction => this.(direction := text)
      case Edge => this.(edge := text)
      case ActiveLow => this.(activeLow := text)
    }
  }

  /** What a line's files hold right after the kernel exports it. */
  const UNCONFIGURED := LineFiles("in", "none", "0", "0")

  /** The kernel's reaction to `text` written to SYSFS_EXPORT_PATH. */
  function Exported(lines: map<int, LineFiles>, text: string): map<int, LineFiles> {
    match ParseInt(text)
    case Some(n) => if n in lines then lines else lines[n := UNCONFIGURED]
    case None => lines
  }

  /** The kernel's reaction to `text` written to SYSFS_UNEXPORT_PATH. */
  function Unexported(lines: map<int, LineFiles>, text: string): map<int, LineFiles> {
    match ParseInt(text)
    case Some(n) => lines - {n}
    case None => lines
  }

  /** The lines after a store of `text` into line n's value file, if it exists. */
  function WithValue(lines: map<int, LineFiles>, n: int, text: string): map<int, LineFiles> {
    if n in lines then lines[n := lines[n].With(Value, text)] else lines
  }

  /** Writing the decimal text of n to the export file exports exactly line n. */
  lemma ExportCreatesLine(lines: map<int, LineFiles>, n: int)
    ensures var after := Exported(lines, Decimal(n));
      after.Keys == lines.Keys + {n}
      && (forall m :: m in lines ==> after[m] == lines[m])
      && (n !in lines ==> after[n] == UNCONFIGURED)
  {
    DecimalRoundTrip(n);
  }

  /** Writing the decimal text of n to the unexport file removes exactly line n. */
  lemma UnexportRemovesLine(lines: map<int, LineFiles>, n: int)
    ensures Unexported(lines, Decimal(n)) == lines - {n}
  {
    DecimalRoundTrip(n);
  }

  /**
   * /sys/class/gpio. `lines` holds the exported lines: line n is in it exactly
   * when the directory GpioPath(n) exists, and lines[n].Get(a) is the text of
   * file AttrPath(n, a) (AttrPathInjective makes this indexing faithful).
   * `exportWrites` and `unexportWrites` record what was written to the two
   * control files, in order.
   */
  class Sysfs {
    var lines: map<int, LineFiles>
    var exportWrites: seq<string>
    var unexportWrites: seq<string>

    constructor (lines: map<int, LineFiles>)
      ensures this.lines == lines && exportWrites == [] && unexportWrites == []
    {
      this.lines := lines;
      exportWrites := [];
      unexportWrites := [];
    }

    /** os.path.isdir(SYSFS_GPIO_PATH % number). */
    function IsDir(number: int): bool
      reads this
    {
      number in lines
    }

    method WriteExport(text: string)
      modifies this
      ensures lines == Exported(old(lines), text)
      ensures exportWrites == old(exportWrites) + [text]
      ensures unexportWrites == old(unexportWrites)
    {
      lines := Exported(lines, text);
      exportWrites := exportWrites + [text];
    }

    method WriteUnexport(text: string)
      modifies this
      ensures lines == Unexported(old(lines), text)
      ensures unexportWrites == old(unexportWrites) + [text]
      ensures exportWrites == old(exportWrites)
    {
      lines := Unexported(lines, text);
      unexportWrites := unexportWrites + [text];
    }

    /** open(AttrPath(number, a), 'w').write(text) on an exported line. */
    method Store(number: int, a: Attribute, text: string)
      requires number in lines
      modifies this
      ensures lines == old(lines)[number := old(lines)[number].With(a, text)]
      ensures exportWrites == old(exportWrites) && unexportWrites == old(unexportWrites)
    {
      lines := lines[number := lines[number].With(a, text)];
    }
  }

  /**
   * A value file opened 'r+' and kept open: the line it belongs to and the
   * current offset. Its line's value text lives in `fs`.
   */
  class ValueFile {
    const fs: Sysfs
    const number: int
    var offset: nat

    constructor (fs: Sysfs, number: int)
      ensures this.fs == fs && this.number == number && offset == 0
    {
      this.fs := fs;
      this.number := number;
      offset := 0;
    }

    /** write(text): a store to the value attribute; fails once the line is unexported. */
    method Write(text: string) returns (r: Outcome)
      modifies this, fs
      ensures r == (if number in old(fs.lines) then Pass else Fail(NoSuchFile))
      ensures fs.lines == WithValue(old(fs.lines), number, text)
      ensures offset == if r.Pass? then old(offset) + |text| else old(offset)
      ensures fs.exportWrites == old(fs.exportWrites) && fs.unexportWrites == old(fs.unexportWrites)
    {
      if number !in fs.lines {
        return Fail(NoSuchFile);
      }
      fs.Store(number, Value, text);
      offset := offset + |text|;
      r := Pass;
    }

    /** read(): the value text from the offset to its end. */
    method Read() returns (r: Result<string>)
      modifies this
      ensures number in fs.lines ==>
        var v := fs.lines[number].value;
        r == Ok(if old(offset) <= |v| then v[old(offset)..] else "")
      ensures number !in fs.lines ==> r == Err(NoSuchFile)
      ensures offset == if r.Ok? then old(offset) + |r.value| else old(offset)
    {
      if number !in fs.lines {
        return Err(NoSuchFile);
      }
      var v := fs.lines[number].value;
      var rest := if offset <= |v| then v[offset..] else "";
      offset := offset + |rest|;
      r := Ok(rest);
    }

    method Seek(position: nat)
      modifies this
      ensures offset == position
    {
      offset := position;
    }
  }

  /**
   * The event loop's handler table, as far as the registry uses it: the pin
   * numbers whose value files are watched for edge-triggered readability.
   */
  class IOLoop {
    var handlers: set<int>

    constructor ()
      ensures handlers == {}
    {
      handlers := {};
    }

    /** add_handler(pin, callback, READ | EPOLLET). */
    method AddHandler(number: int)
      modifies this
      ensures handlers == old(handlers) + {number}
    {
      handlers := handlers + {number};
    }

    /** remove_handler(pin); removing an unknown handler is not an error. */
    method RemoveHandler(number: int)
      modifies this
      ensures handlers == old(handlers) - {number}
    {
      handlers := handlers - {number};
    }
  }
}
