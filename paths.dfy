/** The sysfs locations the registry and the pins address. */
module Paths {
  import opened Results
  import opened DecimalText

  const SYSFS_BASE_PATH: string := "/sys/class/gpio"
  const SYSFS_EXPORT_PATH: string := SYSFS_BASE_PATH + "/export"
  const SYSFS_UNEXPORT_PATH: string := SYSFS_BASE_PATH + "/unexport"

  /** Everything before the number in SYSFS_GPIO_PATH % number. */
  const GPIO_PREFIX: string := SYSFS_BASE_PATH + "/gpio"

  /** The four per-line attribute files a pin reads or writes. */
  datatype Attribute = Value | Direction | Edge | ActiveLow

  function FileName(a: Attribute): string {
    match a
    case Value => "value"
    case Direction => "direction"
    case Edge => "edge"
    case ActiveLow => "active_low"
  }

  /** SYSFS_GPIO_PATH % number: the line's directory, whose presence means "exported". */
  function GpioPath(number: int): string {
    GPIO_PREFIX + Decimal(number)
  }

  /** The path helpers of a pin: the directory followed by the attribute's file name. */
  function AttrPath(number: int, a: Attribute): string {
    GpioPath(number) + "/" + FileName(a)
  }

  lemma SlashAt(x: string, y: string)
    ensures (x + "/" + y)[|x|] == '/'
  {
  }

  lemma SplitAtSlash(x: string, y: string, x': string, y': string)
    requires forall i :: 0 <= i < |x| ==> x[i] != '/'
    requires forall i :: 0 <= i < |x'| ==> x'[i] != '/'
    requires x + "/" + y == x' + "/" + y'
    ensures x == x' && y == y'
  {
    var s := x + "/" + y;
    if |x| < |x'| {
      SlashAt(x, y);
      assert false;
    } else if |x'| < |x| {
      SlashAt(x', y');
      assert false;
    }
    assert x == s[..|x|] && y == s[|x| + 1..];
  }

  lemma DropPrefix(p: string, s: string, t: string)
    requires p + s == p + t
    ensures s == t
  {
    assert s == (p + s)[|p|..];
  }

  lemma FileNameInjective(a: Attribute, b: Attribute)
    ensures FileName(a) == FileName(b) ==> a == b
  {
  }

  /** Different lines have different directories. */
  lemma GpioPathInjective(m: int, n: int)
    ensures GpioPath(m) == GpioPath(n) ==> m == n
  {
    if GpioPath(m) == GpioPath(n) {
      assert Decimal(m) == GpioPath(m)[|GPIO_PREFIX|..];
      assert Decimal(n) == GpioPath(n)[|GPIO_PREFIX|..];
      DecimalInjective(m, n);
    }
  }

  lemma AttrPathSplit(number: int, a: Attribute)
    ensures AttrPath(number, a) == GPIO_PREFIX + (Decimal(number) + "/" + FileName(a))
    ensures AttrPath(number, a) == GPIO_PREFIX + (Decimal(number) + ("/" + FileName(a)))
  {
  }

  /**
   * No two (line, attribute) pairs share a file, so a filesystem indexed by
   * line number and attribute is indexed by path.
   */
  lemma AttrPathInjective(m: int, a: Attribute, n: int, b: Attribute)
    ensures AttrPath(m, a) == AttrPath(n, b) ==> m == n && a == b
  {
    var s, t := Decimal(m) + "/" + FileName(a), Decimal(n) + "/" + FileName(b);
    AttrPathSplit(m, a);
    AttrPathSplit(n, b);
    if AttrPath(m, a) == AttrPath(n, b) {
      DropPrefix(GPIO_PREFIX, s, t);
      SplitAtSlash(Decimal(m), FileName(a), Decimal(n), FileName(b));
      DecimalInjective(m, n);
      FileNameInjective(a, b);
    }
  }

  lemma Slices(x: string, y: string, z: string)
    ensures var s := x + (y + z);
      s[..|x|] == x && s[|x|..|x| + |y|] == y && s[|x| + |y|..] == z
  {
  }

  /**
   * Each helper yields "/sys/class/gpio/gpio", then the decimal text of the
   * number, then "/" and the attribute's file name; the text between the two
   * reads back as the number.
   */
  lemma AttrPathShape(number: int, a: Attribute)
    ensures var p := AttrPath(number, a);
      var k := |p| - |FileName(a)| - 1;
      20 < k < |p|
      && p[..20] == "/sys/class/gpio/gpio"
      && p[k..] == "/" + FileName(a)
      && ParseInt(p[20..k]) == Some(number)
  {
    var d, tail := Decimal(number), "/" + FileName(a);
    AttrPathSplit(number, a);
    Slices(GPIO_PREFIX, d, tail);
    assert GPIO_PREFIX == "/sys/class/gpio/gpio";
    DecimalRoundTrip(number);
  }
}
