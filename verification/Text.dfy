/** Decimal printing, and splitting text at a separator. */
module Text {
  import opened Jobs

  function Digit(d: nat): char
    requires d < 10
  {
    "0123456789"[d]
  }

  /** Go's %d and strconv.Itoa on a non-negative int. */
  function Decimal(n: nat): (s: string)
    ensures |s| > 0
    ensures forall c <- s :: '0' <= c <= '9'
    decreases n
  {
    if n < 10 then [Digit(n)] else Decimal(n / 10) + [Digit(n % 10)]
  }

  /** The value of a non-empty string of digits. */
  function ParseDecimal(s: string): Option<nat>
    decreases |s|
  {
    if |s| == 0 then None
    else
      var n, last := |s| - 1, s[|s| - 1];
      if !('0' <= last <= '9') then None
      else if n == 0 then Some(last as nat - '0' as nat)
      else
        match ParseDecimal(s[..n])
        case None => None
        case Some(high) => Some(10 * high + (last as nat - '0' as nat))
  }

  lemma DigitValue(d: nat)
    requires d < 10
    ensures '0' <= Digit(d) <= '9' && Digit(d) as nat - '0' as nat == d
  {
  }

  lemma {:induction false} ParsePrinted(n: nat)
    ensures ParseDecimal(Decimal(n)) == Some(n)
    decreases n
  {
    if n < 10 {
      DigitValue(n);
    } else {
      DigitValue(n % 10);
      ParsePrinted(n / 10);
      var s := Decimal(n);
      assert s[..|s| - 1] == Decimal(n / 10);
    }
  }

  lemma DecimalInjective(a: nat, b: nat)
    requires Decimal(a) == Decimal(b)
    ensures a == b
  {
    ParsePrinted(a);
    ParsePrinted(b);
  }

  lemma NotADigit(n: nat, c: char)
    requires c < '0' || c > '9'
    ensures c !in Decimal(n)
  {
  }

  /** strings.Split at a single character. */
  function Split(s: string, sep: char): (parts: seq<string>)
    ensures |parts| > 0
    ensures forall p <- parts :: sep !in p
    decreases |s|
  {
    if |s| == 0 then [""]
    else
      var rest := Split(s[1..], sep);
      if s[0] == sep then [""] + rest else [[s[0]] + rest[0]] + rest[1..]
  }

  /** strings.Join with a single character. */
  function Join(parts: seq<string>, sep: char): string
    decreases |parts|
  {
    if |parts| == 0 then ""
    else if |parts| == 1 then parts[0]
    else parts[0] + [sep] + Join(parts[1..], sep)
  }

  lemma {:induction false} SplitWhole(s: string, sep: char)
    requires sep !in s
    ensures Split(s, sep) == [s]
    decreases |s|
  {
    if |s| > 0 {
      SplitWhole(s[1..], sep);
      assert s == [s[0]] + s[1..];
    }
  }

  lemma {:induction false} SplitLine(line: string, rest: string, sep: char)
    requires sep !in line
    ensures Split(line + [sep] + rest, sep) == [line] + Split(rest, sep)
    decreases |line|
  {
    var s := line + [sep] + rest;
    if |line| == 0 {
      assert s[1..] == rest;
    } else {
      assert s[1..] == line[1..] + [sep] + rest;
      SplitLine(line[1..], rest, sep);
      assert line == [line[0]] + line[1..];
    }
  }

  lemma {:induction false} SplitJoined(parts: seq<string>, sep: char)
    requires |parts| > 0 && forall p <- parts :: sep !in p
    ensures Split(Join(parts, sep), sep) == parts
    decreases |parts|
  {
    if |parts| == 1 {
      SplitWhole(parts[0], sep);
      assert parts == [parts[0]];
    } else {
      SplitLine(parts[0], Join(parts[1..], sep), sep);
      SplitJoined(parts[1..], sep);
      assert parts == [parts[0]] + parts[1..];
    }
  }
}
