/** Plain-text building blocks of the ledger format: fields separated by a
    character, files made of newline-terminated lines, and integers written
    in decimal. Each renderer comes with the parser that undoes it. */
module TextFormat {
  import opened Wrappers

  /** `s` cut at every occurrence of `sep`; like Rust's `str::split`, the
      result always has at least one field and no field contains `sep`. */
  function Split(s: string, sep: char): (fields: seq<string>)
    ensures |fields| >= 1
    ensures forall i :: 0 <= i < |fields| ==> sep !in fields[i]
    decreases |s|
  {
    if |s| == 0 then [""]
    else
      var rest := Split(s[1..], sep);
      if s[0] == sep then [""] + rest
      else [[s[0]] + rest[0]] + rest[1..]
  }

  /** The fields written one after another with `sep` between them. */
  function Join(fields: seq<string>, sep: char): string
    requires |fields| >= 1
  {
    if |fields| == 1 then fields[0] else fields[0] + [sep] + Join(fields[1..], sep)
  }

  /** Splitting a field followed by a separator yields that field first. */
  lemma {:induction false} SplitAfterField(f: string, sep: char, t: string)
    requires sep !in f
    ensures Split(f + [sep] + t, sep) == [f] + Split(t, sep)
    decreases |f|
  {
    var s := f + [sep] + t;
    if |f| == 0 {
      assert s == [sep] + t && s[1..] == t;
    } else {
      assert s[0] == f[0] && s[1..] == f[1..] + [sep] + t;
      SplitAfterField(f[1..], sep, t);
      assert [f[0]] + f[1..] == f;
    }
  }

  /** A text without the separator is a single field. */
  lemma {:induction false} SplitSingleField(f: string, sep: char)
    requires sep !in f
    ensures Split(f, sep) == [f]
    decreases |f|
  {
    if |f| > 0 {
      SplitSingleField(f[1..], sep);
      assert [f[0]] + f[1..] == f;
    }
  }

  /** Joining separator-free fields and splitting the result gives them back. */
  lemma {:induction false} SplitJoin(fields: seq<string>, sep: char)
    requires |fields| >= 1
    requires forall i :: 0 <= i < |fields| ==> sep !in fields[i]
    ensures Split(Join(fields, sep), sep) == fields
    decreases |fields|
  {
    if |fields| == 1 {
      SplitSingleField(fields[0], sep);
    } else {
      SplitAfterField(fields[0], sep, Join(fields[1..], sep));
      SplitJoin(fields[1..], sep);
      assert [fields[0]] + fields[1..] == fields;
    }
  }

  /** The text of a file holding `lines`, each followed by a newline: what
      successive `writeln!` calls leave behind. */
  function Unlines(lines: seq<string>): string
  {
    if lines == [] then "" else lines[0] + "\n" + Unlines(lines[1..])
  }

  /** The complete lines of a text: what stands before each newline. A last
      fragment with no newline after it is not a complete line. */
  function Lines(s: string): seq<string>
  {
    var parts := Split(s, '\n');
    parts[..|parts| - 1]
  }

  /** Writing one more line extends the text; earlier text is a prefix. */
  lemma {:induction false} UnlinesSnoc(lines: seq<string>, line: string)
    ensures Unlines(lines + [line]) == Unlines(lines) + line + "\n"
    decreases |lines|
  {
    if lines != [] {
      assert (lines + [line])[1..] == lines[1..] + [line];
      UnlinesSnoc(lines[1..], line);
    }
  }

  /** Reading the lines back from a file of newline-free lines gives them in order. */
  lemma {:induction false} LinesUnlines(lines: seq<string>)
    requires forall i :: 0 <= i < |lines| ==> '\n' !in lines[i]
    ensures Split(Unlines(lines), '\n') == lines + [""]
    ensures Lines(Unlines(lines)) == lines
    decreases |lines|
  {
    if lines != [] {
      SplitAfterField(lines[0], '\n', Unlines(lines[1..]));
      LinesUnlines(lines[1..]);
      assert lines[0] + "\n" + Unlines(lines[1..]) == lines[0] + ['\n'] + Unlines(lines[1..]);
      assert [lines[0]] + lines[1..] == lines;
    }
  }

  predicate IsDigit(c: char)
  {
    '0' <= c <= '9'
  }

  predicate AllDigits(s: string)
  {
    forall i :: 0 <= i < |s| ==> IsDigit(s[i])
  }

  function DigitChar(d: nat): (c: char)
    requires d < 10
    ensures IsDigit(c)
  {
    ('0' as int + d) as char
  }

  function DigitValue(c: char): (d: nat)
    requires IsDigit(c)
    ensures d < 10
  {
    c as int - '0' as int
  }

  /** The decimal digits of `n`, most significant first, without leading zeros. */
  function NatDigits(n: nat): (s: string)
    ensures |s| >= 1 && AllDigits(s)
    ensures |s| > 1 ==> s[0] != '0'
    decreases n
  {
    if n < 10 then [DigitChar(n)] else NatDigits(n / 10) + [DigitChar(n % 10)]
  }

  /** The number a string of decimal digits denotes. */
  function DigitsValue(s: string): nat
    requires AllDigits(s)
    decreases |s|
  {
    if |s| == 0 then 0 else DigitsValue(s[..|s| - 1]) * 10 + DigitValue(s[|s| - 1])
  }

  lemma {:induction false} DigitsValueOfNatDigits(n: nat)
    ensures DigitsValue(NatDigits(n)) == n
    decreases n
  {
    if n >= 10 {
      var s := NatDigits(n);
      assert s[..|s| - 1] == NatDigits(n / 10);
      DigitsValueOfNatDigits(n / 10);
    }
  }

  /** An integer in decimal as Rust's `Display` writes it: a minus sign for
      negative numbers, no plus sign, no leading zeros. */
  function Decimal(n: int): (s: string)
    ensures s != [] && ',' !in s && '\n' !in s
  {
    var digits := NatDigits(if n < 0 then -n else n);
    assert forall i :: 0 <= i < |digits| ==> digits[i] != ',' && digits[i] != '\n';
    if n < 0 then "-" + digits else digits
  }

  /** Reads an optional minus sign followed by one or more decimal digits. */
  function ParseDecimal(s: string): Option<int>
  {
    if |s| > 1 && s[0] == '-' && AllDigits(s[1..]) then Some(-(DigitsValue(s[1..]) as int))
    else if |s| > 0 && AllDigits(s) then Some(DigitsValue(s))
    else None
  }

  lemma DecimalRoundTrip(n: int)
    ensures ParseDecimal(Decimal(n)) == Some(n)
  {
    var digits := NatDigits(if n < 0 then -n else n);
    DigitsValueOfNatDigits(if n < 0 then -n else n);
    if n < 0 {
      assert ("-" + digits)[1..] == digits;
    } else {
      assert digits[0] != '-';
    }
  }
}
